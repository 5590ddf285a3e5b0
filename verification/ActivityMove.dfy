/**
 The one-time move of the Activity tables out of the central database
 (internal/database/activity.go, migrateActivity): copy, verify, drop, over two files
 that share no transaction, with a crash possible between any two statements.
 */
module ActivityMove {
  import opened Wrappers

  type Id = nat
  type Name = nat   // 0 is the empty name

  datatype Log = Log(key: nat, body: nat)

  datatype ActivityLog = ActivityLog(key: nat, name: Name, body: nat)

  // The pair (log, number) is unique within a table.
  datatype Attempt = Attempt(log: Id, number: nat, body: nat)

  datatype Central = Central(logs: map<Id, Log>, attempts: map<Id, Attempt>)

  // central is None once both tables are gone. enforced: foreign_keys on this connection.
  datatype State = State(
    central: Option<Central>, names: map<nat, Name>,
    logs: map<Id, ActivityLog>, attempts: map<Id, Attempt>, enforced: bool)

  // lost: rows a copy fails to bring over without reporting it, the case the
  // verification is there for.
  datatype Stmt =
    | ForeignKeys(on: bool)
    | CopyLogs(lost: set<Id>)
    | CopyAttempts(lost: set<Id>)
    | VerifyLogs
    | VerifyAttempts
    | DropBoth

  predicate SameSlot(a: Attempt, b: Attempt) {
    a.log == b.log && a.number == b.number
  }

  ghost predicate Unique(attempts: map<Id, Attempt>) {
    forall i, j :: i in attempts && j in attempts && SameSlot(attempts[i], attempts[j]) ==> i == j
  }

  // SELECT ... FROM request_logs LEFT JOIN client_keys, with coalesce(name,'')
  function Joined(log: Log, names: map<nat, Name>): ActivityLog {
    ActivityLog(log.key, if log.key in names then names[log.key] else 0, log.body)
  }

  function LogsReplaced(old_: map<Id, ActivityLog>, rows: map<Id, Log>, names: map<nat, Name>): map<Id, ActivityLog> {
    old_ + map id | id in rows :: Joined(rows[id], names)
  }

  // INSERT OR REPLACE of one row also deletes the row that holds its slot under another id.
  function AttemptReplaced(attempts: map<Id, Attempt>, id: Id, row: Attempt): map<Id, Attempt> {
    (map i | i in attempts && !SameSlot(attempts[i], row) :: attempts[i])[id := row]
  }

  ghost predicate Displaced(a: Attempt, rows: map<Id, Attempt>) {
    exists j :: j in rows && SameSlot(a, rows[j])
  }

  ghost function AttemptsReplaced(old_: map<Id, Attempt>, rows: map<Id, Attempt>): map<Id, Attempt> {
    (map i | i in old_ && !Displaced(old_[i], rows) :: old_[i]) + rows
  }

  // Replacing a log row deletes the old one, which cascades while foreign keys are enforced.
  function Cascaded(s: State, replaced: set<Id>): map<Id, Attempt> {
    if s.enforced then map i | i in s.attempts && s.attempts[i].log !in replaced * s.logs.Keys :: s.attempts[i]
    else s.attempts
  }

  // The statement's effect, or None when it reports an error and the boot gives up.
  ghost function Exec(s: State, stmt: Stmt): Option<State>
    requires s.central.Some?
  {
    var Central(logs, attempts) := s.central.value;
    match stmt
    case ForeignKeys(on) => Some(s.(enforced := on))
    case CopyLogs(lost) =>
      Some(s.(logs := LogsReplaced(s.logs, logs - lost, s.names), attempts := Cascaded(s, logs.Keys - lost)))
    case CopyAttempts(lost) => Some(s.(attempts := AttemptsReplaced(s.attempts, attempts - lost)))
    case VerifyLogs => if logs.Keys <= s.logs.Keys then Some(s) else None
    case VerifyAttempts => if attempts.Keys <= s.attempts.Keys then Some(s) else None
    case DropBoth => Some(s.(central := None))
  }

  // One boot: what the copies lose, and after how many statements it dies.
  datatype Boot = Boot(lostLogs: set<Id>, lostAttempts: set<Id>, power: nat)

  function Program(b: Boot): seq<Stmt> {
    [ForeignKeys(false), CopyLogs(b.lostLogs), CopyAttempts(b.lostAttempts), ForeignKeys(true), VerifyLogs, VerifyAttempts, DropBoth]
  }

  ghost function Go(s: State, stmts: seq<Stmt>, power: nat): State
    decreases |stmts|
  {
    if stmts == [] || power == 0 || s.central.None? then s
    else match Exec(s, stmts[0])
         case None => s
         case Some(t) => Go(t, stmts[1..], power - 1)
  }

  // A new connection enforces foreign keys (the DSN sets the pragma); without the
  // central tables there is nothing to do.
  ghost function Booted(s: State, b: Boot): State {
    Go(s.(enforced := true), Program(b), b.power)
  }

  ghost function Boots(s: State, bs: seq<Boot>): State
    decreases |bs|
  {
    if bs == [] then s else Boots(Booted(s, bs[0]), bs[1..])
  }

  /******* The copy, row by row *******/

  lemma DisplacedGrows(a: Attempt, done: map<Id, Attempt>, id: Id, row: Attempt)
    requires id !in done
    ensures Displaced(a, done[id := row]) <==> Displaced(a, done) || SameSlot(a, row)
  {
    var after := done[id := row];
    if SameSlot(a, row) {
      assert id in after;
    }
    if Displaced(a, done) {
      var j :| j in done && SameSlot(a, done[j]);
      assert j in after && after[j] == done[j];
    }
  }

  lemma CopyOne(attempts: map<Id, Attempt>, done: map<Id, Attempt>, id: Id, row: Attempt)
    requires id !in done && forall j :: j in done ==> !SameSlot(done[j], row)
    ensures AttemptReplaced(AttemptsReplaced(attempts, done), id, row) == AttemptsReplaced(attempts, done[id := row])
  {
    var one, all := AttemptReplaced(AttemptsReplaced(attempts, done), id, row), AttemptsReplaced(attempts, done[id := row]);
    forall i | i in attempts
      ensures Displaced(attempts[i], done[id := row]) <==> Displaced(attempts[i], done) || SameSlot(attempts[i], row)
    {
      DisplacedGrows(attempts[i], done, id, row);
    }
    assert one.Keys == all.Keys;
  }

  lemma ReplaceKeepsUnique(attempts: map<Id, Attempt>, id: Id, row: Attempt)
    requires Unique(attempts)
    ensures Unique(AttemptReplaced(attempts, id, row))
  {
  }

  /** INSERT OR REPLACE INTO act.request_attempts SELECT: whatever order the rows come
      in, the result is the same, because their slots are distinct. */
  method CopyAttemptRows(attempts: map<Id, Attempt>, rows: map<Id, Attempt>) returns (r: map<Id, Attempt>)
    requires Unique(rows) && Unique(attempts)
    ensures r == AttemptsReplaced(attempts, rows) && Unique(r)
  {
    r := attempts;
    var todo := rows.Keys;
    ghost var done: map<Id, Attempt> := map[];
    while todo != {}
      invariant todo <= rows.Keys && done.Keys == rows.Keys - todo
      invariant forall j :: j in done ==> done[j] == rows[j]
      invariant r == AttemptsReplaced(attempts, done) && Unique(r)
      decreases todo
    {
      var id :| id in todo;
      CopyOne(attempts, done, id, rows[id]);
      ReplaceKeepsUnique(r, id, rows[id]);
      r := AttemptReplaced(r, id, rows[id]);
      todo := todo - {id};
      done := done[id := rows[id]];
    }
    assert done == rows;
  }
}
