/**
 migrateActivity on two open databases, statement by statement.
 */
module ActivityMoveStore {
  import opened Wrappers
  import opened ActivityMove

  class Databases {
    var central: Option<Central>
    var names: map<nat, Name>
    var logs: map<Id, ActivityLog>
    var attempts: map<Id, Attempt>
    var enforced: bool

    ghost function View(): State
      reads this
    {
      State(central, names, logs, attempts, enforced)
    }

    ghost predicate Valid()
      reads this
    {
      Unique(attempts) && (central.Some? ==> Unique(central.value.attempts))
    }

    constructor (s: State)
      requires Unique(s.attempts) && (s.central.Some? ==> Unique(s.central.value.attempts))
      ensures Valid() && View() == s
    {
      central, names, logs, attempts, enforced := s.central, s.names, s.logs, s.attempts, s.enforced;
    }

    /** verifyActivityCopy: the count of missing ids, per table. */
    method VerifyCopy() returns (missingLogs: nat, missingAttempts: nat)
      requires central.Some?
      ensures missingLogs == 0 <==> central.value.logs.Keys <= logs.Keys
      ensures missingAttempts == 0 <==> central.value.attempts.Keys <= attempts.Keys
    {
      var absentLogs := central.value.logs.Keys - logs.Keys;
      var absentAttempts := central.value.attempts.Keys - attempts.Keys;
      missingLogs, missingAttempts := |absentLogs|, |absentAttempts|;
      assert missingLogs == 0 <==> absentLogs == {};
      assert missingAttempts == 0 <==> absentAttempts == {};
      assert forall id :: id in central.value.logs.Keys && id !in logs.Keys ==> id in absentLogs;
      assert forall id :: id in central.value.attempts.Keys && id !in attempts.Keys ==> id in absentAttempts;
    }

    method CopyLogRows(lost: set<Id>)
      requires central.Some? && Valid()
      modifies this`logs, this`attempts
      ensures Valid() && Exec(old(View()), CopyLogs(lost)) == Some(View())
      ensures forall id :: id in old(central).value.logs && id !in lost ==>
        var log := old(central).value.logs[id];
        && id in logs && logs[id].key == log.key && logs[id].body == log.body
        && logs[id].name == if log.key in names then names[log.key] else 0
    {
      var rows := central.value.logs - lost;
      if enforced {
        attempts := map i | i in attempts && attempts[i].log !in rows.Keys * logs.Keys :: attempts[i];
      }
      logs := LogsReplaced(logs, rows, names);
    }

    method CopyAttemptTable(lost: set<Id>)
      requires central.Some? && Valid()
      modifies this`attempts
      ensures Valid() && Exec(old(View()), CopyAttempts(lost)) == Some(View())
    {
      var rows := central.value.attempts - lost;
      attempts := CopyAttemptRows(attempts, rows);
    }

    /** The end of migrateActivity, from the verification on. */
    method VerifyAndDrop(b: Boot, left: nat)
      requires Valid() && central.Some?
      modifies this`central
      ensures Valid() && View() == Go(old(View()), Program(b)[4..], left)
    {
      ghost var p := Program(b);
      if left == 0 { return; }
      var missingLogs, missingAttempts := VerifyCopy();
      ProgramStep(View(), b, 4, left);
      if missingLogs != 0 || left == 1 { return; }
      ProgramStep(View(), b, 5, left - 1);
      if missingAttempts != 0 || left == 2 { return; }
      ProgramStep(View(), b, 6, left - 2);
      central := None;
    }

    /** migrateActivity, dying after b.power statements. */
    method Migrate(b: Boot)
      requires Valid()
      modifies this
      ensures Valid() && View() == Booted(old(View()), b)
    {
      enforced := true;                      // a new connection
      if central.None? || b.power == 0 { return; }
      assert Program(b)[0..] == Program(b);
      ProgramStep(View(), b, 0, b.power);
      enforced := false;
      assert Booted(old(View()), b) == Go(View(), Program(b)[1..], b.power - 1);
      if b.power == 1 { return; }
      ProgramStep(View(), b, 1, b.power - 1);
      CopyLogRows(b.lostLogs);
      assert Booted(old(View()), b) == Go(View(), Program(b)[2..], b.power - 2);
      if b.power == 2 { return; }
      ProgramStep(View(), b, 2, b.power - 2);
      CopyAttemptTable(b.lostAttempts);
      assert Booted(old(View()), b) == Go(View(), Program(b)[3..], b.power - 3);
      if b.power == 3 { return; }
      ProgramStep(View(), b, 3, b.power - 3);
      enforced := true;
      VerifyAndDrop(b, b.power - 4);
    }
  }

  lemma ProgramStep(s: State, b: Boot, k: nat, power: nat)
    requires s.central.Some? && k < 7 && 0 < power
    ensures Go(s, Program(b)[k..], power) ==
      match Exec(s, Program(b)[k]) case None => s case Some(t) => Go(t, Program(b)[k + 1..], power - 1)
  {
    assert Program(b)[k..][1..] == Program(b)[k + 1..];
  }
}
