/**
 Schema upgrades of the Activity database (internal/database/activity.go). No
 statement is atomic with the next one: a boot is a list of statements that may
 stop anywhere, and the following boot starts over from what it finds.
 */
module ActivityUpgrade {
  import opened Wrappers

  datatype Column = EstimatedCost | ProviderCost | InputEstimated | InputSource | OutputSource | ReasoningStripped

  // The rows of activity_schema_migrations, by their number.
  datatype Version = V002 | V003 | V004 | V005 | V006 | V007 | V008

  datatype Schema = Schema(columns: set<Column>, ledger: set<Version>)

  // Migrate is one transaction: the rewrite and its ledger row.
  datatype Stmt = Add(column: Column) | Record(version: Version) | Migrate(version: Version) | Drop(column: Column)

  datatype ColumnStep = ColumnStep(column: Column, skipIf: Option<Version>)

  datatype Upgrade = Upgrade(version: Version, columns: seq<ColumnStep>)

  datatype Removal = Removal(version: Version, column: Column)

  const COST := Upgrade(V002, [ColumnStep(EstimatedCost, None), ColumnStep(ProviderCost, None), ColumnStep(InputEstimated, Some(V006))])
  const PROVENANCE := Upgrade(V004, [ColumnStep(InputSource, None), ColumnStep(OutputSource, None)])
  const STRIPPED := Upgrade(V008, [ColumnStep(ReasoningStripped, None)])

  const UPGRADES: seq<Upgrade> := [COST, PROVENANCE, STRIPPED]
  const DATA_UPGRADES: seq<Version> := [V003, V005, V007]
  const REMOVALS: seq<Removal> := [Removal(V006, InputEstimated)]

  /******* Statements on the schema *******/

  function Exec(s: Schema, stmt: Stmt): Schema {
    match stmt
    case Add(c) => s.(columns := s.columns + {c})
    case Record(v) => s.(ledger := s.ledger + {v})
    case Migrate(v) => s.(ledger := s.ledger + {v})
    case Drop(c) => s.(columns := s.columns - {c})
  }

  function Apply(s: Schema, stmts: seq<Stmt>): Schema
    decreases |stmts|
  {
    if stmts == [] then s else Apply(Exec(s, stmts[0]), stmts[1..])
  }

  // SQLite refuses a second ADD COLUMN, the DROP of a missing column, a second ledger
  // row from a plain INSERT, and a backfill naming a missing column.
  predicate Legal(s: Schema, stmt: Stmt) {
    match stmt
    case Add(c) => c !in s.columns
    case Record(_) => true
    case Migrate(v) => v !in s.ledger && (v == V005 ==> {InputEstimated, InputSource, OutputSource} <= s.columns)
    case Drop(c) => c in s.columns
  }

  // Every statement of the list executes.
  predicate Executes(s: Schema, stmts: seq<Stmt>)
    decreases |stmts|
  {
    stmts == [] || (Legal(s, stmts[0]) && Executes(Exec(s, stmts[0]), stmts[1..]))
  }

  /******* What a boot that is never interrupted issues *******/

  predicate Needed(s: Schema, col: ColumnStep) {
    !(col.skipIf.Some? && col.skipIf.value in s.ledger) && col.column !in s.columns
  }

  function StepPlan(s: Schema, v: Version, cols: seq<ColumnStep>, changed: bool): seq<Stmt>
    decreases |cols|
  {
    if cols == [] then (if changed then [Record(v)] else [])
    else if Needed(s, cols[0]) then
      [Add(cols[0].column)] + StepPlan(Exec(s, Add(cols[0].column)), v, cols[1..], true)
    else StepPlan(s, v, cols[1..], changed)
  }

  function SchemaPlan(s: Schema, ups: seq<Upgrade>): seq<Stmt>
    decreases |ups|
  {
    if ups == [] then []
    else
      var p := StepPlan(s, ups[0].version, ups[0].columns, false);
      p + SchemaPlan(Apply(s, p), ups[1..])
  }

  function DataPlan(s: Schema, versions: seq<Version>): seq<Stmt>
    decreases |versions|
  {
    if versions == [] then []
    else if versions[0] in s.ledger then DataPlan(s, versions[1..])
    else [Migrate(versions[0])] + DataPlan(Exec(s, Migrate(versions[0])), versions[1..])
  }

  function RemovalPlan(s: Schema, drops: seq<Removal>): seq<Stmt>
    decreases |drops|
  {
    if drops == [] then []
    else if drops[0].column in s.columns then
      var p := [Drop(drops[0].column), Record(drops[0].version)];
      p + RemovalPlan(Apply(s, p), drops[1..])
    else RemovalPlan(s, drops[1..])
  }

  function Plan(s: Schema): seq<Stmt> {
    var p := SchemaPlan(s, UPGRADES);
    var q := DataPlan(Apply(s, p), DATA_UPGRADES);
    p + q + RemovalPlan(Apply(s, p + q), REMOVALS)
  }

  // A boot that stops after at most cut statements.
  function Cut(s: Schema, cut: nat): (stmts: seq<Stmt>)
    ensures stmts <= Plan(s) && |stmts| == if cut < |Plan(s)| then cut else |Plan(s)|
  {
    var p := Plan(s);
    if cut < |p| then p[..cut] else p
  }

  /******* Rows *******/

  datatype Source = Provider | Estimated

  datatype Status = Legacy | Routed | Unresolved

  // A field whose column is absent holds the value ADD COLUMN would give it.
  datatype Row = Row(inputTokens: Option<nat>, outputTokens: Option<nat>, status: Status,
                     estimated: int, inputSource: Option<Source>, outputSource: Option<Source>)

  function Defaulted(row: Row, c: Column): Row {
    match c
    case InputEstimated => row.(estimated := 0)
    case InputSource => row.(inputSource := None)
    case OutputSource => row.(outputSource := None)
    case _ => row
  }

  // The two CASE expressions of the backfill.
  function InputOrigin(row: Row): Option<Source> {
    if row.estimated == 1 then Some(Estimated) else if row.inputTokens.Some? then Some(Provider) else None
  }

  function OutputOrigin(row: Row): Option<Source> {
    if row.outputTokens.Some? then Some(Provider) else None
  }

  function Backfilled(row: Row): Row {
    if row.inputSource.None? || row.outputSource.None? then
      row.(inputSource := InputOrigin(row), outputSource := OutputOrigin(row))
    else row
  }

  function ExecRow(row: Row, stmt: Stmt): Row {
    match stmt
    case Add(c) => Defaulted(row, c)
    case Drop(c) => Defaulted(row, c)
    case Record(_) => row
    case Migrate(v) =>
      match v
      case V003 => if row.status == Legacy then row.(status := Unresolved) else row
      case V005 => Backfilled(row)
      case _ => row
  }

  function ApplyRow(row: Row, stmts: seq<Stmt>): Row
    decreases |stmts|
  {
    if stmts == [] then row else ApplyRow(ExecRow(row, stmts[0]), stmts[1..])
  }

  // The fields of absent columns hold their defaults.
  predicate Canonical(s: Schema, row: Row) {
    && (InputEstimated !in s.columns ==> row.estimated == 0)
    && (InputSource !in s.columns ==> row.inputSource.None?)
    && (OutputSource !in s.columns ==> row.outputSource.None?)
  }

  /******* Many boots *******/

  // Every boot of a list stops after its own number of statements.
  function Boots(s: Schema, cuts: seq<nat>): Schema
    decreases |cuts|
  {
    if cuts == [] then s else Boots(Apply(s, Cut(s, cuts[0])), cuts[1..])
  }

  function History(s: Schema, cuts: seq<nat>): seq<Stmt>
    decreases |cuts|
  {
    if cuts == [] then [] else Cut(s, cuts[0]) + History(Apply(s, Cut(s, cuts[0])), cuts[1..])
  }

  // The drop is recorded only where the backfill is.
  predicate Ordered(s: Schema) {
    V006 in s.ledger ==> V005 in s.ledger
  }

  const FINAL: set<Column> := {EstimatedCost, ProviderCost, InputSource, OutputSource, ReasoningStripped}

  predicate Final(s: Schema) {
    s.columns == FINAL && {V003, V005, V006, V007} <= s.ledger
  }

  /******* Boots and the traffic between them *******/

  datatype World = World(schema: Schema, rows: map<nat, Row>)

  // The router writes only through a handle that a completed boot opened.
  datatype Event = Boot(cut: nat) | Insert(id: nat, row: Row)

  function After(w: World, e: Event): World {
    match e
    case Boot(cut) =>
      var stmts := Cut(w.schema, cut);
      World(Apply(w.schema, stmts), map id | id in w.rows :: ApplyRow(w.rows[id], stmts))
    case Insert(id, row) =>
      if id !in w.rows && Final(w.schema) && row.estimated == 0 then w.(rows := w.rows[id := row]) else w
  }

  function Life(w: World, events: seq<Event>): World
    decreases |events|
  {
    if events == [] then w else Life(After(w, events[0]), events[1..])
  }
}
