/**
 Interrupted upgrades converge, and the backfill commits once, before its column goes.
 */
module ActivityUpgradeProofs {
  import opened Wrappers
  import opened ActivityUpgrade

  /******* Lists of statements *******/

  lemma {:induction false} ApplyConcat(s: Schema, p: seq<Stmt>, q: seq<Stmt>)
    ensures Apply(s, p + q) == Apply(Apply(s, p), q)
    decreases |p|
  {
    if p == [] {
      assert p + q == q;
    } else {
      assert (p + q)[1..] == p[1..] + q;
      ApplyConcat(Exec(s, p[0]), p[1..], q);
    }
  }

  // What the code relies on at each statement: it cannot fail, the old column goes
  // and its removal is recorded only after the backfill, and it never comes back.
  predicate Sound(s: Schema, stmt: Stmt) {
    && Legal(s, stmt)
    && (stmt.Drop? || stmt == Record(V006) ==> V005 in s.ledger)
    && (stmt == Add(InputEstimated) ==> V006 !in s.ledger)
    && (stmt.Record? ==> stmt.version !in {V003, V005, V007})
    && (stmt.Drop? ==> stmt.column == InputEstimated)
    && (stmt.Migrate? ==> stmt.version in {V003, V005, V007})
  }

  predicate AllSound(s: Schema, stmts: seq<Stmt>)
    decreases |stmts|
  {
    stmts == [] || (Sound(s, stmts[0]) && AllSound(Exec(s, stmts[0]), stmts[1..]))
  }

  lemma {:induction false} SoundConcat(s: Schema, p: seq<Stmt>, q: seq<Stmt>)
    ensures AllSound(s, p + q) <==> AllSound(s, p) && AllSound(Apply(s, p), q)
    decreases |p|
  {
    if p == [] {
      assert p + q == q;
    } else {
      assert (p + q)[1..] == p[1..] + q;
      SoundConcat(Exec(s, p[0]), p[1..], q);
    }
  }

  lemma {:induction false} SoundKeepsOrder(s: Schema, stmts: seq<Stmt>)
    requires Ordered(s) && AllSound(s, stmts)
    ensures Ordered(Apply(s, stmts)) && s.ledger <= Apply(s, stmts).ledger
    decreases |stmts|
  {
    if stmts != [] {
      SoundKeepsOrder(Exec(s, stmts[0]), stmts[1..]);
    }
  }

  /******* One plan *******/

  // The columns one step adds.
  function Given(s: Schema, cols: seq<ColumnStep>): set<Column> {
    set col | col in cols && Needed(s, col) :: col.column
  }

  predicate Distinct(cols: seq<ColumnStep>) {
    forall i, j :: 0 <= i < j < |cols| ==> cols[i].column != cols[j].column
  }

  lemma GivenSplits(s: Schema, cols: seq<ColumnStep>)
    requires cols != [] && Distinct(cols)
    ensures Given(s, cols) == (if Needed(s, cols[0]) then {cols[0].column} else {}) + Given(s, cols[1..])
    ensures Given(Exec(s, Add(cols[0].column)), cols[1..]) == Given(s, cols[1..])
  {
    var t := Exec(s, Add(cols[0].column));
    forall col | col in cols[1..]
      ensures Needed(t, col) == Needed(s, col)
    {
    }
    forall col | col in cols
      ensures col == cols[0] || col in cols[1..]
    {
    }
  }

  predicate RetiredIsSkipped(cols: seq<ColumnStep>) {
    forall col :: col in cols && col.column == InputEstimated ==> col.skipIf == Some(V006)
  }

  lemma {:induction false} StepPlanOk(s: Schema, v: Version, cols: seq<ColumnStep>, changed: bool)
    requires Distinct(cols) && RetiredIsSkipped(cols) && v !in {V003, V005, V006, V007}
    ensures var p := StepPlan(s, v, cols, changed);
      && AllSound(s, p)
      && Apply(s, p) == Schema(s.columns + Given(s, cols), s.ledger + (if changed || Given(s, cols) != {} then {v} else {}))
      && (p == [] <==> !changed && Given(s, cols) == {})
    decreases |cols|
  {
    if cols == [] {
      assert StepPlan(s, v, cols, changed) == if changed then [Record(v)] else [];
      if changed {
        assert Apply(s, [Record(v)]) == Apply(Exec(s, Record(v)), []);
        assert AllSound(Exec(s, Record(v)), []);
      }
    } else if Needed(s, cols[0]) {
      var t := Exec(s, Add(cols[0].column));
      assert cols[0] in cols;
      GivenSplits(s, cols);
      StepPlanOk(t, v, cols[1..], true);
      var rest := StepPlan(t, v, cols[1..], true);
      assert ([Add(cols[0].column)] + rest)[1..] == rest;
    } else {
      GivenSplits(s, cols);
      StepPlanOk(s, v, cols[1..], changed);
    }
  }

  lemma ColumnsAre(columns: set<Column>)
    ensures columns <= FINAL + {InputEstimated}
  {
    forall c: Column
      ensures c in FINAL || c == InputEstimated
    {
      match c {
        case EstimatedCost => assert c in FINAL;
        case ProviderCost => assert c in FINAL;
        case InputEstimated =>
        case InputSource => assert c in FINAL;
        case OutputSource => assert c in FINAL;
        case ReasoningStripped => assert c in FINAL;
      }
    }
  }

  // The schema after the additive steps.
  function Widened(s: Schema): set<Column> {
    s.columns + FINAL + (if V006 in s.ledger then {} else {InputEstimated})
  }

  predicate SameData(s: Schema, t: Schema) {
    forall v :: v in {V003, V005, V006, V007} ==> (v in s.ledger <==> v in t.ledger)
  }

  function UpgradeColumns(s: Schema, up: Upgrade): set<Column> {
    set col | col in up.columns && !(col.skipIf.Some? && col.skipIf.value in s.ledger) :: col.column
  }

  lemma UpgradeOk(s: Schema, up: Upgrade)
    requires Distinct(up.columns) && RetiredIsSkipped(up.columns) && up.version !in {V003, V005, V006, V007}
    ensures var p := StepPlan(s, up.version, up.columns, false); var t := Apply(s, p);
      && AllSound(s, p) && t.columns == s.columns + UpgradeColumns(s, up) && SameData(s, t)
      && (UpgradeColumns(s, up) <= s.columns ==> p == [])
  {
    StepPlanOk(s, up.version, up.columns, false);
    assert Given(s, up.columns) == UpgradeColumns(s, up) - s.columns;
  }

  lemma SchemaPlanUnfolds(s: Schema)
    ensures
      var p0 := StepPlan(s, V002, COST.columns, false); var s1 := Apply(s, p0);
      var p1 := StepPlan(s1, V004, PROVENANCE.columns, false); var s2 := Apply(s1, p1);
      SchemaPlan(s, UPGRADES) == p0 + (p1 + StepPlan(s2, V008, STRIPPED.columns, false))
  {
    var p0 := StepPlan(s, V002, COST.columns, false);
    var s1 := Apply(s, p0);
    var p1 := StepPlan(s1, V004, PROVENANCE.columns, false);
    var s2 := Apply(s1, p1);
    var p2 := StepPlan(s2, V008, STRIPPED.columns, false);
    assert SchemaPlan(Apply(s2, p2), []) == [];
    assert SchemaPlan(s2, [STRIPPED]) == p2 + [] == p2;
    assert [PROVENANCE, STRIPPED][1..] == [STRIPPED];
    assert SchemaPlan(s1, [PROVENANCE, STRIPPED]) == p1 + p2;
    assert UPGRADES[1..] == [PROVENANCE, STRIPPED];
  }

  lemma TablesOk(s: Schema)
    ensures UpgradeColumns(s, COST) == {EstimatedCost, ProviderCost} + (if V006 in s.ledger then {} else {InputEstimated})
    ensures UpgradeColumns(s, PROVENANCE) == {InputSource, OutputSource}
    ensures UpgradeColumns(s, STRIPPED) == {ReasoningStripped}
  {
    assert COST.columns[0] in COST.columns && COST.columns[1] in COST.columns && COST.columns[2] in COST.columns;
    assert PROVENANCE.columns[0] in PROVENANCE.columns && PROVENANCE.columns[1] in PROVENANCE.columns;
    assert STRIPPED.columns[0] in STRIPPED.columns;
  }

  lemma SchemaPlanIsSound(s: Schema)
    ensures AllSound(s, SchemaPlan(s, UPGRADES))
  {
    SchemaPlanUnfolds(s);
    var p0 := StepPlan(s, V002, COST.columns, false);
    var s1 := Apply(s, p0);
    var p1 := StepPlan(s1, V004, PROVENANCE.columns, false);
    var s2 := Apply(s1, p1);
    var p2 := StepPlan(s2, V008, STRIPPED.columns, false);
    UpgradeOk(s, COST);
    UpgradeOk(s1, PROVENANCE);
    UpgradeOk(s2, STRIPPED);
    SoundConcat(s1, p1, p2);
    SoundConcat(s, p0, p1 + p2);
  }

  lemma SameDataChains(s: Schema, t: Schema, u: Schema, v: Schema)
    requires SameData(s, t) && SameData(t, u) && SameData(u, v)
    ensures SameData(s, v)
  {
  }

  function Stage(s: Schema, up: Upgrade): Schema {
    Apply(s, StepPlan(s, up.version, up.columns, false))
  }

  lemma Stages(s: Schema)
    ensures Apply(s, SchemaPlan(s, UPGRADES)) == Stage(Stage(Stage(s, COST), PROVENANCE), STRIPPED)
  {
    SchemaPlanUnfolds(s);
    var p0 := StepPlan(s, V002, COST.columns, false);
    var s1 := Apply(s, p0);
    var p1 := StepPlan(s1, V004, PROVENANCE.columns, false);
    var s2 := Apply(s1, p1);
    var p2 := StepPlan(s2, V008, STRIPPED.columns, false);
    ApplyConcat(s1, p1, p2);
    ApplyConcat(s, p0, p1 + p2);
  }

  lemma StageOk(s: Schema, up: Upgrade)
    requires Distinct(up.columns) && RetiredIsSkipped(up.columns) && up.version !in {V003, V005, V006, V007}
    ensures Stage(s, up).columns == s.columns + UpgradeColumns(s, up) && SameData(s, Stage(s, up))
  {
    UpgradeOk(s, up);
  }

  lemma StageWidens(s: Schema)
    ensures Stage(s, COST).columns == s.columns + {EstimatedCost, ProviderCost} + (if V006 in s.ledger then {} else {InputEstimated})
    ensures Stage(s, PROVENANCE).columns == s.columns + {InputSource, OutputSource}
    ensures Stage(s, STRIPPED).columns == s.columns + {ReasoningStripped}
    ensures SameData(s, Stage(s, COST)) && SameData(s, Stage(s, PROVENANCE)) && SameData(s, Stage(s, STRIPPED))
  {
    StageOk(s, COST);
    StageOk(s, PROVENANCE);
    StageOk(s, STRIPPED);
    TablesOk(s);
  }

  lemma SchemaPlanWidens(s: Schema)
    ensures var t := Apply(s, SchemaPlan(s, UPGRADES)); t.columns == Widened(s) && SameData(s, t)
  {
    Stages(s);
    var s1 := Stage(s, COST);
    var s2 := Stage(s1, PROVENANCE);
    StageWidens(s);
    StageWidens(s1);
    StageWidens(s2);
    SameDataChains(s, s1, s2, Stage(s2, STRIPPED));
  }

  lemma NothingToWiden(s: Schema)
    requires Widened(s) <= s.columns
    ensures SchemaPlan(s, UPGRADES) == []
  {
    SchemaPlanUnfolds(s);
    TablesOk(s);
    forall up | up in {COST, PROVENANCE, STRIPPED}
      ensures StepPlan(s, up.version, up.columns, false) == []
    {
      assert UpgradeColumns(s, up) <= Widened(s);
      assert RetiredIsSkipped(up.columns) && Distinct(up.columns);
      UpgradeOk(s, up);
    }
    assert COST in {COST, PROVENANCE, STRIPPED} && PROVENANCE in {COST, PROVENANCE, STRIPPED} && STRIPPED in {COST, PROVENANCE, STRIPPED};
  }

  lemma {:induction false} DataPlanOk(s: Schema, versions: seq<Version>)
    requires forall v :: v in versions ==> v in {V003, V005, V007}
    requires V005 in s.ledger || {InputEstimated, InputSource, OutputSource} <= s.columns
    ensures var q := DataPlan(s, versions);
      && AllSound(s, q) && Apply(s, q) == Schema(s.columns, s.ledger + (set v | v in versions))
      && ((set v | v in versions) <= s.ledger ==> q == [])
    decreases |versions|
  {
    if versions == [] {
      assert s.ledger + (set v | v in versions) == s.ledger;
    } else {
      var v := versions[0];
      assert v in versions;
      assert (set w | w in versions) == {v} + (set w | w in versions[1..]);
      forall w | w in versions[1..]
        ensures w in {V003, V005, V007}
      {
        assert w in versions;
      }
      if v in s.ledger {
        DataPlanOk(s, versions[1..]);
      } else {
        var t := Exec(s, Migrate(v));
        DataPlanOk(t, versions[1..]);
        assert ([Migrate(v)] + DataPlan(t, versions[1..]))[1..] == DataPlan(t, versions[1..]);
      }
    }
  }

  lemma RemovalPlanOk(s: Schema)
    requires V005 in s.ledger
    ensures var r := RemovalPlan(s, REMOVALS);
      && AllSound(s, r)
      && (if InputEstimated in s.columns then Apply(s, r) == Schema(s.columns - {InputEstimated}, s.ledger + {V006}) else r == [])
  {
    assert REMOVALS[1..] == [];
    if InputEstimated in s.columns {
      var r := [Drop(InputEstimated), Record(V006)];
      assert RemovalPlan(Apply(s, r), []) == [];
      assert RemovalPlan(s, REMOVALS) == r;
      var t := Exec(s, Drop(InputEstimated));
      assert r[1..] == [Record(V006)] && r[1..][1..] == [];
      assert AllSound(t, r[1..]) && Apply(t, r[1..]) == Exec(t, Record(V006));
    } else {
      assert RemovalPlan(s, []) == [];
    }
  }

  // The backfill finds its column.
  predicate Runs(s: Schema) {
    V005 in s.ledger || V006 !in s.ledger || InputEstimated in s.columns
  }

  lemma DataVersions()
    ensures (set v | v in DATA_UPGRADES) == {V003, V005, V007}
  {
    assert DATA_UPGRADES[0] == V003 && DATA_UPGRADES[1] == V005 && DATA_UPGRADES[2] == V007;
  }

  function Additive(s: Schema): seq<Stmt> {
    SchemaPlan(s, UPGRADES) + DataPlan(Apply(s, SchemaPlan(s, UPGRADES)), DATA_UPGRADES)
  }

  // All of a boot but the removal of the retired column.
  lemma AdditiveOk(s: Schema)
    requires Runs(s)
    ensures var t := Apply(s, Additive(s));
      && AllSound(s, Additive(s)) && t.columns == Widened(s)
      && {V003, V005, V007} <= t.ledger && (V006 in s.ledger ==> V006 in t.ledger)
  {
    var p := SchemaPlan(s, UPGRADES);
    var t := Apply(s, p);
    SchemaPlanIsSound(s);
    SchemaPlanWidens(s);
    DataVersions();
    DataPlanOk(t, DATA_UPGRADES);
    ApplyConcat(s, p, DataPlan(t, DATA_UPGRADES));
    SoundConcat(s, p, DataPlan(t, DATA_UPGRADES));
  }

  /** A boot that is not interrupted issues only statements that succeed, and leaves
      the final schema. */
  lemma WholeBoot(s: Schema)
    requires Runs(s)
    ensures AllSound(s, Plan(s)) && Final(Apply(s, Plan(s)))
  {
    AdditiveOk(s);
    var u := Apply(s, Additive(s));
    RemovalPlanOk(u);
    var r := RemovalPlan(u, REMOVALS);
    assert Plan(s) == Additive(s) + r;
    SoundConcat(s, Additive(s), r);
    ApplyConcat(s, Additive(s), r);
    ColumnsAre(s.columns);
  }

  /** The final schema is a fixed point: nothing is altered or recorded again. */
  lemma FinalIsQuiet(s: Schema)
    requires Final(s)
    ensures Plan(s) == []
  {
    NothingToWiden(s);
    DataVersions();
    DataPlanOk(s, DATA_UPGRADES);
    RemovalPlanOk(s);
  }

  lemma {:induction false} SoundExecutes(s: Schema, stmts: seq<Stmt>)
    requires AllSound(s, stmts)
    ensures Executes(s, stmts)
    decreases |stmts|
  {
    if stmts != [] {
      SoundExecutes(Exec(s, stmts[0]), stmts[1..]);
    }
  }

  lemma {:induction false} ExecutesSplits(s: Schema, p: seq<Stmt>, q: seq<Stmt>)
    ensures Executes(s, p + q) <==> Executes(s, p) && Executes(Apply(s, p), q)
    decreases |p|
  {
    if p == [] {
      assert p + q == q;
    } else {
      assert (p + q)[1..] == p[1..] + q;
      ExecutesSplits(Exec(s, p[0]), p[1..], q);
    }
  }

  lemma BackfillComesEarly(t: Schema)
    requires V005 !in t.ledger
    ensures var q := DataPlan(t, DATA_UPGRADES); var done := if V003 in t.ledger then [] else [Migrate(V003)];
      && |done| < |q| && q[..|done|] == done && q[|done|] == Migrate(V005)
      && Apply(t, done).columns == t.columns
  {
    var u := Exec(t, Migrate(V003));
    assert DATA_UPGRADES[1..] == [V005, V007];
    assert DataPlan(u, [V005, V007])[0] == Migrate(V005);
    assert DataPlan(t, [V005, V007])[0] == Migrate(V005);
    assert Apply(t, [Migrate(V003)]) == Apply(u, []);
  }

  lemma BackfillCannotRun(t: Schema, r: seq<Stmt>)
    requires V005 !in t.ledger && InputEstimated !in t.columns
    ensures !Executes(t, DataPlan(t, DATA_UPGRADES) + r)
  {
    var q := DataPlan(t, DATA_UPGRADES);
    BackfillComesEarly(t);
    var done := if V003 in t.ledger then [] else [Migrate(V003)];
    var rest := q[|done| + 1..] + r;
    assert q + r == done + ([Migrate(V005)] + rest);
    ExecutesSplits(t, done, [Migrate(V005)] + rest);
  }

  /** Exactly when no statement of a boot can fail: not when the column's removal is
      recorded, the backfill is not, and the column is gone. */
  lemma BootSucceedsIff(s: Schema)
    ensures Executes(s, Plan(s)) <==> Runs(s)
  {
    if Runs(s) {
      WholeBoot(s);
      SoundExecutes(s, Plan(s));
    } else {
      var p := SchemaPlan(s, UPGRADES);
      var t := Apply(s, p);
      SchemaPlanWidens(s);
      var q := DataPlan(t, DATA_UPGRADES);
      var r := RemovalPlan(Apply(s, p + q), REMOVALS);
      assert Plan(s) == p + (q + r);
      BackfillCannotRun(t, r);
      ExecutesSplits(s, p, q + r);
    }
  }

  /******* Interrupted boots *******/

  lemma {:induction false} SoundPrefix(s: Schema, stmts: seq<Stmt>, k: nat)
    requires AllSound(s, stmts) && k <= |stmts|
    ensures AllSound(s, stmts[..k])
  {
    assert stmts == stmts[..k] + stmts[k..];
    SoundConcat(s, stmts[..k], stmts[k..]);
  }

  lemma CutIsSound(s: Schema, cut: nat)
    requires Ordered(s)
    ensures AllSound(s, Cut(s, cut)) && Ordered(Apply(s, Cut(s, cut)))
  {
    WholeBoot(s);
    if cut < |Plan(s)| {
      SoundPrefix(s, Plan(s), cut);
    }
    SoundKeepsOrder(s, Cut(s, cut));
  }

  lemma {:induction false} HistoryIsSound(s: Schema, cuts: seq<nat>)
    requires Ordered(s)
    ensures AllSound(s, History(s, cuts)) && Apply(s, History(s, cuts)) == Boots(s, cuts) && Ordered(Boots(s, cuts))
    decreases |cuts|
  {
    if cuts != [] {
      var p := Cut(s, cuts[0]);
      CutIsSound(s, cuts[0]);
      HistoryIsSound(Apply(s, p), cuts[1..]);
      SoundConcat(s, p, History(Apply(s, p), cuts[1..]));
      ApplyConcat(s, p, History(Apply(s, p), cuts[1..]));
    }
  }

  lemma {:induction false} FinalStays(s: Schema, cuts: seq<nat>)
    requires Final(s)
    ensures Boots(s, cuts) == s && History(s, cuts) == []
    decreases |cuts|
  {
    if cuts != [] {
      FinalIsQuiet(s);
      assert Cut(s, cuts[0]) == [];
      FinalStays(s, cuts[1..]);
    }
  }

  /** However earlier boots were cut, the next whole boot reaches the one final
      schema, and no later boot issues a single statement. */
  lemma InterruptedBootsConverge(s: Schema, cuts: seq<nat>, later: seq<nat>)
    requires Ordered(s)
    ensures var t := Boots(s, cuts); var done := Apply(t, Plan(t));
      Executes(t, Plan(t)) && Final(done) && History(done, later) == [] && Boots(done, later) == done
  {
    HistoryIsSound(s, cuts);
    var t := Boots(s, cuts);
    WholeBoot(t);
    SoundExecutes(t, Plan(t));
    FinalStays(Apply(t, Plan(t)), later);
  }

  lemma {:induction false} NoSecondBackfill(s: Schema, stmts: seq<Stmt>)
    requires AllSound(s, stmts) && V005 in s.ledger
    ensures Migrate(V005) !in stmts && V005 in Apply(s, stmts).ledger
    decreases |stmts|
  {
    if stmts != [] {
      NoSecondBackfill(Exec(s, stmts[0]), stmts[1..]);
      assert stmts == [stmts[0]] + stmts[1..];
    }
  }

  lemma {:induction false} OneBackfill(s: Schema, stmts: seq<Stmt>)
    requires AllSound(s, stmts) && V005 !in s.ledger
    ensures V005 in Apply(s, stmts).ledger <==> Migrate(V005) in stmts
    ensures forall i, j :: 0 <= i < j < |stmts| ==> !(stmts[i] == stmts[j] == Migrate(V005))
    ensures forall j :: 0 <= j < |stmts| && stmts[j].Drop? ==> Migrate(V005) in stmts[..j]
    decreases |stmts|
  {
    if stmts != [] {
      var rest, t := stmts[1..], Exec(s, stmts[0]);
      assert stmts == [stmts[0]] + rest;
      if stmts[0] == Migrate(V005) {
        NoSecondBackfill(t, rest);
        forall j | 0 <= j < |stmts| && stmts[j].Drop?
          ensures Migrate(V005) in stmts[..j]
        {
          assert stmts[..j][0] == Migrate(V005);
        }
      } else {
        OneBackfill(t, rest);
        forall j | 0 <= j < |stmts| && stmts[j].Drop?
          ensures Migrate(V005) in stmts[..j]
        {
          assert rest[j - 1].Drop?;
          assert Migrate(V005) in rest[..j - 1];
          assert stmts[..j] == [stmts[0]] + rest[..j - 1];
        }
      }
    }
  }

  /** Over any number of interrupted boots the backfill commits at most once, exactly
      once as soon as it is recorded, and before the column it reads is dropped. */
  lemma BackfillCommitsOnce(s: Schema, cuts: seq<nat>)
    requires Ordered(s) && V005 !in s.ledger
    ensures var h := History(s, cuts);
      && (V005 in Boots(s, cuts).ledger <==> Migrate(V005) in h)
      && (forall i, j :: 0 <= i < j < |h| ==> !(h[i] == h[j] == Migrate(V005)))
      && (forall j :: 0 <= j < |h| && h[j].Drop? ==> Migrate(V005) in h[..j])
  {
    HistoryIsSound(s, cuts);
    OneBackfill(s, History(s, cuts));
  }

  lemma FreshCost(s: Schema)
    requires s == Schema(FINAL, {})
    ensures var p := [Add(InputEstimated), Record(V002)];
      StepPlan(s, V002, COST.columns, false) == p && Apply(s, p) == Schema(FINAL + {InputEstimated}, {V002})
  {
    var s0 := Exec(s, Add(InputEstimated));
    assert COST.columns[1..][1..] == [ColumnStep(InputEstimated, Some(V006))];
    assert COST.columns[1..][1..][1..] == [];
    assert StepPlan(s0, V002, [], true) == [Record(V002)];
    assert StepPlan(s, V002, COST.columns[1..][1..], false) == [Add(InputEstimated), Record(V002)];
    assert [Add(InputEstimated), Record(V002)][1..] == [Record(V002)];
    assert Apply(s0, [Record(V002)]) == Exec(s0, Record(V002));
  }

  lemma NoStage(s: Schema, up: Upgrade)
    requires up in {PROVENANCE, STRIPPED} && FINAL <= s.columns
    ensures StepPlan(s, up.version, up.columns, false) == []
  {
    TablesOk(s);
    UpgradeOk(s, up);
  }

  /** Although the created schema lacks the retired column, the first boot of a fresh
      database adds and drops it: step 002 is skipped only once 006 is recorded. */
  lemma FreshBootRewritesTheTable()
    ensures Plan(Schema(FINAL, {})) ==
      [Add(InputEstimated), Record(V002), Migrate(V003), Migrate(V005), Migrate(V007), Drop(InputEstimated), Record(V006)]
  {
    var s := Schema(FINAL, {});
    var p := [Add(InputEstimated), Record(V002)];
    SchemaPlanUnfolds(s);
    FreshCost(s);
    var t := Apply(s, p);
    NoStage(t, PROVENANCE);
    NoStage(t, STRIPPED);
    assert SchemaPlan(s, UPGRADES) == p;
    FreshData(t);
    var q := [Migrate(V003), Migrate(V005), Migrate(V007)];
    ApplyConcat(s, p, q);
    assert Plan(s) == p + q + [Drop(InputEstimated), Record(V006)];
  }

  lemma FreshData(s: Schema)
    requires s == Schema(FINAL + {InputEstimated}, {V002})
    ensures var q := DataPlan(s, DATA_UPGRADES);
      && q == [Migrate(V003), Migrate(V005), Migrate(V007)]
      && RemovalPlan(Apply(s, q), REMOVALS) == [Drop(InputEstimated), Record(V006)]
  {
    assert DATA_UPGRADES[1..] == [V005, V007] && [V005, V007][1..] == [V007] && [V007][1..] == [];
    var s1 := Exec(s, Migrate(V003));
    var s2 := Exec(s1, Migrate(V005));
    assert DataPlan(s2, [V007]) == [Migrate(V007)];
    assert DataPlan(s1, [V005, V007]) == [Migrate(V005), Migrate(V007)];
    DataVersions();
    DataPlanOk(s, DATA_UPGRADES);
    var t := Apply(s, DataPlan(s, DATA_UPGRADES));
    assert REMOVALS[1..] == [];
    assert RemovalPlan(Apply(t, [Drop(InputEstimated), Record(V006)]), []) == [];
  }

  /******* Rows *******/

  // How a row compares with what it was before the first boot.
  predicate Carried(s: Schema, origin: Row, row: Row) {
    && row.inputTokens == origin.inputTokens && row.outputTokens == origin.outputTokens
    && (V005 !in s.ledger ==>
          row.estimated == origin.estimated && row.inputSource == origin.inputSource && row.outputSource == origin.outputSource)
    && (V005 in s.ledger ==>
          row.inputSource == Backfilled(origin).inputSource && row.outputSource == Backfilled(origin).outputSource)
  }

  lemma CarriedStep(s: Schema, stmt: Stmt, origin: Row, row: Row)
    requires Sound(s, stmt) && Carried(s, origin, row) && Canonical(s, row)
    ensures Carried(Exec(s, stmt), origin, ExecRow(row, stmt)) && Canonical(Exec(s, stmt), ExecRow(row, stmt))
  {
    if stmt.Add? {
      assert ExecRow(row, stmt) == row by {
        assert stmt.column in {InputEstimated, InputSource, OutputSource} ==> Defaulted(row, stmt.column) == row;
      }
    }
  }

  lemma {:induction false} CarriedThrough(s: Schema, stmts: seq<Stmt>, origin: Row, row: Row)
    requires AllSound(s, stmts) && Carried(s, origin, row) && Canonical(s, row)
    ensures Carried(Apply(s, stmts), origin, ApplyRow(row, stmts)) && Canonical(Apply(s, stmts), ApplyRow(row, stmts))
    decreases |stmts|
  {
    if stmts != [] {
      CarriedStep(s, stmts[0], origin, row);
      CarriedThrough(Exec(s, stmts[0]), stmts[1..], origin, ExecRow(row, stmts[0]));
    }
  }

  lemma {:induction false} CarriedForLife(w: World, events: seq<Event>, id: nat, origin: Row)
    requires Ordered(w.schema) && id in w.rows && Carried(w.schema, origin, w.rows[id]) && Canonical(w.schema, w.rows[id])
    ensures var v := Life(w, events); id in v.rows && Carried(v.schema, origin, v.rows[id]) && Canonical(v.schema, v.rows[id])
    decreases |events|
  {
    if events != [] {
      if events[0].Boot? {
        CutIsSound(w.schema, events[0].cut);
        CarriedThrough(w.schema, Cut(w.schema, events[0].cut), origin, w.rows[id]);
      }
      CarriedForLife(After(w, events[0]), events[1..], id, origin);
    }
  }

  /** Whatever boots are cut and whatever is written between them, a row present before
      the first boot survives, and once the backfill is recorded its sources are those
      its original flag and counts determine: "estimated" only for a flagged input count. */
  lemma OriginalRowsGetTheirSource(w: World, events: seq<Event>, id: nat)
    requires Ordered(w.schema) && V005 !in w.schema.ledger && id in w.rows && Canonical(w.schema, w.rows[id])
    ensures var v, origin := Life(w, events), w.rows[id];
      && id in v.rows && v.rows[id].inputTokens == origin.inputTokens && v.rows[id].outputTokens == origin.outputTokens
      && (V005 in v.schema.ledger && origin.inputSource.Some? && origin.outputSource.Some? ==>
            v.rows[id].inputSource == origin.inputSource && v.rows[id].outputSource == origin.outputSource)
      && (V005 in v.schema.ledger && (origin.inputSource.None? || origin.outputSource.None?) ==>
            && (v.rows[id].inputSource == Some(Estimated) <==> origin.estimated == 1)
            && (v.rows[id].inputSource == Some(Provider) <==> origin.estimated != 1 && origin.inputTokens.Some?)
            && (v.rows[id].outputSource == if origin.outputTokens.Some? then Some(Provider) else None))
      && (V005 !in v.schema.ledger ==> v.rows[id].estimated == origin.estimated)
      && Canonical(v.schema, v.rows[id])
  {
    CarriedForLife(w, events, id, w.rows[id]);
  }

  /******* Statuses *******/

  // The status before the rewrite of legacy statuses and after it.
  predicate StatusCarried(s: Schema, origin: Row, row: Row) {
    if V003 !in s.ledger then row.status == origin.status
    else (origin.status == Legacy ==> row.status == Unresolved) && (origin.status != Legacy ==> row.status == origin.status)
  }

  lemma {:induction false} StatusThrough(s: Schema, stmts: seq<Stmt>, origin: Row, row: Row)
    requires AllSound(s, stmts) && StatusCarried(s, origin, row)
    ensures StatusCarried(Apply(s, stmts), origin, ApplyRow(row, stmts))
    decreases |stmts|
  {
    if stmts != [] {
      StatusStep(s, stmts[0], origin, row);
      hide Sound;
      StatusThrough(Exec(s, stmts[0]), stmts[1..], origin, ExecRow(row, stmts[0]));
    }
  }

  lemma StatusStep(s: Schema, stmt: Stmt, origin: Row, row: Row)
    requires Sound(s, stmt) && StatusCarried(s, origin, row)
    ensures StatusCarried(Exec(s, stmt), origin, ExecRow(row, stmt))
  {
  }

  lemma {:induction false} StatusForLife(w: World, events: seq<Event>, id: nat, origin: Row)
    requires Ordered(w.schema) && id in w.rows && StatusCarried(w.schema, origin, w.rows[id])
    ensures var v := Life(w, events); id in v.rows && StatusCarried(v.schema, origin, v.rows[id])
    decreases |events|
  {
    if events != [] {
      if events[0].Boot? {
        CutIsSound(w.schema, events[0].cut);
        StatusThrough(w.schema, Cut(w.schema, events[0].cut), origin, w.rows[id]);
      }
      StatusForLife(After(w, events[0]), events[1..], id, origin);
    }
  }

  /** Exactly the legacy statuses become unresolved, once the rewrite is recorded and not
      before, in every row that was there before the first boot. */
  lemma LegacyStatusesAreResolved(w: World, events: seq<Event>, id: nat)
    requires Ordered(w.schema) && V003 !in w.schema.ledger && id in w.rows
    ensures var v, before := Life(w, events), w.rows[id].status;
      && id in v.rows
      && v.rows[id].status == if before == Legacy && V003 in v.schema.ledger then Unresolved else before
  {
    StatusForLife(w, events, id, w.rows[id]);
  }

  /******* Between boots *******/

  function Cuts(events: seq<Event>): seq<nat> {
    if events == [] then [] else (if events[0].Boot? then [events[0].cut] else []) + Cuts(events[1..])
  }

  // What is written between boots leaves the schema to them.
  lemma {:induction false} LifeBoots(w: World, events: seq<Event>)
    ensures Life(w, events).schema == Boots(w.schema, Cuts(events))
    decreases |events|
  {
    hide Apply;
    hide Cut;
    if events != [] {
      var cuts, later := Cuts(events), Cuts(events[1..]);
      LifeBoots(After(w, events[0]), events[1..]);
      if events[0].Boot? {
        assert cuts[0] == events[0].cut && cuts[1..] == later;
        assert Boots(w.schema, cuts) == Boots(Apply(w.schema, Cut(w.schema, cuts[0])), later);
      } else {
        assert cuts == later;
      }
    }
  }

  /** Once a boot has completed, every row is there to stay, as it is, and a row written then
      without the retired flag is stored as written. */
  lemma {:induction false} RowsStayOnceBooted(w: World, events: seq<Event>, id: nat, row: Row)
    requires Final(w.schema)
    ensures id in w.rows ==> id in Life(w, events).rows && Life(w, events).rows[id] == w.rows[id]
    ensures id !in w.rows && row.estimated == 0 && events != [] && events[0] == Insert(id, row) ==>
      id in Life(w, events).rows && Life(w, events).rows[id] == row
    decreases |events|
  {
    if events != [] {
      FinalIsQuiet(w.schema);
      var v := After(w, events[0]);
      RowsStayOnceBooted(v, events[1..], id, row);
    }
  }
}
