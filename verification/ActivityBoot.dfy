/**
 The boot itself: upgradeActivitySchema, upgradeActivityData and dropActivityColumns as
 loops over their tables that look at the live database before each statement. A boot
 with power for n more statements issues the first n of its plan, unless one is refused
 before: then it returns that error there.
 */
module ActivityBoot {
  import opened Wrappers
  import opened ActivityUpgrade
  import opened ActivityUpgradeProofs

  // power: statements that still execute before the crash; log: statements executed.
  datatype Machine = Machine(world: World, power: nat, log: seq<Stmt>)

  function Rewritten(rows: map<nat, Row>, stmts: seq<Stmt>): map<nat, Row> {
    map id | id in rows :: ApplyRow(rows[id], stmts)
  }

  function Ran(m: Machine, stmts: seq<Stmt>): Machine
    requires |stmts| <= m.power
  {
    Machine(World(Apply(m.world.schema, stmts), Rewritten(m.world.rows, stmts)), m.power - |stmts|, m.log + stmts)
  }

  // The statements that execute one after the other, before one is refused.
  function LegalLength(s: Schema, stmts: seq<Stmt>): (n: nat)
    ensures n <= |stmts| && (n == |stmts| <==> Executes(s, stmts))
    decreases |stmts|
  {
    if stmts == [] || !Legal(s, stmts[0]) then 0 else 1 + LegalLength(Exec(s, stmts[0]), stmts[1..])
  }

  function Reach(m: Machine, plan: seq<Stmt>): (n: nat)
    ensures n <= |plan| && n <= m.power
  {
    var n := LegalLength(m.world.schema, plan);
    if n <= m.power then n else m.power
  }

  function Survived(m: Machine, plan: seq<Stmt>): seq<Stmt> {
    plan[..Reach(m, plan)]
  }

  // Nothing cuts the plan short.
  predicate Whole(m: Machine, plan: seq<Stmt>) {
    Executes(m.world.schema, plan) && |plan| <= m.power
  }

  lemma {:induction false} LegalSplits(s: Schema, p: seq<Stmt>, q: seq<Stmt>)
    ensures LegalLength(s, p + q) ==
      if Executes(s, p) then |p| + LegalLength(Apply(s, p), q) else LegalLength(s, p)
    decreases |p|
  {
    if p == [] {
      assert p + q == q;
    } else {
      assert (p + q)[1..] == p[1..] + q;
      LegalSplits(Exec(s, p[0]), p[1..], q);
    }
  }

  lemma {:induction false} ApplyRowConcat(row: Row, p: seq<Stmt>, q: seq<Stmt>)
    ensures ApplyRow(row, p + q) == ApplyRow(ApplyRow(row, p), q)
    decreases |p|
  {
    if p == [] {
      assert p + q == q;
    } else {
      assert (p + q)[1..] == p[1..] + q;
      ApplyRowConcat(ExecRow(row, p[0]), p[1..], q);
    }
  }

  lemma RanConcat(m: Machine, p: seq<Stmt>, q: seq<Stmt>)
    requires |p| + |q| <= m.power
    ensures Ran(m, p + q) == Ran(Ran(m, p), q)
  {
    ApplyConcat(m.world.schema, p, q);
    forall id | id in m.world.rows
      ensures ApplyRow(m.world.rows[id], p + q) == ApplyRow(ApplyRow(m.world.rows[id], p), q)
    {
      ApplyRowConcat(m.world.rows[id], p, q);
    }
  }

  // A plan that got through, then another that may not have.
  lemma Continued(m: Machine, p: seq<Stmt>, q: seq<Stmt>)
    requires Whole(m, p)
    ensures var n := Ran(m, p);
      && Ran(m, Survived(m, p + q)) == Ran(n, Survived(n, q)) && (Whole(m, p + q) <==> Whole(n, q))
      && Survived(m, p) == p && (Whole(n, q) ==> Survived(m, p + q) == p + q && Survived(n, q) == q)
  {
    var n := Ran(m, p);
    LegalSplits(m.world.schema, p, q);
    assert Survived(m, p + q) == p + Survived(n, q);
    RanConcat(m, p, Survived(n, q));
  }

  lemma Halted(m: Machine, p: seq<Stmt>, q: seq<Stmt>)
    requires !Whole(m, p)
    ensures Survived(m, p + q) == Survived(m, p) && !Whole(m, p + q)
  {
    LegalSplits(m.world.schema, p, q);
  }

  lemma RanOne(m: Machine, stmt: Stmt)
    requires 1 <= m.power
    ensures Ran(m, [stmt]) == Machine(
      World(Exec(m.world.schema, stmt), map id | id in m.world.rows :: ExecRow(m.world.rows[id], stmt)),
      m.power - 1, m.log + [stmt])
  {
    assert [stmt][1..] == [];
    assert Apply(m.world.schema, [stmt]) == Apply(Exec(m.world.schema, stmt), []);
    forall id | id in m.world.rows
      ensures ApplyRow(m.world.rows[id], [stmt]) == ExecRow(m.world.rows[id], stmt)
    {
      assert ApplyRow(m.world.rows[id], [stmt]) == ApplyRow(ExecRow(m.world.rows[id], stmt), []);
    }
  }

  lemma RanOneSchema(m: Machine, stmt: Stmt)
    ensures 1 <= m.power ==> Ran(m, [stmt]).world.schema == Exec(m.world.schema, stmt)
  {
    if 1 <= m.power {
      RanOne(m, stmt);
    }
  }

  lemma TwoSteps(s: Schema, first: Stmt, second: Stmt)
    ensures Apply(s, [first, second]) == Exec(Exec(s, first), second)
    ensures forall rest: seq<Stmt> :: [first, second] + rest == [first] + ([second] + rest)
  {
    var t := Exec(s, first);
    assert [first, second][1..] == [second];
    assert Apply(t, [second]) == Apply(Exec(t, second), []);
  }

  // Where a boot stands: done is executed, rest is to come.
  ghost predicate At(m: Machine, now: Machine, plan: seq<Stmt>, done: seq<Stmt>, rest: seq<Stmt>) {
    Whole(m, done) && now == Ran(m, done) && plan == done + rest
  }

  lemma AtStart(m: Machine, plan: seq<Stmt>)
    ensures At(m, m, plan, [], plan)
  {
    assert Rewritten(m.world.rows, []) == m.world.rows;
  }

  lemma AtNext(m: Machine, now: Machine, plan: seq<Stmt>, done: seq<Stmt>, stmt: Stmt, rest: seq<Stmt>)
    requires At(m, now, plan, done, [stmt] + rest)
    ensures if now.power == 0 || !Legal(now.world.schema, stmt) then now == Ran(m, Survived(m, plan)) && !Whole(m, plan)
            else At(m, Ran(now, [stmt]), plan, done + [stmt], rest)
  {
    assert plan == (done + [stmt]) + rest && ([stmt] + rest)[0] == stmt;
    LegalSplits(m.world.schema, done, [stmt] + rest);
    if now.power == 0 || !Legal(now.world.schema, stmt) {
      assert Survived(m, plan) == done;
    } else {
      RanConcat(m, done, [stmt]);
      LegalSplits(m.world.schema, done, [stmt]);
      assert [stmt][1..] == [];
    }
  }

  lemma AtEnd(m: Machine, now: Machine, plan: seq<Stmt>, done: seq<Stmt>)
    requires At(m, now, plan, done, [])
    ensures Whole(m, plan) && now == Ran(m, Survived(m, plan))
  {
    assert plan == done && Survived(m, plan) == plan;
  }

  // Where every statement executes, a boot is cut by its power alone.
  lemma BootIsEvent(m: Machine)
    requires Ordered(m.world.schema)
    ensures var t := Ran(m, Survived(m, Plan(m.world.schema))).world;
      && t == After(m.world, Event.Boot(m.power)) && Ordered(t.schema)
      && (Whole(m, Plan(m.world.schema)) ==> Final(t.schema))
  {
    var s := m.world.schema;
    BootSucceedsIff(s);
    WholeBoot(s);
    CutIsSound(s, m.power);
    assert Survived(m, Plan(s)) == Cut(s, m.power);
  }

  class Activity {
    var schema: Schema
    var rows: map<nat, Row>
    var power: nat
    ghost var log: seq<Stmt>

    ghost function View(): Machine
      reads this
    {
      Machine(World(schema, rows), power, log)
    }

    constructor (w: World, power: nat)
      ensures View() == Machine(w, power, [])
    {
      this.schema, this.rows, this.power, log := w.schema, w.rows, power, [];
    }

    /** One statement, or one committed transaction: it takes effect as a whole or, without
        power or when SQLite refuses it, not at all. */
    method Issue(stmt: Stmt) returns (ok: bool)
      modifies this
      ensures ok == (1 <= old(power) && Legal(old(schema), stmt))
      ensures View() == if ok then Ran(old(View()), [stmt]) else old(View())
    {
      if power == 0 || !Legal(schema, stmt) {
        return false;
      }
      RanOne(View(), stmt);
      power := power - 1;
      schema := Exec(schema, stmt);
      rows := map id | id in rows :: ExecRow(rows[id], stmt);
      log := log + [stmt];
      ok := true;
    }

    /** One entry of activityUpgrades. */
    method AddColumns(up: Upgrade) returns (ok: bool)
      modifies this
      ensures var plan := StepPlan(old(schema), up.version, up.columns, false);
        ok == Whole(old(View()), plan) && View() == Ran(old(View()), Survived(old(View()), plan))
    {
      ghost var m := View();
      ghost var plan := StepPlan(schema, up.version, up.columns, false);
      ghost var done, rest := [], plan;
      AtStart(m, plan);
      var changed, i := false, 0;
      while i < |up.columns|
        invariant 0 <= i <= |up.columns|
        invariant rest == StepPlan(schema, up.version, up.columns[i..], changed)
        invariant At(m, View(), plan, done, rest)
      {
        var col := up.columns[i];
        assert up.columns[i..][1..] == up.columns[i + 1..];
        if !(col.skipIf.Some? && col.skipIf.value in schema.ledger) && col.column !in schema.columns {
          rest := StepPlan(Exec(schema, Add(col.column)), up.version, up.columns[i + 1..], true);
          AtNext(m, View(), plan, done, Add(col.column), rest);
          RanOneSchema(View(), Add(col.column));
          ok := Issue(Add(col.column));
          if !ok {
            return;
          }
          done := done + [Add(col.column)];
          changed := true;
        }
        i := i + 1;
      }
      if changed {
        AtNext(m, View(), plan, done, Record(up.version), []);
        ok := Issue(Record(up.version));
        if !ok {
          return;
        }
        done := done + [Record(up.version)];
      }
      AtEnd(m, View(), plan, done);
      ok := true;
    }

    method UpgradeSchema() returns (ok: bool)
      modifies this
      ensures var plan := SchemaPlan(old(schema), UPGRADES);
        ok == Whole(old(View()), plan) && View() == Ran(old(View()), Survived(old(View()), plan))
    {
      ghost var m := View();
      ghost var plan := SchemaPlan(schema, UPGRADES);
      ghost var done, rest := [], plan;
      AtStart(m, plan);
      var i := 0;
      while i < |UPGRADES|
        invariant 0 <= i <= |UPGRADES|
        invariant rest == SchemaPlan(schema, UPGRADES[i..])
        invariant At(m, View(), plan, done, rest)
      {
        ghost var step := StepPlan(schema, UPGRADES[i].version, UPGRADES[i].columns, false);
        hide LegalLength;
        hide Survived;
        rest := SchemaPlan(Apply(schema, step), UPGRADES[i..][1..]);
        assert plan == (done + step) + rest;
        Continued(m, done, step);
        ok := AddColumns(UPGRADES[i]);
        if !ok {
          Halted(m, done + step, rest);
          return;
        }
        done := done + step;
        i := i + 1;
      }
      AtEnd(m, View(), plan, done);
      ok := true;
    }

    method UpgradeData() returns (ok: bool)
      modifies this
      ensures var plan := DataPlan(old(schema), DATA_UPGRADES);
        ok == Whole(old(View()), plan) && View() == Ran(old(View()), Survived(old(View()), plan))
    {
      ghost var m := View();
      ghost var plan := DataPlan(schema, DATA_UPGRADES);
      ghost var done, rest := [], plan;
      AtStart(m, plan);
      var i := 0;
      while i < |DATA_UPGRADES|
        invariant 0 <= i <= |DATA_UPGRADES|
        invariant rest == DataPlan(schema, DATA_UPGRADES[i..])
        invariant At(m, View(), plan, done, rest)
      {
        var v := DATA_UPGRADES[i];
        assert DATA_UPGRADES[i..][1..] == DATA_UPGRADES[i + 1..];
        if v !in schema.ledger {
          rest := DataPlan(Exec(schema, Migrate(v)), DATA_UPGRADES[i + 1..]);
          AtNext(m, View(), plan, done, Migrate(v), rest);
          RanOneSchema(View(), Migrate(v));
          ok := Issue(Migrate(v));
          if !ok {
            return;
          }
          done := done + [Migrate(v)];
        }
        i := i + 1;
      }
      AtEnd(m, View(), plan, done);
      ok := true;
    }

    method DropColumns() returns (ok: bool)
      modifies this
      ensures var plan := RemovalPlan(old(schema), REMOVALS);
        ok == Whole(old(View()), plan) && View() == Ran(old(View()), Survived(old(View()), plan))
    {
      ghost var m := View();
      ghost var plan := RemovalPlan(schema, REMOVALS);
      ghost var done, rest := [], plan;
      AtStart(m, plan);
      var i := 0;
      while i < |REMOVALS|
        invariant 0 <= i <= |REMOVALS|
        invariant rest == RemovalPlan(schema, REMOVALS[i..])
        invariant At(m, View(), plan, done, rest)
      {
        var Removal(version, column) := REMOVALS[i];
        assert REMOVALS[i..][1..] == REMOVALS[i + 1..];
        if column in schema.columns {
          var drop, record := Drop(column), Record(version);
          rest := RemovalPlan(Apply(schema, [drop, record]), REMOVALS[i + 1..]);
          TwoSteps(schema, drop, record);
          AtNext(m, View(), plan, done, drop, [record] + rest);
          RanOneSchema(View(), drop);
          ok := Issue(drop);
          if !ok {
            return;
          }
          done := done + [drop];
          AtNext(m, View(), plan, done, record, rest);
          RanOneSchema(View(), record);
          ok := Issue(record);
          if !ok {
            return;
          }
          done := done + [record];
        }
        i := i + 1;
      }
      AtEnd(m, View(), plan, done);
      ok := true;
    }

    /** A boot issues its plan until it dies or a statement is refused, which happens exactly
        where BootSucceedsIff says; on a schema that can have arisen it is the boot the
        interruption theorems are about. */
    method Boot() returns (ok: bool)
      modifies this
      ensures ok == Whole(old(View()), Plan(old(schema)))
      ensures View() == Ran(old(View()), Survived(old(View()), Plan(old(schema))))
      ensures Ordered(old(schema)) ==>
        && World(schema, rows) == After(old(World(schema, rows)), Event.Boot(old(power)))
        && Ordered(schema) && (ok ==> Final(schema))
      ensures old(power) >= |Plan(old(schema))| ==> (ok <==> Runs(old(schema)))
    {
      ghost var m := View();
      ghost var p := SchemaPlan(schema, UPGRADES);
      ghost var q := DataPlan(Apply(schema, p), DATA_UPGRADES);
      ghost var r := RemovalPlan(Apply(schema, p + q), REMOVALS);
      ghost var plan := Plan(schema);
      BootSucceedsIff(schema);
      hide Survived;
      if Ordered(schema) {
        BootIsEvent(m);
      }
      assert plan == p + (q + r) == (p + q) + r;
      ok := UpgradeSchema();
      if !ok {
        Halted(m, p, q + r);
        return;
      }
      Continued(m, p, q);
      ApplyConcat(m.world.schema, p, q);
      ok := UpgradeData();
      if !ok {
        Halted(m, p + q, r);
        return;
      }
      assert View() == Ran(m, p + q);
      Continued(m, p + q, r);
      ok := DropColumns();
    }
  }

}
