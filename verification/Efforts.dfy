/**
 Effort values (internal/providers/registry.go): canonical order, codex aliases and the
 selectors a target accepts.
 */
module Efforts {

  type Effort = string

  const CANONICAL: seq<Effort> := ["none", "minimal", "low", "medium", "high", "xhigh", "max"]

  /******* Ordering *******/

  // effortIndex
  function IndexIn(canon: seq<Effort>, v: Effort): (i: int)
    ensures -1 <= i < |canon| && (i >= 0 <==> v in canon) && (i >= 0 ==> canon[i] == v)
  {
    if canon == [] then -1
    else if canon[0] == v then 0
    else
      var i := IndexIn(canon[1..], v);
      if i < 0 then -1 else i + 1
  }

  function Picked(canon: seq<Effort>, values: seq<Effort>): seq<Effort> {
    if canon == [] then [] else (if canon[0] in values then [canon[0]] else []) + Picked(canon[1..], values)
  }

  function Unknown(canon: seq<Effort>, values: seq<Effort>): seq<Effort> {
    if values == [] then []
    else
      var before, last := values[..|values| - 1], values[|values| - 1];
      Unknown(canon, before) + if last !in canon && last !in before then [last] else []
  }

  // Known values in canonical order, then the others as first encountered.
  function Sorted(canon: seq<Effort>, values: seq<Effort>): seq<Effort> {
    Picked(canon, values) + Unknown(canon, values)
  }

  ghost predicate Distinct(s: seq<Effort>) {
    forall i, j :: 0 <= i < j < |s| ==> s[i] != s[j]
  }

  lemma {:induction false} PickedHas(canon: seq<Effort>, values: seq<Effort>, v: Effort)
    ensures v in Picked(canon, values) <==> v in canon && v in values
  {
    if canon != [] {
      PickedHas(canon[1..], values, v);
      assert v in canon <==> v == canon[0] || v in canon[1..];
    }
  }

  lemma {:induction false} UnknownHas(canon: seq<Effort>, values: seq<Effort>, v: Effort)
    ensures v in Unknown(canon, values) <==> v !in canon && v in values
  {
    if values != [] {
      var n := |values| - 1;
      UnknownHas(canon, values[..n], v);
      assert values == values[..n] + [values[n]];
    }
  }

  // Strictly by position in canon.
  ghost predicate InOrder(canon: seq<Effort>, s: seq<Effort>) {
    && (forall i :: 0 <= i < |s| ==> s[i] in canon)
    && (forall i, j :: 0 <= i < j < |s| ==> IndexIn(canon, s[i]) < IndexIn(canon, s[j]))
  }

  lemma IndexBehind(canon: seq<Effort>, v: Effort)
    requires canon != [] && v in canon[1..] && v != canon[0]
    ensures v in canon && IndexIn(canon, v) == IndexIn(canon[1..], v) + 1
  {
  }

  lemma {:induction false} PickedInOrder(canon: seq<Effort>, values: seq<Effort>)
    requires Distinct(canon)
    ensures InOrder(canon, Picked(canon, values))
  {
    if canon != [] {
      var rest, tail := canon[1..], Picked(canon[1..], values);
      PickedInOrder(rest, values);
      forall i | 0 <= i < |tail|
        ensures tail[i] in canon && IndexIn(canon, tail[i]) == IndexIn(rest, tail[i]) + 1 && IndexIn(rest, tail[i]) >= 0
      {
        assert tail[i] in rest;
        IndexBehind(canon, tail[i]);
      }
      assert Picked(canon, values) == (if canon[0] in values then [canon[0]] else []) + tail;
    }
  }

  lemma {:induction false} UnknownIsDistinct(canon: seq<Effort>, values: seq<Effort>)
    ensures Distinct(Unknown(canon, values))
  {
    if values != [] {
      var n := |values| - 1;
      UnknownIsDistinct(canon, values[..n]);
      UnknownHas(canon, values[..n], values[n]);
    }
  }

  lemma InOrderIsDistinct(canon: seq<Effort>, s: seq<Effort>)
    requires InOrder(canon, s)
    ensures Distinct(s)
  {
    forall i, j | 0 <= i < j < |s|
      ensures s[i] != s[j]
    {
      assert IndexIn(canon, s[i]) < IndexIn(canon, s[j]);
    }
  }

  /** Sorting keeps exactly the input's values, each once. */
  lemma SortedKeepsValues(canon: seq<Effort>, values: seq<Effort>, v: Effort)
    requires Distinct(canon)
    ensures (v in Sorted(canon, values) <==> v in values) && Distinct(Sorted(canon, values))
  {
    hide Picked;
    hide Unknown;
    var p, u := Picked(canon, values), Unknown(canon, values);
    PickedHas(canon, values, v);
    UnknownHas(canon, values, v);
    PickedInOrder(canon, values);
    InOrderIsDistinct(canon, p);
    UnknownIsDistinct(canon, values);
    forall i, j | 0 <= i < |p| && 0 <= j < |u|
      ensures p[i] != u[j]
    {
      PickedHas(canon, values, p[i]);
      UnknownHas(canon, values, u[j]);
    }
  }

  // The first place of v in values.
  function FirstAt(values: seq<Effort>, v: Effort): (i: nat)
    ensures i <= |values| && (i < |values| <==> v in values) && (i < |values| ==> values[i] == v && v !in values[..i])
  {
    if values == [] || values[0] == v then 0
    else
      var i := FirstAt(values[1..], v);
      assert v !in values[1..][..i];
      assert values[..i + 1] == [values[0]] + values[1..][..i];
      1 + i
  }

  lemma {:induction false} FirstAtPrefix(values: seq<Effort>, n: nat, v: Effort)
    requires n <= |values| && v in values[..n]
    ensures FirstAt(values, v) == FirstAt(values[..n], v) < n
    decreases |values|
  {
    if values[0] != v {
      assert values[..n][1..] == values[1..][..n - 1];
      assert values[..n] == [values[0]] + values[..n][1..];
      FirstAtPrefix(values[1..], n - 1, v);
    }
  }

  lemma {:induction false} UnknownInEncounterOrder(canon: seq<Effort>, values: seq<Effort>, i: nat, j: nat)
    requires i < j < |Unknown(canon, values)|
    ensures FirstAt(values, Unknown(canon, values)[i]) < FirstAt(values, Unknown(canon, values)[j])
    decreases |values|
  {
    hide FirstAt;
    var n := |values| - 1;
    var before, u := values[..n], Unknown(canon, values[..n]);
    assert values == before + [values[n]];
    UnknownHas(canon, before, u[i]);
    FirstAtPrefix(values, n, u[i]);
    if j < |u| {
      UnknownHas(canon, before, u[j]);
      FirstAtPrefix(values, n, u[j]);
      UnknownInEncounterOrder(canon, before, i, j);
    } else {
      NewAtEnd(values);
    }
  }

  lemma {:induction false} NewAtEnd(values: seq<Effort>)
    requires values != [] && values[|values| - 1] !in values[..|values| - 1]
    ensures FirstAt(values, values[|values| - 1]) == |values| - 1
    decreases |values|
  {
    if |values| > 1 {
      var rest := values[1..];
      assert rest[..|rest| - 1] == values[..|values| - 1][1..];
      assert values[0] == values[..|values| - 1][0];
      NewAtEnd(rest);
    }
  }

  /** Known values come first, by canonical position; unknown ones follow, by first
      encounter. */
  lemma SortedOrder(canon: seq<Effort>, values: seq<Effort>, i: nat, j: nat)
    requires Distinct(canon) && i < j < |Sorted(canon, values)|
    ensures var a, b := Sorted(canon, values)[i], Sorted(canon, values)[j];
      && (b in canon ==> a in canon && IndexIn(canon, a) < IndexIn(canon, b))
      && (a !in canon ==> b !in canon && FirstAt(values, a) < FirstAt(values, b))
  {
    hide FirstAt;
    hide IndexIn;
    hide Picked;
    hide Unknown;
    var p, u := Picked(canon, values), Unknown(canon, values);
    var a, b := Sorted(canon, values)[i], Sorted(canon, values)[j];
    PickedInOrder(canon, values);
    PickedHas(canon, values, a);
    UnknownHas(canon, values, a);
    UnknownHas(canon, values, b);
    if |p| <= i {
      UnknownInEncounterOrder(canon, values, i - |p|, j - |p|);
    }
  }

  lemma {:induction false} PickedSame(canon: seq<Effort>, values: seq<Effort>, others: seq<Effort>)
    requires forall c :: c in canon ==> (c in values <==> c in others)
    ensures Picked(canon, values) == Picked(canon, others)
  {
    if canon != [] {
      assert canon[0] in canon;
      PickedSame(canon[1..], values, others);
    }
  }

  lemma UnknownAppends(canon: seq<Effort>, values: seq<Effort>, last: Effort)
    ensures Unknown(canon, values + [last]) == Unknown(canon, values) + if last !in canon && last !in values then [last] else []
  {
    assert (values + [last])[..|values|] == values;
  }

  lemma {:induction false} UnknownOfKnown(canon: seq<Effort>, known: seq<Effort>)
    requires forall v :: v in known ==> v in canon
    ensures Unknown(canon, known) == []
  {
    if known != [] {
      var n := |known| - 1;
      assert known == known[..n] + [known[n]];
      assert known[n] in known;
      UnknownOfKnown(canon, known[..n]);
    }
  }

  lemma {:induction false} UnknownOfSorted(canon: seq<Effort>, known: seq<Effort>, u: seq<Effort>)
    requires (forall v :: v in known ==> v in canon) && (forall v :: v in u ==> v !in canon) && Distinct(u)
    ensures Unknown(canon, known + u) == u
    decreases |u|
  {
    hide Unknown;
    if u == [] {
      assert known + u == known;
      UnknownOfKnown(canon, known);
    } else {
      var n := |u| - 1;
      assert known + u == (known + u[..n]) + [u[n]];
      assert u == u[..n] + [u[n]];
      assert u[n] in u && u[n] !in u[..n];
      UnknownOfSorted(canon, known, u[..n]);
      UnknownAppends(canon, known + u[..n], u[n]);
    }
  }

  /** Sorting twice is sorting once. */
  lemma SortedIsIdempotent(canon: seq<Effort>, values: seq<Effort>)
    requires Distinct(canon)
    ensures Sorted(canon, Sorted(canon, values)) == Sorted(canon, values)
  {
    var p, u := Picked(canon, values), Unknown(canon, values);
    var once := Sorted(canon, values);
    forall c | c in canon
      ensures c in values <==> c in once
    {
      SortedKeepsValues(canon, values, c);
    }
    PickedSame(canon, values, once);
    forall v | v in p ensures v in canon { PickedHas(canon, values, v); }
    forall v | v in u ensures v !in canon { UnknownHas(canon, values, v); }
    UnknownIsDistinct(canon, values);
    UnknownOfSorted(canon, p, u);
  }

  lemma LeastFirst(canon: seq<Effort>, s: seq<Effort>, v: Effort)
    requires InOrder(canon, s) && v in s
    ensures IndexIn(canon, s[0]) <= IndexIn(canon, v)
  {
    var k :| 0 <= k < |s| && s[k] == v;
    if k > 0 {
      assert IndexIn(canon, s[0]) < IndexIn(canon, s[k]);
    }
  }

  lemma TailInOrder(canon: seq<Effort>, s: seq<Effort>)
    requires s != [] && InOrder(canon, s)
    ensures InOrder(canon, s[1..]) && s[0] !in s[1..]
  {
    InOrderIsDistinct(canon, s);
  }

  /** There is only one order: sequences in canonical order with the same values are equal. */
  lemma {:induction false} OnlyOneOrder(canon: seq<Effort>, s: seq<Effort>, t: seq<Effort>)
    requires InOrder(canon, s) && InOrder(canon, t) && forall v :: v in s <==> v in t
    ensures s == t
    decreases |s|
  {
    assert s != [] ==> s[0] in s;
    assert t != [] ==> t[0] in t;
    if s != [] {
      LeastFirst(canon, t, s[0]);
      LeastFirst(canon, s, t[0]);
      assert s[0] == t[0];
      TailInOrder(canon, s);
      TailInOrder(canon, t);
      assert s == [s[0]] + s[1..] && t == [t[0]] + t[1..];
      forall v
        ensures v in s[1..] <==> v in t[1..]
      {
        assert v in s <==> v == s[0] || v in s[1..];
        assert v in t <==> v == t[0] || v in t[1..];
      }
      OnlyOneOrder(canon, s[1..], t[1..]);
    }
  }

  lemma CanonicalIsDistinct()
    ensures Distinct(CANONICAL)
  {
  }

  /** sort.Slice by effortIndex: an insertion into the already sorted values. */
  method SortByIndex(canon: seq<Effort>, values: seq<Effort>) returns (s: seq<Effort>)
    requires Distinct(values) && forall v :: v in values ==> v in canon
    ensures InOrder(canon, s) && forall v :: v in s <==> v in values
  {
    hide InOrder;
    s := [];
    EmptyInOrder(canon);
    for i := 0 to |values|
      invariant InOrder(canon, s) && forall v :: v in s <==> v in values[..i]
    {
      assert values[i] in values && values[i] !in values[..i];
      assert values[..i + 1] == values[..i] + [values[i]];
      s := Insert(canon, s, values[i]);
    }
    assert values[..|values|] == values;
  }

  lemma EmptyInOrder(canon: seq<Effort>)
    ensures InOrder(canon, [])
  {
  }

  method Insert(canon: seq<Effort>, s: seq<Effort>, v: Effort) returns (r: seq<Effort>)
    requires InOrder(canon, s) && v in canon && v !in s
    ensures InOrder(canon, r) && forall w :: w in r <==> w in s || w == v
  {
    hide IndexIn;
    hide InOrder;
    var k := 0;
    while k < |s| && IndexIn(canon, s[k]) < IndexIn(canon, v)
      invariant 0 <= k <= |s| && forall i :: 0 <= i < k ==> IndexIn(canon, s[i]) < IndexIn(canon, v)
    {
      k := k + 1;
    }
    Between(canon, s, k, v);
    r := s[..k] + [v] + s[k..];
    assert s == s[..k] + s[k..];
  }

  ghost predicate AllBelow(canon: seq<Effort>, a: seq<Effort>, b: seq<Effort>) {
    forall i, j :: 0 <= i < |a| && 0 <= j < |b| ==> IndexIn(canon, a[i]) < IndexIn(canon, b[j])
  }

  lemma JoinInOrder(canon: seq<Effort>, a: seq<Effort>, b: seq<Effort>)
    requires InOrder(canon, a) && InOrder(canon, b) && AllBelow(canon, a, b)
    ensures InOrder(canon, a + b)
  {
    hide IndexIn;
    var r := a + b;
    forall i, j | 0 <= i < j < |r|
      ensures IndexIn(canon, r[i]) < IndexIn(canon, r[j])
    {
      if i < |a| && |a| <= j {
        assert r[i] == a[i] && r[j] == b[j - |a|];
      } else if j < |a| {
        assert r[i] == a[i] && r[j] == a[j];
      } else {
        assert r[i] == b[i - |a|] && r[j] == b[j - |a|];
      }
    }
  }

  lemma PartsInOrder(canon: seq<Effort>, s: seq<Effort>, k: nat)
    requires InOrder(canon, s) && k <= |s|
    ensures InOrder(canon, s[..k]) && InOrder(canon, s[k..]) && AllBelow(canon, s[..k], s[k..])
  {
    hide IndexIn;
  }

  lemma Between(canon: seq<Effort>, s: seq<Effort>, k: nat, v: Effort)
    requires InOrder(canon, s) && v in canon && v !in s && k <= |s|
    requires forall i :: 0 <= i < k ==> IndexIn(canon, s[i]) < IndexIn(canon, v)
    requires k < |s| ==> IndexIn(canon, s[k]) >= IndexIn(canon, v)
    ensures InOrder(canon, s[..k] + [v] + s[k..])
  {
    hide IndexIn;
    hide InOrder;
    PartsInOrder(canon, s, k);
    OneInOrder(canon, v);
    assert AllBelow(canon, s[..k], [v]);
    JoinInOrder(canon, s[..k], [v]);
    forall i | k <= i < |s|
      ensures IndexIn(canon, v) < IndexIn(canon, s[i])
    {
      Above(canon, s, k, v, i);
    }
    AllBelowBoth(canon, s, k, v);
    JoinInOrder(canon, s[..k] + [v], s[k..]);
  }

  lemma OneInOrder(canon: seq<Effort>, v: Effort)
    requires v in canon
    ensures InOrder(canon, [v])
  {
  }

  lemma AllBelowBoth(canon: seq<Effort>, s: seq<Effort>, k: nat, v: Effort)
    requires k <= |s| && AllBelow(canon, s[..k], s[k..])
    requires forall i :: k <= i < |s| ==> IndexIn(canon, v) < IndexIn(canon, s[i])
    ensures AllBelow(canon, s[..k] + [v], s[k..])
  {
    hide IndexIn;
    forall i, j | 0 <= i <= k && 0 <= j < |s[k..]|
      ensures IndexIn(canon, (s[..k] + [v])[i]) < IndexIn(canon, s[k..][j])
    {
      assert s[k..][j] == s[k + j];
      assert i < k ==> (s[..k] + [v])[i] == s[..k][i];
    }
  }

  lemma Above(canon: seq<Effort>, s: seq<Effort>, k: nat, v: Effort, i: nat)
    requires InOrder(canon, s) && v in canon && v !in s && k <= i < |s| && IndexIn(canon, s[k]) >= IndexIn(canon, v)
    ensures IndexIn(canon, v) < IndexIn(canon, s[i])
  {
    hide IndexIn;
    assert s[k] in canon && s[k] in s;
    assert canon[IndexIn(canon, s[k])] == s[k] && canon[IndexIn(canon, v)] == v;
    assert k < i ==> IndexIn(canon, s[k]) < IndexIn(canon, s[i]);
  }

  /** SortEfforts: one pass that separates and de-duplicates, then the sort. */
  method SortEfforts(values: seq<Effort>) returns (r: seq<Effort>)
    ensures r == Sorted(CANONICAL, values)
  {
    hide *;
    CanonicalIsDistinct();
    r := SortIn(CANONICAL, values);
  }

  method SortIn(canon: seq<Effort>, values: seq<Effort>) returns (r: seq<Effort>)
    requires Distinct(canon)
    ensures r == Sorted(canon, values)
  {
    hide IndexIn;
    hide Picked;
    hide Unknown;
    hide InOrder;
    var seen: set<Effort> := {};
    var known: seq<Effort>, unknown: seq<Effort> := [], [];
    NoneUnknown(canon);
    for i := 0 to |values|
      invariant forall v :: v in seen <==> v in values[..i]
      invariant Distinct(known) && forall v :: v in known <==> v in canon && v in values[..i]
      invariant unknown == Unknown(canon, values[..i])
    {
      var v := values[i];
      assert values[..i + 1] == values[..i] + [v];
      UnknownAppends(canon, values[..i], v);
      if v !in seen {
        seen := seen + {v};
        if IndexIn(canon, v) >= 0 {
          known := known + [v];
        } else {
          unknown := unknown + [v];
        }
      }
    }
    assert values[..|values|] == values;
    var sorted := SortByIndex(canon, known);
    PickedInOrder(canon, values);
    forall v
      ensures v in sorted <==> v in Picked(canon, values)
    {
      PickedHas(canon, values, v);
    }
    OnlyOneOrder(canon, sorted, Picked(canon, values));
    r := sorted + unknown;
  }

  lemma NoneUnknown(canon: seq<Effort>)
    ensures Unknown(canon, []) == []
  {
  }

  /******* Codex aliases *******/

  const ULTRA := "ultra"

  // A setting of the client alone, with no effort on the wire.
  const PERSISTENT := "persistent"

  // codexEffortAliases: the wire effort "ultra" stands for; empty when there is none.
  function LastOther(levels: seq<Effort>): Effort {
    if levels == [] then ""
    else if levels[|levels| - 1] != ULTRA then levels[|levels| - 1]
    else LastOther(levels[..|levels| - 1])
  }

  function UltraEffort(levels: seq<Effort>, multiAgent: Effort): Effort {
    if multiAgent != "" && multiAgent != ULTRA && multiAgent in levels then multiAgent
    else if "max" in levels then "max"
    else LastOther(levels)
  }

  function Aliases(levels: seq<Effort>, multiAgent: Effort): map<Effort, Effort> {
    if ULTRA !in levels || UltraEffort(levels, multiAgent) == "" then map[]
    else map[ULTRA := UltraEffort(levels, multiAgent)]
  }

  lemma {:induction false} LastOtherIs(levels: seq<Effort>)
    ensures LastOther(levels) != "" ==> LastOther(levels) in levels
    ensures LastOther(levels) != ULTRA
  {
    if levels != [] && levels[|levels| - 1] == ULTRA {
      LastOtherIs(levels[..|levels| - 1]);
    }
  }

  /** An alias leads to a level the model really lists, and never to another alias. */
  lemma AliasTargets(levels: seq<Effort>, multiAgent: Effort)
    ensures var aliases := Aliases(levels, multiAgent);
      aliases.Keys <= {ULTRA} && (ULTRA in aliases ==> aliases[ULTRA] in levels && aliases[ULTRA] != ULTRA && aliases[ULTRA] != "")
  {
    LastOtherIs(levels);
    assert "max" != ULTRA;
  }

  method CodexEffortAliases(levels: seq<Effort>, multiAgent: Effort) returns (aliases: map<Effort, Effort>)
    ensures aliases == Aliases(levels, multiAgent)
  {
    LastOtherIs(levels);
    if ULTRA !in levels {
      return map[];
    }
    var resolved: Effort := "";
    if multiAgent != "" && multiAgent != ULTRA && multiAgent in levels {
      resolved := multiAgent;
    } else if "max" in levels {
      resolved := "max";
    } else {
      var i := |levels|;
      assert levels[..i] == levels;
      while i > 0
        invariant 0 <= i <= |levels| && LastOther(levels) == LastOther(levels[..i])
      {
        assert levels[..i][..i - 1] == levels[..i - 1];
        if levels[i - 1] != ULTRA {
          break;
        }
        i := i - 1;
      }
      if i > 0 {
        resolved := levels[i - 1];
      }
    }
    assert "max" != ULTRA;
    if resolved == "" || resolved == ULTRA {
      return map[];
    }
    aliases := map[ULTRA := resolved];
  }

  function ResolveCodexEffort(value: Effort, aliases: map<Effort, Effort>): Effort {
    if value == PERSISTENT then "" else if value in aliases then aliases[value] else value
  }

  /** What a level resolves to resolves to itself, for stable aliases. */
  lemma ResolvedIsFinal(value: Effort, levels: seq<Effort>, multiAgent: Effort)
    requires PERSISTENT !in levels
    ensures var aliases := Aliases(levels, multiAgent); var once := ResolveCodexEffort(value, aliases);
      ResolveCodexEffort(once, aliases) == once && once != PERSISTENT
  {
    AliasTargets(levels, multiAgent);
    assert ULTRA != "" && PERSISTENT != "";
  }

  lemma {:induction false} LastOtherAt(levels: seq<Effort>, k: nat)
    requires k < |levels| && levels[k] != ULTRA && forall i :: k < i < |levels| ==> levels[i] == ULTRA
    ensures LastOther(levels) == levels[k]
    decreases |levels|
  {
    if k < |levels| - 1 {
      LastOtherAt(levels[..|levels| - 1], k);
    }
  }

  lemma {:induction false} NoOther(levels: seq<Effort>)
    requires forall v :: v in levels ==> v == ULTRA
    ensures LastOther(levels) == ""
    decreases |levels|
  {
    if levels != [] {
      var n := |levels| - 1;
      assert levels == levels[..n] + [levels[n]];
      assert levels[n] in levels && forall v :: v in levels[..n] ==> v in levels;
      NoOther(levels[..n]);
    }
  }

  // The level at k is the last one that is not "ultra".
  ghost predicate LastBefore(levels: seq<Effort>, k: nat) {
    k < |levels| && levels[k] != "ultra" && forall i :: k < i < |levels| ==> levels[i] == "ultra"
  }

  /** What goes on the wire for an effort: nothing for the client-local one, and for an
      "ultra" the model lists the effort it uses with several agents, if it lists that, or
      else "max", or else its last other level. Any other effort stands for itself, and so
      does "ultra" where nothing can stand for it. */
  lemma EffortOnTheWire(value: Effort, levels: seq<Effort>, multiAgent: Effort, k: nat)
    ensures var wire := ResolveCodexEffort(value, Aliases(levels, multiAgent));
      var agents := multiAgent in levels && multiAgent != "ultra" && multiAgent != "";
      && (value == "persistent" ==> wire == "")
      && (value != "persistent" && value != "ultra" ==> wire == value)
      && (value == "ultra" && "ultra" !in levels ==> wire == "ultra")
      && (value == "ultra" && "ultra" in levels && agents ==> wire == multiAgent)
      && (value == "ultra" && "ultra" in levels && !agents && "max" in levels ==> wire == "max")
      && (value == "ultra" && "ultra" in levels && !agents && "max" !in levels && LastBefore(levels, k) ==>
            wire == if levels[k] == "" then "ultra" else levels[k])
      && (value == "ultra" && (forall v :: v in levels ==> v == "ultra") ==> wire == "ultra")
  {
    assert ULTRA != PERSISTENT && "max" != ULTRA;
    if LastBefore(levels, k) {
      LastOtherAt(levels, k);
    }
    if forall v :: v in levels ==> v == ULTRA {
      NoOther(levels);
    }
  }

  /** The known efforts come in this order, before all others. */
  lemma EffortsAreRanked(values: seq<Effort>, i: nat, j: nat)
    requires i < j < |Sorted(CANONICAL, values)|
    ensures var ranks := ["none", "minimal", "low", "medium", "high", "xhigh", "max"];
      var a, b := Sorted(CANONICAL, values)[i], Sorted(CANONICAL, values)[j];
      b in ranks ==> exists m, n :: 0 <= m < n < |ranks| && ranks[m] == a && ranks[n] == b
  {
    hide IndexIn;
    hide Sorted;
    CanonicalIsDistinct();
    SortedOrder(CANONICAL, values, i, j);
  }
}
