/**
 Normalizing twice is normalizing once, exactly when the aliases lead to final efforts.
 */
module CodexProofs {
  import opened Json
  import opened CodexRequest

  // What a caller can check of an alias table: no alias leads to another, or to the
  // client-local effort.
  predicate Stable(aliases: map<string, string>) {
    forall k :: k in aliases && k != PERSISTENT ==>
      aliases[k] != PERSISTENT && (aliases[k] in aliases ==> aliases[aliases[k]] == aliases[k])
  }

  /******* What a normalized request looks like *******/

  predicate EffortOk(reasoning: Object, aliases: map<string, string>) {
    var effort := Get(reasoning, "effort");
    effort != Str(PERSISTENT) && (effort.Str? && effort.s in aliases ==> aliases[effort.s] == effort.s)
  }

  predicate ReasoningOk(reasoning: Json, encrypted: Json, aliases: map<string, string>) {
    reasoning.Obj? ==>
      && EffortOk(reasoning.fields, aliases)
      && (Active(reasoning.fields) ==> "summary" in reasoning.fields && encrypted.Arr? && Str(ENCRYPTED) in encrypted.items)
  }

  predicate BlocksOk(blocks: seq<Json>) {
    forall b :: b in blocks && b.Obj? ==> Get(b.fields, "type") != Str("input_text")
  }

  predicate ItemOk(item: Json) {
    !IsSystem(item) && (item.Obj? && Role(item) == "assistant" && Get(item.fields, "content").Arr? ==>
      BlocksOk(item.fields["content"].items))
  }

  predicate InputOk(input: Json) {
    && !input.Null? && !input.Str?
    && (input.Arr? ==> input.items != [] && forall item :: item in input.items ==> ItemOk(item))
  }

  predicate EndOk(o: Object) {
    && Get(o, "stream") == Bool(true) && Get(o, "store") == Bool(false)
    && TextOf(Get(o, "instructions")) != "" && DROPPED !! o.Keys
  }

  predicate Normal(o: Object, aliases: map<string, string>) {
    ReasoningOk(Get(o, "reasoning"), Get(o, "include"), aliases) && InputOk(Get(o, "input")) && EndOk(o)
  }

  // Only the given keys differ.
  ghost predicate Frame(before: Object, after: Object, touched: set<string>) {
    forall k :: k !in touched ==> Get(after, k) == Get(before, k)
  }

  /******* Items *******/

  lemma {:induction false} BlocksAreFixed(blocks: seq<Json>)
    ensures BlocksOk(BlocksFixed(blocks)) && (BlocksOk(blocks) ==> BlocksFixed(blocks) == blocks)
  {
    if blocks != [] {
      BlocksAreFixed(blocks[1..]);
      assert BlocksOk(blocks) ==> BlocksOk(blocks[1..]);
      assert blocks == [blocks[0]] + blocks[1..];
      if blocks[0].Obj? && Get(blocks[0].fields, "type") == Str("input_text") {
        assert "input_text" != "output_text";
      }
    }
  }

  lemma ItemIsFixed(item: Json)
    requires !IsSystem(item)
    ensures ItemOk(ItemFixed(item)) && (ItemOk(item) ==> ItemFixed(item) == item)
  {
    if item.Obj? && Role(item) == "assistant" && Get(item.fields, "content").Arr? {
      BlocksAreFixed(item.fields["content"].items);
      assert "content" != "role";
      assert Get(item.fields["content" := Arr(BlocksFixed(item.fields["content"].items))], "role") == Get(item.fields, "role");
    }
  }

  lemma {:induction false} KeptIsOk(items: seq<Json>)
    ensures forall item :: item in Kept(items) ==> ItemOk(item)
    ensures (forall item :: item in items ==> ItemOk(item)) ==> Kept(items) == items && SystemTexts(items) == []
  {
    hide ItemFixed;
    if items != [] {
      KeptIsOk(items[1..]);
      assert items == [items[0]] + items[1..];
      assert forall item :: item in items[1..] ==> item in items;
      assert items[0] in items;
      if !IsSystem(items[0]) {
        ItemIsFixed(items[0]);
      }
    }
  }

  /******* Steps *******/

  lemma EffortStep(o: Object, aliases: map<string, string>)
    requires Stable(aliases)
    ensures var t := EffortResolved(o, aliases);
      Frame(o, t, {"reasoning"}) && (Get(t, "reasoning").Obj? ==> EffortOk(Get(t, "reasoning").fields, aliases))
  {
  }

  lemma SummaryStep(o: Object, aliases: map<string, string>)
    requires Get(o, "reasoning").Obj? ==> EffortOk(Get(o, "reasoning").fields, aliases)
    ensures var t := SummaryAsked(o);
      Frame(o, t, {"reasoning", "include"}) && ReasoningOk(Get(t, "reasoning"), Get(t, "include"), aliases)
  {
    assert "reasoning" != "include" && "summary" != "effort";
    var reasoning := Get(o, "reasoning");
    if reasoning.Obj? && Active(reasoning.fields) {
      var r := WithSummary(reasoning.fields);
      assert Get(r, "effort") == Get(reasoning.fields, "effort");
    }
  }

  lemma WrapStep(o: Object)
    ensures var t := InputWrapped(o);
      Frame(o, t, {"input"}) && !Get(t, "input").Null? && !Get(t, "input").Str?
  {
  }

  lemma MoveStep(o: Object)
    requires !Get(o, "input").Null? && !Get(o, "input").Str?
    ensures var t := SystemMoved(o); var input := Get(t, "input");
      && Frame(o, t, {"input", "instructions"}) && !input.Null? && !input.Str?
      && (input.Arr? ==> forall item :: item in input.items ==> ItemOk(item))
  {
    assert "input" != "instructions";
    if Get(o, "input").Arr? {
      KeptIsOk(Get(o, "input").items);
    }
  }

  lemma DefaultItemOk()
    ensures UserMessage("...").Arr? && |UserMessage("...").items| == 1 && ItemOk(UserMessage("...").items[0])
  {
    var fields := UserMessage("...").items[0].fields;
    assert "role" != "type" && "role" != "content";
    assert Get(fields, "role") == Str("user");
    assert "user" != "system" && "user" != "developer" && "user" != "assistant";
  }

  lemma FillStep(o: Object)
    requires var input := Get(o, "input");
      !input.Null? && !input.Str? && (input.Arr? ==> forall item :: item in input.items ==> ItemOk(item))
    ensures Frame(o, NeverEmpty(o), {"input"}) && InputOk(Get(NeverEmpty(o), "input"))
  {
    DefaultItemOk();
  }

  lemma KeysDiffer()
    ensures {"reasoning", "include", "input", "instructions", "stream", "store"} !! DROPPED
    ensures {"reasoning", "include", "input"} !! {"instructions", "stream", "store"}
    ensures "stream" != "store" && "stream" != "instructions" && "store" != "instructions"
  {
  }

  lemma FinishStep(o: Object)
    ensures EndOk(Finished(o)) && Frame(o, Finished(o), DROPPED + {"stream", "store", "instructions"})
  {
    KeysDiffer();
    assert DEFAULT_INSTRUCTIONS != "";
  }

  /** A normalized request: no system or developer item, a non-empty input list where it is
      a list, non-empty instructions, and none of the fields the backend rejects. */
  lemma CodexNormalizes(o: Object, aliases: map<string, string>)
    requires Stable(aliases)
    ensures Normal(Codex(o, aliases), aliases)
  {
    hide *;
    var a := EffortResolved(o, aliases);
    var b := SummaryAsked(a);
    var c := InputWrapped(b);
    var d := SystemMoved(c);
    var e := NeverEmpty(d);
    EffortStep(o, aliases);
    SummaryStep(a, aliases);
    WrapStep(b);
    MoveStep(c);
    FillStep(d);
    FinishStep(e);
    Collected(b, c, d, e, aliases);
    CodexIs(o, aliases);
  }

  lemma CodexIs(o: Object, aliases: map<string, string>)
    ensures Codex(o, aliases) == Finished(NeverEmpty(SystemMoved(InputWrapped(SummaryAsked(EffortResolved(o, aliases))))))
  {
  }

  lemma Collected(b: Object, c: Object, d: Object, e: Object, aliases: map<string, string>)
    requires ReasoningOk(Get(b, "reasoning"), Get(b, "include"), aliases)
    requires Frame(b, c, {"input"}) && Frame(c, d, {"input", "instructions"}) && Frame(d, e, {"input"})
    requires InputOk(Get(e, "input")) && EndOk(Finished(e)) && Frame(e, Finished(e), DROPPED + {"stream", "store", "instructions"})
    ensures Normal(Finished(e), aliases)
  {
    hide Finished;
    hide ReasoningOk;
    hide InputOk;
    hide EndOk;
    KeysDiffer();
    forall k | k in {"reasoning", "include"}
      ensures Get(Finished(e), k) == Get(b, k)
    {
      assert k != "input" && k != "instructions";
    }
  }

  /******* Normalized requests are left alone *******/

  lemma UpdateSame(o: Object, k: string)
    requires k in o
    ensures o[k := o[k]] == o
  {
  }

  lemma ReasoningIsFixed(o: Object, aliases: map<string, string>)
    requires ReasoningOk(Get(o, "reasoning"), Get(o, "include"), aliases)
    ensures EffortResolved(o, aliases) == o && SummaryAsked(o) == o
  {
    var reasoning := Get(o, "reasoning");
    if reasoning.Obj? {
      var effort := Get(reasoning.fields, "effort");
      if effort.Str? && effort.s in aliases {
        UpdateSame(reasoning.fields, "effort");
      }
      UpdateSame(o, "reasoning");
      if Active(reasoning.fields) {
        UpdateSame(o, "include");
      }
    }
  }

  lemma InputIsFixed(o: Object)
    requires InputOk(Get(o, "input"))
    ensures InputWrapped(o) == o && SystemMoved(o) == o && NeverEmpty(o) == o
  {
    if Get(o, "input").Arr? {
      KeptIsOk(Get(o, "input").items);
      UpdateSame(o, "input");
    }
  }

  lemma EndIsFixed(o: Object)
    requires EndOk(o)
    ensures Finished(o) == o
  {
    KeysDiffer();
    UpdateSame(o, "stream");
    UpdateSame(o, "store");
  }

  lemma NormalIsFixed(o: Object, aliases: map<string, string>)
    requires Normal(o, aliases)
    ensures Codex(o, aliases) == o
  {
    hide EffortResolved;
    hide SummaryAsked;
    hide InputWrapped;
    hide SystemMoved;
    hide NeverEmpty;
    hide Finished;
    ReasoningIsFixed(o, aliases);
    InputIsFixed(o);
    EndIsFixed(o);
  }

  /** The requests normalization leaves alone are exactly the normal ones. */
  lemma FixedIffNormal(o: Object, aliases: map<string, string>)
    requires Stable(aliases)
    ensures Codex(o, aliases) == o <==> Normal(o, aliases)
  {
    hide *;
    CodexNormalizes(o, aliases);
    if Normal(o, aliases) {
      NormalIsFixed(o, aliases);
    }
  }

  /******* Exactly when it is idempotent *******/

  function EffortOf(o: Object): Json {
    if Get(o, "reasoning").Obj? then Get(Get(o, "reasoning").fields, "effort") else Null
  }

  // The later steps do not touch the effort.
  lemma EffortFlows(o: Object, aliases: map<string, string>)
    ensures EffortOf(Codex(o, aliases)) == EffortOf(EffortResolved(o, aliases))
  {
    hide *;
    var a := EffortResolved(o, aliases);
    var b := SummaryAsked(a);
    var c := InputWrapped(b);
    var d := SystemMoved(c);
    CodexIs(o, aliases);
    WrapStep(b);
    MoveStep(c);
    FillFrame(d);
    FinishStep(NeverEmpty(d));
    SummaryKeepsEffort(a);
    SameEffort(b, c, d, NeverEmpty(d), Finished(NeverEmpty(d)));
  }

  lemma FillFrame(o: Object)
    ensures Frame(o, NeverEmpty(o), {"input"})
  {
  }

  lemma SummaryKeepsEffort(o: Object)
    ensures EffortOf(SummaryAsked(o)) == EffortOf(o)
  {
    assert "reasoning" != "include" && "summary" != "effort";
  }

  lemma SameEffort(b: Object, c: Object, d: Object, e: Object, f: Object)
    requires Frame(b, c, {"input"}) && Frame(c, d, {"input", "instructions"}) && Frame(d, e, {"input"})
    requires Frame(e, f, DROPPED + {"stream", "store", "instructions"})
    ensures EffortOf(f) == EffortOf(b)
  {
    KeysDiffer();
    assert "reasoning" !in {"input", "instructions"};
  }

  lemma UnstableWitness(aliases: map<string, string>, k: string)
    requires k in aliases && k != PERSISTENT
    requires aliases[k] == PERSISTENT || (aliases[k] in aliases && aliases[aliases[k]] != aliases[k])
    ensures var o := map["reasoning" := Obj(map["effort" := Str(k)])];
      Codex(Codex(o, aliases), aliases) != Codex(o, aliases)
  {
    hide Codex;
    var o: Object := map["reasoning" := Obj(map["effort" := Str(k)])];
    var once := Codex(o, aliases);
    EffortFlows(o, aliases);
    EffortFlows(once, aliases);
    assert EffortOf(once) == Str(aliases[k]);
    assert EffortOf(EffortResolved(once, aliases)) != Str(aliases[k]);
  }

  /** Normalizing is idempotent on all JSON objects if and only if the alias table is
      stable. */
  lemma IdempotentIff(aliases: map<string, string>)
    ensures Stable(aliases) <==> forall o: Object :: Codex(Codex(o, aliases), aliases) == Codex(o, aliases)
  {
    hide Codex;
    if Stable(aliases) {
      forall o: Object
        ensures Codex(Codex(o, aliases), aliases) == Codex(o, aliases)
      {
        CodexNormalizes(o, aliases);
        NormalIsFixed(Codex(o, aliases), aliases);
      }
    } else {
      var k :| k in aliases && k != PERSISTENT &&
        !(aliases[k] != PERSISTENT && (aliases[k] in aliases ==> aliases[aliases[k]] == aliases[k]));
      UnstableWitness(aliases, k);
    }
  }
}
