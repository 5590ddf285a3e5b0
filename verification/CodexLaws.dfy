/**
 What normalizeCodexRequest (internal/server/codex_request.go) makes of a request, field by
 field, for every request and alias table.
 */
module CodexLaws {
  import opened Wrappers
  import opened Json
  import opened Strings
  import opened CodexRequest
  import opened CodexProofs

  // The field is the same in both, or in neither.
  ghost predicate Same(before: Object, after: Object, k: string) {
    (k in after <==> k in before) && (k in before ==> after[k] == before[k])
  }

  ghost predicate SameBut(before: Object, after: Object, touched: set<string>) {
    forall k :: k !in touched ==> Same(before, after, k)
  }

  /******* The other fields *******/

  lemma EffortFrame(o: Object, aliases: map<string, string>)
    ensures SameBut(o, EffortResolved(o, aliases), {"reasoning"})
  {
    hide Resolved;
  }

  lemma SummaryFrame(o: Object)
    ensures SameBut(o, SummaryAsked(o), {"reasoning", "include"})
  {
    hide WithSummary;
    hide WithEncrypted;
    hide Active;
  }

  lemma WrapFrame(o: Object)
    ensures SameBut(o, InputWrapped(o), {"input"})
  {
    hide UserMessage;
  }

  lemma MoveFrame(o: Object)
    ensures SameBut(o, SystemMoved(o), {"input", "instructions"})
  {
    hide SystemTexts;
    hide Kept;
  }

  lemma FillsFrame(o: Object)
    ensures SameBut(o, NeverEmpty(o), {"input"})
  {
    hide UserMessage;
  }

  lemma FinishFrame(o: Object)
    ensures SameBut(o, Finished(o), DROPPED + {"stream", "store", "instructions"})
  {
  }

  lemma Chains(a: Object, b: Object, c: Object, k: string)
    requires Same(a, b, k) && Same(b, c, k)
    ensures Same(a, c, k)
  {
  }

  lemma RequestKeys()
    ensures "reasoning" != "include" && "reasoning" != "input" && "reasoning" != "instructions"
    ensures "include" != "input" && "include" != "instructions" && "input" != "instructions"
    ensures {"reasoning", "include", "input"} !! DROPPED + {"stream", "store", "instructions"}
    ensures "instructions" !in DROPPED && "stream" !in DROPPED && "store" !in DROPPED
  {
    KeysDiffer();
    assert "reasoning" != "include" && "reasoning" != "input" && "include" != "input";
  }

  // The request between the passes.
  function Reasoned(o: Object, aliases: map<string, string>): Object {
    SummaryAsked(EffortResolved(o, aliases))
  }

  function Moved(o: Object, aliases: map<string, string>): Object {
    NeverEmpty(SystemMoved(InputWrapped(Reasoned(o, aliases))))
  }

  // Which pass settles which field.
  lemma Settled(o: Object, aliases: map<string, string>, k: string)
    ensures k !in {"input", "instructions", "stream", "store"} + DROPPED ==> Same(Reasoned(o, aliases), Codex(o, aliases), k)
    ensures k !in {"reasoning", "include"} ==> Same(o, Reasoned(o, aliases), k)
    ensures k !in {"instructions", "stream", "store"} + DROPPED ==> Same(Moved(o, aliases), Codex(o, aliases), k)
    ensures Codex(o, aliases) == Finished(Moved(o, aliases))
  {
    hide *;
    var a := EffortResolved(o, aliases);
    var b := SummaryAsked(a);
    var c := InputWrapped(b);
    var d := SystemMoved(c);
    var e := NeverEmpty(d);
    EffortFrame(o, aliases);
    SummaryFrame(a);
    WrapFrame(b);
    MoveFrame(c);
    FillsFrame(d);
    FinishFrame(e);
    CodexIs(o, aliases);
    PassesAre(o, aliases);
    Steps(o, a, b, c, d, e, k);
  }

  lemma PassesAre(o: Object, aliases: map<string, string>)
    ensures Reasoned(o, aliases) == SummaryAsked(EffortResolved(o, aliases))
    ensures Moved(o, aliases) == NeverEmpty(SystemMoved(InputWrapped(Reasoned(o, aliases))))
  {
  }

  lemma Steps(o: Object, a: Object, b: Object, c: Object, d: Object, e: Object, k: string)
    requires SameBut(o, a, {"reasoning"}) && SameBut(a, b, {"reasoning", "include"}) && SameBut(b, c, {"input"})
    requires SameBut(c, d, {"input", "instructions"}) && SameBut(d, e, {"input"})
    requires SameBut(e, Finished(e), DROPPED + {"stream", "store", "instructions"})
    ensures k !in {"input", "instructions", "stream", "store"} + DROPPED ==> Same(b, Finished(e), k)
    ensures k !in {"reasoning", "include"} ==> Same(o, b, k)
    ensures k !in {"instructions", "stream", "store"} + DROPPED ==> Same(e, Finished(e), k)
  {
    hide Finished;
    hide Same;
    if k !in {"input", "instructions", "stream", "store"} + DROPPED {
      assert Same(b, c, k) && Same(c, d, k) && Same(d, e, k) && Same(e, Finished(e), k);
      Chains(b, c, d, k);
      Chains(b, d, e, k);
      Chains(b, e, Finished(e), k);
    }
    if k !in {"reasoning", "include"} {
      assert Same(o, a, k) && Same(a, b, k);
      Chains(o, a, b, k);
    }
  }

  // What the Codex backend rejects.
  const REJECTED := ["max_tokens", "max_completion_tokens", "max_output_tokens", "temperature", "top_p", "metadata",
                     "stream_options", "previous_response_id", "user"]

  /** The request streams and is not stored, the fields the backend rejects are gone, and
      every field the passes are not about comes through as it was. */
  lemma OtherFieldsStay(o: Object, aliases: map<string, string>)
    ensures var t := Codex(o, aliases);
      && Get(t, "stream") == Bool(true) && Get(t, "store") == Bool(false)
      && (forall k :: k in REJECTED ==> k !in t)
      && (forall k :: k !in REJECTED && k !in {"reasoning", "include", "input", "instructions", "stream", "store"} ==> Same(o, t, k))
  {
    hide Codex;
    hide Moved;
    hide Reasoned;
    Settled(o, aliases, "stream");
    FinishStep(Moved(o, aliases));
    var t := Codex(o, aliases);
    forall k | k !in {"reasoning", "include", "input", "instructions", "stream", "store"} + DROPPED
      ensures Same(o, t, k)
    {
      Settled(o, aliases, k);
      Chains(o, Reasoned(o, aliases), t, k);
    }
  }

  /******* Reasoning *******/

  // The effort a reasoning object ends up with; None when it names the client-local one.
  function Effort(reasoning: Object, aliases: map<string, string>): Option<Json> {
    if "effort" !in reasoning then None
    else if reasoning["effort"] == Str("persistent") then None
    else if reasoning["effort"].Str? && reasoning["effort"].s in aliases then Some(Str(aliases[reasoning["effort"].s]))
    else Some(reasoning["effort"])
  }

  // Reasoning is asked for by an effort that is neither empty nor "none".
  predicate Asked(effort: Option<Json>) {
    effort.Some? && effort.value.Str? && effort.value.s != "" && effort.value.s != "none"
  }

  // The include list with the entry for encrypted reasoning, once.
  ghost predicate Includes(before: Json, after: Json) {
    var entry := Str("reasoning.encrypted_content");
    var list := if before.Arr? then before.items else [];
    after == Arr(if entry in list then list else list + [entry])
  }

  ghost predicate ReasonedTo(o: Object, t: Object, aliases: map<string, string>) {
    if !Get(o, "reasoning").Obj? then Same(o, t, "reasoning") && Same(o, t, "include")
    else
      var before := o["reasoning"].fields;
      var effort := Effort(before, aliases);
      if before == map["effort" := Str("persistent")] then "reasoning" !in t && Same(o, t, "include")
      else
        && Get(t, "reasoning").Obj?
        && var after := t["reasoning"].fields;
        && (effort.Some? ==> Get(after, "effort") == effort.value) && ("effort" in after <==> effort.Some?)
        && (forall k :: k !in {"effort", "summary"} ==> Same(before, after, k))
        && ("summary" in before || !Asked(effort) ==> Same(before, after, "summary"))
        && ("summary" !in before && Asked(effort) ==> Get(after, "summary") == Str("auto"))
        && (if Asked(effort) then Includes(Get(o, "include"), Get(t, "include")) else Same(o, t, "include"))
  }

  lemma OnlyEffort(r: Object)
    requires "effort" in r
    ensures r - {"effort"} == map[] <==> r == map["effort" := r["effort"]]
  {
    if r - {"effort"} == map[] {
      forall k | k in r
        ensures k == "effort"
      {
        assert k != "effort" ==> k in r - {"effort"};
      }
      assert r == map["effort" := r["effort"]];
    } else {
      var k :| k in r - {"effort"};
      assert k !in map["effort" := r["effort"]];
    }
  }

  lemma ResolvedIs(r: Object, aliases: map<string, string>)
    ensures var t := Resolved(r, aliases);
      && (t.None? <==> r == map["effort" := Str("persistent")])
      && (t.Some? ==>
            && ("effort" in t.value <==> Effort(r, aliases).Some?)
            && ("effort" in t.value ==> t.value["effort"] == Effort(r, aliases).value)
            && (forall k :: k != "effort" ==> Same(r, t.value, k))
            && (Active(t.value) <==> Asked(Effort(r, aliases))))
  {
    if "effort" in r {
      OnlyEffort(r);
    }
  }

  lemma SummaryOnly(r: Object, after: Object, before: Object, aliases: map<string, string>)
    requires Resolved(before, aliases) == Some(r) && after == if Active(r) then WithSummary(r) else r
    ensures var effort := Effort(before, aliases);
      && ("effort" in after <==> effort.Some?) && (effort.Some? ==> after["effort"] == effort.value)
      && (forall k :: k !in {"effort", "summary"} ==> Same(before, after, k))
      && ("summary" in before || !Asked(effort) ==> Same(before, after, "summary"))
      && ("summary" !in before && Asked(effort) ==> Get(after, "summary") == Str("auto"))
  {
    hide Resolved;
    hide Active;
    hide Effort;
    assert "summary" != "effort";
    ResolvedIs(before, aliases);
    assert Same(before, r, "summary");
    forall k | k !in {"effort", "summary"}
      ensures Same(before, after, k)
    {
      assert Same(before, r, k) && Same(r, after, k);
    }
  }

  lemma ReasonedIs(o: Object, aliases: map<string, string>)
    ensures ReasonedTo(o, Reasoned(o, aliases), aliases)
  {
    hide Resolved;
    hide Active;
    assert "reasoning" != "include" && "summary" != "effort";
    var a, t := EffortResolved(o, aliases), Reasoned(o, aliases);
    assert t == SummaryAsked(a) && Same(o, a, "include");
    if Get(o, "reasoning").Obj? {
      var before := o["reasoning"].fields;
      ResolvedIs(before, aliases);
      if Resolved(before, aliases).None? {
        assert t == a && "reasoning" !in a;
      } else {
        var r := Resolved(before, aliases).value;
        assert Get(a, "reasoning") == Obj(r);
        var after := Get(t, "reasoning").fields;
        SummaryOnly(r, after, before, aliases);
      }
    }
  }

  /** The client-local effort goes, and with it a reasoning object that held nothing else; an
      alias is replaced by what it stands for. Where reasoning is then asked for, a missing
      summary is "auto" and the include list gains the entry for encrypted reasoning. All else
      of the reasoning object stays. */
  lemma ReasoningBecomes(o: Object, aliases: map<string, string>)
    ensures ReasonedTo(o, Codex(o, aliases), aliases)
  {
    hide Codex;
    hide Moved;
    hide Reasoned;
    RequestKeys();
    Settled(o, aliases, "reasoning");
    Settled(o, aliases, "include");
    ReasonedIs(o, aliases);
  }

  /******* Input *******/

  // One user message of one text block.
  ghost predicate IsUserText(input: Json, text: string) {
    && input.Arr? && |input.items| == 1 && input.items[0].Obj?
    && var message := input.items[0].fields;
    && message.Keys == {"type", "role", "content"}
    && message["type"] == Str("message") && message["role"] == Str("user")
    && message["content"] == Arr([Obj(map["type" := Str("input_text"), "text" := Str(text)])])
  }

  predicate SystemOrDeveloper(item: Json) {
    item.Obj? && "role" in item.fields && item.fields["role"] in {Str("system"), Str("developer")}
  }

  function Others(items: seq<Json>): seq<Json> {
    if items == [] then []
    else (if SystemOrDeveloper(items[0]) then [] else [items[0]]) + Others(items[1..])
  }

  function Systems(items: seq<Json>): seq<Json> {
    if items == [] then []
    else (if SystemOrDeveloper(items[0]) then [items[0]] else []) + Systems(items[1..])
  }

  // An input text block of the assistant's becomes an output text block, its text kept.
  ghost predicate BlockCorrected(before: Json, after: Json) {
    if before.Obj? && Get(before.fields, "type") == Str("input_text") then
      after.Obj? && Get(after.fields, "type") == Str("output_text") && SameBut(before.fields, after.fields, {"type"})
    else after == before
  }

  ghost predicate ItemCorrected(before: Json, after: Json) {
    if before.Obj? && Get(before.fields, "role") == Str("assistant") && Get(before.fields, "content").Arr? then
      && after.Obj? && SameBut(before.fields, after.fields, {"content"}) && Get(after.fields, "content").Arr?
      && var given, fixed := before.fields["content"].items, after.fields["content"].items;
      |fixed| == |given| && forall i :: 0 <= i < |given| ==> BlockCorrected(given[i], fixed[i])
    else after == before
  }

  ghost predicate Carried(before: seq<Json>, after: seq<Json>) {
    |after| == |before| && forall i :: 0 <= i < |before| ==> ItemCorrected(before[i], after[i])
  }

  ghost predicate InputTo(before: Json, after: Json) {
    match before
    case Str(s) => IsUserText(after, s)
    case Null => IsUserText(after, "...")
    case Arr(items) => if Others(items) == [] then IsUserText(after, "...") else after.Arr? && Carried(Others(items), after.items)
    case _ => after == before
  }

  lemma SystemIs(item: Json)
    ensures IsSystem(item) <==> SystemOrDeveloper(item)
  {
  }

  lemma {:induction false} BlocksCorrected(blocks: seq<Json>)
    ensures |BlocksFixed(blocks)| == |blocks|
    ensures forall i :: 0 <= i < |blocks| ==> BlockCorrected(blocks[i], BlocksFixed(blocks)[i])
  {
    if blocks != [] {
      BlocksCorrected(blocks[1..]);
    }
  }

  lemma ItemIsCorrected(item: Json)
    ensures ItemCorrected(item, ItemFixed(item))
  {
    hide BlocksFixed;
    if item.Obj? && Get(item.fields, "content").Arr? {
      BlocksCorrected(item.fields["content"].items);
    }
  }

  lemma {:induction false} KeptIs(items: seq<Json>)
    ensures Carried(Others(items), Kept(items))
  {
    hide ItemFixed;
    hide ItemCorrected;
    hide IsSystem;
    hide SystemOrDeveloper;
    if items != [] {
      SystemIs(items[0]);
      ItemIsCorrected(items[0]);
      KeptIs(items[1..]);
    }
  }

  lemma UserMessageIs(text: string)
    ensures IsUserText(UserMessage(text), text)
    ensures UserMessage(text).Arr? && Kept(UserMessage(text).items) == UserMessage(text).items
    ensures SystemTexts(UserMessage(text).items) == []
  {
    assert "role" != "type" && "role" != "content" && "type" != "content";
    assert "user" != "system" && "user" != "developer" && "user" != "assistant";
    var items := UserMessage(text).items;
    assert Get(items[0].fields, "role") == Str("user");
    assert !IsSystem(items[0]) && ItemFixed(items[0]) == items[0];
    assert items[1..] == [];
  }

  lemma MovedInput(o: Object)
    ensures InputTo(Get(o, "input"), Get(NeverEmpty(SystemMoved(InputWrapped(o))), "input"))
  {
    hide Kept;
    hide SystemTexts;
    hide UserMessage;
    hide IsUserText;
    hide ItemCorrected;
    assert "input" != "instructions";
    UserMessageIs("...");
    match Get(o, "input")
    case Str(s) => UserMessageIs(s);
    case Arr(items) => KeptIs(items);
    case _ =>
  }

  /** A text becomes one user message, and nothing at all a message of dots, as does a list
      that keeps no item. Otherwise the items that are neither system nor developer stay, in
      order; only an assistant's input text blocks turn into output text blocks. */
  lemma InputBecomes(o: Object, aliases: map<string, string>)
    ensures InputTo(Get(o, "input"), Get(Codex(o, aliases), "input"))
  {
    hide Codex;
    hide Reasoned;
    hide NeverEmpty;
    hide SystemMoved;
    hide InputWrapped;
    hide InputTo;
    RequestKeys();
    Settled(o, aliases, "input");
    MovedInput(Reasoned(o, aliases));
    assert Get(Reasoned(o, aliases), "input") == Get(o, "input");
  }

  /******* Instructions *******/

  function NonEmpty(texts: seq<string>): seq<string> {
    if texts == [] then [] else (if texts[0] == "" then [] else [texts[0]]) + NonEmpty(texts[1..])
  }

  // What the system and developer items say.
  function Said(items: seq<Json>): seq<string> {
    seq(|items|, i requires 0 <= i < |items| => if items[i].Obj? then InstructionText(Get(items[i].fields, "content")) else "")
  }

  // The texts to move to the front.
  function Fronted(input: Json): seq<string> {
    if input.Arr? then NonEmpty(Said(Systems(input.items))) else []
  }

  lemma {:induction false} TextsAre(items: seq<Json>)
    ensures SystemTexts(items) == NonEmpty(Said(Systems(items)))
  {
    hide InstructionText;
    if items == [] {
      assert Said([]) == [];
    } else {
      TextsAre(items[1..]);
      SystemIs(items[0]);
      if SystemOrDeveloper(items[0]) {
        var all := Said(Systems(items));
        assert all[1..] == Said(Systems(items[1..]));
      } else {
        assert Systems(items) == Systems(items[1..]);
      }
    }
  }

  // The instructions in the request, "" when there are none.
  function Existing(o: Object): string {
    if "instructions" in o && o["instructions"].Str? then o["instructions"].s else ""
  }

  ghost predicate InstructionsTo(o: Object, t: Object) {
    var fronted := Fronted(Get(o, "input"));
    var text := if fronted == [] then Existing(o) else TrimSpace(Join(fronted + [Existing(o)], "\n\n"));
    Get(t, "instructions") == Str(if text == "" then "You are Codex, a coding assistant." else text)
  }

  lemma MovedInstructions(o: Object)
    ensures InstructionsTo(o, Finished(NeverEmpty(SystemMoved(InputWrapped(o)))))
  {
    hide Kept;
    hide SystemTexts;
    hide UserMessage;
    hide Fronted;
    hide TrimSpace;
    hide Join;
    KeysDiffer();
    assert "input" != "instructions";
    UserMessageIs("...");
    FrontedIs(Get(o, "input"));
    match Get(o, "input")
    case Str(s) => UserMessageIs(s);
    case _ =>
  }

  lemma FrontedIs(input: Json)
    ensures Fronted(input) == if input.Arr? then SystemTexts(input.items) else []
  {
    if input.Arr? {
      TextsAre(input.items);
    }
  }

  /** The texts of the system and developer items, in order, go before the instructions given,
      a blank line between; without any the instructions stay, and where nothing is left the
      default stands. */
  lemma InstructionsBecome(o: Object, aliases: map<string, string>)
    ensures InstructionsTo(o, Codex(o, aliases))
  {
    hide Codex;
    hide Reasoned;
    hide NeverEmpty;
    hide SystemMoved;
    hide InputWrapped;
    hide Finished;
    RequestKeys();
    Settled(o, aliases, "input");
    Settled(o, aliases, "instructions");
    MovedInstructions(Reasoned(o, aliases));
    SameInstructions(o, Reasoned(o, aliases), Codex(o, aliases));
  }

  lemma SameInstructions(o: Object, b: Object, t: Object)
    requires Same(o, b, "input") && Same(o, b, "instructions") && InstructionsTo(b, t)
    ensures InstructionsTo(o, t)
  {
  }

  // The texts of a list, in its order.
  function Spoken(items: seq<Json>): seq<string> {
    seq(|items|, i requires 0 <= i < |items| => InstructionText(items[i]))
  }

  lemma {:induction false} ListTexts(items: seq<Json>)
    ensures InstructionTexts(items) == NonEmpty(Spoken(items))
  {
    hide InstructionText;
    if items == [] {
      assert Spoken([]) == [];
    } else {
      ListTexts(items[1..]);
      assert Spoken(items)[1..] == Spoken(items[1..]);
    }
  }

  /** A text speaks for itself, a list speaks its non-empty parts on lines of their own, and an
      object speaks its text, or else its content; nothing else speaks. */
  lemma InstructionTextIs(v: Json)
    ensures v.Str? ==> InstructionText(v) == v.s
    ensures v.Arr? ==> InstructionText(v) == Join(NonEmpty(Spoken(v.items)), "\n")
    ensures v.Obj? && "text" in v.fields ==> InstructionText(v) == InstructionText(v.fields["text"])
    ensures v.Obj? && "text" !in v.fields && "content" in v.fields ==> InstructionText(v) == InstructionText(v.fields["content"])
    ensures v.Obj? && "text" !in v.fields && "content" !in v.fields ==> InstructionText(v) == ""
    ensures !v.Str? && !v.Arr? && !v.Obj? ==> InstructionText(v) == ""
  {
    if v.Arr? {
      ListTexts(v.items);
    }
  }
}
