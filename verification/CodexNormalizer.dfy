/**
 normalizeCodexRequest as it runs: one pass over the decoded request, edited in place.
 */
module CodexNormalizer {
  import opened Wrappers
  import opened Json
  import opened Strings
  import opened CodexRequest

  /** ensureReasoningEncryptedContent. */
  method EnsureEncrypted(value: Json) returns (list: seq<Json>)
    ensures WithEncrypted(value) == Arr(list)
  {
    list := if value.Arr? then value.items else [];
    var i := 0;
    while i < |list|
      invariant 0 <= i <= |list| && Str(ENCRYPTED) !in list[..i]
    {
      if list[i] == Str(ENCRYPTED) {
        return;
      }
      assert list[..i + 1] == list[..i] + [list[i]];
      i := i + 1;
    }
    assert list[..i] == list;
    list := list + [Str(ENCRYPTED)];
  }

  lemma {:induction false} BlocksFixedAt(blocks: seq<Json>)
    ensures |BlocksFixed(blocks)| == |blocks|
    ensures forall k :: 0 <= k < |blocks| ==> BlocksFixed(blocks)[k] == BlockFixed(blocks[k])
  {
    hide BlockFixed;
    if blocks != [] {
      BlocksFixedAt(blocks[1..]);
    }
  }

  /** normalizeCodexAssistantContent: the blocks, edited in place. */
  method FixContent(blocks: array<Json>)
    modifies blocks
    ensures blocks[..] == BlocksFixed(old(blocks[..]))
  {
    BlocksFixedAt(blocks[..]);
    for i := 0 to blocks.Length
      invariant forall k :: 0 <= k < i ==> blocks[k] == BlockFixed(old(blocks[k]))
      invariant forall k :: i <= k < blocks.Length ==> blocks[k] == old(blocks[k])
    {
      FixBlock(blocks, i);
    }
  }

  method FixBlock(blocks: array<Json>, i: nat)
    requires i < blocks.Length
    modifies blocks
    ensures forall k :: 0 <= k < blocks.Length ==> blocks[k] == if k == i then BlockFixed(old(blocks[i])) else old(blocks[k])
  {
    var block := blocks[i];
    if block.Obj? && Get(block.fields, "type") == Str("input_text") {
      blocks[i] := Obj(block.fields["type" := Str("output_text")]);
    }
  }

  method FixItem(item: Json) returns (r: Json)
    ensures r == ItemFixed(item)
  {
    r := item;
    if item.Obj? && Role(item) == "assistant" && Get(item.fields, "content").Arr? {
      var content := item.fields["content"].items;
      var blocks := new Json[|content|](i requires 0 <= i < |content| => content[i]);
      assert blocks[..] == content;
      FixContent(blocks);
      r := Obj(item.fields["content" := Arr(blocks[..])]);
    }
  }

  function KeptOne(item: Json): seq<Json> {
    if IsSystem(item) then [] else [ItemFixed(item)]
  }

  function TextOne(item: Json): seq<string> {
    var text := if IsSystem(item) then InstructionText(Get(item.fields, "content")) else "";
    if text != "" then [text] else []
  }

  lemma {:induction false} KeptAppends(items: seq<Json>, last: Json)
    ensures Kept(items + [last]) == Kept(items) + KeptOne(last)
  {
    hide ItemFixed;
    hide IsSystem;
    if items == [] {
      assert items + [last] == [last] && [last][1..] == [];
    } else {
      assert (items + [last])[1..] == items[1..] + [last];
      KeptAppends(items[1..], last);
    }
  }

  lemma {:induction false} TextsAppend(items: seq<Json>, last: Json)
    ensures SystemTexts(items + [last]) == SystemTexts(items) + TextOne(last)
  {
    hide InstructionText;
    hide IsSystem;
    if items == [] {
      assert items + [last] == [last] && [last][1..] == [];
    } else {
      assert (items + [last])[1..] == items[1..] + [last];
      TextsAppend(items[1..], last);
    }
  }

  /** The scan of the input list. */
  method Scan(items: seq<Json>) returns (kept: seq<Json>, texts: seq<string>)
    ensures kept == Kept(items) && texts == SystemTexts(items)
  {
    hide ItemFixed;
    hide InstructionText;
    hide Kept;
    hide SystemTexts;
    kept, texts := [], [];
    ScanNone();
    for i := 0 to |items|
      invariant kept == Kept(items[..i]) && texts == SystemTexts(items[..i])
    {
      assert items[..i + 1] == items[..i] + [items[i]];
      KeptAppends(items[..i], items[i]);
      TextsAppend(items[..i], items[i]);
      var raw := items[i];
      if !IsSystem(raw) {
        var fixed := FixItem(raw);
        kept := kept + [fixed];
      } else {
        var text := InstructionText(Get(raw.fields, "content"));
        if text != "" {
          texts := texts + [text];
        }
      }
    }
    assert items[..|items|] == items;
  }

  lemma ScanNone()
    ensures Kept([]) == [] && SystemTexts([]) == []
  {
  }

  method ResolveEffort(o: Object, aliases: map<string, string>) returns (request: Object)
    ensures request == EffortResolved(o, aliases)
  {
    request := o;
    var value := Get(request, "reasoning");
    if !value.Obj? {
      return;
    }
    var reasoning := value.fields;
    var effort := Get(reasoning, "effort");
    if effort == Str(PERSISTENT) {
      reasoning := reasoning - {"effort"};
      if reasoning == map[] {
        request := request - {"reasoning"};
        return;
      }
    } else if effort.Str? {
      if effort.s in aliases {
        reasoning := reasoning["effort" := Str(aliases[effort.s])];
      }
    }
    request := request["reasoning" := Obj(reasoning)];
  }

  method AskSummary(o: Object) returns (request: Object)
    ensures request == SummaryAsked(o)
  {
    request := o;
    if Get(request, "reasoning").Obj? {
      var reasoning := request["reasoning"].fields;
      var effort := TextOf(Get(reasoning, "effort"));
      if effort != "" && effort != "none" {
        if "summary" !in reasoning {
          reasoning := reasoning["summary" := Str("auto")];
        }
        request := request["reasoning" := Obj(reasoning)];
        assert Get(request, "include") == Get(o, "include") by { assert "include" != "reasoning"; }
        var list := EnsureEncrypted(Get(request, "include"));
        request := request["include" := Arr(list)];
      }
    }
  }

  method MoveSystem(o: Object) returns (request: Object)
    ensures request == SystemMoved(o)
  {
    request := o;
    if Get(request, "input").Arr? {
      var kept, texts := Scan(request["input"].items);
      request := request["input" := Arr(kept)];
      if |texts| > 0 {
        assert Get(request, "instructions") == Get(o, "instructions") by { assert "input" != "instructions"; }
        var existing := TextOf(Get(request, "instructions"));
        request := request["instructions" := Str(TrimSpace(Join(texts + [existing], "\n\n")))];
      }
    }
  }

  method Finish(o: Object) returns (request: Object)
    ensures request == Finished(o)
  {
    request := o["stream" := Bool(true)];
    request := request["store" := Bool(false)];
    if !(Get(request, "instructions").Str? && request["instructions"].s != "") {
      request := request["instructions" := Str(DEFAULT_INSTRUCTIONS)];
    }
    request := request - DROPPED;
  }

  /** normalizeCodexRequest on a JSON object; a target without capabilities has no aliases. */
  method Normalize(o: Object, caps: Option<map<string, string>>) returns (request: Object)
    ensures request == Codex(o, if caps.Some? then caps.value else map[])
  {
    hide EffortResolved;
    hide SummaryAsked;
    hide SystemMoved;
    hide Finished;
    request := ResolveEffort(o, if caps.Some? then caps.value else map[]);
    request := AskSummary(request);
    match Get(request, "input") {
      case Str(s) => request := request["input" := UserMessage(s)];
      case Null => request := request["input" := UserMessage("...")];
      case _ =>
    }
    request := MoveSystem(request);
    if Get(request, "input").Arr? && |request["input"].items| == 0 {
      request := request["input" := UserMessage("...")];
    }
    request := Finish(request);
  }
}
