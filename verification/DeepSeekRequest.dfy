/**
 normalizeDeepSeekRequest (internal/server/deepseek_request.go): reasoning toggles mapped
 to DeepSeek's own field, and missing reasoning_content filled in when tools are present.
 */
module DeepSeekRequest {
  import opened Json

  function Thinking(o: Object, on: bool): Object {
    var thinking := Get(o, "thinking");
    var fields := if thinking.Obj? then thinking.fields else map[];
    o["thinking" := Obj(fields["type" := Str(if on then "enabled" else "disabled")])]
  }

  // The nested reasoning object is dropped once its toggle is expressed.
  function Toggled(o: Object): Object {
    var reasoning := Get(o, "reasoning");
    if !reasoning.Obj? then o
    else
      var enabled := Get(reasoning.fields, "enabled");
      (if enabled.Bool? then Thinking(o, enabled.b) else o) - {"reasoning"}
  }

  function EffortMapped(o: Object): Object {
    if Get(o, "reasoning_effort") == Str("none") then Thinking(o, false) - {"reasoning_effort"} else o
  }

  predicate NeedsContent(message: Json) {
    message.Obj? && Get(message.fields, "role") == Str("assistant") && "reasoning_content" !in message.fields
  }

  function Filled(message: Json): Json {
    if NeedsContent(message) then Obj(message.fields["reasoning_content" := Str("")]) else message
  }

  function FilledAll(messages: seq<Json>): seq<Json> {
    seq(|messages|, i requires 0 <= i < |messages| => Filled(messages[i]))
  }

  predicate HasTools(o: Object) {
    Get(o, "tools").Arr? && Get(o, "tools").items != []
  }

  function Backfilled(o: Object): Object {
    if HasTools(o) && Get(o, "messages").Arr? then o["messages" := Arr(FilledAll(o["messages"].items))] else o
  }

  function DeepSeek(o: Object): Object {
    Backfilled(EffortMapped(Toggled(o)))
  }

  // Nothing for the normalizer to do.
  predicate Native(o: Object) {
    && !Get(o, "reasoning").Obj?
    && Get(o, "reasoning_effort") != Str("none")
    && (HasTools(o) && Get(o, "messages").Arr? ==> forall m :: m in o["messages"].items ==> !NeedsContent(m))
  }

  /******* Properties *******/

  lemma FilledIsNative(messages: seq<Json>)
    ensures forall m :: m in FilledAll(messages) ==> !NeedsContent(m)
    ensures (forall m :: m in messages ==> !NeedsContent(m)) ==> FilledAll(messages) == messages
  {
    forall i | 0 <= i < |messages|
      ensures !NeedsContent(Filled(messages[i]))
    {
    }
    if forall m :: m in messages ==> !NeedsContent(m) {
      forall i | 0 <= i < |messages|
        ensures FilledAll(messages)[i] == messages[i]
      {
        assert messages[i] in messages;
      }
    }
  }

  lemma KeysDiffer()
    ensures "reasoning" !in {"thinking", "reasoning_effort", "messages", "tools"}
    ensures "reasoning_effort" !in {"thinking", "messages", "tools"}
    ensures "messages" !in {"thinking", "tools"} && "tools" != "thinking"
  {
  }

  /** A normalized request needs nothing more. */
  lemma DeepSeekIsNative(o: Object)
    ensures Native(DeepSeek(o))
  {
    KeysDiffer();
    var a, b := Toggled(o), EffortMapped(Toggled(o));
    ToggledIs(o);
    MappedIs(a);
    if HasTools(b) && Get(b, "messages").Arr? {
      FilledIsNative(b["messages"].items);
    }
  }

  lemma ToggledIs(o: Object)
    ensures !Get(Toggled(o), "reasoning").Obj?
    ensures Get(Toggled(o), "messages") == Get(o, "messages") && Get(Toggled(o), "tools") == Get(o, "tools")
  {
    KeysDiffer();
  }

  lemma MappedIs(o: Object)
    ensures Get(EffortMapped(o), "reasoning_effort") != Str("none")
    ensures forall k :: k in {"reasoning", "messages", "tools"} ==> Get(EffortMapped(o), k) == Get(o, k)
  {
    KeysDiffer();
  }

  /** A request that needs nothing comes back as it was. */
  lemma NativeIsFixed(o: Object)
    requires Native(o)
    ensures DeepSeek(o) == o
  {
    assert Toggled(o) == o && EffortMapped(o) == o;
    if HasTools(o) && Get(o, "messages").Arr? {
      FilledIsNative(o["messages"].items);
      assert o["messages" := o["messages"]] == o;
    }
  }

  /** A second pass changes nothing. */
  lemma DeepSeekIsIdempotent(o: Object)
    ensures DeepSeek(DeepSeek(o)) == DeepSeek(o)
  {
    hide DeepSeek;
    DeepSeekIsNative(o);
    NativeIsFixed(DeepSeek(o));
  }

  /** Messages keep their number, order and every field they have; only a missing
      reasoning_content is added, empty, and only when the request carries tools. */
  lemma MessagesKeepTheirFields(o: Object, i: nat, key: string)
    requires Get(o, "messages").Arr? && i < |o["messages"].items|
    ensures var out := Get(DeepSeek(o), "messages");
      && out.Arr? && |out.items| == |o["messages"].items|
      && var before, after := o["messages"].items[i], out.items[i];
      && (after == before || (HasTools(o) && NeedsContent(before)))
      && (before.Obj? ==> after.Obj? && (key in before.fields ==> key in after.fields && after.fields[key] == before.fields[key]))
      && (before.Obj? && NeedsContent(before) && HasTools(o) ==> after.fields["reasoning_content"] == Str(""))
  {
    ToggledIs(o);
    MappedIs(Toggled(o));
  }

  // The field is the same in both, or in neither.
  predicate Same(before: Object, after: Object, key: string) {
    (key in after <==> key in before) && (key in before ==> after[key] == before[key])
  }

  // Thinking is set to the type, its other fields kept.
  ghost predicate ThinksAs(o: Object, t: Object, kind: string) {
    var before := if Get(o, "thinking").Obj? then o["thinking"].fields else map[];
    && Get(t, "thinking").Obj? && Get(t["thinking"].fields, "type") == Str(kind)
    && forall k :: k != "type" ==> Same(before, t["thinking"].fields, k)
  }

  ghost predicate ToggledTo(o: Object, t: Object) {
    var reasoning := Get(o, "reasoning");
    if reasoning.Obj? && Get(reasoning.fields, "enabled") == Bool(true) then ThinksAs(o, t, "enabled")
    else if reasoning.Obj? && Get(reasoning.fields, "enabled") == Bool(false) then ThinksAs(o, t, "disabled")
    else Same(o, t, "thinking")
  }

  lemma TogglingIs(o: Object)
    ensures ToggledTo(o, Toggled(o))
    ensures if Get(o, "reasoning").Obj? then "reasoning" !in Toggled(o) else Same(o, Toggled(o), "reasoning")
    ensures forall k :: k !in {"thinking", "reasoning"} ==> Same(o, Toggled(o), k)
  {
    KeysDiffer();
  }

  lemma MappingIs(o: Object)
    ensures var t := EffortMapped(o);
      if Get(o, "reasoning_effort") == Str("none") then ThinksAs(o, t, "disabled") && "reasoning_effort" !in t
      else Same(o, t, "thinking") && Same(o, t, "reasoning_effort")
    ensures forall k :: k !in {"thinking", "reasoning_effort"} ==> Same(o, EffortMapped(o), k)
  {
    KeysDiffer();
  }

  lemma ThinksThrough(o: Object, a: Object, b: Object)
    requires ToggledTo(o, a) && ThinksAs(a, b, "disabled")
    ensures ThinksAs(o, b, "disabled")
  {
    var before := if Get(o, "thinking").Obj? then o["thinking"].fields else map[];
    var between := if Get(a, "thinking").Obj? then a["thinking"].fields else map[];
    forall k | k != "type"
      ensures Same(before, b["thinking"].fields, k)
    {
      assert Same(before, between, k) && Same(between, b["thinking"].fields, k);
    }
  }

  /** Thinking is off where the effort is "none", and else as reasoning.enabled says where it
      says so; its other fields stay. The reasoning object and that effort are gone, a
      reasoning field of another type and another effort stay, and so does every other field
      but the messages. */
  lemma ThinkingBecomes(o: Object)
    ensures var t := DeepSeek(o); var off := Get(o, "reasoning_effort") == Str("none");
      && (if off then ThinksAs(o, t, "disabled") && "reasoning_effort" !in t else ToggledTo(o, t) && Same(o, t, "reasoning_effort"))
      && (if Get(o, "reasoning").Obj? then "reasoning" !in t else Same(o, t, "reasoning"))
      && forall k :: k !in {"thinking", "reasoning", "reasoning_effort", "messages"} ==> Same(o, t, k)
  {
    hide Toggled;
    hide EffortMapped;
    hide ToggledTo;
    hide ThinksAs;
    KeysDiffer();
    var a := Toggled(o);
    var b := EffortMapped(a);
    var t := DeepSeek(o);
    TogglingIs(o);
    MappingIs(a);
    assert forall k :: k != "messages" ==> Same(b, t, k);
    assert Same(o, a, "reasoning_effort") && Same(a, b, "reasoning") && Same(b, t, "reasoning_effort");
    assert Same(b, t, "thinking") && Same(b, t, "reasoning");
    SameThinking(o, a, b, t);
    forall k | k !in {"thinking", "reasoning", "reasoning_effort", "messages"}
      ensures Same(o, t, k)
    {
      assert Same(o, a, k) && Same(a, b, k) && Same(b, t, k);
    }
  }

  lemma SameThinking(o: Object, a: Object, b: Object, t: Object)
    requires Same(b, t, "thinking") && ToggledTo(o, a)
    ensures ThinksAs(a, b, "disabled") ==> ThinksAs(o, t, "disabled")
    ensures Same(a, b, "thinking") ==> ToggledTo(o, t)
  {
    if ThinksAs(a, b, "disabled") {
      ThinksThrough(o, a, b);
    }
  }

  /** An assistant message without reasoning_content gets an empty one exactly when the
      request carries tools; no other message changes. */
  lemma MessagesFilledIff(o: Object, i: nat)
    requires Get(o, "messages").Arr? && i < |o["messages"].items|
    ensures Get(DeepSeek(o), "messages").Arr? && i < |DeepSeek(o)["messages"].items|
    ensures var before, after := o["messages"].items[i], DeepSeek(o)["messages"].items[i];
      if Get(o, "tools").Arr? && Get(o, "tools").items != [] && before.Obj? && Get(before.fields, "role") == Str("assistant")
         && "reasoning_content" !in before.fields
      then after == Obj(before.fields["reasoning_content" := Str("")])
      else after == before
  {
    ToggledIs(o);
    MappedIs(Toggled(o));
  }

  /******* The pass itself *******/

  /** backfillDeepSeekReasoningContent: the messages are edited in place. */
  method Backfill(messages: array<Json>) returns (changed: bool)
    modifies messages
    ensures messages[..] == FilledAll(old(messages[..]))
    ensures changed <==> exists k :: 0 <= k < messages.Length && NeedsContent(old(messages[k]))
  {
    changed := false;
    for i := 0 to messages.Length
      invariant forall k :: 0 <= k < i ==> messages[k] == Filled(old(messages[k]))
      invariant forall k :: i <= k < messages.Length ==> messages[k] == old(messages[k])
      invariant changed <==> exists k :: 0 <= k < i && NeedsContent(old(messages[k]))
    {
      var raw := messages[i];
      if raw.Obj? && Get(raw.fields, "role") == Str("assistant") && "reasoning_content" !in raw.fields {
        messages[i] := Obj(raw.fields["reasoning_content" := Str("")]);
        changed := true;
      }
    }
  }

  method BackfillRequest(o: Object) returns (request: Object, changed: bool)
    ensures request == Backfilled(o)
    ensures changed <==> HasTools(o) && Get(o, "messages").Arr? && exists m :: m in o["messages"].items && NeedsContent(m)
  {
    request, changed := o, false;
    var tools, list := Get(o, "tools"), Get(o, "messages");
    if !tools.Arr? || |tools.items| == 0 || !list.Arr? {
      return;
    }
    var items := list.items;
    var messages := new Json[|items|](i requires 0 <= i < |items| => items[i]);
    assert messages[..] == items;
    changed := Backfill(messages);
    assert changed ==> exists m :: m in items && NeedsContent(m);
    request := o["messages" := Arr(messages[..])];
  }

  /** normalizeDeepSeekRequest: the changed flag is exactly the need to change. */
  method Normalize(o: Object) returns (request: Object, changed: bool)
    ensures request == DeepSeek(o)
    ensures changed <==> !Native(o)
    ensures !changed ==> request == o
  {
    if Native(o) {
      NativeIsFixed(o);
    }
    KeysDiffer();
    ToggledIs(o);
    MappedIs(Toggled(o));
    request, changed := o, false;
    var reasoning := Get(request, "reasoning");
    if reasoning.Obj? {
      var enabled := Get(reasoning.fields, "enabled");
      if enabled.Bool? {
        request := Thinking(request, enabled.b);
      }
      request := request - {"reasoning"};
      changed := true;
    }
    assert request == Toggled(o);
    if Get(request, "reasoning_effort") == Str("none") {
      request := Thinking(request, false);
      request := request - {"reasoning_effort"};
      changed := true;
    }
    assert request == EffortMapped(Toggled(o));
    var more;
    request, more := BackfillRequest(request);
    if more {
      changed := true;
    }
  }
}
