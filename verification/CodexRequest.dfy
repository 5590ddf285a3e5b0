/**
 normalizeCodexRequest (internal/server/codex_request.go): the step functions on the
 decoded request, and the objects they leave alone.
 */
module CodexRequest {
  import Efforts
  import opened Wrappers
  import opened Json
  import opened Strings

  const PERSISTENT := Efforts.PERSISTENT
  const ENCRYPTED := "reasoning.encrypted_content"
  const DEFAULT_INSTRUCTIONS := "You are Codex, a coding assistant."

  const DROPPED: set<string> := {
    "max_tokens", "max_completion_tokens", "max_output_tokens", "temperature", "top_p",
    "metadata", "stream_options", "previous_response_id", "user"
  }

  function UserMessage(text: string): Json {
    Arr([Obj(map[
      "type" := Str("message"), "role" := Str("user"),
      "content" := Arr([Obj(map["type" := Str("input_text"), "text" := Str(text)])])])])
  }

  /******* Reasoning *******/

  // The reasoning object after the effort is resolved; None when nothing of it is left.
  function Resolved(reasoning: Object, aliases: map<string, string>): Option<Object> {
    var effort := Get(reasoning, "effort");
    if effort == Str(PERSISTENT) then
      var rest := reasoning - {"effort"};
      if rest == map[] then None else Some(rest)
    else if effort.Str? && effort.s in aliases then Some(reasoning["effort" := Str(aliases[effort.s])])
    else Some(reasoning)
  }

  function EffortResolved(o: Object, aliases: map<string, string>): Object {
    var reasoning := Get(o, "reasoning");
    if !reasoning.Obj? then o
    else match Resolved(reasoning.fields, aliases)
         case None => o - {"reasoning"}
         case Some(r) => o["reasoning" := Obj(r)]
  }

  predicate Active(reasoning: Object) {
    TextOf(Get(reasoning, "effort")) != "" && TextOf(Get(reasoning, "effort")) != "none"
  }

  function WithEncrypted(value: Json): Json {
    var list := if value.Arr? then value.items else [];
    if Str(ENCRYPTED) in list then Arr(list) else Arr(list + [Str(ENCRYPTED)])
  }

  function WithSummary(reasoning: Object): Object {
    if "summary" in reasoning then reasoning else reasoning["summary" := Str("auto")]
  }

  function SummaryAsked(o: Object): Object {
    var reasoning := Get(o, "reasoning");
    if reasoning.Obj? && Active(reasoning.fields) then
      o["reasoning" := Obj(WithSummary(reasoning.fields))]["include" := WithEncrypted(Get(o, "include"))]
    else o
  }

  /******* Input *******/

  function InputWrapped(o: Object): Object {
    match Get(o, "input")
    case Str(s) => o["input" := UserMessage(s)]
    case Null => o["input" := UserMessage("...")]
    case _ => o
  }

  function Role(item: Json): string {
    if item.Obj? then TextOf(Get(item.fields, "role")) else ""
  }

  predicate IsSystem(item: Json) {
    item.Obj? && (Role(item) == "system" || Role(item) == "developer")
  }

  function BlockFixed(block: Json): Json {
    if block.Obj? && Get(block.fields, "type") == Str("input_text") then Obj(block.fields["type" := Str("output_text")]) else block
  }

  function BlocksFixed(blocks: seq<Json>): seq<Json> {
    if blocks == [] then [] else [BlockFixed(blocks[0])] + BlocksFixed(blocks[1..])
  }

  function ItemFixed(item: Json): Json {
    if item.Obj? && Role(item) == "assistant" && Get(item.fields, "content").Arr? then
      Obj(item.fields["content" := Arr(BlocksFixed(item.fields["content"].items))])
    else item
  }

  // The items that stay, with assistant content corrected.
  function Kept(items: seq<Json>): seq<Json> {
    if items == [] then []
    else (if IsSystem(items[0]) then [] else [ItemFixed(items[0])]) + Kept(items[1..])
  }

  // codexInstructionText
  function InstructionText(v: Json): string
    decreases v, 0
  {
    match v
    case Str(s) => s
    case Arr(items) => Join(InstructionTexts(items), "\n")
    case Obj(fields) =>
      if "text" in fields then InstructionText(fields["text"])
      else if "content" in fields then InstructionText(fields["content"])
      else ""
    case _ => ""
  }

  function InstructionTexts(items: seq<Json>): seq<string>
    decreases items
  {
    if items == [] then []
    else
      var text := InstructionText(items[0]);
      (if text != "" then [text] else []) + InstructionTexts(items[1..])
  }

  // The text of the items that go.
  function SystemTexts(items: seq<Json>): seq<string> {
    if items == [] then []
    else
      var text := if IsSystem(items[0]) then InstructionText(Get(items[0].fields, "content")) else "";
      (if text != "" then [text] else []) + SystemTexts(items[1..])
  }

  function SystemMoved(o: Object): Object {
    var input := Get(o, "input");
    if !input.Arr? then o
    else
      var texts := SystemTexts(input.items);
      var moved := o["input" := Arr(Kept(input.items))];
      if texts == [] then moved
      else moved["instructions" := Str(TrimSpace(Join(texts + [TextOf(Get(o, "instructions"))], "\n\n")))]
  }

  function NeverEmpty(o: Object): Object {
    if Get(o, "input") == Arr([]) then o["input" := UserMessage("...")] else o
  }

  function Finished(o: Object): Object {
    var p := o["stream" := Bool(true)]["store" := Bool(false)];
    var q := if TextOf(Get(p, "instructions")) == "" then p["instructions" := Str(DEFAULT_INSTRUCTIONS)] else p;
    q - DROPPED
  }

  function Codex(o: Object, aliases: map<string, string>): Object {
    Finished(NeverEmpty(SystemMoved(InputWrapped(SummaryAsked(EffortResolved(o, aliases))))))
  }
}
