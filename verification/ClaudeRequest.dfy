/**
 normalizeClaudeRequest (internal/server/claude_request.go): the system block list and the
 metadata of a Claude subscription request. Random values are parameters.
 */
module ClaudeRequest {
  import opened Wrappers
  import opened Json

  const IDENTITY := "You are Claude Code, " + "Anthropic's official CLI for Claude."
  const BILLING := "x-anthropic-billing-header:"

  datatype Failure = BadSystem | BadMetadata

  // The values one call draws: the billing line after its prefix, and the user id.
  datatype Fresh = Fresh(billing: string, user: string)

  function TextBlock(text: string): Json {
    Obj(map["type" := Str("text"), "text" := Str(text)])
  }

  predicate IsTextBlock(v: Json) {
    v.Obj? && Get(v.fields, "type") == Str("text") && Get(v.fields, "text").Str?
  }

  function BlockText(v: Json): string
    requires IsTextBlock(v)
  {
    v.fields["text"].s
  }

  predicate IsBilling(v: Json) {
    IsTextBlock(v) && BILLING <= BlockText(v)
  }

  predicate IsIdentity(v: Json) {
    IsTextBlock(v) && BlockText(v) == IDENTITY
  }

  function NewBilling(drawn: Fresh): Json {
    TextBlock(BILLING + drawn.billing)
  }

  // The system field as a list of text blocks.
  function SystemBlocks(raw: Object): Result<seq<Json>, Failure> {
    if "system" !in raw then Ok([])
    else
      match raw["system"]
      case Str(s) => Ok(if s == "" then [] else [TextBlock(s)])
      case Arr(items) => if forall item :: item in items ==> IsTextBlock(item) then Ok(items) else Err(BadSystem)
      case _ => Err(BadSystem)
  }

  function MetadataOf(raw: Object): Result<Object, Failure> {
    match Get(raw, "metadata")
    case Obj(fields) => Ok(fields)
    case Null => Ok(map[])
    case _ => Err(BadMetadata)
  }

  // The blocks behind a leading billing block and a leading identity block.
  function AfterBilling(system: seq<Json>): seq<Json> {
    if system != [] && IsBilling(system[0]) then system[1..] else system
  }

  function Rest(system: seq<Json>): seq<Json> {
    var tail := AfterBilling(system);
    if tail != [] && IsIdentity(tail[0]) then tail[1..] else tail
  }

  function BillingOf(system: seq<Json>, drawn: Fresh): Json {
    if system != [] && IsBilling(system[0]) then system[0] else NewBilling(drawn)
  }

  function IdentityOf(system: seq<Json>): Json {
    var tail := AfterBilling(system);
    if tail != [] && IsIdentity(tail[0]) then tail[0] else TextBlock(IDENTITY)
  }

  function Systemized(system: seq<Json>, drawn: Fresh): seq<Json> {
    [BillingOf(system, drawn), IdentityOf(system)] + Rest(system)
  }

  function WithUser(metadata: Object, drawn: Fresh): Object {
    if "user_id" in metadata then metadata else metadata["user_id" := Str(drawn.user)]
  }

  function Claude(raw: Object, drawn: Fresh): Result<Object, Failure> {
    match SystemBlocks(raw)
    case Err(e) => Err(e)
    case Ok(system) =>
      match MetadataOf(raw)
      case Err(e) => Err(e)
      case Ok(metadata) =>
        Ok(raw["system" := Arr(Systemized(system, drawn))]["metadata" := Obj(WithUser(metadata, drawn))])
  }

  /******* Properties *******/

  lemma NewBlocks(drawn: Fresh)
    ensures IsBilling(NewBilling(drawn)) && !IsIdentity(NewBilling(drawn)) && IsIdentity(TextBlock(IDENTITY)) && !IsBilling(TextBlock(IDENTITY))
  {
    assert "type" != "text";
    assert BILLING <= BILLING + drawn.billing;
    assert BILLING[0] == 'x' && IDENTITY[0] == 'Y';
    assert (BILLING + drawn.billing)[0] == 'x';
  }

  lemma BlocksAreText(system: seq<Json>, drawn: Fresh)
    requires forall item :: item in system ==> IsTextBlock(item)
    ensures forall item :: item in Systemized(system, drawn) ==> IsTextBlock(item)
  {
    NewBlocks(drawn);
    assert IsTextBlock(BillingOf(system, drawn)) && IsTextBlock(IdentityOf(system));
    forall item | item in Rest(system)
      ensures item in system
    {
    }
  }

  /** The billing block, the identity block, then the other original blocks in order; what
      was in place already is kept as it was. */
  lemma BlocksInOrder(system: seq<Json>, drawn: Fresh)
    ensures var out := Systemized(system, drawn);
      && |out| >= 2 && IsBilling(out[0]) && IsIdentity(out[1])
      && exists kept: seq<Json> :: system == kept + out[2..] && |kept| <= 2
           && (forall b :: b in kept ==> b in out[..2])
  {
    hide IsBilling;
    hide IsIdentity;
    hide NewBilling;
    hide TextBlock;
    NewBlocks(drawn);
    var out := Systemized(system, drawn);
    var kept := system[..|system| - |Rest(system)|];
    assert out[2..] == Rest(system);
    assert out[..2] == [BillingOf(system, drawn), IdentityOf(system)];
    assert system == kept + out[2..];
  }

  lemma SystemizedAgain(system: seq<Json>, drawn: Fresh, again: Fresh)
    requires forall item :: item in system ==> IsTextBlock(item)
    ensures Systemized(Systemized(system, drawn), again) == Systemized(system, drawn)
  {
    NewBlocks(drawn);
    var out := Systemized(system, drawn);
    assert out[1..][0] == out[1] && IsIdentity(out[1]) && IsBilling(out[0]);
    assert AfterBilling(out) == out[1..];
    assert Rest(out) == out[1..][1..] == out[2..];
  }

  /** Normalizing twice, whatever values each call draws, is normalizing once; and a
      normalized request is never refused. */
  lemma ClaudeIsIdempotent(raw: Object, drawn: Fresh, again: Fresh)
    requires Claude(raw, drawn).Ok?
    ensures Claude(Claude(raw, drawn).value, again) == Ok(Claude(raw, drawn).value)
  {
    assert "system" != "metadata";
    var system := SystemBlocks(raw).value;
    var out := Claude(raw, drawn).value;
    TextBlocks(raw);
    BlocksAreText(system, drawn);
    SystemizedAgain(system, drawn, again);
    assert out["system"] == Arr(Systemized(system, drawn));
    assert out["system" := out["system"]] == out && out["metadata" := out["metadata"]] == out;
  }

  lemma TextBlocks(raw: Object)
    requires SystemBlocks(raw).Ok?
    ensures forall item :: item in SystemBlocks(raw).value ==> IsTextBlock(item)
  {
    assert "type" != "text";
  }

  /** Nothing but the system list and the metadata changes, and of the metadata only a
      missing user id. */
  lemma OtherFieldsStay(raw: Object, drawn: Fresh, key: string)
    requires Claude(raw, drawn).Ok?
    ensures var out := Claude(raw, drawn).value;
      && (key !in {"system", "metadata"} ==> (key in out <==> key in raw) && (key in raw ==> out[key] == raw[key]))
      && Get(out, "metadata").Obj? && "user_id" in Get(out, "metadata").fields
      && (Get(raw, "metadata").Obj? && key in raw["metadata"].fields ==>
            key in out["metadata"].fields && out["metadata"].fields[key] == raw["metadata"].fields[key])
  {
    assert "system" != "metadata";
  }

  // The system field as a caller may give it.
  predicate GoodSystem(raw: Object) {
    "system" in raw ==>
      match raw["system"]
      case Str(_) => true
      case Arr(items) => forall b :: b in items ==> b.Obj? && Get(b.fields, "type") == Str("text") && Get(b.fields, "text").Str?
      case _ => false
  }

  predicate GoodMetadata(raw: Object) {
    "metadata" in raw ==> raw["metadata"].Obj? || raw["metadata"].Null?
  }

  /** A request is refused exactly for a system field that is neither a text nor a list of
      text blocks, or else for metadata that is neither an object nor null. */
  lemma RefusedIff(raw: Object, drawn: Fresh)
    ensures Claude(raw, drawn) == Err(BadSystem) <==> !GoodSystem(raw)
    ensures Claude(raw, drawn) == Err(BadMetadata) <==> GoodSystem(raw) && !GoodMetadata(raw)
  {
    if "system" in raw && raw["system"].Arr? {
      var items := raw["system"].items;
      assert forall b :: b in items ==>
        (IsTextBlock(b) <==> (b.Obj? && Get(b.fields, "type") == Str("text") && Get(b.fields, "text").Str?));
    }
  }

  // The blocks given: a non-empty text is one.
  function Given(raw: Object): seq<Json> {
    if "system" !in raw then []
    else
      match raw["system"]
      case Str(s) => if s == "" then [] else [Obj(map["type" := Str("text"), "text" := Str(s)])]
      case Arr(items) => items
      case _ => []
  }

  // The text at a position, "" behind the end.
  function TextAt(blocks: seq<Json>, i: nat): string {
    if i < |blocks| && blocks[i].Obj? then TextOf(Get(blocks[i].fields, "text")) else ""
  }

  // The blocks sent for those given: a billing block and the identity in front, those given
  // kept and those missing written anew, and behind them all other blocks given.
  ghost predicate Fronted(given: seq<Json>, blocks: seq<Json>, billing: string) {
    var first := "x-anthropic-billing-header:" <= TextAt(given, 0);
    var n := if first then 1 else 0;
    var identity := "You are Claude Code, " + "Anthropic's official CLI for Claude.";
    var second := TextAt(given, n) == identity;
    var m := if second then n + 1 else n;
    && m <= |given| && |blocks| >= 2 && blocks[2..] == given[m..]
    && blocks[0] == (if first then given[0] else Obj(map["type" := Str("text"), "text" := Str("x-anthropic-billing-header:" + billing)]))
    && blocks[1] == (if second then given[n] else Obj(map["type" := Str("text"), "text" := Str(identity)]))
  }

  lemma LeadingText(given: seq<Json>, i: nat)
    requires forall b :: b in given ==> IsTextBlock(b)
    ensures "x-anthropic-billing-header:" <= TextAt(given, i) <==> i < |given| && IsBilling(given[i])
    ensures TextAt(given, i) == "You are Claude Code, " + "Anthropic's official CLI for Claude." <==> i < |given| && IsIdentity(given[i])
  {
    assert |BILLING| > 0 && |IDENTITY| > 0;
    if i < |given| {
      assert IsTextBlock(given[i]) && TextAt(given, i) == BlockText(given[i]);
    }
  }

  lemma NewTexts(drawn: Fresh)
    ensures NewBilling(drawn) == Obj(map["type" := Str("text"), "text" := Str("x-anthropic-billing-header:" + drawn.billing)])
    ensures TextBlock(IDENTITY) == Obj(map["type" := Str("text"), "text" := Str("You are Claude Code, " + "Anthropic's official CLI for Claude.")])
  {
  }

  lemma SystemizedIs(given: seq<Json>, drawn: Fresh)
    requires forall b :: b in given ==> IsTextBlock(b)
    ensures Fronted(given, Systemized(given, drawn), drawn.billing)
  {
    hide IsBilling;
    hide IsIdentity;
    hide IsTextBlock;
    hide TextAt;
    hide TextBlock;
    hide NewBilling;
    LeadingText(given, 0);
    LeadingText(given, 1);
    NewTexts(drawn);
    if given != [] && IsBilling(given[0]) {
      assert AfterBilling(given) == given[1..];
    }
    assert Systemized(given, drawn)[2..] == Rest(given);
  }

  lemma GivenIs(raw: Object)
    requires SystemBlocks(raw).Ok?
    ensures SystemBlocks(raw).value == Given(raw)
  {
  }

  /** The system blocks a request is sent with, and its user id: the one given, or else the
      one drawn. */
  lemma ClaudeBecomes(raw: Object, drawn: Fresh)
    requires Claude(raw, drawn).Ok?
    ensures var out := Claude(raw, drawn).value; var metadata := Get(raw, "metadata");
      && Get(out, "system").Arr? && Fronted(Given(raw), out["system"].items, drawn.billing)
      && Get(out, "metadata").Obj?
      && Get(out["metadata"].fields, "user_id") ==
           (if metadata.Obj? && "user_id" in metadata.fields then metadata.fields["user_id"] else Str(drawn.user))
  {
    hide Systemized;
    hide Fronted;
    hide SystemBlocks;
    hide Given;
    assert "system" != "metadata";
    TextBlocks(raw);
    GivenIs(raw);
    SystemizedIs(Given(raw), drawn);
  }

  /******* The pass itself *******/

  /** The validation loop, with the two flags it leaves. */
  method Inspect(system: seq<Json>) returns (ok: bool, hasBilling: bool, hasIdentity: bool)
    ensures ok <==> forall item :: item in system ==> IsTextBlock(item)
    ensures ok ==> hasBilling == (system != [] && IsBilling(system[0]))
    ensures ok ==> hasIdentity == (AfterBilling(system) != [] && IsIdentity(AfterBilling(system)[0]))
  {
    hasBilling, hasIdentity := false, false;
    if system != [] && IsTextBlock(system[0]) {
      BillingIsNotIdentity(system[0]);
    }
    for i := 0 to |system|
      invariant forall k :: 0 <= k < i ==> IsTextBlock(system[k])
      invariant hasBilling == (i > 0 && IsBilling(system[0]))
      invariant hasIdentity == if hasBilling then i > 1 && IsIdentity(system[1]) else i > 0 && IsIdentity(system[0])
    {
      var value := system[i];
      if !(value.Obj? && Get(value.fields, "type") == Str("text") && Get(value.fields, "text").Str?) {
        assert value in system && !IsTextBlock(value);
        return false, hasBilling, hasIdentity;
      }
      var text := value.fields["text"].s;
      if i == 0 && |BILLING| <= |text| && text[..|BILLING|] == BILLING {
        hasBilling := true;
      }
      if i == 0 || (i == 1 && hasBilling) {
        hasIdentity := text == IDENTITY;
      }
    }
    ok := true;
  }

  lemma BillingIsNotIdentity(v: Json)
    requires IsTextBlock(v)
    ensures !(IsBilling(v) && IsIdentity(v))
  {
    assert BILLING[0] == 'x' && IDENTITY[0] == 'Y';
  }

  /** normalizeClaudeRequest on a JSON object. */
  method Normalize(raw: Object, drawn: Fresh) returns (r: Result<Object, Failure>)
    ensures r == Claude(raw, drawn)
  {
    var system: seq<Json> := [];
    if "system" in raw {
      match raw["system"] {
        case Str(s) =>
          if s != "" {
            system := [TextBlock(s)];
          }
        case Arr(items) => system := items;
        case _ => return Err(BadSystem);
      }
    }
    var ok, hasBilling, hasIdentity := Inspect(system);
    if !ok {
      TextBlocksOk(raw, system);
      return Err(BadSystem);
    }
    ghost var was := system;
    if !hasIdentity {
      if hasBilling {
        system := system[..1] + [TextBlock(IDENTITY)] + system[1..];
      } else {
        system := [TextBlock(IDENTITY)] + system;
      }
    }
    if !hasBilling {
      system := [NewBilling(drawn)] + system;
    }
    assert system == Systemized(was, drawn);
    assert SystemBlocks(raw) == Ok(was);
    var metadata: Object := map[];
    match Get(raw, "metadata") {
      case Obj(fields) => metadata := fields;
      case Null =>
      case _ => return Err(BadMetadata);
    }
    if "user_id" !in metadata {
      metadata := metadata["user_id" := Str(drawn.user)];
    }
    r := Ok(raw["system" := Arr(system)]["metadata" := Obj(metadata)]);
  }

  lemma TextBlocksOk(raw: Object, system: seq<Json>)
    requires "system" in raw && (raw["system"] == Arr(system) || (raw["system"].Str? && system == [TextBlock(raw["system"].s)]))
    requires !(forall item :: item in system ==> IsTextBlock(item))
    ensures SystemBlocks(raw) == Err(BadSystem)
  {
    assert "type" != "text";
  }
}
