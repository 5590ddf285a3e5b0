/**
 Enrichment from models.dev (internal/providers/modelsdev.go): gaps of a model are filled,
 what the provider reported stays.
 */
module ModelsDev {
  import opened Wrappers
  import Efforts

  datatype OptionKind = EffortKind | ToggleKind | BudgetKind

  datatype ReasoningOption = ReasoningOption(kind: OptionKind, values: seq<string>, min: Option<int>, max: Option<int>)

  // options is None when the list is nil, which differs from an empty one. The other lists
  // and maps mean the same nil or empty.
  datatype Capabilities = Capabilities(
    options: Option<seq<ReasoningOption>>, clientEfforts: Option<seq<string>>, thinkingModes: seq<string>,
    defaultEffort: string, mandatory: Option<bool>, defaultEnabled: Option<bool>, parameters: seq<string>,
    effortAliases: map<string, string>)

  datatype Model = Model(
    id: string, contextLength: int, maxOutputTokens: int,
    tools: Option<bool>, vision: Option<bool>, reasoning: Option<bool>, structuredOutput: Option<bool>,
    capabilities: Option<Capabilities>, inputs: seq<string>, outputs: seq<string>)

  // A raw reasoning option: its type, and what of it has the expected shape.
  datatype RawOption =
    | RawEffort(values: seq<string>)
    | RawToggle
    | RawBudget(min: Option<int>, max: Option<int>)
    | RawOther

  datatype Source = Source(
    contextLimit: int, outputLimit: int, toolCall: Option<bool>, reasoning: Option<bool>, structuredOutput: Option<bool>,
    inputs: seq<string>, outputs: seq<string>, reasoningOptions: Option<seq<RawOption>>)

  const BLANK := Capabilities(None, None, [], "", None, None, [], map[])

  /******* Parsing *******/

  function ParsedOne(raw: RawOption): seq<ReasoningOption> {
    match raw
    case RawEffort(values) =>
      if values == [] then [] else [ReasoningOption(EffortKind, Efforts.Sorted(Efforts.CANONICAL, values), None, None)]
    case RawToggle => [ReasoningOption(ToggleKind, [], None, None)]
    case RawBudget(min, max) => [ReasoningOption(BudgetKind, [], min, max)]
    case RawOther => []
  }

  function ParsedAll(raw: seq<RawOption>): seq<ReasoningOption> {
    if raw == [] then [] else ParsedAll(raw[..|raw| - 1]) + ParsedOne(raw[|raw| - 1])
  }

  function Parsed(raw: seq<RawOption>): Option<Capabilities> {
    if raw != [] && ParsedAll(raw) == [] then None else Some(BLANK.(options := Some(ParsedAll(raw))))
  }

  method ParseReasoningOptions(raw: seq<RawOption>) returns (caps: Option<Capabilities>)
    ensures caps == Parsed(raw)
  {
    hide Efforts.Sorted;
    if |raw| == 0 {
      return Some(BLANK.(options := Some([])));
    }
    var options: seq<ReasoningOption> := [];
    for i := 0 to |raw|
      invariant options == ParsedAll(raw[..i])
    {
      assert raw[..i + 1][..i] == raw[..i];
      match raw[i] {
        case RawEffort(values) =>
          if |values| > 0 {
            var sorted := Efforts.SortEfforts(values);
            options := options + [ReasoningOption(EffortKind, sorted, None, None)];
          }
        case RawToggle => options := options + [ReasoningOption(ToggleKind, [], None, None)];
        case RawBudget(min, max) => options := options + [ReasoningOption(BudgetKind, [], min, max)];
        case RawOther =>
      }
    }
    assert raw[..|raw|] == raw;
    if |options| == 0 {
      return None;
    }
    caps := Some(BLANK.(options := Some(options)));
  }

  /** Malformed entries are skipped one by one; only a list of nothing else is unknown. */
  lemma {:induction false} ParsedUnknownIff(raw: seq<RawOption>)
    ensures Parsed(raw).None? <==> raw != [] && forall r :: r in raw ==> r.RawOther? || (r.RawEffort? && r.values == [])
  {
    if raw != [] {
      var n := |raw| - 1;
      assert raw == raw[..n] + [raw[n]];
      NothingParsed(raw);
    }
  }

  lemma {:induction false} NothingParsed(raw: seq<RawOption>)
    ensures ParsedAll(raw) == [] <==> forall r :: r in raw ==> r.RawOther? || (r.RawEffort? && r.values == [])
  {
    if raw != [] {
      var n := |raw| - 1;
      NothingParsed(raw[..n]);
      assert raw == raw[..n] + [raw[n]];
      assert raw[n] in raw;
    }
  }

  /******* Merging *******/

  function Kinds(options: seq<ReasoningOption>): set<OptionKind> {
    set o | o in options :: o.kind
  }

  // The options whose kind is not present; the set is not updated while they are added.
  function Missing(options: seq<ReasoningOption>, present: set<OptionKind>): seq<ReasoningOption> {
    if options == [] then []
    else Missing(options[..|options| - 1], present) + if options[|options| - 1].kind in present then [] else [options[|options| - 1]]
  }

  function ListOf(caps: Capabilities): seq<ReasoningOption> {
    if caps.options.Some? then caps.options.value else []
  }

  function Merged(provider: Capabilities, fallback: Capabilities): Capabilities {
    var own := ListOf(provider);
    provider.(
      options := if provider.options.None? && fallback.options.None? then None
                 else Some(own + Missing(ListOf(fallback), Kinds(own))),
      thinkingModes := if provider.thinkingModes == [] then fallback.thinkingModes else provider.thinkingModes,
      defaultEffort := if provider.defaultEffort == "" then fallback.defaultEffort else provider.defaultEffort,
      mandatory := if provider.mandatory.None? then fallback.mandatory else provider.mandatory,
      defaultEnabled := if provider.defaultEnabled.None? then fallback.defaultEnabled else provider.defaultEnabled,
      parameters := if provider.parameters == [] then fallback.parameters else provider.parameters)
  }

  // Gateways report their own selectors; an explicitly empty list means there are none.
  function CapabilitiesOf(caps: Option<Capabilities>, fallback: Option<Capabilities>, gateway: bool): Option<Capabilities> {
    if caps.None? then fallback
    else if fallback.Some? && !gateway && caps.value.options != Some([]) then Some(Merged(caps.value, fallback.value))
    else caps
  }

  function Vision(inputs: seq<string>): Option<bool> {
    if inputs == [] then None else Some("image" in inputs)
  }

  function Fallback(md: Source): Option<Capabilities> {
    if md.reasoningOptions.None? then None else Parsed(md.reasoningOptions.value)
  }

  function OrElse<T>(a: Option<T>, b: Option<T>): Option<T> {
    if a.None? then b else a
  }

  function Enriched(model: Model, md: Source, gateway: bool): Model {
    model.(
      contextLength := if model.contextLength == 0 && md.contextLimit > 0 then md.contextLimit else model.contextLength,
      maxOutputTokens := if model.maxOutputTokens == 0 && md.outputLimit > 0 then md.outputLimit else model.maxOutputTokens,
      tools := OrElse(model.tools, md.toolCall),
      vision := OrElse(model.vision, Vision(md.inputs)),
      reasoning := OrElse(model.reasoning, md.reasoning),
      structuredOutput := OrElse(model.structuredOutput, md.structuredOutput),
      inputs := if model.inputs == [] then md.inputs else model.inputs,
      outputs := if model.outputs == [] then md.outputs else model.outputs,
      capabilities := CapabilitiesOf(model.capabilities, Fallback(md), gateway))
  }

  /******* Properties *******/

  lemma {:induction false} NoneMissing(options: seq<ReasoningOption>, present: set<OptionKind>)
    requires Kinds(options) <= present
    ensures Missing(options, present) == []
  {
    if options != [] {
      var n := |options| - 1;
      assert options[n] in options;
      forall o | o in options[..n] ensures o.kind in present { assert o in options; }
      NoneMissing(options[..n], present);
    }
  }

  lemma {:induction false} MissingHas(options: seq<ReasoningOption>, present: set<OptionKind>, o: ReasoningOption)
    ensures o in Missing(options, present) <==> o in options && o.kind !in present
  {
    if options != [] {
      var n := |options| - 1;
      MissingHas(options[..n], present, o);
      assert options == options[..n] + [options[n]];
    }
  }

  lemma MergeCovers(own: seq<ReasoningOption>, more: seq<ReasoningOption>)
    ensures Kinds(more) <= Kinds(own + Missing(more, Kinds(own)))
  {
    var all := own + Missing(more, Kinds(own));
    forall o | o in more
      ensures o.kind in Kinds(all)
    {
      MissingHas(more, Kinds(own), o);
      if o.kind in Kinds(own) {
        var p :| p in own && p.kind == o.kind;
        assert p in all;
      } else {
        assert o in all;
      }
    }
  }

  lemma MergeAgain(provider: Capabilities, fallback: Capabilities)
    ensures Merged(Merged(provider, fallback), fallback) == Merged(provider, fallback)
  {
    var own, more := ListOf(provider), ListOf(fallback);
    var all := own + Missing(more, Kinds(own));
    MergeCovers(own, more);
    NoneMissing(more, Kinds(all));
    assert all + [] == all;
    if provider.options.None? && fallback.options.None? {
      assert Merged(provider, fallback).options == None;
    } else {
      assert ListOf(Merged(provider, fallback)) == all;
    }
  }

  lemma MergeSelf(caps: Capabilities)
    requires caps.options.Some?
    ensures Merged(caps, caps) == caps
  {
    NoneMissing(ListOf(caps), Kinds(ListOf(caps)));
    assert ListOf(caps) + [] == ListOf(caps);
  }

  lemma FallbackHasOptions(md: Source)
    ensures Fallback(md).Some? ==> Fallback(md).value.options.Some?
  {
  }

  /** Enriching a model twice from one entry is enriching it once. */
  lemma EnrichedTwice(model: Model, md: Source, gateway: bool)
    ensures Enriched(Enriched(model, md, gateway), md, gateway) == Enriched(model, md, gateway)
  {
    hide Fallback;
    hide Merged;
    FallbackHasOptions(md);
    var fallback := Fallback(md);
    if fallback.Some? {
      MergeSelf(fallback.value);
      if model.capabilities.Some? {
        MergeAgain(model.capabilities.value, fallback.value);
      }
    }
  }

  // What a provider reported of a field stands.
  predicate Keeps<T(==)>(before: Option<T>, after: Option<T>) {
    before.Some? ==> after == before
  }

  /** Every field the provider reported is kept; its reasoning options are a prefix of the
      result's, and only kinds it did not report are added, and never for a gateway or
      behind an explicitly empty list. */
  lemma ProviderFieldsStay(model: Model, md: Source, gateway: bool)
    ensures var e := Enriched(model, md, gateway);
      && e.id == model.id
      && (model.contextLength != 0 ==> e.contextLength == model.contextLength)
      && (model.maxOutputTokens != 0 ==> e.maxOutputTokens == model.maxOutputTokens)
      && Keeps(model.tools, e.tools) && Keeps(model.vision, e.vision)
      && Keeps(model.reasoning, e.reasoning) && Keeps(model.structuredOutput, e.structuredOutput)
      && (model.inputs != [] ==> e.inputs == model.inputs) && (model.outputs != [] ==> e.outputs == model.outputs)
    ensures model.capabilities.Some? ==>
      var e := Enriched(model, md, gateway); var own := model.capabilities.value;
      && e.capabilities.Some?
      && ListOf(own) <= ListOf(e.capabilities.value)
      && (forall o :: o in ListOf(e.capabilities.value)[|ListOf(own)|..] ==> o.kind !in Kinds(ListOf(own)))
      && (gateway || own.options == Some([]) ==> e.capabilities == model.capabilities)
  {
    if model.capabilities.Some? && Fallback(md).Some? {
      var own, more := ListOf(model.capabilities.value), ListOf(Fallback(md).value);
      var rest := Missing(more, Kinds(own));
      forall o | o in rest
        ensures o.kind !in Kinds(own)
      {
        MissingHas(more, Kinds(own), o);
      }
      assert (own + rest)[|own|..] == rest;
    }
  }

  /** And so are the other capability fields it reported. */
  lemma ProviderCapabilitiesStay(model: Model, md: Source, gateway: bool)
    requires model.capabilities.Some?
    ensures var own, e := model.capabilities.value, Enriched(model, md, gateway).capabilities.value;
      && e.clientEfforts == own.clientEfforts && e.effortAliases == own.effortAliases
      && (own.thinkingModes != [] ==> e.thinkingModes == own.thinkingModes)
      && (own.defaultEffort != "" ==> e.defaultEffort == own.defaultEffort)
      && Keeps(own.mandatory, e.mandatory) && Keeps(own.defaultEnabled, e.defaultEnabled)
      && (own.parameters != [] ==> e.parameters == own.parameters)
  {
  }

  /** What a field the provider did not report is filled with: limits and lists of the entry
      that are not empty, its flags, and for vision whether its inputs name images. */
  lemma GapsAreFilled(model: Model, md: Source, gateway: bool)
    ensures var e := Enriched(model, md, gateway);
      && (model.contextLength == 0 ==> e.contextLength == if md.contextLimit <= 0 then 0 else md.contextLimit)
      && (model.maxOutputTokens == 0 ==> e.maxOutputTokens == if md.outputLimit <= 0 then 0 else md.outputLimit)
      && (model.tools.None? ==> e.tools == md.toolCall)
      && (model.reasoning.None? ==> e.reasoning == md.reasoning)
      && (model.structuredOutput.None? ==> e.structuredOutput == md.structuredOutput)
      && (model.vision.None? ==> (e.vision.None? <==> md.inputs == []))
      && (model.vision.None? && md.inputs != [] ==> (e.vision.value <==> exists i :: 0 <= i < |md.inputs| && md.inputs[i] == "image"))
      && (model.inputs == [] ==> e.inputs == md.inputs) && (model.outputs == [] ==> e.outputs == md.outputs)
  {
  }

  // Entries that say something.
  function Usable(raw: seq<RawOption>): seq<RawOption> {
    if raw == [] then []
    else (if raw[0].RawOther? || (raw[0].RawEffort? && raw[0].values == []) then [] else [raw[0]]) + Usable(raw[1..])
  }

  // The option an entry stands for.
  ghost predicate ReadAs(r: RawOption, o: ReasoningOption) {
    match r
    case RawEffort(values) => o == ReasoningOption(EffortKind, Efforts.Sorted(Efforts.CANONICAL, values), None, None)
    case RawToggle => o == ReasoningOption(ToggleKind, [], None, None)
    case RawBudget(min, max) => o == ReasoningOption(BudgetKind, [], min, max)
    case RawOther => false
  }

  ghost predicate AllRead(raw: seq<RawOption>, options: seq<ReasoningOption>) {
    |options| == |raw| && forall i :: 0 <= i < |raw| ==> ReadAs(raw[i], options[i])
  }

  lemma {:induction false} UsableAppends(raw: seq<RawOption>, last: RawOption)
    ensures Usable(raw + [last]) == Usable(raw) + Usable([last])
  {
    if raw == [] {
      assert raw + [last] == [last];
    } else {
      assert (raw + [last])[1..] == raw[1..] + [last];
      UsableAppends(raw[1..], last);
    }
  }

  lemma {:induction false} ParsedIs(raw: seq<RawOption>)
    ensures AllRead(Usable(raw), ParsedAll(raw))
  {
    hide Efforts.Sorted;
    if raw != [] {
      var n := |raw| - 1;
      assert raw == raw[..n] + [raw[n]];
      UsableAppends(raw[..n], raw[n]);
      ParsedIs(raw[..n]);
    }
  }

  // Options of kinds not among the given, in order.
  function Other(options: seq<ReasoningOption>, present: set<OptionKind>): seq<ReasoningOption> {
    if options == [] then [] else (if options[0].kind in present then [] else [options[0]]) + Other(options[1..], present)
  }

  lemma {:induction false} OtherAppends(options: seq<ReasoningOption>, last: ReasoningOption, present: set<OptionKind>)
    ensures Other(options + [last], present) == Other(options, present) + if last.kind in present then [] else [last]
  {
    if options == [] {
      assert options + [last] == [last];
    } else {
      assert (options + [last])[1..] == options[1..] + [last];
      OtherAppends(options[1..], last, present);
    }
  }

  lemma {:induction false} MissingIs(options: seq<ReasoningOption>, present: set<OptionKind>)
    ensures Missing(options, present) == Other(options, present)
  {
    if options != [] {
      var n := |options| - 1;
      assert options == options[..n] + [options[n]];
      MissingIs(options[..n], present);
      OtherAppends(options[..n], options[n], present);
    }
  }

  /** A merge fills each other capability field the provider left empty, and no other, from the
      fallback. */
  lemma MergeFills(provider: Capabilities, fallback: Capabilities)
    ensures var r := Merged(provider, fallback);
      && r.thinkingModes == (if |provider.thinkingModes| > 0 then provider.thinkingModes else fallback.thinkingModes)
      && r.defaultEffort == (if |provider.defaultEffort| > 0 then provider.defaultEffort else fallback.defaultEffort)
      && r.mandatory == (if provider.mandatory.Some? then provider.mandatory else fallback.mandatory)
      && r.defaultEnabled == (if provider.defaultEnabled.Some? then provider.defaultEnabled else fallback.defaultEnabled)
      && r.parameters == (if |provider.parameters| > 0 then provider.parameters else fallback.parameters)
      && r.clientEfforts == provider.clientEfforts && r.effortAliases == provider.effortAliases
      && (r.options.None? <==> provider.options.None? && fallback.options.None?)
      && ListOf(r) == ListOf(provider) + Other(ListOf(fallback), Kinds(ListOf(provider)))
  {
    MissingIs(ListOf(fallback), Kinds(ListOf(provider)));
    if provider.options.None? && fallback.options.None? {
      assert ListOf(Merged(provider, fallback)) == [] == ListOf(provider) + Other([], Kinds(ListOf(provider)));
    }
  }

  /** The capabilities a model ends up with. An entry that lists options offers those of its
      entries that say something, in order; without any it is not known to offer any, unless
      its list is empty. A model without capabilities takes them on; another, short of a
      gateway's and of an explicitly empty list, gains the ones of kinds it did not report. */
  lemma CapabilitiesBecome(model: Model, md: Source, gateway: bool, offered: seq<ReasoningOption>)
    requires md.reasoningOptions.Some? ==> AllRead(Usable(md.reasoningOptions.value), offered)
    ensures var e := Enriched(model, md, gateway).capabilities;
      var known := md.reasoningOptions.Some? && (md.reasoningOptions.value == [] || offered != []);
      if model.capabilities.None? then
        if known then e == Some(Capabilities(Some(offered), None, [], "", None, None, [], map[])) else e == None
      else
        var own := model.capabilities.value;
        if !known || gateway || own.options == Some([]) then e == model.capabilities
        else e == Some(own.(options := Some(ListOf(own) + Other(offered, Kinds(ListOf(own))))))
  {
    hide ParsedAll;
    if md.reasoningOptions.Some? {
      ParsedIs(md.reasoningOptions.value);
      OneReading(Usable(md.reasoningOptions.value), offered, ParsedAll(md.reasoningOptions.value));
      NoneParsed();
      if model.capabilities.Some? {
        MissingIs(offered, Kinds(ListOf(model.capabilities.value)));
      }
    }
  }

  lemma NoneParsed()
    ensures ParsedAll([]) == []
  {
  }

  lemma OneReading(raw: seq<RawOption>, options: seq<ReasoningOption>, others: seq<ReasoningOption>)
    requires AllRead(raw, options) && AllRead(raw, others)
    ensures options == others
  {
    forall i | 0 <= i < |raw|
      ensures options[i] == others[i]
    {
      assert ReadAs(raw[i], options[i]) && ReadAs(raw[i], others[i]);
    }
  }

  /******* The merge itself *******/

  method MergeFallback(provider: Capabilities, fallback: Capabilities) returns (result: Capabilities)
    ensures result == Merged(provider, fallback)
  {
    result := provider;
    var options := if provider.options.Some? then provider.options.value else [];
    var present: set<OptionKind> := {};
    for i := 0 to |options|
      invariant present == Kinds(options[..i])
    {
      assert options[..i + 1] == options[..i] + [options[i]];
      KindsAppend(options[..i], options[i]);
      present := present + {options[i].kind};
    }
    assert options[..|options|] == options;
    var more := if fallback.options.Some? then fallback.options.value else [];
    var added: seq<ReasoningOption> := [];
    for i := 0 to |more|
      invariant added == Missing(more[..i], present)
    {
      assert more[..i + 1][..i] == more[..i];
      if more[i].kind !in present {
        added := added + [more[i]];
      }
    }
    assert more[..|more|] == more;
    if provider.options.Some? || fallback.options.Some? {
      result := result.(options := Some(options + added));
    }
    if result.thinkingModes == [] {
      result := result.(thinkingModes := fallback.thinkingModes);
    }
    if result.defaultEffort == "" {
      result := result.(defaultEffort := fallback.defaultEffort);
    }
    if result.mandatory.None? {
      result := result.(mandatory := fallback.mandatory);
    }
    if result.defaultEnabled.None? {
      result := result.(defaultEnabled := fallback.defaultEnabled);
    }
    if result.parameters == [] {
      result := result.(parameters := fallback.parameters);
    }
  }

  lemma KindsAppend(options: seq<ReasoningOption>, o: ReasoningOption)
    ensures Kinds(options + [o]) == Kinds(options) + {o.kind}
  {
    assert forall p :: p in options + [o] <==> p in options || p == o;
  }

  /** The capability half of enrichModel. */
  method EnrichCapabilities(caps: Option<Capabilities>, md: Source, gateway: bool) returns (r: Option<Capabilities>)
    ensures r == CapabilitiesOf(caps, Fallback(md), gateway)
  {
    hide Merged;
    hide Parsed;
    var fallback: Option<Capabilities> := None;
    if md.reasoningOptions.Some? {
      fallback := ParseReasoningOptions(md.reasoningOptions.value);
    }
    r := caps;
    if caps.None? {
      r := fallback;
    } else if fallback.Some? && !gateway && caps.value.options != Some([]) {
      var merged := MergeFallback(caps.value, fallback.value);
      r := Some(merged);
    }
  }

  /** The tri-state flags of enrichModel. */
  method EnrichFlags(model: Model, md: Source)
    returns (tools: Option<bool>, vision: Option<bool>, reasoning: Option<bool>, structuredOutput: Option<bool>)
    ensures tools == OrElse(model.tools, md.toolCall) && vision == OrElse(model.vision, Vision(md.inputs))
    ensures reasoning == OrElse(model.reasoning, md.reasoning)
    ensures structuredOutput == OrElse(model.structuredOutput, md.structuredOutput)
  {
    tools, vision, reasoning, structuredOutput := model.tools, model.vision, model.reasoning, model.structuredOutput;
    if tools.None? && md.toolCall.Some? {
      tools := md.toolCall;
    }
    if vision.None? && |md.inputs| > 0 {
      vision := Some("image" in md.inputs);
    }
    if reasoning.None? && md.reasoning.Some? {
      reasoning := md.reasoning;
    }
    if structuredOutput.None? && md.structuredOutput.Some? {
      structuredOutput := md.structuredOutput;
    }
  }

  method Enrich(model: Model, md: Source, gateway: bool) returns (e: Model)
    ensures e == Enriched(model, md, gateway)
  {
    hide CapabilitiesOf;
    hide Fallback;
    var contextLength, maxOutputTokens := model.contextLength, model.maxOutputTokens;
    if contextLength == 0 && md.contextLimit > 0 {
      contextLength := md.contextLimit;
    }
    if maxOutputTokens == 0 && md.outputLimit > 0 {
      maxOutputTokens := md.outputLimit;
    }
    var tools, vision, reasoning, structuredOutput := EnrichFlags(model, md);
    var inputs, outputs := model.inputs, model.outputs;
    if |inputs| == 0 && |md.inputs| > 0 {
      inputs := md.inputs;
    }
    if |outputs| == 0 && |md.outputs| > 0 {
      outputs := md.outputs;
    }
    var capabilities := EnrichCapabilities(model.capabilities, md, gateway);
    e := Model(model.id, contextLength, maxOutputTokens, tools, vision, reasoning, structuredOutput, capabilities, inputs, outputs);
  }

  /******* Selectors *******/

  datatype Selectors = Selectors(
    effort: bool, efforts: seq<string>, disable: bool, budget: bool, min: Option<int>, max: Option<int>,
    toggle: bool, adaptive: bool, enabled: bool)

  ghost predicate Offers(options: seq<ReasoningOption>, kind: OptionKind) {
    exists i :: 0 <= i < |options| && options[i].kind == kind
  }

  // The widest of the budget ranges: the least lower bound any option states.
  ghost predicate LeastMin(options: seq<ReasoningOption>, least: Option<int>) {
    && (forall i :: 0 <= i < |options| && options[i].kind == BudgetKind && options[i].min.Some? ==>
          least.Some? && least.value <= options[i].min.value)
    && (least.Some? ==> exists i :: 0 <= i < |options| && options[i].kind == BudgetKind && options[i].min == least)
  }

  ghost predicate GreatestMax(options: seq<ReasoningOption>, greatest: Option<int>) {
    && (forall i :: 0 <= i < |options| && options[i].kind == BudgetKind && options[i].max.Some? ==>
          greatest.Some? && greatest.value >= options[i].max.value)
    && (greatest.Some? ==> exists i :: 0 <= i < |options| && options[i].kind == BudgetKind && options[i].max == greatest)
  }

  ghost predicate CanDisable(options: seq<ReasoningOption>) {
    exists i :: 0 <= i < |options| && options[i].kind == EffortKind && "none" in options[i].values
  }

  // The efforts are those of the last effort option.
  ghost predicate LastEfforts(options: seq<ReasoningOption>, efforts: seq<string>) {
    if Offers(options, EffortKind) then
      exists i :: 0 <= i < |options| && options[i].kind == EffortKind && options[i].values == efforts
                  && forall j :: i < j < |options| ==> options[j].kind != EffortKind
    else efforts == []
  }

  ghost predicate Summarizes(options: seq<ReasoningOption>, r: Selectors) {
    && r.effort == Offers(options, EffortKind) && r.budget == Offers(options, BudgetKind) && r.toggle == Offers(options, ToggleKind)
    && LastEfforts(options, r.efforts) && LeastMin(options, r.min) && GreatestMax(options, r.max)
    && r.disable == CanDisable(options)
  }

  lemma OffersMore(seen: seq<ReasoningOption>, o: ReasoningOption, kind: OptionKind)
    ensures Offers(seen + [o], kind) <==> Offers(seen, kind) || o.kind == kind
  {
    var all := seen + [o];
    assert all[|seen|] == o;
    if Offers(seen, kind) {
      var i :| 0 <= i < |seen| && seen[i].kind == kind;
      assert all[i].kind == kind;
    }
  }

  lemma DisableMore(seen: seq<ReasoningOption>, o: ReasoningOption)
    ensures CanDisable(seen + [o]) <==> CanDisable(seen) || (o.kind == EffortKind && "none" in o.values)
  {
    var all := seen + [o];
    assert all[|seen|] == o;
    if CanDisable(seen) {
      var i :| 0 <= i < |seen| && seen[i].kind == EffortKind && "none" in seen[i].values;
      assert all[i] == seen[i];
    }
  }

  lemma EffortsMore(seen: seq<ReasoningOption>, o: ReasoningOption, efforts: seq<string>)
    requires LastEfforts(seen, efforts)
    ensures LastEfforts(seen + [o], if o.kind == EffortKind then o.values else efforts)
  {
    var all := seen + [o];
    OffersMore(seen, o, EffortKind);
    assert all[|seen|] == o;
    if o.kind != EffortKind && Offers(seen, EffortKind) {
      var i :| 0 <= i < |seen| && seen[i].kind == EffortKind && seen[i].values == efforts
               && forall j :: i < j < |seen| ==> seen[j].kind != EffortKind;
      assert all[i] == seen[i];
    }
  }

  function Lesser(a: Option<int>, b: Option<int>): Option<int> {
    if b.Some? && (a.None? || b.value < a.value) then b else a
  }

  function Greater(a: Option<int>, b: Option<int>): Option<int> {
    if b.Some? && (a.None? || b.value > a.value) then b else a
  }

  lemma MinMore(seen: seq<ReasoningOption>, o: ReasoningOption, least: Option<int>)
    requires LeastMin(seen, least)
    ensures LeastMin(seen + [o], if o.kind == BudgetKind then Lesser(least, o.min) else least)
  {
    var all := seen + [o];
    var next := if o.kind == BudgetKind then Lesser(least, o.min) else least;
    assert all[|seen|] == o;
    if next.Some? && next == least {
      var i :| 0 <= i < |seen| && seen[i].kind == BudgetKind && seen[i].min == least;
      assert all[i] == seen[i];
    }
  }

  lemma MaxMore(seen: seq<ReasoningOption>, o: ReasoningOption, greatest: Option<int>)
    requires GreatestMax(seen, greatest)
    ensures GreatestMax(seen + [o], if o.kind == BudgetKind then Greater(greatest, o.max) else greatest)
  {
    var all := seen + [o];
    var next := if o.kind == BudgetKind then Greater(greatest, o.max) else greatest;
    assert all[|seen|] == o;
    if next.Some? && next == greatest {
      var i :| 0 <= i < |seen| && seen[i].kind == BudgetKind && seen[i].max == greatest;
      assert all[i] == seen[i];
    }
  }

  method AddOption(ghost seen: seq<ReasoningOption>, o: ReasoningOption, r: Selectors) returns (s: Selectors)
    requires Summarizes(seen, r) && !r.adaptive && !r.enabled
    ensures Summarizes(seen + [o], s) && !s.adaptive && !s.enabled
  {
    OffersMore(seen, o, EffortKind);
    OffersMore(seen, o, BudgetKind);
    OffersMore(seen, o, ToggleKind);
    DisableMore(seen, o);
    EffortsMore(seen, o, r.efforts);
    MinMore(seen, o, r.min);
    MaxMore(seen, o, r.max);
    hide Offers;
    hide CanDisable;
    hide LastEfforts;
    hide LeastMin;
    hide GreatestMax;
    s := r;
    match o.kind {
      case EffortKind =>
        s := s.(effort := true, efforts := o.values);
        if "none" in o.values {
          s := s.(disable := true);
        }
      case BudgetKind =>
        s := s.(budget := true);
        if o.min.Some? && (s.min.None? || o.min.value < s.min.value) {
          s := s.(min := o.min);
        }
        if o.max.Some? && (s.max.None? || o.max.value > s.max.value) {
          s := s.(max := o.max);
        }
      case ToggleKind => s := s.(toggle := true);
    }
  }

  /** ExtractReasoningOptions: which selectors a target has, the widest budget range any
      option states, the efforts of the last effort option, and whether some effort option
      lists "none". */
  method ExtractSelectors(caps: Option<Capabilities>) returns (r: Selectors)
    ensures caps.None? ==> r == Selectors(false, [], false, false, None, None, false, false, false)
    ensures caps.Some? ==>
      && Summarizes(ListOf(caps.value), r)
      && (r.adaptive <==> "adaptive" in caps.value.thinkingModes) && (r.enabled <==> "enabled" in caps.value.thinkingModes)
  {
    r := Selectors(false, [], false, false, None, None, false, false, false);
    if caps.None? {
      return;
    }
    var options := ListOf(caps.value);
    for i := 0 to |options|
      invariant Summarizes(options[..i], r) && !r.adaptive && !r.enabled
    {
      assert options[..i + 1] == options[..i] + [options[i]];
      r := AddOption(options[..i], options[i], r);
    }
    assert options[..|options|] == options;
    ghost var base := r;
    hide Summarizes;
    var modes := caps.value.thinkingModes;
    for i := 0 to |modes|
      invariant r == base.(adaptive := "adaptive" in modes[..i], enabled := "enabled" in modes[..i])
    {
      assert modes[..i + 1] == modes[..i] + [modes[i]];
      if modes[i] == "adaptive" {
        r := r.(adaptive := true);
      } else if modes[i] == "enabled" {
        r := r.(enabled := true);
      }
    }
    assert modes[..|modes|] == modes;
    SameSummary(options, base, r);
  }

  lemma SameSummary(options: seq<ReasoningOption>, base: Selectors, r: Selectors)
    requires Summarizes(options, base) && r == base.(adaptive := r.adaptive, enabled := r.enabled)
    ensures Summarizes(options, r)
  {
  }
}
