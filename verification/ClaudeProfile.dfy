/** How a Claude request body is fitted to the profile of its model: effort, thinking mode, thinking budget, tool choice. */
module ClaudeProfile {
  import opened Common

  /** The keys the rewriting looks at, and all others. */
  datatype Key =
    | OutputConfig | Thinking | MaxTokens | ToolChoice | Effort | Type | BudgetTokens | Role | Content | Text | Other(name: string)

  /** Whole numbers are `Int`; any other number is `Fraction`. */
  datatype Json = Null | Bool(b: bool) | Int(n: int) | Fraction(text: string) | Str(s: string) | Arr(items: seq<Json>) | Obj(fields: Fields)

  type Fields = map<Key, Json>

  datatype Policy = EnabledOnly | AdaptiveOnly | AllThinking

  /** `accepts` compares an effort with the accepted ones, ignoring case. */
  datatype Profile = Profile(accepts: string -> bool, thinking: Policy, maxThinkingBudget: int, acceptsMidConversationSystem: bool)

  // ---------------------------------------------------------------- reading fields

  function RecordField(body: Fields, key: Key): Option<Fields> {
    if key in body && body[key].Obj? then Some(body[key].fields) else None
  }

  /** The string at `key`; a missing one reads as the empty string, which no caller distinguishes. */
  function StringField(fields: Fields, key: Key): string {
    if key in fields && fields[key].Str? then fields[key].s else ""
  }

  function PositiveInteger(fields: Fields, key: Key): Option<int> {
    if key in fields && fields[key].Int? && fields[key].n > 0 then Some(fields[key].n) else None
  }

  // ---------------------------------------------------------------- the policies

  function WithoutEffort(body: Fields, config: Fields): Fields {
    if config - {Effort} == map[] then body - {OutputConfig} else body[OutputConfig := Obj(config - {Effort})]
  }

  function ApplyEffortPolicy(body: Fields, p: Profile): Fields {
    var config := RecordField(body, OutputConfig);
    if config.None? || StringField(config.value, Effort) == "" || p.accepts(StringField(config.value, Effort)) then body
    else WithoutEffort(body, config.value)
  }

  function ExplicitThinkingBudget(body: Fields, thinking: Fields): Option<int> {
    var maxTokens := PositiveInteger(body, MaxTokens);
    var requested := PositiveInteger(thinking, BudgetTokens);
    if maxTokens.Some? && maxTokens.value <= 1024 then None
    else if requested.Some? then Some(if maxTokens.None? then requested.value else Min(requested.value, maxTokens.value - 1))
    else if maxTokens.Some? then Some(Min(4096, maxTokens.value - 1))
    else Some(1024)
  }

  function ApplyThinkingPolicy(body: Fields, p: Profile): Fields {
    var thinking := RecordField(body, Thinking);
    if thinking.None? then body
    else
      var mode := StringField(thinking.value, Type);
      if p.thinking == EnabledOnly && mode == "adaptive" then
        var budget := ExplicitThinkingBudget(body, thinking.value);
        if budget.Some? then body[Thinking := Obj(map[Type := Str("enabled"), BudgetTokens := Int(budget.value)])] else body - {Thinking}
      else if p.thinking == AdaptiveOnly && mode == "enabled" then body[Thinking := Obj(map[Type := Str("adaptive")])]
      else body
  }

  function StripOutputConfigEffort(body: Fields): Fields {
    var config := RecordField(body, OutputConfig);
    if config.None? || Effort !in config.value then body else WithoutEffort(body, config.value)
  }

  function Cap(maxTokens: Option<int>, p: Profile): int {
    if maxTokens.None? then p.maxThinkingBudget else Min(p.maxThinkingBudget, Max(1, maxTokens.value - 1))
  }

  /** The enabled budget that is subject to the cap. */
  function EnabledBudget(body: Fields): Option<int> {
    var thinking := RecordField(body, Thinking);
    if thinking.None? || StringField(thinking.value, Type) != "enabled" then None else PositiveInteger(thinking.value, BudgetTokens)
  }

  function CapThinkingBudget(body: Fields, p: Profile): Fields {
    var budget := EnabledBudget(body);
    var maxTokens := PositiveInteger(body, MaxTokens);
    if budget.None? then body
    else if maxTokens.Some? && maxTokens.value <= 1 then StripOutputConfigEffort(body - {Thinking})
    else if budget.value > Cap(maxTokens, p)
    then body[Thinking := Obj(body[Thinking].fields[BudgetTokens := Int(Cap(maxTokens, p))])]
    else body
  }

  predicate ThinkingIsOn(body: Fields) {
    RecordField(body, Thinking).Some? && StringField(RecordField(body, Thinking).value, Type) != "disabled"
  }

  predicate ForcesTool(body: Fields) {
    && RecordField(body, ToolChoice).Some?
    && var choice := StringField(RecordField(body, ToolChoice).value, Type); choice == "any" || choice == "tool"
  }

  function DisableForcedToolChoice(body: Fields): Fields {
    if ThinkingIsOn(body) && ForcesTool(body) then body[ToolChoice := Obj(map[Type := Str("auto")])] else body
  }

  function ApplyModelProfile(body: Fields, p: Profile): Fields {
    DisableForcedToolChoice(CapThinkingBudget(ApplyEffortPolicy(ApplyThinkingPolicy(ApplyEffortPolicy(body, p), p), p), p))
  }

  // ---------------------------------------------------------------- what the body looks like afterwards

  predicate EffortOk(body: Fields, p: Profile) {
    var config := RecordField(body, OutputConfig);
    config.Some? ==> StringField(config.value, Effort) == "" || p.accepts(StringField(config.value, Effort))
  }

  predicate ModeOk(body: Fields, p: Profile) {
    var thinking := RecordField(body, Thinking);
    thinking.Some? ==>
      && !(p.thinking == EnabledOnly && StringField(thinking.value, Type) == "adaptive")
      && !(p.thinking == AdaptiveOnly && StringField(thinking.value, Type) == "enabled")
  }

  /** An enabled budget is within the profile's cap and strictly below `max_tokens`. */
  predicate BudgetOk(body: Fields, p: Profile) {
    var budget, maxTokens := EnabledBudget(body), PositiveInteger(body, MaxTokens);
    budget.Some? ==> budget.value <= p.maxThinkingBudget && (maxTokens.Some? ==> budget.value < maxTokens.value)
  }

  predicate ToolOk(body: Fields) {
    ThinkingIsOn(body) ==> !ForcesTool(body)
  }

  predicate Conforms(body: Fields, p: Profile) {
    EffortOk(body, p) && ModeOk(body, p) && BudgetOk(body, p) && ToolOk(body)
  }

  /** The rewritten body fits the profile, whatever the caller sent. */
  lemma RewrittenBodyConforms(body: Fields, p: Profile)
    requires p.maxThinkingBudget >= 1
    ensures Conforms(ApplyModelProfile(body, p), p)
  {
    PoliciesConform(body, p);
    CapConforms(ApplyEffortPolicy(ApplyThinkingPolicy(ApplyEffortPolicy(body, p), p), p), p);
  }

  lemma CapConforms(body: Fields, p: Profile)
    requires EffortOk(body, p) && ModeOk(body, p) && p.maxThinkingBudget >= 1
    ensures var after := CapThinkingBudget(body, p); EffortOk(after, p) && ModeOk(after, p) && BudgetOk(after, p)
  {
  }

  lemma PoliciesConform(body: Fields, p: Profile)
    ensures var after := ApplyEffortPolicy(ApplyThinkingPolicy(ApplyEffortPolicy(body, p), p), p); EffortOk(after, p) && ModeOk(after, p)
  {
  }

  /** A body that fits is left alone. */
  lemma ConformingBodyIsUnchanged(body: Fields, p: Profile)
    requires Conforms(body, p) && p.maxThinkingBudget >= 1
    ensures ApplyModelProfile(body, p) == body
  {
  }

  /** Rewriting twice is rewriting once. */
  lemma ApplyModelProfileIsIdempotent(body: Fields, p: Profile)
    requires p.maxThinkingBudget >= 1
    ensures ApplyModelProfile(ApplyModelProfile(body, p), p) == ApplyModelProfile(body, p)
  {
    RewrittenBodyConforms(body, p);
    ConformingBodyIsUnchanged(ApplyModelProfile(body, p), p);
  }

  predicate IsAdaptive(body: Fields) {
    RecordField(body, Thinking).Some? && StringField(RecordField(body, Thinking).value, Type) == "adaptive"
  }

  predicate Fits(budget: int, maxTokens: Option<int>, p: Profile) {
    budget <= p.maxThinkingBudget && (maxTokens.Some? ==> maxTokens.value > 1024 && budget < maxTokens.value)
  }

  /**
   * For a model without adaptive thinking, an adaptive request keeps the budget it asked for when that fits, and loses its
   * thinking exactly when `max_tokens` leaves no room for the smallest budget.
   */
  lemma AdaptiveRequestIsTranslated(body: Fields, p: Profile)
    requires p.thinking == EnabledOnly && p.maxThinkingBudget >= 1 && IsAdaptive(body)
    ensures var after := ApplyModelProfile(body, p); var maxTokens := PositiveInteger(body, MaxTokens);
      var requested := PositiveInteger(RecordField(body, Thinking).value, BudgetTokens);
      && (EnabledBudget(after).Some? <==> maxTokens.None? || maxTokens.value > 1024)
      && (Thinking in after <==> EnabledBudget(after).Some?)
      && (requested.Some? && Fits(requested.value, maxTokens, p) ==> EnabledBudget(after) == requested)
  {
    var b1 := ApplyEffortPolicy(body, p);
    var b2 := ApplyThinkingPolicy(b1, p);
    EffortKeepsThinking(body, p);
    EffortKeepsThinking(b2, p);
    assert EnabledBudget(b2).Some? <==> Thinking in b2;
  }

  lemma EffortKeepsThinking(body: Fields, p: Profile)
    ensures Keeps(body, ApplyEffortPolicy(body, p), Thinking) && Keeps(body, ApplyEffortPolicy(body, p), MaxTokens)
  {
  }

  // ---------------------------------------------------------------- nothing else changes

  predicate Keeps(body: Fields, after: Fields, key: Key) {
    if key in body then key in after && after[key] == body[key] else key !in after
  }

  lemma StepsKeep(body: Fields, p: Profile, key: Key)
    requires key != OutputConfig && key != Thinking && key != ToolChoice
    ensures Keeps(body, ApplyEffortPolicy(body, p), key) && Keeps(body, ApplyThinkingPolicy(body, p), key)
    ensures Keeps(body, CapThinkingBudget(body, p), key) && Keeps(body, DisableForcedToolChoice(body), key)
  {
  }

  /** Only effort, thinking and tool choice may change. */
  lemma OtherFieldsAreKept(body: Fields, p: Profile, key: Key)
    requires key != OutputConfig && key != Thinking && key != ToolChoice
    ensures Keeps(body, ApplyModelProfile(body, p), key)
  {
    var b1 := ApplyEffortPolicy(body, p);
    var b2 := ApplyThinkingPolicy(b1, p);
    var b3 := ApplyEffortPolicy(b2, p);
    StepsKeep(body, p, key);
    StepsKeep(b1, p, key);
    StepsKeep(b2, p, key);
    StepsKeep(b3, p, key);
    StepsKeep(CapThinkingBudget(b3, p), p, key);
  }

  // ---------------------------------------------------------------- the cloned body, changed in place

  class RequestBody {
    var fields: Fields

    constructor (fields: Fields)
      ensures this.fields == fields
    {
      this.fields := fields;
    }

    method DropEffort(config: Fields)
      modifies this
      ensures fields == WithoutEffort(old(fields), config)
    {
      var rest := config - {Effort};
      if |rest| == 0 { fields := fields - {OutputConfig}; } else { fields := fields[OutputConfig := Obj(rest)]; }
    }

    method ApplyEffort(p: Profile)
      modifies this
      ensures fields == ApplyEffortPolicy(old(fields), p)
    {
      var config := RecordField(fields, OutputConfig);
      if config.None? { return; }
      var effort := StringField(config.value, Effort);
      if effort == "" || p.accepts(effort) { return; }
      DropEffort(config.value);
    }

    method ApplyThinking(p: Profile)
      modifies this
      ensures fields == ApplyThinkingPolicy(old(fields), p)
    {
      var thinking := RecordField(fields, Thinking);
      if thinking.None? { return; }
      var mode := StringField(thinking.value, Type);
      if mode == "" || mode == "disabled" { return; }
      if p.thinking == EnabledOnly && mode == "adaptive" {
        var budget := ExplicitThinkingBudget(fields, thinking.value);
        if budget.Some? { fields := fields[Thinking := Obj(map[Type := Str("enabled"), BudgetTokens := Int(budget.value)])]; }
        else { fields := fields - {Thinking}; }
        return;
      }
      if p.thinking == AdaptiveOnly && mode == "enabled" { fields := fields[Thinking := Obj(map[Type := Str("adaptive")])]; }
    }

    method CapBudget(p: Profile)
      modifies this
      ensures fields == CapThinkingBudget(old(fields), p)
    {
      var budget := EnabledBudget(fields);
      if budget.None? { return; }
      var maxTokens := PositiveInteger(fields, MaxTokens);
      if maxTokens.Some? && maxTokens.value <= 1 {
        fields := fields - {Thinking};
        var config := RecordField(fields, OutputConfig);
        if config.Some? && Effort in config.value { DropEffort(config.value); }
        return;
      }
      var cap := Cap(maxTokens, p);
      if budget.value > cap { fields := fields[Thinking := Obj(fields[Thinking].fields[BudgetTokens := Int(cap)])]; }
    }

    method DisableForcedTool()
      modifies this
      ensures fields == DisableForcedToolChoice(old(fields))
    {
      if ThinkingIsOn(fields) && ForcesTool(fields) { fields := fields[ToolChoice := Obj(map[Type := Str("auto")])]; }
    }

    method ApplyProfile(p: Profile)
      requires p.maxThinkingBudget >= 1
      modifies this
      ensures fields == ApplyModelProfile(old(fields), p) && Conforms(fields, p)
    {
      RewrittenBodyConforms(fields, p);
      ApplyEffort(p);
      ApplyThinking(p);
      ApplyEffort(p);
      CapBudget(p);
      DisableForcedTool();
    }
  }
}
