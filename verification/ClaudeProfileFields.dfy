/** The three fields of a request body that its model's profile can change, and exactly what each of them becomes. */
module ClaudeProfileFields {
  import opened Common
  import opened ClaudeProfile

  // ---------------------------------------------------------------- effort

  predicate RefusesEffort(config: Fields, p: Profile) {
    Effort in config && config[Effort].Str? && config[Effort].s != "" && !p.accepts(config[Effort].s)
  }

  /** An enabled budget that `max_tokens` leaves no room for at all. */
  predicate LeavesNoRoom(body: Fields, p: Profile) {
    p.thinking != AdaptiveOnly && EnabledBudget(body).Some? && PositiveInteger(body, MaxTokens) == Some(1)
  }

  /** The same configuration without its effort; one that held nothing else is gone. */
  ghost predicate LosesEffort(before: Fields, after: Fields) {
    && OutputConfig in before && before[OutputConfig].Obj?
    && if OutputConfig in after then
         && after[OutputConfig].Obj? && after[OutputConfig].fields != map[] && Effort !in after[OutputConfig].fields
         && forall key: Key | key != Effort :: Keeps(before[OutputConfig].fields, after[OutputConfig].fields, key)
       else forall key: Key | key in before[OutputConfig].fields :: key == Effort
  }

  // ---------------------------------------------------------------- thinking

  /** What a model that only knows enabled thinking is given for an adaptive request. */
  function AdaptiveBudget(requested: Option<int>, maxTokens: Option<int>, p: Profile): int {
    var wanted := if requested.Some? then requested.value else if maxTokens.Some? then 4096 else 1024;
    Min(p.maxThinkingBudget, if maxTokens.Some? then Min(wanted, maxTokens.value - 1) else wanted)
  }

  /** What an enabled budget is cut down to. */
  function FittingBudget(budget: int, maxTokens: Option<int>, p: Profile): int {
    Min(budget, if maxTokens.Some? then Min(p.maxThinkingBudget, maxTokens.value - 1) else p.maxThinkingBudget)
  }

  predicate Mode(body: Fields, mode: string) {
    && Thinking in body && body[Thinking].Obj? && Type in body[Thinking].fields && body[Thinking].fields[Type] == Str(mode)
  }

  /** What the thinking of the body becomes. */
  ghost predicate Thinks(body: Fields, after: Fields, p: Profile) {
    var maxTokens := PositiveInteger(body, MaxTokens);
    if Mode(body, "adaptive") && p.thinking == EnabledOnly then
      var budget := AdaptiveBudget(PositiveInteger(body[Thinking].fields, BudgetTokens), maxTokens, p);
      if maxTokens.Some? && maxTokens.value <= 1024 then Thinking !in after
      else Thinking in after && after[Thinking] == Obj(map[Type := Str("enabled"), BudgetTokens := Int(budget)])
    else if Mode(body, "enabled") && p.thinking == AdaptiveOnly then Thinking in after && after[Thinking] == Obj(map[Type := Str("adaptive")])
    else if Mode(body, "enabled") && PositiveInteger(body[Thinking].fields, BudgetTokens).Some? then
      var budget := PositiveInteger(body[Thinking].fields, BudgetTokens).value;
      if maxTokens == Some(1) then Thinking !in after
      else Thinking in after && after[Thinking] == Obj(body[Thinking].fields[BudgetTokens := Int(FittingBudget(budget, maxTokens, p))])
    else Keeps(body, after, Thinking)
  }

  // ---------------------------------------------------------------- step by step

  lemma ModesDiffer(body: Fields)
    ensures !(Mode(body, "adaptive") && Mode(body, "enabled"))
  {
    assert |"adaptive"| != |"enabled"|;
  }

  lemma PolicyThinks(body: Fields, p: Profile)
    requires p.maxThinkingBudget >= 1
    ensures Thinks(body, CapThinkingBudget(ApplyThinkingPolicy(body, p), p), p)
  {
    ModesDiffer(body);
    var b := ApplyThinkingPolicy(body, p);
    if Mode(body, "adaptive") && p.thinking == EnabledOnly { AdaptiveThinks(body, p); }
    else if Mode(body, "enabled") && p.thinking == AdaptiveOnly { assert |"adaptive"| != |"enabled"|; }
    else { assert b == body; }
  }

  lemma AdaptiveThinks(body: Fields, p: Profile)
    requires p.maxThinkingBudget >= 1 && Mode(body, "adaptive") && p.thinking == EnabledOnly
    ensures Thinks(body, CapThinkingBudget(ApplyThinkingPolicy(body, p), p), p)
  {
    ModesDiffer(body);
    var b := ApplyThinkingPolicy(body, p);
    if Thinking in b {
      var x := ExplicitThinkingBudget(body, body[Thinking].fields).value;
      var y := Cap(PositiveInteger(body, MaxTokens), p);
      assert b[Thinking] == Obj(map[Type := Str("enabled"), BudgetTokens := Int(x)]);
      assert map[Type := Str("enabled"), BudgetTokens := Int(x)][BudgetTokens := Int(y)] == map[Type := Str("enabled"), BudgetTokens := Int(y)];
    }
  }

  /** The second effort policy finds nothing left to do. */
  lemma SecondEffortIsIdle(body: Fields, p: Profile)
    ensures ApplyEffortPolicy(ApplyThinkingPolicy(ApplyEffortPolicy(body, p), p), p) == ApplyThinkingPolicy(ApplyEffortPolicy(body, p), p)
  {
  }

  lemma ThinksAlike(body: Fields, b: Fields, after: Fields, p: Profile)
    requires Keeps(body, b, Thinking) && Keeps(body, b, MaxTokens) && Thinks(b, after, p)
    ensures Thinks(body, after, p)
  {
  }

  lemma EffortIsRefused(body: Fields, p: Profile)
    ensures var after := ApplyEffortPolicy(body, p);
      if OutputConfig in body && body[OutputConfig].Obj? && RefusesEffort(body[OutputConfig].fields, p) then LosesEffort(body, after)
      else after == body
  {
    if OutputConfig in body && body[OutputConfig].Obj? { EffortIsRemoved(body, body[OutputConfig].fields); }
  }

  lemma EffortIsRemoved(body: Fields, config: Fields)
    requires OutputConfig in body && body[OutputConfig] == Obj(config)
    ensures LosesEffort(body, WithoutEffort(body, config))
  {
    var rest := config - {Effort};
    if rest == map[] {
      forall key: Key | key in config ensures key == Effort { assert key == Effort || key in rest; }
    }
  }

  lemma StripsEffort(body: Fields)
    ensures var after := StripOutputConfigEffort(body);
      if OutputConfig in body && body[OutputConfig].Obj? && Effort in body[OutputConfig].fields then LosesEffort(body, after) else after == body
  {
    if OutputConfig in body && body[OutputConfig].Obj? { EffortIsRemoved(body, body[OutputConfig].fields); }
  }

  // ---------------------------------------------------------------- the whole profile

  predicate LosesItsEffort(body: Fields, p: Profile) {
    && OutputConfig in body && body[OutputConfig].Obj?
    && (RefusesEffort(body[OutputConfig].fields, p) || (Effort in body[OutputConfig].fields && LeavesNoRoom(body, p)))
  }

  lemma RoomIsLeft(body: Fields, p: Profile)
    ensures var b := ApplyThinkingPolicy(body, p); var maxTokens := PositiveInteger(b, MaxTokens);
      EnabledBudget(b).Some? && maxTokens.Some? && maxTokens.value <= 1 <==> LeavesNoRoom(body, p)
  {
    assert |"adaptive"| != |"enabled"|;
  }

  /** The configuration loses its effort exactly when the model refuses it or no thinking fits, and keeps every other key. */
  lemma EffortIsExact(body: Fields, p: Profile)
    ensures var after := ApplyModelProfile(body, p); if LosesItsEffort(body, p) then LosesEffort(body, after) else Keeps(body, after, OutputConfig)
  {
    var b1 := ApplyEffortPolicy(body, p);
    var b2 := ApplyThinkingPolicy(b1, p);
    SecondEffortIsIdle(body, p);
    EffortIsRefused(body, p);
    EffortKeepsThinking(body, p);
    RoomIsLeft(b1, p);
    RoomAlike(body, b1, p);
    StripsEffort(b2 - {Thinking});
  }

  lemma RoomAlike(body: Fields, b: Fields, p: Profile)
    requires Keeps(body, b, Thinking) && Keeps(body, b, MaxTokens)
    ensures LeavesNoRoom(body, p) <==> LeavesNoRoom(b, p)
  {
  }

  /** Thinking is translated to a mode the model has, with the budget that was asked for as far as it fits. */
  lemma ThinkingIsExact(body: Fields, p: Profile)
    requires p.maxThinkingBudget >= 1
    ensures Thinks(body, ApplyModelProfile(body, p), p)
  {
    var b1 := ApplyEffortPolicy(body, p);
    var capped := CapThinkingBudget(ApplyThinkingPolicy(b1, p), p);
    SecondEffortIsIdle(body, p);
    EffortKeepsThinking(body, p);
    PolicyThinks(b1, p);
    ThinksAlike(body, b1, capped, p);
    assert Keeps(capped, DisableForcedToolChoice(capped), Thinking);
    StillThinks(body, capped, DisableForcedToolChoice(capped), p);
  }

  lemma StillThinks(body: Fields, after: Fields, after': Fields, p: Profile)
    requires Thinks(body, after, p) && Keeps(after, after', Thinking)
    ensures Thinks(body, after', p)
  {
  }

  predicate Forces(body: Fields) {
    && ToolChoice in body && body[ToolChoice].Obj? && Type in body[ToolChoice].fields
    && (body[ToolChoice].fields[Type] == Str("any") || body[ToolChoice].fields[Type] == Str("tool"))
  }

  /** A forced tool becomes automatic exactly when the rewritten body thinks; any other choice is kept. */
  lemma ToolChoiceIsExact(body: Fields, p: Profile)
    ensures var after := ApplyModelProfile(body, p);
      if Forces(body) && Thinking in after && after[Thinking].Obj? && !Mode(after, "disabled")
      then ToolChoice in after && after[ToolChoice] == Obj(map[Type := Str("auto")])
      else Keeps(body, after, ToolChoice)
  {
    var b1 := ApplyEffortPolicy(body, p);
    var b2 := ApplyThinkingPolicy(b1, p);
    var b3 := CapThinkingBudget(b2, p);
    SecondEffortIsIdle(body, p);
    assert Keeps(body, b1, ToolChoice) && Keeps(b1, b2, ToolChoice) && Keeps(b2, b3, ToolChoice);
    assert |"any"| != 0 && |"tool"| != 0;
  }
}
