/**
 * How the conversation of a Claude request is made acceptable: loose text moves into the tool result it accompanies,
 * system messages the model would refuse become user messages, and the conversation does not end with the assistant.
 */
module ClaudeMessages {
  import opened Common
  import opened JsText
  import opened ClaudeProfile

  const InjectedMarker := "[Claude Code injected]\n"
  const Separator := "\n\n"

  predicate Has(value: Json, key: Key, text: string) {
    value.Obj? && key in value.fields && value.fields[key] == Str(text)
  }

  predicate IsSystem(message: Json) { Has(message, Role, "system") }
  predicate IsUser(message: Json) { Has(message, Role, "user") }
  predicate IsAssistant(message: Json) { Has(message, Role, "assistant") }

  /** A message that says how its turn is to be run must be forwarded untouched. */
  predicate HasMessageOutputConfig(messages: seq<Json>) {
    exists i | 0 <= i < |messages| :: messages[i].Obj? && OutputConfig in messages[i].fields
  }

  function TextBlock(text: string): Json {
    Obj(map[Type := Str("text"), Text := Str(text)])
  }

  predicate IsTextBlock(block: Json) {
    Has(block, Type, "text") && Text in block.fields && block.fields[Text].Str?
  }

  // ---------------------------------------------------------------- system messages

  /** A system message may stand only between a user turn and an assistant turn, or at the end behind a user turn. */
  predicate LegalPlacement(messages: seq<Json>, index: nat) {
    && 0 < index <= |messages| && IsUser(messages[index - 1])
    && (index + 1 < |messages| && messages[index + 1].Obj? ==> IsAssistant(messages[index + 1]))
  }

  /** The marker goes into the first text block, or into a new one at the front. */
  function PrefixBlocks(blocks: seq<Json>): Option<seq<Json>> {
    if blocks == [] then None
    else if IsTextBlock(blocks[0]) then
      Some([Obj(blocks[0].fields[Text := Str(InjectedMarker + blocks[0].fields[Text].s)])] + blocks[1..])
    else
      var rest := PrefixBlocks(blocks[1..]);
      if rest.Some? then Some([blocks[0]] + rest.value) else None
  }

  function PrefixContent(message: Fields): Json {
    if Content in message && message[Content].Str? then Str(InjectedMarker + message[Content].s)
    else if Content !in message || !message[Content].Arr? then Arr([TextBlock(InjectedMarker)])
    else
      var blocks := message[Content].items;
      var marked := PrefixBlocks(blocks);
      Arr(if marked.Some? then marked.value else [TextBlock(InjectedMarker)] + blocks)
  }

  function AsUserMessage(message: Json): Json
    requires message.Obj?
  {
    Obj(message.fields[Role := Str("user")][Content := PrefixContent(message.fields)])
  }

  function RewriteAt(messages: seq<Json>, index: nat, accepts: bool): seq<Json>
    requires index < |messages|
  {
    if !IsSystem(messages[index]) || (accepts && LegalPlacement(messages, index)) then messages
    else messages[index := AsUserMessage(messages[index])]
  }

  function RewriteFrom(messages: seq<Json>, index: nat, accepts: bool): seq<Json>
    decreases |messages| - index
  {
    if index >= |messages| then messages else RewriteFrom(RewriteAt(messages, index, accepts), index + 1, accepts)
  }

  function FixTrailing(messages: seq<Json>, prompt: string): seq<Json> {
    if messages != [] && IsAssistant(messages[|messages| - 1])
    then messages + [Obj(map[Role := Str("user"), Content := Arr([TextBlock(prompt)])])] else messages
  }

  /** Every system message among the first `n` is where the model accepts it. */
  predicate LegalBelow(messages: seq<Json>, n: nat, accepts: bool) {
    n <= |messages| && forall k: nat | k < n && IsSystem(messages[k]) :: accepts && LegalPlacement(messages, k)
  }

  lemma RolesDiffer()
    ensures "system" != "user" && "system" != "assistant" && "user" != "assistant"
  {
    assert |"system"| != |"user"| && |"system"| != |"assistant"| && |"user"| != |"assistant"|;
  }

  lemma RewriteAtKeepsLegal(messages: seq<Json>, index: nat, accepts: bool)
    requires index < |messages| && LegalBelow(messages, index, accepts)
    ensures LegalBelow(RewriteAt(messages, index, accepts), index + 1, accepts)
  {
    RolesDiffer();
    var after := RewriteAt(messages, index, accepts);
    forall k: nat | k < index + 1 && IsSystem(after[k]) ensures accepts && LegalPlacement(after, k) {
      if k < index { assert LegalPlacement(messages, k); }
    }
  }

  lemma {:induction false} RewriteFromIsLegal(messages: seq<Json>, index: nat, accepts: bool)
    requires index <= |messages| && LegalBelow(messages, index, accepts)
    ensures var after := RewriteFrom(messages, index, accepts);
      |after| == |messages| && LegalBelow(after, |after|, accepts) && after[..index] == messages[..index]
    decreases |messages| - index
  {
    if index < |messages| {
      RewriteAtKeepsLegal(messages, index, accepts);
      var next := RewriteAt(messages, index, accepts);
      RewriteFromIsLegal(next, index + 1, accepts);
      assert RewriteFrom(messages, index, accepts)[..index] == RewriteFrom(messages, index, accepts)[..index + 1][..index];
      assert next[..index + 1][..index] == messages[..index];
    }
  }

  /**
   * The rewritten conversation does not end with the assistant, every system message left in it is legally placed, and
   * none is left for a model that does not accept them.
   */
  lemma ConversationIsAcceptable(messages: seq<Json>, accepts: bool, prompt: string, k: nat)
    ensures var after := FixTrailing(RewriteFrom(messages, 0, accepts), prompt);
      && (after != [] ==> !IsAssistant(after[|after| - 1]))
      && (k < |after| && IsSystem(after[k]) ==> accepts && LegalPlacement(after, k))
  {
    RolesDiffer();
    RewriteFromIsLegal(messages, 0, accepts);
    var rewritten := RewriteFrom(messages, 0, accepts);
    if k < |rewritten| && IsSystem(rewritten[k]) { assert LegalPlacement(rewritten, k); }
  }

  /** Only system messages change, and only into the user message that carries their text behind the marker. */
  lemma {:induction false} OtherMessagesAreKept(messages: seq<Json>, index: nat, accepts: bool, k: nat)
    requires k < |messages|
    ensures |RewriteFrom(messages, index, accepts)| == |messages|
    ensures k < index || !IsSystem(messages[k]) ==> RewriteFrom(messages, index, accepts)[k] == messages[k]
    ensures RewriteFrom(messages, index, accepts)[k] == messages[k]
      || (IsSystem(messages[k]) && RewriteFrom(messages, index, accepts)[k] == AsUserMessage(messages[k]))
    decreases |messages| - index
  {
    RolesDiffer();
    if index < |messages| { OtherMessagesAreKept(RewriteAt(messages, index, accepts), index + 1, accepts, k); }
  }

  method RewriteMidConversationSystemMessages(messages: array<Json>, accepts: bool)
    modifies messages
    ensures messages[..] == RewriteFrom(old(messages[..]), 0, accepts)
  {
    var index := 0;
    while index < messages.Length
      invariant index <= messages.Length
      invariant RewriteFrom(messages[..], index, accepts) == RewriteFrom(old(messages[..]), 0, accepts)
    {
      ghost var before := messages[..];
      if IsSystem(messages[index]) {
        var legal := index > 0 && IsUser(messages[index - 1])
          && (index + 1 < messages.Length && messages[index + 1].Obj? ==> IsAssistant(messages[index + 1]));
        if !(accepts && legal) { messages[index] := AsUserMessage(messages[index]); }
      }
      assert messages[..] == RewriteAt(before, index, accepts);
      index := index + 1;
    }
  }

  // ---------------------------------------------------------------- text beside tool results

  predicate IsToolResult(block: Json) { Has(block, Type, "tool_result") }

  /** The blocks that are not plain text, in order. */
  function Others(blocks: seq<Json>): seq<Json> {
    if blocks == [] then []
    else Others(blocks[..|blocks| - 1]) + if IsTextBlock(blocks[|blocks| - 1]) then [] else [blocks[|blocks| - 1]]
  }

  /** The texts that are not blank, trimmed, in order. */
  function Texts(blocks: seq<Json>): seq<string> {
    if blocks == [] then []
    else
      var last := blocks[|blocks| - 1];
      Texts(blocks[..|blocks| - 1]) + if IsTextBlock(last) && Trim(last.fields[Text].s) != "" then [Trim(last.fields[Text].s)] else []
  }

  function Join(parts: seq<string>): string {
    if parts == [] then "" else if |parts| == 1 then parts[0] else Join(parts[..|parts| - 1]) + Separator + parts[|parts| - 1]
  }

  function LastToolResult(blocks: seq<Json>): Option<nat> {
    if blocks == [] then None
    else if IsToolResult(blocks[|blocks| - 1]) then Some(|blocks| - 1) else LastToolResult(blocks[..|blocks| - 1])
  }

  predicate HasReference(result: Fields) {
    && Content in result && result[Content].Arr?
    && exists i | 0 <= i < |result[Content].items| :: Has(result[Content].items[i], Type, "tool_reference")
  }

  function ContentWith(result: Fields, text: string): Json {
    if Content !in result then Str(text)
    else match result[Content]
      case Str(own) => Str(if Trim(own) != "" then own + Separator + text else text)
      case Arr(items) => Arr(items + [TextBlock(text)])
      case _ => Arr([TextBlock(text)])
  }

  function WithText(result: Json, text: string): Json
    requires result.Obj?
  {
    Obj(result.fields[Content := ContentWith(result.fields, text)])
  }

  function MergeBlocks(blocks: seq<Json>): seq<Json> {
    var rebuilt, texts := Others(blocks), Texts(blocks);
    var target := LastToolResult(rebuilt);
    if texts == [] || target.None? || target.value >= |rebuilt| || !rebuilt[target.value].Obj? || HasReference(rebuilt[target.value].fields)
    then blocks
    else rebuilt[target.value := WithText(rebuilt[target.value], Join(texts))]
  }

  function MergeMessage(message: Json): Json {
    if !IsUser(message) || Content !in message.fields || !message.fields[Content].Arr? then message
    else if !exists i | 0 <= i < |message.fields[Content].items| :: IsToolResult(message.fields[Content].items[i]) then message
    else Obj(message.fields[Content := Arr(MergeBlocks(message.fields[Content].items))])
  }

  // ---------------------------------------------------------------- nothing is lost

  predicate OccursAt(part: string, text: string, i: nat) {
    i + |part| <= |text| && text[i..i + |part|] == part
  }

  ghost predicate Occurs(part: string, text: string) {
    exists i: nat :: OccursAt(part, text, i)
  }

  /** The text a tool result shows: its own, or that of one of its blocks. */
  ghost predicate Shows(result: Json, part: string) {
    && result.Obj? && Content in result.fields
    && match result.fields[Content]
       case Str(text) => Occurs(part, text)
       case Arr(items) => exists i | 0 <= i < |items| :: IsTextBlock(items[i]) && Occurs(part, items[i].fields[Text].s)
       case _ => false
  }

  lemma OccursInside(part: string, before: string, text: string, after: string)
    requires Occurs(part, text)
    ensures Occurs(part, before + text + after)
  {
    var i: nat :| OccursAt(part, text, i);
    var whole := before + text + after;
    assert whole[|before| + i..|before| + i + |part|] == text[i..i + |part|];
    assert OccursAt(part, whole, |before| + i);
  }

  lemma {:induction false} JoinShowsEveryPart(parts: seq<string>, i: nat)
    requires i < |parts|
    ensures Occurs(parts[i], Join(parts))
  {
    var last := parts[|parts| - 1];
    if i == |parts| - 1 {
      assert last[0..|last|] == last && OccursAt(last, last, 0);
      if |parts| > 1 {
        OccursInside(last, Join(parts[..|parts| - 1]) + Separator, last, "");
        assert Join(parts[..|parts| - 1]) + Separator + last + "" == Join(parts);
      }
    } else {
      JoinShowsEveryPart(parts[..|parts| - 1], i);
      OccursInside(parts[i], "", Join(parts[..|parts| - 1]), Separator + last);
      assert "" + Join(parts[..|parts| - 1]) + (Separator + last) == Join(parts);
    }
  }

  lemma WithTextShows(result: Json, text: string, part: string)
    requires result.Obj? && Occurs(part, text)
    ensures Shows(WithText(result, text), part)
  {
    var fields := result.fields;
    if Content in fields && fields[Content].Str? && Trim(fields[Content].s) != "" {
      OccursInside(part, fields[Content].s + Separator, text, "");
      assert fields[Content].s + Separator + text + "" == fields[Content].s + Separator + text;
    } else if Content in fields && fields[Content].Arr? {
      var items := fields[Content].items + [TextBlock(text)];
      assert IsTextBlock(items[|items| - 1]) && Occurs(part, items[|items| - 1].fields[Text].s);
    } else if Content in fields && !fields[Content].Str? {
      assert IsTextBlock([TextBlock(text)][0]);
    }
  }

  lemma {:induction false} LastToolResultIsOne(blocks: seq<Json>)
    ensures LastToolResult(blocks).Some? ==> LastToolResult(blocks).value < |blocks| && IsToolResult(blocks[LastToolResult(blocks).value])
    ensures LastToolResult(blocks).None? ==> forall i | 0 <= i < |blocks| :: !IsToolResult(blocks[i])
  {
    if blocks != [] { LastToolResultIsOne(blocks[..|blocks| - 1]); }
  }

  /** The same block, except that its content may differ. */
  ghost predicate KeepsFields(before: Json, after: Json) {
    before.Obj? && after.Obj? && forall key: Key | key != Content :: Keeps(before.fields, after.fields, key)
  }

  /** There is text to move, and a tool result that takes it. */
  predicate Merges(blocks: seq<Json>) {
    var target := LastToolResult(Others(blocks));
    && Texts(blocks) != [] && target.Some? && target.value < |Others(blocks)| && Others(blocks)[target.value].Obj?
    && !HasReference(Others(blocks)[target.value].fields)
  }

  /**
   * Blocks that cannot be merged are left alone. Otherwise every block that is not plain text is kept, in order and with
   * only the content of the last tool result changed, and that tool result then shows every text that was not blank.
   */
  lemma MergingLosesNothing(blocks: seq<Json>, i: nat)
    ensures !Merges(blocks) ==> MergeBlocks(blocks) == blocks
    ensures Merges(blocks) ==>
      var merged, others, texts := MergeBlocks(blocks), Others(blocks), Texts(blocks);
      var target := LastToolResult(others).value;
      && |merged| == |others| && IsToolResult(others[target])
      && (forall k | 0 <= k < |merged| && k != target :: merged[k] == others[k])
      && KeepsFields(others[target], merged[target])
      && (i < |texts| ==> Shows(merged[target], texts[i]))
  {
    var others, texts := Others(blocks), Texts(blocks);
    var target := LastToolResult(others);
    LastToolResultIsOne(others);
    if i < |texts| && target.Some? {
      JoinShowsEveryPart(texts, i);
      WithTextShows(others[target.value], Join(texts), texts[i]);
    }
  }

  /** Every block is accounted for: it is kept among the others, or its text is among the texts, or it was blank. */
  lemma {:induction false} BlocksAreAccountedFor(blocks: seq<Json>, i: nat)
    requires i < |blocks|
    ensures if !IsTextBlock(blocks[i]) then blocks[i] in Others(blocks)
      else Trim(blocks[i].fields[Text].s) == "" || Trim(blocks[i].fields[Text].s) in Texts(blocks)
  {
    if i < |blocks| - 1 { BlocksAreAccountedFor(blocks[..|blocks| - 1], i); }
  }

  /** What the text that a tool result already had becomes. */
  lemma OwnTextIsKept(result: Json, text: string, part: string)
    requires result.Obj? && Content in result.fields && Shows(result, part)
    requires result.fields[Content].Str? ==> Trim(result.fields[Content].s) != ""
    ensures Shows(WithText(result, text), part)
  {
    match result.fields[Content]
    case Str(own) =>
      OccursInside(part, "", own, Separator + text);
      assert "" + own + (Separator + text) == own + Separator + text;
    case Arr(items) =>
      var i :| 0 <= i < |items| && IsTextBlock(items[i]) && Occurs(part, items[i].fields[Text].s);
      assert (items + [TextBlock(text)])[i] == items[i];
    case _ =>
  }

  // ---------------------------------------------------------------- the loops

  method SplitBlocks(blocks: seq<Json>) returns (rebuilt: seq<Json>, textParts: seq<string>)
    ensures rebuilt == Others(blocks) && textParts == Texts(blocks)
  {
    rebuilt, textParts := [], [];
    var i := 0;
    while i < |blocks|
      invariant i <= |blocks| && rebuilt == Others(blocks[..i]) && textParts == Texts(blocks[..i])
    {
      assert blocks[..i + 1][..i] == blocks[..i];
      var block := blocks[i];
      if IsTextBlock(block) {
        var text := Trim(block.fields[Text].s);
        if text != "" { textParts := textParts + [text]; }
      } else {
        rebuilt := rebuilt + [block];
      }
      i := i + 1;
    }
    assert blocks[..i] == blocks;
  }

  method FindLastToolResult(blocks: seq<Json>) returns (index: int)
    ensures index == if LastToolResult(blocks).Some? then LastToolResult(blocks).value else -1
  {
    index := |blocks| - 1;
    assert blocks[..index + 1] == blocks;
    while index >= 0 && !IsToolResult(blocks[index])
      invariant -1 <= index < |blocks| && LastToolResult(blocks[..index + 1]) == LastToolResult(blocks)
    {
      assert blocks[..index + 1][..index] == blocks[..index];
      index := index - 1;
    }
  }

  method MergeToolResultTextBlocks(messages: array<Json>)
    modifies messages
    ensures forall i | 0 <= i < messages.Length :: messages[i] == MergeMessage(old(messages[i]))
  {
    var i := 0;
    while i < messages.Length
      invariant i <= messages.Length
      invariant forall k | 0 <= k < i :: messages[k] == MergeMessage(old(messages[k]))
      invariant forall k | i <= k < messages.Length :: messages[k] == old(messages[k])
    {
      var merged := MergeOne(messages[i]);
      messages[i] := merged;
      i := i + 1;
    }
  }

  method MergeOne(message: Json) returns (merged: Json)
    ensures merged == MergeMessage(message)
  {
    merged := message;
    if !IsUser(message) || Content !in message.fields || !message.fields[Content].Arr? { return; }
    var blocks := message.fields[Content].items;
    if !exists i | 0 <= i < |blocks| :: IsToolResult(blocks[i]) { return; }
    assert message.fields[Content := Arr(blocks)] == message.fields;
    var rebuilt, textParts := SplitBlocks(blocks);
    if textParts == [] { return; }
    LastToolResultIsOne(rebuilt);
    var target := FindLastToolResult(rebuilt);
    if target < 0 || HasReference(rebuilt[target].fields) { return; }
    rebuilt := rebuilt[target := WithText(rebuilt[target], Join(textParts))];
    merged := Obj(message.fields[Content := Arr(rebuilt)]);
  }

  /** The marker in place: the loop of `prefixMessageContent`. */
  method MarkBlocks(blocks: seq<Json>) returns (marked: seq<Json>)
    ensures marked == if PrefixBlocks(blocks).Some? then PrefixBlocks(blocks).value else [TextBlock(InjectedMarker)] + blocks
  {
    var i := 0;
    assert blocks[0..] == blocks;
    while i < |blocks|
      invariant i <= |blocks| && (PrefixBlocks(blocks).Some? <==> PrefixBlocks(blocks[i..]).Some?)
      invariant PrefixBlocks(blocks).Some? ==> PrefixBlocks(blocks).value == blocks[..i] + PrefixBlocks(blocks[i..]).value
    {
      assert blocks[i..][1..] == blocks[i + 1..];
      if IsTextBlock(blocks[i]) {
        return blocks[..i] + [Obj(blocks[i].fields[Text := Str(InjectedMarker + blocks[i].fields[Text].s)])] + blocks[i + 1..];
      }
      i := i + 1;
    }
    marked := [TextBlock(InjectedMarker)] + blocks;
  }

  // ---------------------------------------------------------------- the conversation as a whole

  function MergeAll(messages: seq<Json>): seq<Json> {
    if messages == [] then [] else [MergeMessage(messages[0])] + MergeAll(messages[1..])
  }

  predicate IsLoadedMarker(block: Json) {
    IsTextBlock(block) && Trim(block.fields[Text].s) == "Tool loaded."
  }

  function WithoutMarkers(blocks: seq<Json>): seq<Json> {
    if blocks == [] then [] else (if IsLoadedMarker(blocks[0]) then [] else [blocks[0]]) + WithoutMarkers(blocks[1..])
  }

  /** Drops the marker of a loaded tool, and a message that has nothing else to say. */
  function StripToolReferenceTurns(messages: seq<Json>): seq<Json> {
    if messages == [] then []
    else
      var rest := StripToolReferenceTurns(messages[1..]);
      var message := messages[0];
      if !message.Obj? || Content !in message.fields || !message.fields[Content].Arr? then [message] + rest
      else
        var blocks := WithoutMarkers(message.fields[Content].items);
        if blocks == [] then rest else [Obj(message.fields[Content := Arr(blocks)])] + rest
  }

  function Prepare(messages: seq<Json>, accepts: bool, prompt: string): seq<Json> {
    if HasMessageOutputConfig(messages) then messages
    else FixTrailing(RewriteFrom(StripToolReferenceTurns(MergeAll(messages)), 0, accepts), prompt)
  }

  /** Unless a message carries its own output configuration, the prepared conversation is one the model accepts. */
  lemma PreparedConversationIsAcceptable(messages: seq<Json>, accepts: bool, prompt: string, k: nat)
    ensures HasMessageOutputConfig(messages) ==> Prepare(messages, accepts, prompt) == messages
    ensures !HasMessageOutputConfig(messages) ==>
      var after := Prepare(messages, accepts, prompt);
      && (after != [] ==> !IsAssistant(after[|after| - 1]))
      && (k < |after| && IsSystem(after[k]) ==> accepts && LegalPlacement(after, k))
  {
    ConversationIsAcceptable(StripToolReferenceTurns(MergeAll(messages)), accepts, prompt, k);
  }
}
