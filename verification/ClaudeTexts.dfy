/**
 * What becomes of every message and every block of a Claude request, said in terms of the JSON itself: which messages are
 * rewritten and into what, where merged text goes, and which blocks are dropped.
 */
module ClaudeTexts {
  import opened Common
  import opened JsText
  import opened ClaudeProfile
  import opened ClaudeMessages

  // ---------------------------------------------------------------- rewritten system messages

  predicate HoldsText(block: Json, text: string) {
    && block.Obj? && Type in block.fields && block.fields[Type] == Str("text")
    && Text in block.fields && block.fields[Text] == Str(text)
  }

  predicate IsText(block: Json) {
    && block.Obj? && Type in block.fields && block.fields[Type] == Str("text") && Text in block.fields && block.fields[Text].Str?
  }

  /** The same block, except for its text. */
  predicate SameBlock(before: Json, after: Json) {
    before.Obj? && after.Obj? && before.fields.Keys == after.fields.Keys
    && forall key: Key | key in before.fields && key != Text :: after.fields[key] == before.fields[key]
  }

  /** The marker stands before the text of the first text block. */
  predicate MarksAt(blocks: seq<Json>, marked: seq<Json>, i: nat) {
    && i < |blocks| == |marked| && IsText(blocks[i]) && (forall k | 0 <= k < i :: !IsText(blocks[k]))
    && HoldsText(marked[i], "[Claude Code injected]\n" + blocks[i].fields[Text].s) && SameBlock(blocks[i], marked[i])
    && marked[..i] == blocks[..i] && marked[i + 1..] == blocks[i + 1..]
  }

  /** The marker stands in a new block in front of blocks that hold no text. */
  predicate MarksInFront(blocks: seq<Json>, marked: seq<Json>) {
    && (forall k | 0 <= k < |blocks| :: !IsText(blocks[k]))
    && |marked| == |blocks| + 1 && HoldsText(marked[0], "[Claude Code injected]\n") && marked[1..] == blocks
  }

  ghost predicate MarksBlocks(blocks: seq<Json>, marked: seq<Json>) {
    MarksInFront(blocks, marked) || exists i: nat :: MarksAt(blocks, marked, i)
  }

  /** `after` is a user message with the content of `before` behind the marker, and every other field of it. */
  ghost predicate IsRewrittenAs(before: Json, after: Json) {
    && before.Obj? && after.Obj? && Has(after, Role, "user") && Content in after.fields
    && (forall key: Key | key != Role && key != Content :: Keeps(before.fields, after.fields, key))
    && var content := after.fields[Content];
      if Content in before.fields && before.fields[Content].Str? then content == Str("[Claude Code injected]\n" + before.fields[Content].s)
      else if Content in before.fields && before.fields[Content].Arr? then content.Arr? && MarksBlocks(before.fields[Content].items, content.items)
      else content.Arr? && |content.items| == 1 && HoldsText(content.items[0], "[Claude Code injected]\n")
  }

  lemma {:induction false} BlocksAreMarked(blocks: seq<Json>)
    ensures var marked := PrefixBlocks(blocks);
      if marked.Some? then exists i: nat :: MarksAt(blocks, marked.value, i) else forall k | 0 <= k < |blocks| :: !IsText(blocks[k])
  {
    if blocks != [] {
      var marked := PrefixBlocks(blocks);
      if IsTextBlock(blocks[0]) {
        assert MarksAt(blocks, marked.value, 0);
      } else {
        BlocksAreMarked(blocks[1..]);
        if marked.Some? {
          var i: nat :| MarksAt(blocks[1..], PrefixBlocks(blocks[1..]).value, i);
          MarkedBehind(blocks, PrefixBlocks(blocks[1..]).value, i);
        }
      }
    }
  }

  lemma MarkedBehind(blocks: seq<Json>, rest: seq<Json>, i: nat)
    requires blocks != [] && !IsText(blocks[0]) && MarksAt(blocks[1..], rest, i)
    ensures MarksAt(blocks, [blocks[0]] + rest, i + 1)
  {
    var marked := [blocks[0]] + rest;
    assert marked[..i + 1] == [blocks[0]] + rest[..i] && blocks[..i + 1] == [blocks[0]] + blocks[1..][..i];
    assert marked[i + 2..] == rest[i + 1..] && blocks[i + 2..] == blocks[1..][i + 1..];
  }

  lemma MessageIsRewritten(message: Json)
    requires message.Obj?
    ensures IsRewrittenAs(message, AsUserMessage(message))
  {
    var fields := message.fields;
    if Content in fields && fields[Content].Arr? {
      var blocks := fields[Content].items;
      BlocksAreMarked(blocks);
      if PrefixBlocks(blocks).None? {
        var marked := [TextBlock(InjectedMarker)] + blocks;
        assert marked[1..] == blocks && MarksInFront(blocks, marked);
      }
    }
  }

  /** Where a system message is left alone: behind a message that is a user message by then, and before an assistant's. */
  predicate IsLeftAlone(messages: seq<Json>, after: seq<Json>, k: nat, accepts: bool)
    requires k < |messages| == |after|
  {
    accepts && 0 < k && Has(after[k - 1], Role, "user")
    && (k + 1 < |messages| && messages[k + 1].Obj? ==> Has(messages[k + 1], Role, "assistant"))
  }

  lemma {:induction false} NextIsUntouched(messages: seq<Json>, index: nat, accepts: bool)
    requires index < |messages|
    ensures var after := RewriteFrom(messages, index, accepts);
      |after| == |messages| && after[index] == RewriteAt(messages, index, accepts)[index] && after[..index] == messages[..index]
  {
    RewriteKeepsFront(messages, index, accepts);
    RewriteKeepsFront(RewriteAt(messages, index, accepts), index + 1, accepts);
  }

  lemma {:induction false} RewriteKeepsFront(messages: seq<Json>, index: nat, accepts: bool)
    requires index <= |messages|
    ensures |RewriteFrom(messages, index, accepts)| == |messages| && RewriteFrom(messages, index, accepts)[..index] == messages[..index]
    decreases |messages| - index
  {
    if index < |messages| {
      var next := RewriteAt(messages, index, accepts);
      RewriteKeepsFront(next, index + 1, accepts);
      var after := RewriteFrom(messages, index, accepts);
      assert after[..index] == after[..index + 1][..index] && next[..index + 1][..index] == messages[..index];
    }
  }

  /** The `k`-th message is decided when the rewriting reaches it. */
  predicate Decided(messages: seq<Json>, after: seq<Json>, k: nat, accepts: bool)
    requires k < |messages| == |after|
  {
    after[k] == if IsSystem(messages[k]) && !IsLeftAlone(messages, after, k, accepts) then AsUserMessage(messages[k]) else messages[k]
  }

  lemma {:induction false} RewriteDecides(messages: seq<Json>, index: nat, accepts: bool, k: nat)
    requires index <= k < |messages|
    ensures |RewriteFrom(messages, index, accepts)| == |messages| && Decided(messages, RewriteFrom(messages, index, accepts), k, accepts)
    decreases |messages| - index
  {
    var after := RewriteFrom(messages, index, accepts);
    NextIsUntouched(messages, index, accepts);
    if index < k {
      var next := RewriteAt(messages, index, accepts);
      RewriteDecides(next, index + 1, accepts, k);
      assert next[k] == messages[k] && (k + 1 < |messages| ==> next[k + 1] == messages[k + 1]);
    } else if k > 0 {
      assert after[..index][k - 1] == messages[..index][k - 1];
    }
  }

  /**
   * Which messages are rewritten, and into what: exactly the system messages that the model refuses, or that do not stand
   * between a user's message and an assistant's, become user messages with their content behind the marker. Every other
   * message is left as it was.
   */
  lemma MessagesAreRewritten(messages: seq<Json>, accepts: bool, k: nat)
    requires k < |messages|
    ensures var after := RewriteFrom(messages, 0, accepts);
      && |after| == |messages|
      && if Has(messages[k], Role, "system") && !IsLeftAlone(messages, after, k, accepts) then IsRewrittenAs(messages[k], after[k])
         else after[k] == messages[k]
  {
    RewriteDecides(messages, 0, accepts, k);
    if messages[k].Obj? { MessageIsRewritten(messages[k]); }
  }

  /** Nothing is added but one user message with the prompt, exactly behind a last message of the assistant. */
  lemma TrailingIsFixed(messages: seq<Json>, prompt: string)
    ensures var after := FixTrailing(messages, prompt);
      if messages != [] && Has(messages[|messages| - 1], Role, "assistant") then
        && |after| == |messages| + 1 && after[..|messages|] == messages
        && var last := after[|messages|];
          && last.Obj? && last.fields.Keys == {Role, Content} && Has(last, Role, "user") && last.fields[Content].Arr?
          && |last.fields[Content].items| == 1 && HoldsText(last.fields[Content].items[0], prompt)
      else after == messages
  {
  }

  // ---------------------------------------------------------------- trimming

  lemma {:induction false} TrimStartDrops(t: string)
    ensures exists i: nat :: i <= |t| && TrimStart(t) == t[i..] && forall k | 0 <= k < i :: IsSpace(t[k])
    ensures TrimStart(t) != [] ==> !IsSpace(TrimStart(t)[0])
  {
    if t != [] && IsSpace(t[0]) {
      TrimStartDrops(t[1..]);
      var i: nat :| i <= |t[1..]| && TrimStart(t[1..]) == t[1..][i..] && forall k | 0 <= k < i :: IsSpace(t[1..][k]);
      assert t[1..][i..] == t[i + 1..];
      forall k | 0 <= k < i + 1 ensures IsSpace(t[k]) { if k > 0 { assert t[k] == t[1..][k - 1]; } }
    } else {
      assert t[0..] == t;
    }
  }

  lemma {:induction false} TrimEndDrops(t: string)
    ensures exists j: nat :: j <= |t| && TrimEnd(t) == t[..j] && forall k | j <= k < |t| :: IsSpace(t[k])
    ensures TrimEnd(t) != [] ==> !IsSpace(TrimEnd(t)[|TrimEnd(t)| - 1]) && TrimEnd(t)[0] == t[0]
  {
    if t != [] && IsSpace(t[|t| - 1]) {
      var front := t[..|t| - 1];
      TrimEndDrops(front);
      var j: nat :| j <= |front| && TrimEnd(front) == front[..j] && forall k | j <= k < |front| :: IsSpace(front[k]);
      assert front[..j] == t[..j];
      forall k | j <= k < |t| ensures IsSpace(t[k]) { if k < |front| { assert t[k] == front[k]; } }
    } else {
      assert t[..|t|] == t;
    }
  }

  /** What `[i..j]` of the text is when everything around it is white space. */
  predicate TrimmedTo(t: string, i: nat, j: nat) {
    && i <= j <= |t| && (forall k | 0 <= k < i :: IsSpace(t[k])) && (forall k | j <= k < |t| :: IsSpace(t[k]))
    && (i < j ==> !IsSpace(t[i]) && !IsSpace(t[j - 1]))
  }

  /** Trimming removes the white space at both ends and nothing else. */
  lemma TrimIsExact(t: string)
    ensures exists i: nat, j: nat :: TrimmedTo(t, i, j) && Trim(t) == t[i..j]
  {
    TrimStartDrops(t);
    var i: nat :| i <= |t| && TrimStart(t) == t[i..] && forall k | 0 <= k < i :: IsSpace(t[k]);
    var rest := t[i..];
    TrimEndDrops(rest);
    var j: nat :| j <= |rest| && TrimEnd(rest) == rest[..j] && forall k | j <= k < |rest| :: IsSpace(rest[k]);
    assert rest[..j] == t[i..i + j];
    forall k | i + j <= k < |t| ensures IsSpace(t[k]) { assert t[k] == rest[k - i]; }
    assert TrimmedTo(t, i, i + j);
  }

  // ---------------------------------------------------------------- merged text

  lemma {:induction false} OthersAppend(a: seq<Json>, b: seq<Json>)
    ensures Others(a + b) == Others(a) + Others(b) && Texts(a + b) == Texts(a) + Texts(b)
    decreases |b|
  {
    if b == [] {
      assert a + b == a;
    } else {
      assert (a + b)[..|a + b| - 1] == a + b[..|b| - 1];
      OthersAppend(a, b[..|b| - 1]);
    }
  }

  /**
   * A message's blocks are split in order: a block that holds text gives its trimmed text, unless that is empty, and any
   * other block is kept.
   */
  lemma BlocksAreSplit(a: seq<Json>, block: Json, b: seq<Json>)
    ensures Others(a + [block] + b) == Others(a) + (if IsText(block) then [] else [block]) + Others(b)
    ensures Texts(a + [block] + b) ==
      Texts(a) + (if IsText(block) && Trim(block.fields[Text].s) != "" then [Trim(block.fields[Text].s)] else []) + Texts(b)
    ensures Others([]) == [] && Texts([]) == []
  {
    OthersAppend(a + [block], b);
    OthersAppend(a, [block]);
    assert [block][..0] == [];
  }

  /** Joined texts stand in order, with an empty line between two of them. */
  lemma {:induction false} JoinAppend(a: seq<string>, b: seq<string>)
    requires a != [] && b != []
    ensures Join(a + b) == Join(a) + "\n\n" + Join(b)
    decreases |b|
  {
    var last := b[|b| - 1];
    assert (a + b)[..|a + b| - 1] == a + b[..|b| - 1];
    if |b| == 1 {
      assert a + b[..0] == a;
    } else {
      JoinAppend(a, b[..|b| - 1]);
      assert Join(a) + "\n\n" + Join(b[..|b| - 1]) + "\n\n" + last == Join(a) + "\n\n" + (Join(b[..|b| - 1]) + "\n\n" + last);
    }
  }

  lemma JoinOne(text: string)
    ensures Join([text]) == text && Join([]) == ""
  {
  }

  /** What the content of a tool result becomes when text is moved into it. */
  ghost predicate TakesText(before: Json, after: Json, text: string) {
    && before.Obj? && after.Obj? && Content in after.fields
    && (forall key: Key | key != Content :: Keeps(before.fields, after.fields, key))
    && var content := after.fields[Content];
      if Content !in before.fields then content == Str(text)
      else match before.fields[Content]
        case Str(own) => content == Str(if Trim(own) == "" then text else own + "\n\n" + text)
        case Arr(items) => content.Arr? && |content.items| == |items| + 1 && content.items[..|items|] == items && HoldsText(content.items[|items|], text)
        case _ => content.Arr? && |content.items| == 1 && HoldsText(content.items[0], text)
  }

  /** The last block at `i` is a tool result without a reference, and there is text to move into it. */
  predicate CanTake(others: seq<Json>, texts: seq<string>, i: nat) {
    && texts != [] && i < |others| && Has(others[i], Type, "tool_result")
    && (forall k | i < k < |others| :: !Has(others[k], Type, "tool_result"))
    && !(Content in others[i].fields && others[i].fields[Content].Arr?
         && exists j | 0 <= j < |others[i].fields[Content].items| :: Has(others[i].fields[Content].items[j], Type, "tool_reference"))
  }

  lemma {:induction false} LastIsLast(blocks: seq<Json>)
    ensures LastToolResult(blocks).Some? ==> forall k | LastToolResult(blocks).value < k < |blocks| :: !Has(blocks[k], Type, "tool_result")
  {
    if blocks != [] && !IsToolResult(blocks[|blocks| - 1]) { LastIsLast(blocks[..|blocks| - 1]); }
  }

  /**
   * All the texts beside a tool result move into the last one, behind what it already shows; every other block stays. With
   * no text to move, or a last tool result that holds a reference, nothing changes.
   */
  lemma TextIsMoved(blocks: seq<Json>, i: nat)
    requires CanTake(Others(blocks), Texts(blocks), i)
    ensures var others, merged := Others(blocks), MergeBlocks(blocks);
      && |merged| == |others| && TakesText(others[i], merged[i], Join(Texts(blocks)))
      && merged[..i] == others[..i] && merged[i + 1..] == others[i + 1..]
  {
    LastToolResultIsOne(Others(blocks));
    LastIsLast(Others(blocks));
    var target := LastToolResult(Others(blocks)).value;
    assert target == i;
  }

  lemma NothingIsMoved(blocks: seq<Json>)
    requires forall i: nat :: !CanTake(Others(blocks), Texts(blocks), i)
    ensures MergeBlocks(blocks) == blocks
  {
    LastToolResultIsOne(Others(blocks));
    LastIsLast(Others(blocks));
    if LastToolResult(Others(blocks)).Some? { assert !CanTake(Others(blocks), Texts(blocks), LastToolResult(Others(blocks)).value); }
  }

  /** Only the content of a user message with a tool result among its blocks is merged. */
  lemma MessagesAreMerged(messages: seq<Json>, k: nat)
    requires k < |messages|
    ensures |MergeAll(messages)| == |messages| && var before, after := messages[k], MergeAll(messages)[k];
      if Has(before, Role, "user") && Content in before.fields && before.fields[Content].Arr?
        && (exists i | 0 <= i < |before.fields[Content].items| :: Has(before.fields[Content].items[i], Type, "tool_result"))
      then after == Obj(before.fields[Content := Arr(MergeBlocks(before.fields[Content].items))])
      else after == before
  {
    MergeAllAt(messages, k);
  }

  lemma {:induction false} MergeAllAt(messages: seq<Json>, k: nat)
    requires k < |messages|
    ensures |MergeAll(messages)| == |messages| && MergeAll(messages)[k] == MergeMessage(messages[k])
  {
    if |messages| > 1 { MergeAllAt(messages[1..], if k == 0 then 0 else k - 1); }
  }

  // ---------------------------------------------------------------- loaded tools

  predicate IsToolLoaded(block: Json) {
    IsText(block) && Trim(block.fields[Text].s) == "Tool loaded."
  }

  lemma {:induction false} WithoutMarkersAppend(a: seq<Json>, b: seq<Json>)
    ensures WithoutMarkers(a + b) == WithoutMarkers(a) + WithoutMarkers(b)
  {
    if a == [] {
      assert a + b == b;
    } else {
      assert (a + b)[1..] == a[1..] + b;
      WithoutMarkersAppend(a[1..], b);
    }
  }

  lemma {:induction false} StripAppend(a: seq<Json>, b: seq<Json>)
    ensures StripToolReferenceTurns(a + b) == StripToolReferenceTurns(a) + StripToolReferenceTurns(b)
  {
    if a == [] {
      assert a + b == b;
    } else {
      assert (a + b)[1..] == a[1..] + b;
      StripAppend(a[1..], b);
    }
  }

  lemma OneBlock(block: Json)
    ensures WithoutMarkers([block]) == if IsToolLoaded(block) then [] else [block]
  {
    assert [block][1..] == [] && WithoutMarkers([]) == [];
  }

  /** Of a list of blocks exactly the markers of loaded tools go. */
  lemma MarkersAreDropped(a: seq<Json>, block: Json, b: seq<Json>)
    ensures WithoutMarkers(a + [block] + b) == WithoutMarkers(a) + (if IsToolLoaded(block) then [] else [block]) + WithoutMarkers(b)
    ensures WithoutMarkers([]) == []
  {
    WithoutMarkersAppend(a + [block], b);
    WithoutMarkersAppend(a, [block]);
    OneBlock(block);
  }

  /** What is left of one message. */
  function LeftOf(message: Json): seq<Json> {
    if !message.Obj? || Content !in message.fields || !message.fields[Content].Arr? then [message]
    else if WithoutMarkers(message.fields[Content].items) == [] then []
    else [Obj(message.fields[Content := Arr(WithoutMarkers(message.fields[Content].items))])]
  }

  lemma OneMessage(message: Json)
    ensures StripToolReferenceTurns([message]) == LeftOf(message)
  {
    assert [message][1..] == [] && StripToolReferenceTurns([]) == [];
  }

  /** A message goes exactly when its content is a list of which nothing is left; any other keeps its place and its fields. */
  lemma EmptiedMessagesAreDropped(a: seq<Json>, message: Json, b: seq<Json>)
    ensures StripToolReferenceTurns(a + [message] + b) == StripToolReferenceTurns(a) + LeftOf(message) + StripToolReferenceTurns(b)
    ensures StripToolReferenceTurns([]) == []
  {
    StripAppend(a + [message], b);
    StripAppend(a, [message]);
    OneMessage(message);
  }

  // ---------------------------------------------------------------- each repair where it is needed

  predicate NoResults(messages: seq<Json>) {
    forall k | 0 <= k < |messages| && messages[k].Obj? && Content in messages[k].fields && messages[k].fields[Content].Arr? ::
      forall i | 0 <= i < |messages[k].fields[Content].items| :: !Has(messages[k].fields[Content].items[i], Type, "tool_result")
  }

  /** No list of blocks is empty or holds the marker of a loaded tool. */
  predicate NoMarkers(messages: seq<Json>) {
    forall k | 0 <= k < |messages| && messages[k].Obj? && Content in messages[k].fields && messages[k].fields[Content].Arr? ::
      messages[k].fields[Content].items != []
      && forall i | 0 <= i < |messages[k].fields[Content].items| :: !IsToolLoaded(messages[k].fields[Content].items[i])
  }

  predicate NoSystem(messages: seq<Json>) {
    forall k | 0 <= k < |messages| :: !Has(messages[k], Role, "system")
  }

  predicate EndsWell(messages: seq<Json>) {
    messages != [] ==> !Has(messages[|messages| - 1], Role, "assistant")
  }

  lemma {:induction false} MergeIsIdle(messages: seq<Json>)
    requires NoResults(messages)
    ensures MergeAll(messages) == messages
  {
    if messages != [] {
      MergeIsIdle(messages[1..]);
      assert MergeMessage(messages[0]) == messages[0];
    }
  }

  lemma {:induction false} NothingToDrop(blocks: seq<Json>)
    requires forall i | 0 <= i < |blocks| :: !IsToolLoaded(blocks[i])
    ensures WithoutMarkers(blocks) == blocks
  {
    if blocks != [] { NothingToDrop(blocks[1..]); }
  }

  lemma {:induction false} StripIsIdle(messages: seq<Json>)
    requires NoMarkers(messages)
    ensures StripToolReferenceTurns(messages) == messages
  {
    if messages != [] {
      StripIsIdle(messages[1..]);
      var message := messages[0];
      if message.Obj? && Content in message.fields && message.fields[Content].Arr? {
        NothingToDrop(message.fields[Content].items);
        assert message.fields[Content := message.fields[Content]] == message.fields;
      }
    }
  }

  lemma RewriteIsIdle(messages: seq<Json>, accepts: bool)
    requires NoSystem(messages)
    ensures RewriteFrom(messages, 0, accepts) == messages
  {
    RewriteKeepsFront(messages, 0, accepts);
    forall k | 0 <= k < |messages| ensures RewriteFrom(messages, 0, accepts)[k] == messages[k] { MessagesAreRewritten(messages, accepts, k); }
  }

  /**
   * Each repair is made where it is needed and no other: a conversation that only one of them concerns is changed by that
   * one alone, and a conversation that none concerns is forwarded as it is.
   */
  lemma RepairsAreIndependent(messages: seq<Json>, accepts: bool, prompt: string)
    requires !HasMessageOutputConfig(messages)
    ensures var after := Prepare(messages, accepts, prompt);
      && (NoMarkers(MergeAll(messages)) && NoSystem(MergeAll(messages)) && EndsWell(MergeAll(messages)) ==> after == MergeAll(messages))
      && (NoResults(messages) && NoSystem(StripToolReferenceTurns(messages)) && EndsWell(StripToolReferenceTurns(messages)) ==>
            after == StripToolReferenceTurns(messages))
      && (NoResults(messages) && NoMarkers(messages) && EndsWell(RewriteFrom(messages, 0, accepts)) ==> after == RewriteFrom(messages, 0, accepts))
      && (NoResults(messages) && NoMarkers(messages) && NoSystem(messages) ==> after == FixTrailing(messages, prompt))
  {
    if NoResults(messages) { MergeIsIdle(messages); }
    if NoMarkers(messages) { StripIsIdle(messages); }
    if NoSystem(messages) { RewriteIsIdle(messages, accepts); }
    if NoMarkers(MergeAll(messages)) { StripIsIdle(MergeAll(messages)); }
    if NoSystem(MergeAll(messages)) { RewriteIsIdle(MergeAll(messages), accepts); }
    if NoSystem(StripToolReferenceTurns(messages)) { RewriteIsIdle(StripToolReferenceTurns(messages), accepts); }
  }
}
