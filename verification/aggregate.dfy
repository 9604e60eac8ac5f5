/**
 * Grouping a stored message history into display turns (src/utils/letta.ts).
 *
 * `AggregateMessages` is the source's single pass: a user message closes the
 * open assistant turn and pushes a user turn; the first assistant-side message
 * after it opens a new assistant turn, pushes it at once and from then on
 * updates it in place. `Reference` states the same result without a loop: the
 * history is cut at its user messages, each user message gives a user turn and
 * each segment between them that holds an assistant-side message gives one
 * assistant turn whose fields are the in-order filters of that segment.
 */
module Aggregate {
  import opened Wrappers
  import opened LettaTypes

  /** A turn before the final clean-up: every list field is a plain sequence. */
  datatype Turn = Turn(
    role: Role,
    content: string,
    reasoning: seq<string>,
    toolCalls: seq<ToolCall>,
    toolReturns: seq<LettaMessage>)

  function UserTurn(content: string): Turn
  {
    Turn(User, content, [], [], [])
  }

  const EmptyAssistant := Turn(Assistant, "", [], [], [])

  /**
   * Folds one message into the open assistant turn, as the aliased updates do;
   * `AbsorbParts` states it in terms of each message's part.
   */
  function Absorb(t: Turn, m: LettaMessage): Turn
  {
    match m
    case AssistantMessage(c) => t.(content := t.content + c)
    case ReasoningMessage(c) => t.(reasoning := t.reasoning + [c])
    case ApprovalRequestMessage(call) => t.(toolCalls := t.toolCalls + [call])
    case ToolReturnMessage(_, _, _, _) => t.(toolReturns := t.toolReturns + [m])
    case _ => t
  }

  // ---------------------------------------------------------------------------
  // In-order filters of a message sequence

  /** What one message contributes to each filter below. */
  function TextPart(m: LettaMessage): string
  {
    if m.AssistantMessage? then m.content else ""
  }

  function ReasoningPart(m: LettaMessage): seq<string>
  {
    if m.ReasoningMessage? then [m.content] else []
  }

  function CallPart(m: LettaMessage): seq<ToolCall>
  {
    if m.ApprovalRequestMessage? then [m.toolCall] else []
  }

  function ReturnPart(m: LettaMessage): seq<LettaMessage>
  {
    if m.ToolReturnMessage? then [m] else []
  }

  function UserPart(m: LettaMessage): seq<string>
  {
    if m.UserMessage? then [m.content] else []
  }

  /** The concatenated text of the assistant messages. */
  function AssistantText(ms: seq<LettaMessage>): string
  {
    if ms == [] then "" else AssistantText(ms[..|ms| - 1]) + TextPart(ms[|ms| - 1])
  }

  /** The reasoning contents. */
  function ReasoningOf(ms: seq<LettaMessage>): seq<string>
  {
    if ms == [] then [] else ReasoningOf(ms[..|ms| - 1]) + ReasoningPart(ms[|ms| - 1])
  }

  /** The tool calls carried by approval requests. */
  function ToolCallsOf(ms: seq<LettaMessage>): seq<ToolCall>
  {
    if ms == [] then [] else ToolCallsOf(ms[..|ms| - 1]) + CallPart(ms[|ms| - 1])
  }

  /** The tool-return messages themselves. */
  function ToolReturnsOf(ms: seq<LettaMessage>): seq<LettaMessage>
  {
    if ms == [] then [] else ToolReturnsOf(ms[..|ms| - 1]) + ReturnPart(ms[|ms| - 1])
  }

  /** The contents of the user messages. */
  function UserContents(ms: seq<LettaMessage>): seq<string>
  {
    if ms == [] then [] else UserContents(ms[..|ms| - 1]) + UserPart(ms[|ms| - 1])
  }

  // ---------------------------------------------------------------------------
  // The reference definition

  /**
   * The index of the last user message, if there is one. The contract keeps the
   * indexing well-formed; `LastUserIsLast` states that the index is the last one.
   */
  function LastUser(ms: seq<LettaMessage>): (r: Option<nat>)
    ensures r.Some? ==> r.value < |ms| && ms[r.value].UserMessage?
  {
    if ms == [] then None
    else if ms[|ms| - 1].UserMessage? then Some(|ms| - 1)
    else LastUser(ms[..|ms| - 1])
  }

  /** No user message follows the one `LastUser` finds, and `None` means there is no user message at all. */
  lemma {:induction false} LastUserIsLast(ms: seq<LettaMessage>)
    ensures LastUser(ms).Some? ==> forall k :: LastUser(ms).value < k < |ms| ==> !ms[k].UserMessage?
    ensures LastUser(ms).None? ==> forall k :: 0 <= k < |ms| ==> !ms[k].UserMessage?
  {
    if ms != [] && !ms[|ms| - 1].UserMessage? {
      var init := ms[..|ms| - 1];
      LastUserIsLast(init);
      assert forall k :: 0 <= k < |init| ==> init[k] == ms[k];
    }
  }

  /** The messages after the last user message: the segment an assistant turn may still grow from. */
  function OpenSegment(ms: seq<LettaMessage>): seq<LettaMessage>
  {
    match LastUser(ms)
    case None => ms
    case Some(j) => ms[j + 1..]
  }

  /** Some message of the segment is assistant-side. */
  predicate HasAssistantSide(run: seq<LettaMessage>)
  {
    run != [] && (HasAssistantSide(run[..|run| - 1]) || IsAssistantSide(run[|run| - 1]))
  }

  /** An assistant turn is open after `ms`: its open segment holds an assistant-side message. */
  predicate TurnOpen(ms: seq<LettaMessage>)
  {
    HasAssistantSide(OpenSegment(ms))
  }

  /** The assistant turn a segment gives: every field is the in-order filter of the segment. */
  function RunTurn(run: seq<LettaMessage>): Turn
  {
    Turn(Assistant, AssistantText(run), ReasoningOf(run), ToolCallsOf(run), ToolReturnsOf(run))
  }

  function RunTurns(run: seq<LettaMessage>): seq<Turn>
  {
    if HasAssistantSide(run) then [RunTurn(run)] else []
  }

  /** The turns of a history, before clean-up: the closed turns, then the open turn if any. */
  function Reference(ms: seq<LettaMessage>): seq<Turn>
    decreases |ms|, 1
  {
    ClosedTurns(ms) + RunTurns(OpenSegment(ms))
  }

  /** The turns up to and including the last user message. */
  function ClosedTurns(ms: seq<LettaMessage>): seq<Turn>
    decreases |ms|, 0
  {
    match LastUser(ms)
    case None => []
    case Some(j) => Reference(ms[..j]) + [UserTurn(ms[j].content)]
  }

  // ---------------------------------------------------------------------------
  // Clean-up (letta.ts:43-49)

  /** A turn as shown: each list field is absent exactly when it is empty. */
  function Clean(t: Turn): (d: DisplayMessage)
    ensures d.role == t.role && d.content == t.content
    ensures d.reasoning.None? <==> t.reasoning == []
    ensures d.reasoning.Some? ==> d.reasoning.value == t.reasoning
    ensures d.toolCalls.None? <==> t.toolCalls == []
    ensures d.toolCalls.Some? ==> d.toolCalls.value == t.toolCalls
    ensures d.toolReturns.None? <==> t.toolReturns == []
    ensures d.toolReturns.Some? ==> d.toolReturns.value == t.toolReturns
  {
    DisplayMessage(t.role, t.content, Present(t.reasoning), Present(t.toolCalls), Present(t.toolReturns))
  }

  function CleanAll(turns: seq<Turn>): (r: seq<DisplayMessage>)
    ensures |r| == |turns|
    ensures forall k :: 0 <= k < |turns| ==> r[k] == Clean(turns[k])
  {
    seq(|turns|, k requires 0 <= k < |turns| => Clean(turns[k]))
  }

  // ---------------------------------------------------------------------------
  // Counting the turns

  /** The message at index `i` opens an assistant turn: it is assistant-side and none is open before it. */
  predicate StartsRun(ms: seq<LettaMessage>, i: nat)
    requires i < |ms|
  {
    IsAssistantSide(ms[i]) && !TurnOpen(ms[..i])
  }

  /** The number of maximal runs of assistant-side messages not interrupted by a user message. */
  function RunCount(ms: seq<LettaMessage>): nat
  {
    if ms == [] then 0
    else RunCount(ms[..|ms| - 1]) + (if StartsRun(ms, |ms| - 1) then 1 else 0)
  }

  /** The contents of the user turns, in order. */
  function UserTurnContents(turns: seq<Turn>): seq<string>
  {
    if turns == [] then []
    else
      var t := turns[|turns| - 1];
      UserTurnContents(turns[..|turns| - 1]) + (if t.role == User then [t.content] else [])
  }

  // Whole-history concatenations over the assistant turns

  function AllAssistantText(turns: seq<Turn>): string
  {
    if turns == [] then ""
    else
      var t := turns[|turns| - 1];
      AllAssistantText(turns[..|turns| - 1]) + (if t.role == Assistant then t.content else "")
  }

  function AllReasoning(turns: seq<Turn>): seq<string>
  {
    if turns == [] then [] else AllReasoning(turns[..|turns| - 1]) + turns[|turns| - 1].reasoning
  }

  function AllToolCalls(turns: seq<Turn>): seq<ToolCall>
  {
    if turns == [] then [] else AllToolCalls(turns[..|turns| - 1]) + turns[|turns| - 1].toolCalls
  }

  function AllToolReturns(turns: seq<Turn>): seq<LettaMessage>
  {
    if turns == [] then [] else AllToolReturns(turns[..|turns| - 1]) + turns[|turns| - 1].toolReturns
  }

  // ---------------------------------------------------------------------------
  // The source's loop

  /**
   * The source's pass over the history. `current` is the index in `display` of
   * the open assistant turn, which the source reaches through an alias of the
   * object it has already pushed.
   */
  method AggregateMessages(messages: seq<LettaMessage>) returns (r: seq<DisplayMessage>)
    ensures r == CleanAll(Reference(messages))
    ensures |r| == |UserContents(messages)| + RunCount(messages)
  {
    var display: seq<Turn> := [];
    var current: Option<nat> := None;
    EmptyHistory();
    for i := 0 to |messages|
      invariant display == Reference(messages[..i])
      invariant current.Some? <==> TurnOpen(messages[..i])
      invariant current.Some? ==> current.value == |display| - 1
    {
      NextPrefix(messages, i);
      display, current := FoldMessage(display, current, messages[..i], messages[i]);
    }
    assert messages[..|messages|] == messages;
    r := CleanAll(display);
    DisplayCount(messages, display);
  }

  lemma NextPrefix(messages: seq<LettaMessage>, i: nat)
    requires i < |messages|
    ensures messages[..i + 1] == messages[..i] + [messages[i]]
  {
  }

  /** The number of turns shown, in terms of the history. */
  lemma DisplayCount(messages: seq<LettaMessage>, display: seq<Turn>)
    requires display == Reference(messages)
    ensures |CleanAll(display)| == |UserContents(messages)| + RunCount(messages)
  {
    TurnCount(messages);
  }

  /** The empty history has no turns and no open turn. */
  lemma EmptyHistory()
    ensures Reference([]) == [] && !TurnOpen([])
  {
    assert OpenSegment([]) == [];
  }

  /**
   * The body of the source's loop: folds one message into the turns built so
   * far from the history `seen`.
   */
  method FoldMessage(display: seq<Turn>, current: Option<nat>, ghost seen: seq<LettaMessage>, msg: LettaMessage)
    returns (display': seq<Turn>, current': Option<nat>)
    requires display == Reference(seen)
    requires current.Some? <==> TurnOpen(seen)
    requires current.Some? ==> current.value == |display| - 1
    ensures display' == Reference(seen + [msg])
    ensures current'.Some? <==> TurnOpen(seen + [msg])
    ensures current'.Some? ==> current'.value == |display'| - 1
  {
    display', current' := display, current;
    if msg.UserMessage? {
      SnocUser(seen, msg);
      current' := None;
      display' := display' + [UserTurn(msg.content)];
    } else if IsAssistantSide(msg) {
      if current'.None? {
        SnocOpen(seen, msg);
        PushThenUpdate(display', EmptyAssistant, Absorb(EmptyAssistant, msg));
        display' := display' + [EmptyAssistant];
        current' := Some(|display'| - 1);
      } else {
        SnocExtend(seen, msg);
      }
      var k := current'.value;
      display' := display'[k := Absorb(display'[k], msg)];
    } else {
      SnocSkip(seen, msg);
    }
  }

  // ---------------------------------------------------------------------------
  // The loop step, stated on the reference

  lemma {:induction false} NoAssistantSideEmpty(run: seq<LettaMessage>)
    requires !HasAssistantSide(run)
    ensures RunTurn(run) == EmptyAssistant
  {
    if run != [] {
      NoAssistantSideEmpty(run[..|run| - 1]);
    }
  }

  /** Appending one message to a segment. */
  lemma RunSnoc(run: seq<LettaMessage>, m: LettaMessage)
    ensures IsAssistantSide(m) ==> HasAssistantSide(run + [m]) && RunTurn(run + [m]) == Absorb(RunTurn(run), m)
    ensures IsSkipped(m) ==> HasAssistantSide(run + [m]) == HasAssistantSide(run) && RunTurn(run + [m]) == RunTurn(run)
  {
    var s := run + [m];
    assert s[..|s| - 1] == run;
  }

  /** While a turn is open it is the last turn, and it is the turn of the open segment. */
  lemma OpenTurnIsLast(ms: seq<LettaMessage>)
    requires TurnOpen(ms)
    ensures Reference(ms) == ClosedTurns(ms) + [RunTurn(OpenSegment(ms))]
  {
  }

  /** Any message but a user message leaves the closed turns alone and extends the open segment. */
  lemma SnocNonUser(ms: seq<LettaMessage>, m: LettaMessage)
    requires !m.UserMessage?
    ensures ClosedTurns(ms + [m]) == ClosedTurns(ms)
    ensures OpenSegment(ms + [m]) == OpenSegment(ms) + [m]
  {
    var s := ms + [m];
    assert s[..|ms|] == ms;
    assert LastUser(s) == LastUser(ms);
    match LastUser(ms)
    case None =>
    case Some(j) =>
      assert s[..j] == ms[..j];
      assert s[j + 1..] == ms[j + 1..] + [m];
  }

  /** A user message appends a user turn and closes the open turn. */
  lemma SnocUser(ms: seq<LettaMessage>, m: LettaMessage)
    requires m.UserMessage?
    ensures Reference(ms + [m]) == Reference(ms) + [UserTurn(m.content)]
    ensures !TurnOpen(ms + [m])
  {
    var s := ms + [m];
    assert s[..|ms|] == ms;
    assert LastUser(s) == Some(|ms|);
    assert s[|ms| + 1..] == [];
    assert OpenSegment(s) == [];
    assert RunTurns([]) == [];
  }

  /** An assistant-side message while a turn is open updates that turn, which stays last. */
  lemma SnocExtend(ms: seq<LettaMessage>, m: LettaMessage)
    requires IsAssistantSide(m) && TurnOpen(ms)
    ensures |Reference(ms)| > 0 && Reference(ms)[|Reference(ms)| - 1].role == Assistant
    ensures var r := Reference(ms);
      Reference(ms + [m]) == r[..|r| - 1] + [Absorb(r[|r| - 1], m)] &&
      Reference(ms + [m]) == r[|r| - 1 := Absorb(r[|r| - 1], m)]
    ensures TurnOpen(ms + [m])
  {
    OpenTurnIsLast(ms);
    SnocNonUser(ms, m);
    RunSnoc(OpenSegment(ms), m);
  }

  /** An assistant-side message while no turn is open appends a fresh assistant turn after all others. */
  lemma SnocOpen(ms: seq<LettaMessage>, m: LettaMessage)
    requires IsAssistantSide(m) && !TurnOpen(ms)
    ensures Reference(ms + [m]) == Reference(ms) + [Absorb(EmptyAssistant, m)]
    ensures TurnOpen(ms + [m])
  {
    var seg := OpenSegment(ms);
    SnocNonUser(ms, m);
    RunSnoc(seg, m);
    NoAssistantSideEmpty(seg);
    assert RunTurns(seg) == [];
    assert RunTurns(seg + [m]) == [Absorb(EmptyAssistant, m)];
    assert Reference(ms) == ClosedTurns(ms) + [];
  }

  /** Pushing a turn and then updating it in place is pushing the updated turn. */
  lemma PushThenUpdate(r: seq<Turn>, t: Turn, t': Turn)
    ensures (r + [t])[|r| := t'] == r + [t']
  {
  }

  /** A message of a skipped kind changes neither the turns nor whether a turn is open. */
  lemma SnocSkip(ms: seq<LettaMessage>, m: LettaMessage)
    requires IsSkipped(m)
    ensures Reference(ms + [m]) == Reference(ms)
    ensures TurnOpen(ms + [m]) == TurnOpen(ms)
  {
    SnocNonUser(ms, m);
    RunSnoc(OpenSegment(ms), m);
  }

  /** Unfolds the whole-history functions over turns by one turn at the end. */
  lemma TurnsSnoc(turns: seq<Turn>, t: Turn)
    ensures UserTurnContents(turns + [t]) == UserTurnContents(turns) + (if t.role == User then [t.content] else [])
    ensures AllAssistantText(turns + [t]) == AllAssistantText(turns) + (if t.role == Assistant then t.content else "")
    ensures AllReasoning(turns + [t]) == AllReasoning(turns) + t.reasoning
    ensures AllToolCalls(turns + [t]) == AllToolCalls(turns) + t.toolCalls
    ensures AllToolReturns(turns + [t]) == AllToolReturns(turns) + t.toolReturns
  {
    assert (turns + [t])[..|turns|] == turns;
  }

  // ---------------------------------------------------------------------------
  // Properties of the grouping

  /** The whole-history concatenations after one more message: the effect of a user message. */
  lemma StepUser(init: seq<LettaMessage>, m: LettaMessage)
    requires m.UserMessage?
    ensures UserTurnContents(Reference(init + [m])) == UserTurnContents(Reference(init)) + UserPart(m)
    ensures AllAssistantText(Reference(init + [m])) == AllAssistantText(Reference(init)) + TextPart(m)
    ensures AllReasoning(Reference(init + [m])) == AllReasoning(Reference(init)) + ReasoningPart(m)
    ensures AllToolCalls(Reference(init + [m])) == AllToolCalls(Reference(init)) + CallPart(m)
    ensures AllToolReturns(Reference(init + [m])) == AllToolReturns(Reference(init)) + ReturnPart(m)
  {
    SnocUser(init, m);
    TurnsSnoc(Reference(init), UserTurn(m.content));
  }

  /** The same, for an assistant-side message that opens a turn. */
  lemma StepOpen(init: seq<LettaMessage>, m: LettaMessage)
    requires IsAssistantSide(m) && !TurnOpen(init)
    ensures UserTurnContents(Reference(init + [m])) == UserTurnContents(Reference(init)) + UserPart(m)
    ensures AllAssistantText(Reference(init + [m])) == AllAssistantText(Reference(init)) + TextPart(m)
    ensures AllReasoning(Reference(init + [m])) == AllReasoning(Reference(init)) + ReasoningPart(m)
    ensures AllToolCalls(Reference(init + [m])) == AllToolCalls(Reference(init)) + CallPart(m)
    ensures AllToolReturns(Reference(init + [m])) == AllToolReturns(Reference(init)) + ReturnPart(m)
  {
    SnocOpen(init, m);
    OpenParts(Reference(init), m);
  }

  /** Appending a fresh assistant turn holding one message adds exactly that message's parts. */
  lemma OpenParts(turns: seq<Turn>, m: LettaMessage)
    requires IsAssistantSide(m)
    ensures UserTurnContents(turns + [Absorb(EmptyAssistant, m)]) == UserTurnContents(turns) + UserPart(m)
    ensures AllAssistantText(turns + [Absorb(EmptyAssistant, m)]) == AllAssistantText(turns) + TextPart(m)
    ensures AllReasoning(turns + [Absorb(EmptyAssistant, m)]) == AllReasoning(turns) + ReasoningPart(m)
    ensures AllToolCalls(turns + [Absorb(EmptyAssistant, m)]) == AllToolCalls(turns) + CallPart(m)
    ensures AllToolReturns(turns + [Absorb(EmptyAssistant, m)]) == AllToolReturns(turns) + ReturnPart(m)
  {
    var t := Absorb(EmptyAssistant, m);
    assert t == Turn(Assistant, TextPart(m), ReasoningPart(m), CallPart(m), ReturnPart(m));
    TurnsSnoc(turns, t);
  }

  /** The same, for an assistant-side message that extends the open turn. */
  lemma StepExtend(init: seq<LettaMessage>, m: LettaMessage)
    requires IsAssistantSide(m) && TurnOpen(init)
    ensures UserTurnContents(Reference(init + [m])) == UserTurnContents(Reference(init)) + UserPart(m)
    ensures AllAssistantText(Reference(init + [m])) == AllAssistantText(Reference(init)) + TextPart(m)
    ensures AllReasoning(Reference(init + [m])) == AllReasoning(Reference(init)) + ReasoningPart(m)
    ensures AllToolCalls(Reference(init + [m])) == AllToolCalls(Reference(init)) + CallPart(m)
    ensures AllToolReturns(Reference(init + [m])) == AllToolReturns(Reference(init)) + ReturnPart(m)
  {
    SnocExtend(init, m);
    var r := Reference(init);
    var n := |r|;
    assert r == r[..n - 1] + [r[n - 1]];
    AbsorbIntoLast(r[..n - 1], r[n - 1], m);
  }

  /** Folding a message into the last (assistant) turn adds exactly that message's parts. */
  lemma AbsorbIntoLast(turns: seq<Turn>, t: Turn, m: LettaMessage)
    requires t.role == Assistant && !m.UserMessage?
    ensures UserTurnContents(turns + [Absorb(t, m)]) == UserTurnContents(turns + [t]) + UserPart(m)
    ensures AllAssistantText(turns + [Absorb(t, m)]) == AllAssistantText(turns + [t]) + TextPart(m)
    ensures AllReasoning(turns + [Absorb(t, m)]) == AllReasoning(turns + [t]) + ReasoningPart(m)
    ensures AllToolCalls(turns + [Absorb(t, m)]) == AllToolCalls(turns + [t]) + CallPart(m)
    ensures AllToolReturns(turns + [Absorb(t, m)]) == AllToolReturns(turns + [t]) + ReturnPart(m)
  {
    TurnsSnoc(turns, t);
    TurnsSnoc(turns, Absorb(t, m));
    AbsorbParts(t, m);
    Assoc(AllAssistantText(turns), t.content, TextPart(m));
    Assoc(AllReasoning(turns), t.reasoning, ReasoningPart(m));
    Assoc(AllToolCalls(turns), t.toolCalls, CallPart(m));
    Assoc(AllToolReturns(turns), t.toolReturns, ReturnPart(m));
  }

  lemma Assoc<T>(a: seq<T>, b: seq<T>, c: seq<T>)
    ensures a + (b + c) == (a + b) + c
  {
  }

  /** Folding a message into a turn appends that message's part to each field. */
  lemma AbsorbParts(t: Turn, m: LettaMessage)
    ensures Absorb(t, m).role == t.role
    ensures Absorb(t, m).content == t.content + TextPart(m)
    ensures Absorb(t, m).reasoning == t.reasoning + ReasoningPart(m)
    ensures Absorb(t, m).toolCalls == t.toolCalls + CallPart(m)
    ensures Absorb(t, m).toolReturns == t.toolReturns + ReturnPart(m)
  {
  }

  /** The whole-history concatenations after one more message, whatever its kind. */
  lemma Step(init: seq<LettaMessage>, m: LettaMessage)
    ensures UserTurnContents(Reference(init + [m])) == UserTurnContents(Reference(init)) + UserPart(m)
    ensures AllAssistantText(Reference(init + [m])) == AllAssistantText(Reference(init)) + TextPart(m)
    ensures AllReasoning(Reference(init + [m])) == AllReasoning(Reference(init)) + ReasoningPart(m)
    ensures AllToolCalls(Reference(init + [m])) == AllToolCalls(Reference(init)) + CallPart(m)
    ensures AllToolReturns(Reference(init + [m])) == AllToolReturns(Reference(init)) + ReturnPart(m)
  {
    if m.UserMessage? {
      StepUser(init, m);
    } else if IsAssistantSide(m) && TurnOpen(init) {
      StepExtend(init, m);
    } else if IsAssistantSide(m) {
      StepOpen(init, m);
    } else {
      SnocSkip(init, m);
    }
  }

  /** The user turns are the user messages, one each, with the same content and in the same order. */
  lemma {:induction false} UserTurnsMatchUserMessages(ms: seq<LettaMessage>)
    ensures UserTurnContents(Reference(ms)) == UserContents(ms)
  {
    if ms != [] {
      var init, m := ms[..|ms| - 1], ms[|ms| - 1];
      assert ms == init + [m];
      UserTurnsMatchUserMessages(init);
      Step(init, m);
    }
  }

  /** The number of turns is the number of user messages plus the number of assistant runs. */
  lemma {:induction false} TurnCount(ms: seq<LettaMessage>)
    ensures |Reference(ms)| == |UserContents(ms)| + RunCount(ms)
  {
    if ms != [] {
      var init, m := ms[..|ms| - 1], ms[|ms| - 1];
      assert ms == init + [m];
      TurnCount(init);
      if m.UserMessage? {
        SnocUser(init, m);
      } else if IsAssistantSide(m) && TurnOpen(init) {
        SnocExtend(init, m);
      } else if IsAssistantSide(m) {
        SnocOpen(init, m);
      } else {
        SnocSkip(init, m);
      }
    }
  }

  /** The number of turns the history `ms` leaves closed: all of them but an open assistant turn. */
  function ClosedCount(ms: seq<LettaMessage>): int
  {
    |Reference(ms)| - (if TurnOpen(ms) then 1 else 0)
  }

  /** One more message keeps the first `c` turns when they were closed. */
  lemma ClosedStep(p: seq<LettaMessage>, m: LettaMessage, c: int)
    requires 0 <= c <= ClosedCount(p)
    ensures c <= ClosedCount(p + [m])
    ensures Reference(p + [m])[..c] == Reference(p)[..c]
  {
    if m.UserMessage? {
      ClosedStepUser(p, m, c);
    } else if IsAssistantSide(m) && TurnOpen(p) {
      ClosedStepExtend(p, m, c);
    } else if IsAssistantSide(m) {
      ClosedStepOpen(p, m, c);
    } else {
      SnocSkip(p, m);
    }
  }

  lemma ClosedStepUser(p: seq<LettaMessage>, m: LettaMessage, c: int)
    requires m.UserMessage? && 0 <= c <= ClosedCount(p)
    ensures c <= ClosedCount(p + [m])
    ensures Reference(p + [m])[..c] == Reference(p)[..c]
  {
    SnocUser(p, m);
    TakePush(Reference(p), UserTurn(m.content), c);
  }

  lemma ClosedStepExtend(p: seq<LettaMessage>, m: LettaMessage, c: int)
    requires IsAssistantSide(m) && TurnOpen(p) && 0 <= c <= ClosedCount(p)
    ensures c <= ClosedCount(p + [m])
    ensures Reference(p + [m])[..c] == Reference(p)[..c]
  {
    SnocExtend(p, m);
    var r := Reference(p);
    TakeReplaceLast(r, Absorb(r[|r| - 1], m), c);
  }

  lemma ClosedStepOpen(p: seq<LettaMessage>, m: LettaMessage, c: int)
    requires IsAssistantSide(m) && !TurnOpen(p) && 0 <= c <= ClosedCount(p)
    ensures c <= ClosedCount(p + [m])
    ensures Reference(p + [m])[..c] == Reference(p)[..c]
  {
    SnocOpen(p, m);
    TakePush(Reference(p), Absorb(EmptyAssistant, m), c);
  }

  lemma TakePush<T>(r: seq<T>, x: T, c: int)
    requires 0 <= c <= |r|
    ensures (r + [x])[..c] == r[..c]
  {
  }

  lemma TakeReplaceLast<T>(r: seq<T>, x: T, c: int)
    requires 0 <= c < |r|
    ensures (r[..|r| - 1] + [x])[..c] == r[..c]
  {
  }

  /**
   * Turns are never reordered: the turns already closed after `ms` remain, in
   * place, at the head of the turns of any longer history, and a turn that is
   * open later sits at or after the position of the one open after `ms`.
   */
  lemma {:induction false} ClosedTurnsStable(ms: seq<LettaMessage>, ext: seq<LettaMessage>)
    ensures 0 <= ClosedCount(ms) <= ClosedCount(ms + ext)
    ensures Reference(ms)[..ClosedCount(ms)] == Reference(ms + ext)[..ClosedCount(ms)]
    decreases |ext|
  {
    if TurnOpen(ms) {
      OpenTurnIsLast(ms);
    }
    if ext == [] {
      assert ms + ext == ms;
    } else {
      var e, m := ext[..|ext| - 1], ext[|ext| - 1];
      ClosedTurnsStable(ms, e);
      assert ms + ext == (ms + e) + [m];
      ClosedStep(ms + e, m, ClosedCount(ms));
    }
  }

  /** No assistant text is lost, duplicated or reordered across the whole history. */
  lemma {:induction false} AssistantTextPreserved(ms: seq<LettaMessage>)
    ensures AllAssistantText(Reference(ms)) == AssistantText(ms)
  {
    if ms != [] {
      var init, m := ms[..|ms| - 1], ms[|ms| - 1];
      assert ms == init + [m];
      AssistantTextPreserved(init);
      Step(init, m);
    }
  }

  /** Every reasoning content lands in some turn, in arrival order, none lost or duplicated. */
  lemma {:induction false} ReasoningPreserved(ms: seq<LettaMessage>)
    ensures AllReasoning(Reference(ms)) == ReasoningOf(ms)
  {
    if ms != [] {
      var init, m := ms[..|ms| - 1], ms[|ms| - 1];
      assert ms == init + [m];
      ReasoningPreserved(init);
      Step(init, m);
    }
  }

  /** Every approval request's tool call lands in some turn, in arrival order, none lost or duplicated. */
  lemma {:induction false} ToolCallsPreserved(ms: seq<LettaMessage>)
    ensures AllToolCalls(Reference(ms)) == ToolCallsOf(ms)
  {
    if ms != [] {
      var init, m := ms[..|ms| - 1], ms[|ms| - 1];
      assert ms == init + [m];
      ToolCallsPreserved(init);
      Step(init, m);
    }
  }

  /** Every tool-return message lands in some turn, in arrival order, none lost or duplicated. */
  lemma {:induction false} ToolReturnsPreserved(ms: seq<LettaMessage>)
    ensures AllToolReturns(Reference(ms)) == ToolReturnsOf(ms)
  {
    if ms != [] {
      var init, m := ms[..|ms| - 1], ms[|ms| - 1];
      assert ms == init + [m];
      ToolReturnsPreserved(init);
      Step(init, m);
    }
  }

  /** A message of a skipped kind (usage statistics and the like) can be removed without changing the turns. */
  lemma {:induction false} SkippedMessageIrrelevant(ms: seq<LettaMessage>, i: nat)
    requires i < |ms| && IsSkipped(ms[i])
    ensures Reference(ms[..i] + ms[i + 1..]) == Reference(ms)
  {
    var pre, post := ms[..i], ms[i + 1..];
    assert ms == pre + [ms[i]] + post;
    SkipInside(pre, ms[i], post);
  }

  lemma {:induction false} SkipInside(pre: seq<LettaMessage>, s: LettaMessage, post: seq<LettaMessage>)
    requires IsSkipped(s)
    ensures Reference(pre + [s] + post) == Reference(pre + post)
    ensures TurnOpen(pre + [s] + post) == TurnOpen(pre + post)
    decreases |post|
  {
    if post == [] {
      assert pre + [s] + post == pre + [s];
      assert pre + post == pre;
      SnocSkip(pre, s);
    } else {
      var p, m := post[..|post| - 1], post[|post| - 1];
      SkipInside(pre, s, p);
      var a, b := pre + [s] + p, pre + p;
      assert pre + [s] + post == a + [m];
      assert pre + post == b + [m];
      if m.UserMessage? {
        SnocUser(a, m);
        SnocUser(b, m);
      } else if IsAssistantSide(m) && TurnOpen(a) {
        SnocExtend(a, m);
        SnocExtend(b, m);
      } else if IsAssistantSide(m) {
        SnocOpen(a, m);
        SnocOpen(b, m);
      } else {
        SnocSkip(a, m);
        SnocSkip(b, m);
      }
    }
  }

  /**
   * Tool returns are not matched to tool calls by id: a return whose id names no
   * call of the open turn is still appended to that turn.
   */
  lemma UnmatchedReturnAppended(ms: seq<LettaMessage>, m: LettaMessage)
    requires m.ToolReturnMessage? && TurnOpen(ms)
    requires forall c :: c in ToolCallsOf(OpenSegment(ms)) ==> c.toolCallId != m.toolCallId
    ensures var r, r' := Reference(ms), Reference(ms + [m]);
      |r'| == |r| > 0 &&
      r'[|r| - 1].toolReturns == r[|r| - 1].toolReturns + [m] &&
      r'[|r| - 1].toolCalls == r[|r| - 1].toolCalls
  {
    SnocExtend(ms, m);
  }

  // ---------------------------------------------------------------------------
  // The source's unit tests (__tests__/letta.test.ts), first for any contents

  /** SnocExtend, for a history whose turns are given as the closed ones and the open one. */
  lemma ExtendKnown(ms: seq<LettaMessage>, m: LettaMessage, closed: seq<Turn>, t: Turn)
    requires IsAssistantSide(m) && TurnOpen(ms) && Reference(ms) == closed + [t]
    ensures Reference(ms + [m]) == closed + [Absorb(t, m)]
    ensures TurnOpen(ms + [m])
  {
    SnocExtend(ms, m);
    assert (closed + [t])[..|closed|] == closed;
  }

  /** A user message followed by an assistant-side message gives a user turn and an open assistant turn. */
  lemma UserThenOpen(u: string, m: LettaMessage)
    requires IsAssistantSide(m)
    ensures Reference([UserMessage(u), m]) == [UserTurn(u), Absorb(EmptyAssistant, m)]
    ensures TurnOpen([UserMessage(u), m])
  {
    EmptyHistory();
    SnocUser([], UserMessage(u));
    AppendToEmpty(UserMessage(u));
    SnocOpen([UserMessage(u)], m);
    ListOfTwo(UserMessage(u), m);
    ListOfTwo(UserTurn(u), Absorb(EmptyAssistant, m));
  }

  /** The first three messages of the example below: the reply's first part joins the reasoning's turn. */
  lemma ReasoningThenReply(u: string, thought: string, a1: string)
    ensures Reference([UserMessage(u), ReasoningMessage(thought), AssistantMessage(a1)]) ==
      [UserTurn(u), Turn(Assistant, a1, [thought], [], [])]
    ensures TurnOpen([UserMessage(u), ReasoningMessage(thought), AssistantMessage(a1)])
  {
    UserThenOpen(u, ReasoningMessage(thought));
    var t := Absorb(EmptyAssistant, ReasoningMessage(thought));
    assert t == Turn(Assistant, "", [thought], [], []) by {
      assert [] + [thought] == [thought];
    }
    ExtendKnown([UserMessage(u), ReasoningMessage(thought)], AssistantMessage(a1), [UserTurn(u)], t);
    assert Absorb(t, AssistantMessage(a1)) == Turn(Assistant, a1, [thought], [], []) by {
      assert "" + a1 == a1;
    }
    ListOfThree(UserMessage(u), ReasoningMessage(thought), AssistantMessage(a1));
    ListOfTwo(UserTurn(u), Turn(Assistant, a1, [thought], [], []));
  }

  /** The turns of the example below. */
  lemma ReplyTurns(u: string, thought: string, a1: string, a2: string)
    ensures Reference([UserMessage(u), ReasoningMessage(thought), AssistantMessage(a1), AssistantMessage(a2)]) ==
      [UserTurn(u), Turn(Assistant, a1 + a2, [thought], [], [])]
  {
    var p := [UserMessage(u), ReasoningMessage(thought), AssistantMessage(a1)];
    ReasoningThenReply(u, thought, a1);
    ExtendKnown(p, AssistantMessage(a2), [UserTurn(u)], Turn(Assistant, a1, [thought], [], []));
    ListOfFour(UserMessage(u), ReasoningMessage(thought), AssistantMessage(a1), AssistantMessage(a2));
    ListOfTwo(UserTurn(u), Turn(Assistant, a1 + a2, [thought], [], []));
  }

  /** A user message, a reasoning step and a reply in two parts give two turns. */
  lemma ReplyAfterReasoning(u: string, thought: string, a1: string, a2: string)
    ensures CleanAll(Reference([UserMessage(u), ReasoningMessage(thought), AssistantMessage(a1), AssistantMessage(a2)])) ==
      [DisplayMessage(User, u, None, None, None), DisplayMessage(Assistant, a1 + a2, Some([thought]), None, None)]
  {
    ReplyTurns(u, thought, a1, a2);
    CleanTwo(UserTurn(u), Turn(Assistant, a1 + a2, [thought], [], []));
  }

  /** The turns of the example below. */
  lemma CallTurns(u: string, call: ToolCall, ret: LettaMessage)
    requires ret.ToolReturnMessage?
    ensures Reference([UserMessage(u), ApprovalRequestMessage(call), ret]) ==
      [UserTurn(u), Turn(Assistant, "", [], [call], [ret])]
  {
    UserThenOpen(u, ApprovalRequestMessage(call));
    var t := Absorb(EmptyAssistant, ApprovalRequestMessage(call));
    assert t == Turn(Assistant, "", [], [call], []) by {
      assert [] + [call] == [call];
    }
    ExtendKnown([UserMessage(u), ApprovalRequestMessage(call)], ret, [UserTurn(u)], t);
    assert Absorb(t, ret) == Turn(Assistant, "", [], [call], [ret]) by {
      assert [] + [ret] == [ret];
    }
    ListOfThree(UserMessage(u), ApprovalRequestMessage(call), ret);
    ListOfTwo(UserTurn(u), Turn(Assistant, "", [], [call], [ret]));
  }

  // Lists written element by element

  lemma AppendToEmpty<T>(a: T)
    ensures [] + [a] == [a]
  {
  }

  lemma ListOfTwo<T>(a: T, b: T)
    ensures [a] + [b] == [a, b]
  {
  }

  lemma ListOfThree<T>(a: T, b: T, c: T)
    ensures [a, b] + [c] == [a, b, c]
  {
  }

  lemma ListOfFour<T>(a: T, b: T, c: T, d: T)
    ensures [a, b, c] + [d] == [a, b, c, d]
  {
  }

  /** A user message, an approval request and a tool return give two turns. */
  lemma CallThenReturn(u: string, call: ToolCall, ret: LettaMessage)
    requires ret.ToolReturnMessage?
    ensures CleanAll(Reference([UserMessage(u), ApprovalRequestMessage(call), ret])) ==
      [DisplayMessage(User, u, None, None, None), DisplayMessage(Assistant, "", None, Some([call]), Some([ret]))]
  {
    CallTurns(u, call, ret);
    CleanTwo(UserTurn(u), Turn(Assistant, "", [], [call], [ret]));
  }

  lemma CleanTwo(a: Turn, b: Turn)
    ensures CleanAll([a, b]) == [Clean(a), Clean(b)]
  {
  }

  lemma AggregateExampleText()
    ensures var out := CleanAll(Reference([
        UserMessage("Hello"), ReasoningMessage("Thinking..."),
        AssistantMessage("Hi"), AssistantMessage(" there!")]));
      |out| == 2 &&
      out[0].role == User && out[0].content == "Hello" &&
      out[1].role == Assistant && out[1].content == "Hi there!" &&
      out[1].reasoning == Some(["Thinking..."])
  {
    ReplyAfterReasoning("Hello", "Thinking...", "Hi", " there!");
    FirstTestTexts();
  }

  lemma FirstTestTexts()
    ensures "Hi" + " there!" == "Hi there!"
  {
  }

  lemma AggregateExampleTools()
    ensures var call := ToolCall("1", "bash", map["command" := "\"ls\""]);
      var ret := ToolReturnMessage("1", "bash", Success, "file.txt");
      var out := CleanAll(Reference([UserMessage("Run bash"), ApprovalRequestMessage(call), ret]));
      |out| == 2 &&
      out[1].toolCalls.Some? && |out[1].toolCalls.value| == 1 &&
      out[1].toolReturns.Some? && |out[1].toolReturns.value| == 1 &&
      out[1].toolCalls.value[0].toolName == "bash" &&
      out[1].toolReturns.value[0].result == "file.txt"
  {
    var call := ToolCall("1", "bash", map["command" := "\"ls\""]);
    CallThenReturn("Run bash", call, ToolReturnMessage("1", "bash", Success, "file.txt"));
  }
}
