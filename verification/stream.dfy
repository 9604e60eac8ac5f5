/**
 * Consuming the live message stream of one exchange (src/hooks/useStream.ts).
 *
 * `StreamHook` holds what the hook keeps between renders: the text shown while
 * streaming, whether a stream is running, the last completed accumulation and
 * the abort flag. `StartStream` folds the stream's messages, in arrival order,
 * into a `StreamState`; `Accumulate` is that fold as a function, and the lemmas
 * below say what it collects and how it agrees with the history grouping of
 * module `Aggregate`.
 */
module Stream {
  import opened Wrappers
  import opened LettaTypes
  import Aggregate

  /**
   * One message as the stream delivers it. The stream's objects are not checked
   * against the declared union; `hasToolReturnField` records whether the object
   * carries a `tool_return` property.
   */
  datatype Incoming = Incoming(msg: LettaMessage, hasToolReturnField: bool)

  datatype StreamError = StreamError(reason: string)

  /** How the stream's iteration ends once its messages are delivered. */
  datatype StreamEnd = Completes | Throws(error: StreamError)

  /** The stream of one exchange: the messages it yields, then its end. */
  datatype MessageStream = MessageStream(items: seq<Incoming>, end: StreamEnd)

  /** What one exchange has accumulated so far. */
  datatype StreamState = StreamState(
    assistantContent: string,
    reasoning: seq<string>,
    toolCalls: seq<ToolCall>,
    toolReturns: seq<LettaMessage>)

  const EmptyState := StreamState("", [], [], [])

  /** The stream's test for a tool return: the declared kind, or any object with a `tool_return` property. */
  predicate IsToolReturn(item: Incoming)
  {
    item.msg.ToolReturnMessage? || item.hasToolReturnField
  }

  /**
   * The stream records a message as a tool return when its tool-return test
   * holds and none of the assistant, reasoning and approval tests, which come
   * first, does.
   */
  predicate CountsAsReturn(item: Incoming)
  {
    IsToolReturn(item) && !item.msg.AssistantMessage? && !item.msg.ReasoningMessage? &&
    !item.msg.ApprovalRequestMessage?
  }

  /**
   * Applies one message; the assistant, reasoning and approval tests come first,
   * in that order. `ApplyParts` states it in terms of each message's part.
   */
  function Apply(s: StreamState, item: Incoming): StreamState
  {
    match item.msg
    case AssistantMessage(c) => s.(assistantContent := s.assistantContent + c)
    case ReasoningMessage(c) => s.(reasoning := s.reasoning + [c])
    case ApprovalRequestMessage(call) => s.(toolCalls := s.toolCalls + [call])
    case _ => if IsToolReturn(item) then s.(toolReturns := s.toolReturns + [item.msg]) else s
  }

  /**
   * Applying one message appends its part to each field; a user message, usage
   * statistics or any other kind without a `tool_return` property leaves the
   * state as it was.
   */
  lemma ApplyParts(s: StreamState, item: Incoming)
    ensures Apply(s, item).assistantContent == s.assistantContent + Aggregate.TextPart(item.msg)
    ensures Apply(s, item).reasoning == s.reasoning + Aggregate.ReasoningPart(item.msg)
    ensures Apply(s, item).toolCalls == s.toolCalls + Aggregate.CallPart(item.msg)
    ensures Apply(s, item).toolReturns == s.toolReturns + (if CountsAsReturn(item) then [item.msg] else [])
    ensures !IsAssistantSide(item.msg) && !item.hasToolReturnField ==> Apply(s, item) == s
  {
  }

  /** The state after applying the messages in order to a fresh, empty state. */
  function Accumulate(items: seq<Incoming>): StreamState
  {
    if items == [] then EmptyState
    else Apply(Accumulate(items[..|items| - 1]), items[|items| - 1])
  }

  /** The returned message: role assistant, and each list field absent exactly when it is empty. */
  function ToDisplay(s: StreamState): (d: DisplayMessage)
    ensures d.role == Assistant && d.content == s.assistantContent
    ensures d.reasoning.None? <==> s.reasoning == []
    ensures d.reasoning.Some? ==> d.reasoning.value == s.reasoning
    ensures d.toolCalls.None? <==> s.toolCalls == []
    ensures d.toolCalls.Some? ==> d.toolCalls.value == s.toolCalls
    ensures d.toolReturns.None? <==> s.toolReturns == []
    ensures d.toolReturns.Some? ==> d.toolReturns.value == s.toolReturns
  {
    DisplayMessage(Assistant, s.assistantContent, Present(s.reasoning), Present(s.toolCalls), Present(s.toolReturns))
  }

  /** The abort arrives during the run: while the loop awaits message `abortBefore` or the stream's end. */
  predicate AbortSeen(stream: MessageStream, abortBefore: Option<nat>)
  {
    abortBefore.Some? && abortBefore.value <= |stream.items|
  }

  /** The run is cut short: the abort arrives while a message is still to come. */
  predicate Aborts(stream: MessageStream, abortBefore: Option<nat>)
  {
    abortBefore.Some? && abortBefore.value < |stream.items|
  }

  /** The number of messages a run applies. */
  function Consumed(stream: MessageStream, abortBefore: Option<nat>): (k: nat)
    ensures k <= |stream.items|
    ensures k < |stream.items| <==> Aborts(stream, abortBefore)
  {
    if Aborts(stream, abortBefore) then abortBefore.value else |stream.items|
  }

  // ---------------------------------------------------------------------------
  // The hook

  class StreamHook {
    /** The assistant text shown while streaming. */
    var streamContent: string
    var isStreaming: bool
    /** The accumulation of the last run that completed. */
    var messages: StreamState
    /** The abort flag the loop checks before each message. */
    var abortRequested: bool

    constructor ()
      ensures streamContent == "" && !isStreaming && messages == EmptyState && !abortRequested
    {
      streamContent := "";
      isStreaming := false;
      messages := EmptyState;
      abortRequested := false;
    }

    /**
     * Runs one exchange. `abortBefore`, when present, is the index of the message
     * the loop is waiting for when the user interface calls `AbortStream`; the
     * index `|stream.items|` stands for the wait for the stream's end. The flag is
     * looked at when a message arrives, so that message and the rest are dropped.
     */
    method StartStream(stream: MessageStream, abortBefore: Option<nat>) returns (r: Result<DisplayMessage, StreamError>)
      modifies this
      ensures !isStreaming
      ensures abortRequested == AbortSeen(stream, abortBefore)
      ensures streamContent == Accumulate(stream.items[..Consumed(stream, abortBefore)]).assistantContent
      ensures Aborts(stream, abortBefore) || stream.end.Completes? ==>
        var s := Accumulate(stream.items[..Consumed(stream, abortBefore)]);
        r == Ok(ToDisplay(s)) && messages == s
      ensures !Aborts(stream, abortBefore) && stream.end.Throws? ==>
        r == Err(stream.end.error) && messages == old(messages)
    {
      abortRequested := false;
      isStreaming := true;
      streamContent := "";
      var state := EmptyState;
      var failure: Option<StreamError> := None;
      var i := 0;
      while true
        invariant 0 <= i <= |stream.items|
        invariant abortBefore.Some? ==> i <= abortBefore.value
        invariant state == Accumulate(stream.items[..i])
        invariant streamContent == state.assistantContent
        invariant !abortRequested && isStreaming && failure.None?
        invariant messages == old(messages)
        decreases |stream.items| - i
      {
        // Awaiting the next message: the iteration either yields one, ends or throws.
        if abortBefore == Some(i) {
          AbortStream();
        }
        if i == |stream.items| {
          if stream.end.Throws? {
            failure := Some(stream.end.error);
          }
          break;
        }
        if abortRequested {
          break;
        }
        var item := stream.items[i];
        assert stream.items[..i + 1] == stream.items[..i] + [item];
        state := Apply(state, item);
        if item.msg.AssistantMessage? {
          streamContent := state.assistantContent;
        }
        i := i + 1;
      }
      assert i == Consumed(stream, abortBefore);
      if failure.Some? {
        isStreaming := false;
        r := Err(failure.value);
        return;
      }
      messages := state;
      isStreaming := false;
      r := Ok(ToDisplay(state));
    }

    /** Asks the running loop to stop before the next message. */
    method AbortStream()
      modifies this
      ensures abortRequested && !isStreaming
      ensures streamContent == old(streamContent) && messages == old(messages)
    {
      abortRequested := true;
      isStreaming := false;
    }

    /** Clears the shown text and the stored accumulation. */
    method ClearStream()
      modifies this
      ensures streamContent == "" && messages == EmptyState
      ensures isStreaming == old(isStreaming) && abortRequested == old(abortRequested)
    {
      streamContent := "";
      messages := EmptyState;
    }
  }

  /** A run after an abort is not affected by it: every run starts with the flag cleared. */
  method RunAfterAbort(stream: MessageStream) returns (r: Result<DisplayMessage, StreamError>)
    ensures stream.end.Completes? ==> r == Ok(ToDisplay(Accumulate(stream.items)))
    ensures stream.end.Throws? ==> r == Err(stream.end.error)
  {
    var hook := new StreamHook();
    hook.AbortStream();
    r := hook.StartStream(stream, None);
    assert stream.items[..|stream.items|] == stream.items;
  }

  // ---------------------------------------------------------------------------
  // What the accumulation collects

  function Messages(items: seq<Incoming>): (ms: seq<LettaMessage>)
    ensures |ms| == |items|
  {
    if items == [] then [] else Messages(items[..|items| - 1]) + [items[|items| - 1].msg]
  }

  /** The messages the stream records as tool returns, in arrival order. */
  function StreamToolReturns(items: seq<Incoming>): seq<LettaMessage>
  {
    if items == [] then []
    else
      var item := items[|items| - 1];
      StreamToolReturns(items[..|items| - 1]) + (if CountsAsReturn(item) then [item.msg] else [])
  }

  /**
   * Each field of the accumulation is an in-order filter of the stream: the
   * assistant texts concatenated, the reasoning contents, the approval requests'
   * tool calls and the messages counted as tool returns.
   */
  lemma {:induction false} AccumulateIsFilters(items: seq<Incoming>)
    ensures Accumulate(items) == StreamState(
      Aggregate.AssistantText(Messages(items)),
      Aggregate.ReasoningOf(Messages(items)),
      Aggregate.ToolCallsOf(Messages(items)),
      StreamToolReturns(items))
  {
    if items != [] {
      var init := items[..|items| - 1];
      AccumulateIsFilters(init);
      var ms := Messages(items);
      assert ms[..|ms| - 1] == Messages(init);
    }
  }

  /** Without stray `tool_return` properties the stream records exactly the tool-return messages. */
  lemma {:induction false} ReturnsWithoutStrayField(items: seq<Incoming>)
    requires forall i :: 0 <= i < |items| ==> !items[i].hasToolReturnField
    ensures StreamToolReturns(items) == Aggregate.ToolReturnsOf(Messages(items))
  {
    if items != [] {
      var init := items[..|items| - 1];
      ReturnsWithoutStrayField(init);
      var ms := Messages(items);
      assert ms[..|ms| - 1] == Messages(init);
    }
  }

  /**
   * The live stream and the history grouping agree: an exchange with no user
   * message and no stray `tool_return` property, once stored, groups into the
   * single assistant turn the stream returned.
   */
  lemma StreamMatchesHistory(items: seq<Incoming>)
    requires forall i :: 0 <= i < |items| ==> !items[i].hasToolReturnField && !items[i].msg.UserMessage?
    requires exists i :: 0 <= i < |items| && IsAssistantSide(items[i].msg)
    ensures Aggregate.CleanAll(Aggregate.Reference(Messages(items))) == [ToDisplay(Accumulate(items))]
  {
    var ms := Messages(items);
    NoUserInMessages(items);
    var i :| 0 <= i < |items| && IsAssistantSide(items[i].msg);
    AssistantSideInMessages(items, i);
    AccumulateWithoutStrayField(items);
    SingleRunDisplay(ms, Accumulate(items));
  }

  lemma AccumulateWithoutStrayField(items: seq<Incoming>)
    requires forall i :: 0 <= i < |items| ==> !items[i].hasToolReturnField
    ensures var ms := Messages(items);
      Accumulate(items) == StreamState(Aggregate.AssistantText(ms), Aggregate.ReasoningOf(ms),
        Aggregate.ToolCallsOf(ms), Aggregate.ToolReturnsOf(ms))
  {
    AccumulateIsFilters(items);
    ReturnsWithoutStrayField(items);
  }

  /** A history that is one assistant run groups into the cleaned turn of its filters. */
  lemma SingleRunDisplay(ms: seq<LettaMessage>, s: StreamState)
    requires forall i :: 0 <= i < |ms| ==> !ms[i].UserMessage?
    requires Aggregate.HasAssistantSide(ms)
    requires s == StreamState(Aggregate.AssistantText(ms), Aggregate.ReasoningOf(ms),
      Aggregate.ToolCallsOf(ms), Aggregate.ToolReturnsOf(ms))
    ensures Aggregate.CleanAll(Aggregate.Reference(ms)) == [ToDisplay(s)]
  {
    NoUserSingleRun(ms);
    RunTurnDisplay(ms, s);
  }

  /**
   * Where the stream and the history part ways, first case: a message of
   * another kind that carries a `tool_return` property is recorded by the
   * stream as a tool return, while the history grouping ignores it.
   */
  lemma StrayReturnOnlyInStream(item: Incoming)
    requires item.hasToolReturnField && IsSkipped(item.msg)
    ensures Accumulate([item]).toolReturns == [item.msg]
    ensures Aggregate.ToolReturnsOf(Messages([item])) == []
    ensures Aggregate.Reference(Messages([item])) == []
  {
    Aggregate.EmptyHistory();
    assert Messages([item]) == [] + [item.msg];
    Aggregate.SnocSkip([], item.msg);
  }

  /**
   * Where the stream and the history part ways, second case: an exchange with
   * no user message, no assistant-side message and no stray `tool_return`
   * property leaves the accumulation empty, and the stream still returns an
   * empty assistant message, while the history grouping gives no turn at all.
   */
  lemma {:induction false} EmptyExchangeOnlyInStream(items: seq<Incoming>)
    requires forall i :: 0 <= i < |items| ==> IsSkipped(items[i].msg) && !items[i].hasToolReturnField
    ensures Accumulate(items) == EmptyState
    ensures ToDisplay(Accumulate(items)) == DisplayMessage(Assistant, "", None, None, None)
    ensures Aggregate.Reference(Messages(items)) == []
  {
    if items == [] {
      Aggregate.EmptyHistory();
    } else {
      var init, item := items[..|items| - 1], items[|items| - 1];
      assert forall i :: 0 <= i < |init| ==> init[i] == items[i];
      EmptyExchangeOnlyInStream(init);
      ApplyParts(EmptyState, item);
      assert Messages(items) == Messages(init) + [item.msg];
      Aggregate.SnocSkip(Messages(init), item.msg);
    }
  }

  lemma RunTurnDisplay(ms: seq<LettaMessage>, s: StreamState)
    requires s == StreamState(Aggregate.AssistantText(ms), Aggregate.ReasoningOf(ms),
      Aggregate.ToolCallsOf(ms), Aggregate.ToolReturnsOf(ms))
    ensures Aggregate.CleanAll([Aggregate.RunTurn(ms)]) == [ToDisplay(s)]
  {
    var t := Aggregate.RunTurn(ms);
    assert Aggregate.Clean(t) == ToDisplay(s);
  }

  lemma NoUserInMessages(items: seq<Incoming>)
    requires forall i :: 0 <= i < |items| ==> !items[i].msg.UserMessage?
    ensures forall i :: 0 <= i < |Messages(items)| ==> !Messages(items)[i].UserMessage?
  {
    MessagesAt(items);
  }

  lemma AssistantSideInMessages(items: seq<Incoming>, i: nat)
    requires i < |items| && IsAssistantSide(items[i].msg)
    ensures Aggregate.HasAssistantSide(Messages(items))
  {
    MessagesAt(items);
    HasAssistantSideAt(Messages(items), i);
  }

  /** Without a user message, a history holding an assistant-side message is a single open turn. */
  lemma NoUserSingleRun(ms: seq<LettaMessage>)
    requires forall i :: 0 <= i < |ms| ==> !ms[i].UserMessage?
    requires Aggregate.HasAssistantSide(ms)
    ensures Aggregate.Reference(ms) == [Aggregate.RunTurn(ms)]
  {
    NoUserNoLastUser(ms);
  }

  lemma {:induction false} NoUserNoLastUser(ms: seq<LettaMessage>)
    requires forall i :: 0 <= i < |ms| ==> !ms[i].UserMessage?
    ensures Aggregate.LastUser(ms) == None
  {
    if ms != [] {
      NoUserNoLastUser(ms[..|ms| - 1]);
    }
  }

  lemma {:induction false} MessagesAt(items: seq<Incoming>)
    ensures forall i :: 0 <= i < |items| ==> Messages(items)[i] == items[i].msg
  {
    if items != [] {
      MessagesAt(items[..|items| - 1]);
    }
  }

  lemma {:induction false} HasAssistantSideAt(ms: seq<LettaMessage>, i: nat)
    requires i < |ms| && IsAssistantSide(ms[i])
    ensures Aggregate.HasAssistantSide(ms)
    decreases |ms|
  {
    if i < |ms| - 1 {
      HasAssistantSideAt(ms[..|ms| - 1], i);
    }
  }

  /** One state extends another when every field of the first is a prefix of the same field of the second. */
  predicate Extends(s: StreamState, t: StreamState)
  {
    s.assistantContent <= t.assistantContent && s.reasoning <= t.reasoning &&
    s.toolCalls <= t.toolCalls && s.toolReturns <= t.toolReturns
  }

  /**
   * An aborted run keeps what it has applied and no more: its accumulation is a
   * prefix, field by field, of the accumulation of the whole stream.
   */
  lemma {:induction false} PrefixExtends(items: seq<Incoming>, k: nat)
    requires k <= |items|
    ensures Extends(Accumulate(items[..k]), Accumulate(items))
    decreases |items| - k
  {
    if k == |items| {
      assert items[..k] == items;
    } else {
      var init := items[..|items| - 1];
      assert init[..k] == items[..k];
      PrefixExtends(init, k);
    }
  }
}
