# openletta message core, modelled in Dafny

openletta is a terminal client for a Letta agent server. This project models three parts of it:

- **History grouping**: `aggregateMessages` in src/utils/letta.ts, module `Aggregate`.
  - It turns a stored message history into chat turns.
  - A user message gives a user turn.
  - Each run of assistant-side messages (assistant text, reasoning, approval requests, tool returns) that no user message interrupts gives one assistant turn.
  - The loop keeps a reference to the open assistant turn and updates that turn in place.
  - `AggregateMessages` is the loop, with its body in `FoldMessage`. It is proved against `Reference`, a definition of the turns that uses no loop. The lemmas then state what `Reference` promises:
    - the user turns match the user messages;
    - the number of turns;
    - nothing is lost or reordered;
    - skipped messages are irrelevant;
    - closed turns never change again.
- **Stream consumption**: the `useStream` hook of src/hooks/useStream.ts, module `Stream`.
  - The hook's state is the class `StreamHook`.
  - `startStream` is `StreamHook.StartStream`, a loop over the stream's messages.
    - It checks the abort flag before each message.
    - It folds each message into an accumulation and returns it as a display message.
    - When the stream throws, it surfaces the error.
  - `abortStream` and `clearStream` are the other two methods.
  - `Accumulate` is the fold as a function. Lemmas say what it collects.
  - The stream's result agrees with the history grouping of the same exchange when two conditions hold: the exchange holds no user message and at least one assistant-side message, and no message carries a stray `tool_return` property.
  - Outside those conditions the two differ, and two lemmas show where:
    - the stream records a message of another kind that carries a `tool_return` property as a tool return, while the history ignores it;
    - an exchange without assistant-side messages still gives an empty assistant message from the stream, while the history gives no turn.
- **Slash commands**: `parseCommand` in src/utils/commands.ts, module `Commands`.
  - The parser is written the way the source computes it: trim, split at whitespace runs, lower-case the first part, join the rest with single spaces.
  - It is related to `Tokens`, the maximal non-whitespace runs of the input.
  - The lemmas state the following in terms of tokens:
    - the command word alone decides the kind;
    - the payload is normalised;
    - the round trip through `/agent` and `/session`;
    - case is ignored only in the command word.

The message types of src/types/letta.ts are in module `LettaTypes`. `Option` and `Result` are in module `Wrappers`.

A tool return is not matched to a tool call by id. It is appended to whichever assistant turn is open, whatever its id (`Aggregate.UnmatchedReturnAppended`).

## Model

| member | source | states |
|---|---|---|
| LettaTypes.IsAssistantSide | src/utils/letta.ts:14-19 | the four kinds that join an assistant turn; what they contribute is stated by Aggregate.AbsorbParts |
| LettaTypes.Present | src/utils/letta.ts:46-48 | a list field becomes absent exactly when the list is empty, and otherwise keeps the list unchanged |
| Aggregate.Clean | src/utils/letta.ts:44-49 | the clean-up of one turn keeps role and content, and makes each of reasoning, toolCalls and toolReturns absent exactly when its list is empty, otherwise unchanged |
| Aggregate.CleanAll | src/utils/letta.ts:44-49 | the clean-up maps over the turns one for one, in order |
| Aggregate.AggregateMessages | src/utils/letta.ts:3-50 | the loop returns the cleaned reference turns of the history; the number of turns is the number of user messages plus the number of maximal assistant-side runs not interrupted by a user message |
| Aggregate.FoldMessage | src/utils/letta.ts:8-40 | one loop iteration keeps the loop invariant: the turns built so far are the reference turns of the messages seen, and the open-turn reference is present exactly when an assistant turn is open, pointing at the last turn |
| Aggregate.SnocUser | src/utils/letta.ts:8-13 | a user message appends a user turn with its content and closes the open assistant turn |
| Aggregate.SnocOpen | src/utils/letta.ts:20-29 | an assistant-side message while no turn is open appends a new assistant turn after all existing turns, already holding that message's contribution |
| Aggregate.SnocExtend | src/utils/letta.ts:31-39 | an assistant-side message while a turn is open updates only that turn, which is the last one, and adds the message's text, reasoning, tool call or tool return at the end of the matching field |
| Aggregate.SnocSkip | src/utils/letta.ts:7-41 | a message of no handled kind changes neither the turns nor whether a turn is open |
| Aggregate.LastUserIsLast | src/utils/letta.ts:8-13 | the index LastUser finds is that of the last user message: no user message follows it, and when it finds none the history holds no user message |
| Aggregate.OpenTurnIsLast | src/utils/letta.ts:20-29 | while an assistant turn is open it is the last turn, built from the messages after the last user message |
| Aggregate.Absorb | src/utils/letta.ts:31-39 | the in-place updates of the open turn through its alias; its meaning is stated by Aggregate.AbsorbParts |
| Aggregate.AbsorbParts | src/utils/letta.ts:31-39 | absorbing any message keeps the role and appends its text to the content and its reasoning, tool call or tool return to the matching list; a message of any other kind changes nothing |
| Aggregate.Step | src/utils/letta.ts:7-41 | appending one message to the history appends exactly that message's contribution to the user contents, the assistant text, the reasoning, the tool calls and the tool returns of the whole turn sequence |
| Aggregate.UserTurnsMatchUserMessages | src/utils/letta.ts:8-13 | the contents of the user turns, in order, are the contents of the user messages |
| Aggregate.TurnCount | src/utils/letta.ts:8-29 | the number of turns is the number of user messages plus the number of assistant-side runs |
| Aggregate.ClosedStep | src/utils/letta.ts:8-29 | one more message never changes a turn that was already closed |
| Aggregate.ClosedTurnsStable | src/utils/letta.ts:8-29 | the closed turns of a history stay in place, at the head of the turns of any extension of it, so turn order follows input order |
| Aggregate.AssistantTextPreserved | src/utils/letta.ts:31-32 | the assistant turns' contents, concatenated, are the assistant messages' contents concatenated in order |
| Aggregate.ReasoningPreserved | src/utils/letta.ts:33-34 | the turns' reasoning lists together are the reasoning contents in order |
| Aggregate.ToolCallsPreserved | src/utils/letta.ts:35-36 | the turns' tool-call lists together are the approval requests' tool calls in order |
| Aggregate.ToolReturnsPreserved | src/utils/letta.ts:37-38 | the turns' tool-return lists together are the tool-return messages in order |
| Aggregate.SkippedMessageIrrelevant | src/utils/letta.ts:7-41 | removing a usage-statistics or other unhandled message from anywhere in the history leaves the turns unchanged |
| Aggregate.UnmatchedReturnAppended | src/utils/letta.ts:37-38 | a tool return whose id names no tool call of the open turn is still appended to that turn's returns, and the calls are left alone |
| Aggregate.ReplyAfterReasoning | __tests__/letta.test.ts:6-22 | user, reasoning and two assistant messages give two turns: the user turn, then one assistant turn with the two texts concatenated and the one reasoning entry |
| Aggregate.AggregateExampleText | __tests__/letta.test.ts:6-22 | the test's history gives two turns, the second with content "Hi there!" and reasoning ["Thinking..."] |
| Aggregate.CallThenReturn | __tests__/letta.test.ts:24-47 | user, approval request and tool return give a user turn and one assistant turn holding the call and the return |
| Aggregate.AggregateExampleTools | __tests__/letta.test.ts:24-47 | the test's history gives two turns, the second with one tool call named bash and one tool return with result file.txt |
| Stream.ToDisplay | src/hooks/useStream.ts:97-104 | the returned message has role assistant and the accumulated content, and each list field is absent exactly when empty and otherwise the accumulated list |
| Stream.Consumed | src/hooks/useStream.ts:67-68 | a run applies at most all of the stream's messages, and fewer exactly when the abort comes while a message is still to come |
| Stream.StreamHook.constructor | src/hooks/useStream.ts:45-53 | the hook starts with empty shown text, not streaming, an empty accumulation and the abort flag down |
| Stream.StreamHook.StartStream | src/hooks/useStream.ts:55-105 | the run starts with the flag cleared and the shown text empty, and applies exactly the messages before the abort; the shown text is their assistant text; on completion or abort it stores and returns their accumulation; when the stream throws first, the error is returned and the stored accumulation is unchanged; isStreaming is false afterwards |
| Stream.StreamHook.AbortStream | src/hooks/useStream.ts:107-110 | raises the abort flag, stops streaming, and leaves the shown text and stored accumulation alone |
| Stream.StreamHook.ClearStream | src/hooks/useStream.ts:112-120 | empties the shown text and all four accumulated fields, and leaves the flags alone |
| Stream.RunAfterAbort | src/hooks/useStream.ts:56-64 | a run after an abort is unaffected by it: it returns the display of the whole stream, or the stream's error |
| Stream.IsToolReturn | src/hooks/useStream.ts:82 | the stream's tool-return test: the declared kind, or any message with a tool_return property; its effect is stated by Stream.ApplyParts |
| Stream.Apply | src/hooks/useStream.ts:70-87 | the dispatch on one message, with the assistant, reasoning and approval tests first; its meaning is stated by Stream.ApplyParts |
| Stream.ApplyParts | src/hooks/useStream.ts:70-87 | applying a message appends its text, reasoning and tool call to the matching fields, and appends it to the tool returns exactly when the tool-return test holds and none of the three earlier tests does; a user message, usage statistics or another kind without a tool_return property leaves the state unchanged |
| Stream.Accumulate | src/hooks/useStream.ts:59-88 | the loop's fold from the empty state; its meaning is stated by Stream.AccumulateIsFilters |
| Stream.AccumulateIsFilters | src/hooks/useStream.ts:70-87 | the accumulation is the in-order concatenation of the assistant texts, the reasoning contents, the approval requests' tool calls and the messages counted as tool returns; every other message is ignored |
| Stream.ReturnsWithoutStrayField | src/hooks/useStream.ts:82-86 | when no message carries a stray tool_return property, the recorded tool returns are exactly the tool-return messages in order |
| Stream.StreamMatchesHistory | src/hooks/useStream.ts:70-104 | an exchange with no user message, no stray tool_return property and at least one assistant-side message groups, as history, into exactly the one turn the stream returns |
| Stream.StrayReturnOnlyInStream | src/hooks/useStream.ts:82-86 | a message of another kind that carries a tool_return property is recorded by the stream as a tool return, while the history has no tool return and no turn for it |
| Stream.EmptyExchangeOnlyInStream | src/hooks/useStream.ts:97-104 | an exchange with no user message, no assistant-side message and no stray tool_return property leaves the accumulation empty and still returns an assistant message with empty content and no lists, while the history gives no turn |
| Stream.PrefixExtends | src/hooks/useStream.ts:67-68 | an aborted run's accumulation is, field by field, a prefix of the whole stream's accumulation |
| Commands.IsWhitespace | src/utils/commands.ts:14 | the characters that `trim()` removes and `/\s+/` matches: ECMAScript white space and line terminators; the trims and the split below rest on it |
| Commands.TrimStart | src/utils/commands.ts:14 | the result is a suffix of the input, the removed prefix is all whitespace, and the result does not start with whitespace |
| Commands.TrimEnd | src/utils/commands.ts:14 | the result is a prefix of the input, the removed suffix is all whitespace, and the result does not end with whitespace |
| Commands.Trim | src/utils/commands.ts:14 | the trimmed input neither starts nor ends with whitespace |
| Commands.SplitWs | src/utils/commands.ts:14 | the split always has a first part, so reading it never fails |
| Commands.AsciiLower | src/utils/commands.ts:15 | lower-casing keeps the length and maps every character on its own |
| Commands.CommandFor | src/utils/commands.ts:18-33 | only agent and session carry a payload, and it is the given payload |
| Commands.ParseCommand | src/utils/commands.ts:13-34 | total on every input, and only agent and session carry a payload |
| Commands.Tokens | src/utils/commands.ts:14 | every token is non-empty and holds no whitespace |
| Commands.TokensOfTrim | src/utils/commands.ts:14 | trimming changes no token |
| Commands.SplitTrimmed | src/utils/commands.ts:14 | on an input that is non-empty and has no whitespace at either end, the split at whitespace runs is exactly the tokens |
| Commands.ParseBlank | src/utils/commands.ts:14-32 | input that trims to nothing is unknown without payload |
| Commands.ParseByTokens | src/utils/commands.ts:13-34 | with no tokens the result is unknown without payload; otherwise the lower-cased first token picks the command and the other tokens, joined by single spaces, are the payload |
| Commands.FirstWordExists | src/utils/commands.ts:14 | every input with a non-whitespace character splits into leading whitespace, a first word and a rest that is empty or starts with whitespace |
| Commands.CommandWordDecides | src/utils/commands.ts:14-16 | the result depends only on the lower-cased first word and the tokens after it |
| Commands.BlankIsUnknown | src/utils/commands.ts:14-32 | empty and whitespace-only input is unknown without payload |
| Commands.OtherWordIsUnknown | src/utils/commands.ts:31-32 | a first word that is none of the six command words, in any case, gives unknown without payload |
| Commands.CommandCaseInsensitive | src/utils/commands.ts:15 | two inputs that differ only in the case of the command word's ASCII letters parse the same |
| Commands.ExtraTokensIgnored | src/utils/commands.ts:23-32 | for any command word other than /agent and /session, there is no payload and what follows the word does not matter |
| Commands.JoinSpace | src/utils/commands.ts:16 | the join with single spaces; its meaning is stated by Commands.JoinNormalised and Commands.NormalisedRoundTrip |
| Commands.JoinNormalised | src/utils/commands.ts:16 | tokens joined by single spaces are normalised, and empty exactly when there are no tokens |
| Commands.PayloadNormalised | src/utils/commands.ts:14-22 | the payload of /agent and /session is normalised, and it is "" exactly when the command word is the only token |
| Commands.NormalisedRoundTrip | src/utils/commands.ts:14-16 | a normalised string is its own tokens joined by single spaces |
| Commands.PayloadRoundTrip | src/utils/commands.ts:14-22 | a word, a space and a normalised payload parse to the word's command with that payload |
| Commands.AgentRoundTrip | src/utils/commands.ts:19-20 | "/agent " followed by a normalised payload gives agent with that payload |
| Commands.SessionRoundTrip | src/utils/commands.ts:21-22 | "/session " followed by a normalised payload gives session with that payload |
| Commands.AgentExample | src/utils/commands.ts:14-20 | leading and repeated spaces vanish, the command word's case is ignored, and the payload keeps its case |
| Commands.HelpExample | src/utils/commands.ts:27-28 | "/HELP", a space, then anything gives help without payload |

## Left out

- The optional `timestamp` fields of the message types and of the display message (src/types/letta.ts) are not modelled: the core never reads or sets them. The `tool_call_id` fields are modelled and carried as they are.
- The display message's `content`, optional in src/types/letta.ts, is modelled as a plain string: every producer in the core sets it.
- Messages whose `message_type` is outside the declared union are modelled as `OtherMessage`, whose kind cannot be one of the six declared `message_type` values.
- Tool-call arguments are modelled as a map from names to JSON text. The core passes them on without looking at them.
- The React machinery of useStream.ts is not modelled: `useState` setters, re-rendering and the batching of state updates. Each setter is modelled as a plain assignment to a field of `StreamHook`.
- The asynchronous iterator is modelled as a finite sequence of messages, followed by either completion or an error. An error after k messages is a stream of those k messages that then throws. The iterator's suspension and timing are not modelled.
- `AbortStream` is called from another event. Its arrival is modelled as a point between messages: the index of the message the loop is waiting for, where the length of the stream means the wait for the stream's end. An abort after the run has finished is a later, separate `AbortStream` call.
- A user turn's list fields, which the source leaves undefined, are modelled as empty lists. The clean-up makes all three of them absent.
- The system role is declared but never produced by the core.
- `getHelpText` (src/utils/commands.ts:39-54) returns a constant text and is not modelled.
- Commands.AsciiLower: `toLowerCase` is modelled only on ASCII letters. For dispatch this is exact:
  - No other character lower-cases to a single ASCII character of a command word. KELVIN SIGN lower-cases to `k`, and no command word contains `k`.
  - Multi-character lower-casings cannot produce a command word either.
  - The lower-cased word itself is not returned.
- The user-interface files, the web server, the file and format utilities and the session hook are not part of this model. They are rendering, I/O or declarations of an external SDK.
