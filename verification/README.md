# AutoGen, verified in Dafny

A model of the parts of AutoGen that decide what a conversation becomes: the .NET group-chat
engine and its orchestrators, the streaming connectors that fold fragments into messages, the
Anthropic event reader, the middleware stack, and two Python samples that pass messages
between agents. `dafny verify dfyconfig.toml` checks everything.

## How it is modelled

- Code that works by changing things is a class or a method with loops (`MessageList`,
  `Graph`, `Chat`, `ContentBlock`, `ToolCallMessage`, `PrintLayer`, Mistral's chunks, the
  merged message objects, `MiddlewareAgent`). Each is proved against a function on values,
  and the theorems are about that function. What such a function computes is stated once more
  in terms of the inputs alone, with the source's own texts and constants written out.
- Model replies, tool functions, transition guards, lower-casing and JSON parsing are
  functions given as parameters. Exceptions are `Result` values or an `error` component.
- Agents of a group chat have an identity besides their name, because the graph compares
  agent objects and validation compares names.
- The hand-off sample is a state machine: a multiset of published messages, started handlers
  with the effects they still owe, and the log of the response queue. A step delivers a
  message, answers a model call, or performs one effect of one handler, so every interleaving
  of handlers is a run. A message published to a topic nobody is registered for stays pending.
- The print middlewares are driven one item at a time through the stack, as nested
  asynchronous enumerations are.

| file | models |
|---|---|
| `Orchestration.dfy`, `GroupChat.dfy`, `Rotation.dfy`, `MessageToKeep.dfy` | group chat |
| `Handoff.dfy`, `HandoffProtocol.dfy`, `HandoffTheorems.dfy`, `HandoffEntries.dfy` | streaming hand-off sample |
| `AnthropicSse.dfy` | Anthropic event stream |
| `ToolCalls.dfy`, `FunctionCall.dfy`, `Gemini.dfy`, `Mistral.dfy`, `PrintStack.dfy` | streaming aggregation |
| `RoleMerge.dfy`, `ToolIds.dfy`, `MiddlewareStack.dfy`, `Cascade.dfy` | requests, middleware, cascade |

## Where the code differs from its documentation

- `RoundRobinOrchestrator` documents that an unknown last sender selects the first agent; it
  selects nobody (`RoundRobinNull`).
- `SendAsync` compares with a length that leaves out introductions, so with introductions and
  no speaker it repeats old messages (`SendMatchesCall`, `StaleIntroduction`).
- The Mistral connector says its last streamed message equals the non-streaming result; the
  first delta, or the first choice's own message, is counted once more
  (`AgreesExactlyWhenFirstEmpty`).
- `FunctionCallMiddleware` documents that a tool call as last input skips the inner agent; the
  streaming form does not skip it (`ShortCutExactlyWhenInnerEmpty`).
- Section 9.2.6 of the WHATWG HTML Standard joins all data fields of an event and strips one
  leading space of each; the reader keeps the last one and trims it (`ReadsStandardData`,
  `TwoDataLines`).

## Model

| member | source | states |
|---|---|---|
| `GroupChat.SpeakInTurn` | dotnet/src/AutoGen.Core/GroupChat/GroupChat.cs:180-206 | the loop returns the start history plus exactly the messages of the run `Rounds`, and fails exactly when that run fails |
| `GroupChat.Chat.CallAsync` | dotnet/src/AutoGen.Core/GroupChat/GroupChat.cs:169-207 | introductions, then the given history (null counts as empty), then the messages of the run; only the last new message can hold `[GROUPCHAT_TERMINATE]`, and a run that is shorter than asked for ends with it or lacks a speaker |
| `GroupChat.RunReplies` | dotnet/src/AutoGen.Core/GroupChat/GroupChat.cs:184-196 | every message a run appends is the reply of the speaker chosen on, and shown, exactly the history before it |
| `GroupChat.RunEnds` | dotnet/src/AutoGen.Core/GroupChat/GroupChat.cs:182-206 | at most max(n, 0) messages are appended, only the last can be a terminate message, and the way a run ends tells how many rounds it had and what stopped it |
| `GroupChat.RunEndsAtMarker` | dotnet/src/AutoGen.Core/GroupChat/GroupChat.cs:182-206 | no message but the last holds the marker text, and a run that is shorter than asked for ends with it or lacks a speaker |
| `GroupChat.SendAsync` | dotnet/src/AutoGen.Core/Extension/GroupChatExtension.cs:36-66 | the loop over single-round calls yields exactly `SendRun`, stale repetitions and exceptions included, and nothing after a message that holds `[GROUPCHAT_TERMINATE]` |
| `GroupChat.SendMatchesCall` | dotnet/src/AutoGen.Core/Extension/GroupChatExtension.cs:43-65 | for every history and round count, `SendAsync` yields what `CallAsync` appends and fails when it fails, if and only if there are no introductions or the run never lacks a speaker; otherwise it yields strictly more |
| `GroupChat.SendEndsAtMarker` | dotnet/src/AutoGen.Core/Extension/GroupChatExtension.cs:55-59 | only the last message sent can hold the marker text |
| `GroupChat.StaleIntroduction` | dotnet/src/AutoGen.Core/Extension/GroupChatExtension.cs:47-53 | a concrete disagreement: one introduction and no speaker make `SendAsync` yield the introduction again each round |
| `GroupChat.Chat.Create` | dotnet/src/AutoGen.Core/GroupChat/GroupChat.cs:29-54 | a chat is made exactly if all names are non-empty and distinct and the workflow's ends are members; an admin means role play, else a workflow means the workflow, else round robin; the caller's graph object is kept and the chat ends at the marker |
| `GroupChat.Chat.CreateWith` | dotnet/src/AutoGen.Core/GroupChat/GroupChat.cs:62-72 | the same for a chat with a given orchestrator, where only the names are validated |
| `GroupChat.ChatEngine` | dotnet/src/AutoGen.Core/GroupChat/GroupChat.cs:184-201 | a chat asks its orchestrator about its members, takes the given replies, and stops exactly at messages whose text holds `[GROUPCHAT_TERMINATE]` |
| `GroupChat.ValidatesMeans` | dotnet/src/AutoGen.Core/GroupChat/GroupChat.cs:74-98 | validation passes exactly for non-empty distinct names and a workflow whose ends are members |
| `GroupChat.AddTransitionLater` | dotnet/src/AutoGen.Core/GroupChat/Graph.cs:24-27 | a transition added to the graph after construction takes effect in the chat unvalidated; the graph would still validate exactly when both ends are named like members, and if it would not, no choice of speaker changes on any history |
| `GroupChat.Chat.SendIntroduction` | dotnet/src/AutoGen.Core/GroupChat/GroupChat.cs:209-212 | appends one introduction |
| `GroupChat.DistinctCount` | dotnet/src/AutoGen.Core/GroupChat/GroupChat.cs:82-87 | comparing `Distinct().Count()` with the count is the same as pairwise distinct names |
| `GroupChat.RunFollowsWorkflow` | dotnet/src/AutoGen.Core/Orchestrator/WorkflowOrchestrator.cs:24-52 | in every run with a workflow and at least two members, each appended message's sender follows the previous sender along a transition whose guard held on the history so far |
| `GroupChat.RoundRobinRotation` | dotnet/src/AutoGen.Core/Orchestrator/RoundRobinOrchestrator.cs:27-42 | after a message of member i of n the chat never lacks a speaker and the k-th new speaker is member (i + k + 1) mod n, k counted from zero |
| `GroupChat.RoundRobinFair` | dotnet/src/AutoGen.Core/Orchestrator/RoundRobinOrchestrator.cs:34-42 | any n consecutive rounds contain every member exactly once |
| `GroupChat.RoundRobinSendMatchesCall` | dotnet/src/AutoGen.Core/Extension/GroupChatExtension.cs:43-65 | in a round-robin chat whose last message is a member's, `SendAsync` yields exactly what `CallAsync` appends and fails exactly when it fails, whatever the introductions |
| `Orchestration.ChoiceFollowsWorkflow` | dotnet/src/AutoGen.Core/Orchestrator/RolePlayOrchestrator.cs:41-98 | with a workflow and two or more candidates, both orchestrators choose only along an enabled transition leaving the last sender, to an agent named like a candidate |
| `Orchestration.WorkflowVersusRolePlay` | dotnet/src/AutoGen.Core/Orchestrator/RolePlayOrchestrator.cs:41-61 | the plain workflow and the role play agree exactly on an empty history or when at most one agent is allowed; which of them fails otherwise |
| `Orchestration.RolePlayChooses` | dotnet/src/AutoGen.Core/Orchestrator/RolePlayOrchestrator.cs:23-102 | no candidate gives nobody, one is chosen at once; otherwise the admin picks the first match among all candidates or, with a workflow, among the several agents allowed; one allowed agent is chosen, none gives nobody, an unknown sender fails |
| `Orchestration.WorkflowChooses` | dotnet/src/AutoGen.Core/Orchestrator/WorkflowOrchestrator.cs:20-55 | the only agent allowed after the last sender is chosen; nobody if none is or the sender is unknown; several fail |
| `Orchestration.AllowedAreNext` | dotnet/src/AutoGen.Core/GroupChat/Graph.cs:40-53 | the agents allowed are the ends, in order, of the transitions that leave the speaker, whose guard holds for their own ends, and that lead to a candidate's name |
| `Orchestration.AdminDecides` | dotnet/src/AutoGen.Core/Orchestrator/RolePlayOrchestrator.cs:89-101 | the admin's reply picks the first candidate that matches it, ignoring case, after five characters, and fails exactly when it is null, too short or matches nobody |
| `Orchestration.ForeignTransitionInert` | dotnet/src/AutoGen.Core/Orchestrator/WorkflowOrchestrator.cs:37-42 | a transition with an end outside the chat never changes what any orchestrator chooses |
| `Orchestration.RoundRobinNull` | dotnet/src/AutoGen.Core/Orchestrator/RoundRobinOrchestrator.cs:27-39 | no agent is returned exactly for an unknown last sender, or an empty chat without candidates |
| `Orchestration.RoundRobinChooses` | dotnet/src/AutoGen.Core/Orchestrator/RoundRobinOrchestrator.cs:27-42 | the first member opens; after member i comes member i + 1, cyclically; after a stranger nobody |
| `Orchestration.MarkersAre` | dotnet/src/AutoGen.Core/Extension/GroupChatExtension.cs:113-121 | the two markers, as literal texts inside the content |
| `Orchestration.TargetsSound` | dotnet/src/AutoGen.Core/GroupChat/Graph.cs:40-53 | an agent is a next agent exactly when a transition leaving the given agent object leads to it and its guard holds |
| `Orchestration.Graph.TransitToNextAvailableAgents` | dotnet/src/AutoGen.Core/GroupChat/Graph.cs:40-53 | the loop collects the targets of the enabled transitions in order |
| `Orchestration.Graph.AddTransition` | dotnet/src/AutoGen.Core/GroupChat/Graph.cs:24-27 | appends one transition |
| `MessageToKeep.Retain` | dotnet/src/AutoGen.Core/Extension/GroupChatExtension.cs:81-106 | the kept messages are the suffix from the last message before the final one that holds `[GROUPCHAT_CLEAR_MESSAGES]`, or everything if there is none |
| `MessageToKeep.KeepFromIs` | dotnet/src/AutoGen.Core/Extension/GroupChatExtension.cs:81-106 | for any marker: what is kept starts at the last marker before the final message, or at the beginning |
| `MessageToKeep.SecondSearch` | dotnet/src/AutoGen.Core/Extension/GroupChatExtension.cs:92-94 | the second search never looks at index 0, and skipping to its result is still right |
| `MessageToKeep.Idempotent` | dotnet/src/AutoGen.Core/Extension/GroupChatExtension.cs:81-106 | keeping twice keeps the same, for every list and every marker predicate |
| `MessageToKeep.Incremental` | dotnet/src/AutoGen.Core/Extension/GroupChatExtension.cs:81-106 | keep(h + [m]) = keep(keep(h) + [m]) |
| `Handoff.HandleTask` | python/samples/core_streaming_handoffs_fastapi/agent_base.py:48-134 | after the whole handler, every receiver sees in the list it was sent what was true at sending time, although the handler's own list is extended in place; delegates get fresh lists |
| `Handoff.HandleStream` | python/samples/core_streaming_handoffs_fastapi/agent_base.py:64-134 | one pass of the loop: puts, publications and the extended context are those of `React` |
| `Handoff.RunCalls` | python/samples/core_streaming_handoffs_fastapi/agent_base.py:65-98 | the loop over the calls gathers results and delegate targets in order and stops at the first failure |
| `Handoff.ReadStream` | python/samples/core_streaming_handoffs_fastapi/agent_base.py:55-60 | chunks are put in order and the last completion wins |
| `Handoff.Publish` | python/samples/core_streaming_handoffs_fastapi/agent_base.py:99-104 | one notice and one publication per delegate target, in order |
| `HandoffProtocol.TokenLaw` | python/samples/core_streaming_handoffs_fastapi/agent_base.py:64-134 | over any interleaved run the token count changes only at model answers, by the publications each causes, plus one if the handler goes on, minus one |
| `HandoffProtocol.HandledTaskGain` | python/samples/core_streaming_handoffs_fastapi/agent_base.py:48-134 | in any interleaved run from a state where a handler awaits the model, its d delegations and r final responses change the token count by d + r, less one once it has ended; all other change is the gains of answers to other handlers |
| `HandoffProtocol.HandlerDrives` | python/samples/core_streaming_handoffs_fastapi/agent_base.py:48-134 | in any interleaved run a handler ends up where `Drive` on exactly the answers it got ends, and these answers gain what that handling gains |
| `HandoffProtocol.CallsOutcome` | python/samples/core_streaming_handoffs_fastapi/agent_base.py:68-98 | a round fails exactly when some call is unknown, unparsable or raises |
| `HandoffProtocol.CallsRun` | python/samples/core_streaming_handoffs_fastapi/agent_base.py:71-77 | a round that does not fail holds exactly the plain tools' results, in call order, with call ids and names |
| `HandoffProtocol.CallsAnswered` | python/samples/core_streaming_handoffs_fastapi/agent_base.py:71-96 | each call becomes either one result or one delegate target, and result ids are the plain calls' ids in order |
| `HandoffProtocol.CallsTransferred` | python/samples/core_streaming_handoffs_fastapi/agent_base.py:78-96 | every delegate context is the held context plus the delegate call and its transfer result |
| `HandoffEntries.ChunksFirst` | python/samples/core_streaming_handoffs_fastapi/agent_base.py:55-60 | for any stream the string entries put are exactly the texts of its chunks, each once, in order and before everything else |
| `HandoffEntries.ReactsToNothing` | python/samples/core_streaming_handoffs_fastapi/agent_base.py:55-61 | without a completion only the chunks are put and the handler ends |
| `HandoffEntries.ReactsToText` | python/samples/core_streaming_handoffs_fastapi/agent_base.py:128-134 | a text completion: the chunks, then the response with the text added under the agent's name, and the end |
| `HandoffEntries.ReactsToCalls` | python/samples/core_streaming_handoffs_fastapi/agent_base.py:64-116 | calls that succeed: the chunks, a notice per call, then notice and task per delegate call with the call and its transfer result added; the handler goes on exactly if some call was plain, with calls and results added |
| `HandoffEntries.ReactsToFailure` | python/samples/core_streaming_handoffs_fastapi/agent_base.py:68-98 | the first call that cannot be parsed, is unknown or raises ends the handler after the notices up to it |
| `HandoffEntries.LogIsTrace` | python/samples/core_streaming_handoffs_fastapi/agent_base.py:55-104 | in any run the queue receives exactly the entries handlers put, in order |
| `HandoffEntries.HandlerPutsItsChunks` | python/samples/core_streaming_handoffs_fastapi/agent_base.py:55-60 | in any interleaved run the string entries of each handler, done and still to come, are the chunks of the streams it was answered with, in order |
| `HandoffEntries.HandlerPerformsDrive` | python/samples/core_streaming_handoffs_fastapi/agent_base.py:48-134 | in any interleaved run each handler performs exactly what one undisturbed `HandleTask` with the same answers sends |
| `HandoffEntries.ConsumerSeesAllText` | python/samples/core_streaming_handoffs_fastapi/app.py:262-272 | with good answers, when the consumer stops, the string entries it has yielded are the chunks of all answers, in the order of the answers |
| `HandoffTheorems.OneSentinel` | python/samples/core_streaming_handoffs_fastapi/agent_user.py:29-43 | with good answers every reachable state has exactly one token, and once the sentinel is on the queue it is the only one, the last entry, and no step is possible any more |
| `HandoffTheorems.KeepsTokenExactlyWhenGood` | python/samples/core_streaming_handoffs_fastapi/agent_base.py:64-134 | an answer hands on exactly one token if and only if it is text, a non-empty list of succeeding plain calls, or one succeeding delegate call |
| `HandoffTheorems.StuckExactlyAfterSentinel` | python/samples/core_streaming_handoffs_fastapi/app.py:256-275 | if delegate topics are registered, some step is enabled exactly as long as the sentinel is not on the queue |
| `HandoffTheorems.SentinelsAtRest` | python/samples/core_streaming_handoffs_fastapi/app.py:256-275 | whatever the model answers, a request for which no step is enabled any more has put 1 + the gains of all its answers sentinels on the queue, of which the consumer takes one |
| `HandoffTheorems.ResponseStream` | python/samples/core_streaming_handoffs_fastapi/app.py:262-272 | the consumer yields the queue up to the first sentinel or error string and stops there |
| `HandoffTheorems.ConsumerSeesWholeRun` | python/samples/core_streaming_handoffs_fastapi/app.py:262-272 | when the consumer stops, it has yielded every entry the run put before the sentinel |
| `HandoffTheorems.PairedRun` | python/samples/core_streaming_handoffs_fastapi/agent_base.py:83-111 | in runs without mixed responses every context pending, about to be published or held has each call message followed by results for exactly its ids, and no stray results |
| `HandoffTheorems.PairedExactlyWhenAllPlain` | python/samples/core_streaming_handoffs_fastapi/agent_base.py:105-111 | after a round the extended context is paired if and only if no call of the response was a delegate call |
| `HandoffTheorems.ContextsExtendRequest` | python/samples/core_streaming_handoffs_fastapi/agent_base.py:83-134 | in every run, whatever the model answers, every context starts with the requested one |
| `HandoffTheorems.NextRequestPaired` | python/packages/autogen-core/src/autogen_core/model_context/_buffered_chat_completion_context.py:34-41 | the windowed history the next request starts from is paired again, whatever the window size |
| `HandoffTheorems.WindowIsLongest` | python/packages/autogen-core/src/autogen_core/model_context/_buffered_chat_completion_context.py:34-41 | of a paired history the window keeps the longest suffix of at most the given size that does not begin with results |
| `AnthropicSse.StreamingChatCompletions` | dotnet/src/AutoGen.Anthropic/AnthropicClient.cs:66-131 | the line loop with its mutable block object yields and throws exactly what `RunLines` says |
| `AnthropicSse.EndEvent` | dotnet/src/AutoGen.Anthropic/AnthropicClient.cs:83-124 | the end of an event acts on the open block object as `Dispatch` does on its value |
| `AnthropicSse.ContentBlock.AppendDeltaParameters` | dotnet/src/AutoGen.Anthropic/AnthropicClient.cs:185-190 | appends the fragment to the parameters, null counting as empty |
| `AnthropicSse.LinesRefineEvents` | dotnet/src/AutoGen.Anthropic/AnthropicClient.cs:68-131 | for every framed event list, with ignored lines, any field order, any stale record and any unfinished tail, the line loop yields what the event transducer yields |
| `AnthropicSse.OneResponsePerEvent` | dotnet/src/AutoGen.Anthropic/AnthropicClient.cs:92-117 | for every event list and every open block, if nothing is raised: exactly one response per `message_start`, `content_block_delta` and `message_delta` event, in order and as read, with the block's content added only at a stop for tool use with an open block |
| `AnthropicSse.FailsAtFirstRaised` | dotnet/src/AutoGen.Anthropic/AnthropicClient.cs:83-124 | a stream fails exactly at its first unreadable block or response or error event, with that event's message, after what the events before it yield |
| `AnthropicSse.BlockOpenExactly` | dotnet/src/AutoGen.Anthropic/AnthropicClient.cs:83-114 | a block is open exactly if a tool block was opened and no event since has opened another or stopped for tool use |
| `AnthropicSse.OpenBlockIs` | dotnet/src/AutoGen.Anthropic/AnthropicClient.cs:83-101 | it is then the block opened last, with the fragments since then appended |
| `AnthropicSse.TrimIs` | dotnet/src/AutoGen.Anthropic/AnthropicClient.cs:72-79 | what is cut off field values is all the white space at both ends and nothing else |
| `AnthropicSse.RenderRefines` | dotnet/src/AutoGen.Anthropic/AnthropicClient.cs:68-131 | in particular for event line, data line, empty line |
| `AnthropicSse.ExtraEmptyLine` | dotnet/src/AutoGen.Anthropic/AnthropicClient.cs:126-129 | after an event without error an extra empty line changes nothing, whatever lines follow, if and only if no tool block is open or the record does not hold a response |
| `AnthropicSse.ReadsStandardData` | dotnet/src/AutoGen.Anthropic/AnthropicClient.cs:76-79 | for any lines of an event and any record before, the data read is what section 9.2.6 of the WHATWG HTML Standard defines if and only if there is exactly one data field and trimming strips no more than one leading space; without a `data:` line it is what the record held |
| `AnthropicSse.TwoDataLines` | dotnet/src/AutoGen.Anthropic/AnthropicClient.cs:76-79 | a concrete disagreement: of `data: a` and `data: b` the standard makes both lines, the reader `b` |
| `AnthropicSse.ReplaysExactlyWhenIncomplete` | dotnet/src/AutoGen.Anthropic/AnthropicClient.cs:126-129 | a group of lines acts on a kept record as on a reset one if and only if it sets both fields, or what it reads together with the held fields is inert; otherwise it replays held kind or data |
| `AnthropicSse.IncompleteGroupSkipped` | dotnet/src/AutoGen.Anthropic/AnthropicClient.cs:81-129 | without an open tool block a group that sets only one field is skipped |
| `AnthropicSse.ToolContentAttached` | dotnet/src/AutoGen.Anthropic/AnthropicClient.cs:97-114 | at stop reason `tool_use` the attached content is that of the latest tool block, with its non-empty fragments joined in order, after any content the response had |
| `AnthropicSse.BlockCollects` | dotnet/src/AutoGen.Anthropic/AnthropicClient.cs:97-101 | while a block is open its parameters are exactly the fragments seen so far |
| `AnthropicSse.PlainStream` | dotnet/src/AutoGen.Anthropic/AnthropicClient.cs:92-117 | without tool blocks every response is yielded as it came, in order |
| `ToolCalls.ToolCallMessage.Apply` | dotnet/src/AutoGen.Core/Message/ToolCallMessage.cs:59-77 | an update from another sender fails and changes nothing; otherwise the first call of that name grows or a new call is added |
| `ToolCalls.AbsorbIs` | dotnet/src/AutoGen.Core/Message/ToolCallMessage.cs:66-77 | an update lengthens the arguments of the first call of its name, or is added as a call; nothing else changes |
| `ToolCalls.FoldStream` | dotnet/src/AutoGen.Core/Message/ToolCallMessage.cs:53-77 | applying a same-sender stream gives its fold |
| `ToolCalls.FoldGathers` | dotnet/src/AutoGen.Core/Message/ToolCallMessage.cs:59-77 | the fold has one call per distinct name with that name's fragments joined in arrival order |
| `ToolCalls.NamesInOrder` | dotnet/src/AutoGen.Core/Message/ToolCallMessage.cs:67-76 | the names come in the order of their first use |
| `ToolCalls.FoldConserves` | dotnet/src/AutoGen.Core/Message/ToolCallMessage.cs:71-75 | the total argument length is conserved |
| `ToolCalls.InterleavingIrrelevant` | dotnet/src/AutoGen.Core/Message/ToolCallMessage.cs:67-76 | streams with the same fragments per name give the same arguments by name, however interleaved |
| `FunctionCall.InvokeAfterAgent` | dotnet/src/AutoGen.Core/Middleware/FunctionCallMiddleware.cs:166-190 | runs each call that names a function once, in order; passes the message on if there is none, fails if it is not the agent's own, and else returns it with, for each of those calls, its name, arguments, id and what its function returns for its arguments |
| `FunctionCall.AfterAgentReplies` | dotnet/src/AutoGen.Core/Middleware/FunctionCallMiddleware.cs:166-190 | the same of the function that the streaming results are about |
| `FunctionCall.InvokeReplies` | dotnet/src/AutoGen.Core/Middleware/FunctionCallMiddleware.cs:62-86 | the non-streaming form: the last input's calls answered in the agent's name, or the inner agent's tool calls with their results, or its reply as it is |
| `FunctionCall.InvokeBeforeAgent` | dotnet/src/AutoGen.Core/Middleware/FunctionCallMiddleware.cs:138-164 | the loop answers the last input's calls, runs each available one once and in order, and fails only without a function map |
| `FunctionCall.BeforeAnswersEveryCall` | dotnet/src/AutoGen.Core/Middleware/FunctionCallMiddleware.cs:138-164 | every call is answered in place with its own id, by its function or an error text |
| `FunctionCall.StreamLoop` | dotnet/src/AutoGen.Core/Middleware/FunctionCallMiddleware.cs:104-135 | the streaming loop with its object updated in place yields and fails as `StreamInner`, and runs exactly the available calls of the message merged at the end |
| `FunctionCall.OthersPassedOn` | dotnet/src/AutoGen.Core/Middleware/FunctionCallMiddleware.cs:104-131 | exactly the messages that are neither whole tool calls nor, with a function map, updates are passed on, each once and in order |
| `FunctionCall.WholeThenUpdates` | dotnet/src/AutoGen.Core/Middleware/FunctionCallMiddleware.cs:106-126 | a whole tool call message replaces what was merged, and the updates after it extend it |
| `FunctionCall.StrangerFails` | dotnet/src/AutoGen.Core/Message/ToolCallMessage.cs:59-64 | an update from another sender than the merged message's makes the stream fail |
| `FunctionCall.StreamReplies` | dotnet/src/AutoGen.Core/Middleware/FunctionCallMiddleware.cs:132-135 | the stream ends with the merged message and, for each of its calls that names a function, what that function returns for its arguments; these calls run once and in order |
| `FunctionCall.InvokeAsStream` | dotnet/src/AutoGen.Core/Middleware/FunctionCallMiddleware.cs:88-136 | the whole streaming form, short cut included: what it yields, how it fails, and which functions run in which order |
| `FunctionCall.StreamingMatchesReply` | dotnet/src/AutoGen.Core/Middleware/FunctionCallMiddleware.cs:104-135 | for any fragmentation of a tool call message the last streamed message is the non-streaming reply up to ids, and both fail together |
| `FunctionCall.WholeMatchesExactlyWhenDistinct` | dotnet/src/AutoGen.Core/Middleware/FunctionCallMiddleware.cs:104-135 | the stream of whole calls ends with the non-streaming reply, up to ids, if and only if there is a function map and a call, no name is called twice, and the message carries neither text nor results |
| `FunctionCall.ShortCutExactlyWhenInnerEmpty` | dotnet/src/AutoGen.Core/Middleware/FunctionCallMiddleware.cs:93-97 | with a tool call as last input streaming fails as the non-streaming form does and runs nothing, or yields its reply and then the inner stream's output; so it equals the non-streaming reply alone if and only if the inner stream is empty |
| `Gemini.InvokeStream` | dotnet/src/AutoGen.Gemini/Middleware/GeminiMessageConnector.cs:46-111 | the loop with its growing bucket yields and throws exactly what `ConnectAll` says, for Gemini responses and messages of other types, in strict mode or not |
| `Gemini.ResponsesConnect` | dotnet/src/AutoGen.Gemini/Middleware/GeminiMessageConnector.cs:46-111 | on Gemini responses alone both modes do what `Connect` says, which the results below are about |
| `Gemini.YieldsEachThenSummary` | dotnet/src/AutoGen.Gemini/Middleware/GeminiMessageConnector.cs:50-110 | a stream without error yields for each response but empty stops its message, then the summary so far: the texts joined if all are texts, else the single calls |
| `Gemini.FailsExactly` | dotnet/src/AutoGen.Gemini/Middleware/GeminiMessageConnector.cs:76-109 | a stream fails exactly at a response without one candidate with content, with neither one text nor a call, or that leaves mixed kinds without a single call |
| `Gemini.ForeignReply` | dotnet/src/AutoGen.Gemini/Middleware/GeminiMessageConnector.cs:67-109 | a message of another type fails in strict mode; else it is yielded, and after it the summary if there is any |
| `Gemini.SinglePart` | dotnet/src/AutoGen.Gemini/Middleware/GeminiMessageConnector.cs:52-58 | texts and calls are the responses with one candidate and exactly one such part |
| `Gemini.CallPartsAre` | dotnet/src/AutoGen.Gemini/Middleware/GeminiMessageConnector.cs:141-151 | the calls of a response are its call parts in order, with their names and arguments |
| `Gemini.SingleCallsAre` | dotnet/src/AutoGen.Gemini/Middleware/GeminiMessageConnector.cs:88-101 | the calls summed up are those of the responses that are one call, in order |
| `Gemini.MiddlewareHoldsSingleCalls` | dotnet/src/AutoGen.Gemini/Middleware/GeminiMessageConnector.cs:76-110 | after a stream without error the function-call layer holds exactly the calls that came alone, each once, in order |
| `Gemini.AllCallsHeldExactlyWhenAlone` | dotnet/src/AutoGen.Gemini/Middleware/GeminiMessageConnector.cs:88-105 | it holds all calls of the stream if and only if no call shared its response with another part |
| `Gemini.CallsLost` | dotnet/src/AutoGen.Gemini/Middleware/GeminiMessageConnector.cs:88-105 | such sharing after a single call loses calls without any failure |
| `Gemini.CallsRunOnceInOrder` | dotnet/src/AutoGen.Gemini/Middleware/GeminiMessageConnector.cs:48-110 | when every response is one text or one call, the log of function runs is exactly the available calls of the stream, each once and in order, and the last message carries all calls and results |
| `Gemini.SingleCallsRunOnceInOrder` | dotnet/src/AutoGen.Gemini/Middleware/GeminiMessageConnector.cs:46-110 | for any stream of responses without error, the log of function runs is exactly the available calls that came alone, each once and in order |
| `Gemini.TextSummary` | dotnet/src/AutoGen.Gemini/Middleware/GeminiMessageConnector.cs:81-87 | a text stream ends with a message that joins the text of all updates yielded |
| `PrintStack.TextMessage.Apply` | dotnet/src/AutoGen.Core/Message/TextMessage.cs:22-35 | appends the content, null counting as empty, unless role or sender differ |
| `PrintStack.PrintLayer.Feed` | dotnet/src/AutoGen.Core/Middleware/PrintMessageMiddleware.cs:56-108 | one pass of the loop, for every kind of message and every state of the layer |
| `PrintStack.StreamThrough` | dotnet/src/AutoGen.Core/Middleware/PrintMessageMiddleware.cs:51-117 | through any stack of layers a uniform text stream comes out as its first update followed by one shared message object, which ends with all updates joined |
| `Mistral.FinalMessage` | dotnet/src/AutoGen.Mistral/Middleware/MistralChatMessageConnector.cs:40-98 | nothing follows an empty stream; otherwise the last message is b d0 d1 ... dk over the deltas as they arrived, where b is the first choice's own message or else d0 again, with the last chunk's finish reason and the last non-null usage; it throws exactly when a delta is missing or tool calls meet an own message without a list |
| `Mistral.StreamedIsFinal` | dotnet/src/AutoGen.Mistral/Middleware/MistralChatMessageConnector.cs:48-98 | by the last finish reason: the own text or else the first one, then all texts joined; the own list or else the first one, then all lists joined; a failure otherwise |
| `Mistral.LastUsageIs` | dotnet/src/AutoGen.Mistral/Middleware/MistralChatMessageConnector.cs:72-76 | the usage reported is the last that is not null |
| `Mistral.PlainIs` | dotnet/src/AutoGen.Mistral/Middleware/MistralChatMessageConnector.cs:100-115 | the non-streaming result: all deltas joined once each |
| `Mistral.AggregateText` | dotnet/src/AutoGen.Mistral/Middleware/MistralChatMessageConnector.cs:81-95 | the text loop inside the first choice's own message object, or else its delta object |
| `Mistral.AggregateToolCalls` | dotnet/src/AutoGen.Mistral/Middleware/MistralChatMessageConnector.cs:53-76 | the tool-call loop, which appends the first list to itself, or throws when an own message has no list |
| `Mistral.AgreesExactlyWhenFirstEmpty` | dotnet/src/AutoGen.Mistral/Middleware/MistralChatMessageConnector.cs:40-42 | streaming agrees with the non-streaming result if and only if what the deltas are joined onto, own message or first delta, is empty |
| `RoleMerge.MergeInPlace` | dotnet/src/AutoGen.Anthropic/Agent/AnthropicClientAgent.cs:104-118 | for any message objects, repeated ones included, the list and what every object holds afterwards; for distinct objects that is the merge of their values; the caller's objects are unchanged if and only if no message with parts follows one of its own role |
| `RoleMerge.MergeObjectsValues` | dotnet/src/AutoGen.Anthropic/Agent/AnthropicClientAgent.cs:104-118 | for distinct objects, merging in place gives the merge of their values |
| `RoleMerge.UnchangedExactlyWhenNothingToMerge` | dotnet/src/AutoGen.Anthropic/Agent/AnthropicClientAgent.cs:106-109 | merging leaves every object as it was if and only if no message with parts follows one of its own role |
| `RoleMerge.BuildMessages` | dotnet/src/AutoGen.Anthropic/Agent/AnthropicClientAgent.cs:82-119 | the first system message or foreign type is refused and nothing changes; otherwise the merge in place, repeated objects included |
| `RoleMerge.MergeKeeps` | dotnet/src/AutoGen.Gemini/GeminiChatAgent.cs:183-195 | no two neighbours share a role; the sequence of role and part pairs and the first and last roles are kept |
| `RoleMerge.MergeRuns` | dotnet/src/AutoGen.Anthropic/Agent/AnthropicClientAgent.cs:104-118 | each longest run of one role becomes one turn with the run's parts joined, which determines the merged list |
| `RoleMerge.MergeIdempotent` | dotnet/src/AutoGen.Anthropic/Agent/AnthropicClientAgent.cs:104-118 | merging is idempotent |
| `RoleMerge.GeminiRequest` | dotnet/src/AutoGen.Gemini/GeminiChatAgent.cs:165-195 | a request is accepted exactly when it is non-empty and starts and ends with user or function; then so does what is sent, which alternates and keeps every part |
| `RoleMerge.BuildContents` | dotnet/src/AutoGen.Gemini/GeminiChatAgent.cs:171-195 | the same on the content objects themselves, repeated ones included: when it is accepted, that roles alternate and open and close as required, and that a refusal changes nothing |
| `RoleMerge.RebuildRepeats` | dotnet/src/AutoGen.Anthropic/Agent/AnthropicClientAgent.cs:106-109 | building twice from two objects of one role repeats the second one's parts, because the caller's object was extended |
| `RoleMerge.RebuildSameExactlyWhenNothingToMerge` | dotnet/src/AutoGen.Anthropic/Agent/AnthropicClientAgent.cs:104-118 | building a request again from the same objects gives the same list, and the same contents if and only if no message with parts follows one of its own role |
| `RoleMerge.BuildTwice` | dotnet/src/AutoGen.Anthropic/Agent/AnthropicClientAgent.cs:104-118 | the same for two calls on the objects themselves |
| `ToolIds.FallbackInjective` | dotnet/src/AutoGen.AzureAIInference/Middleware/AzureAIInferenceChatRequestMessageConnector.cs:264-264 | equal fallback ids come from equal positions and names, for any names |
| `ToolIds.FallbacksDistinct` | dotnet/src/AutoGen.AzureAIInference/Middleware/AzureAIInferenceChatRequestMessageConnector.cs:257-273 | calls of one message without explicit ids get pairwise distinct ids |
| `ToolIds.DecimalDenotes` | dotnet/src/AutoGen.AzureAIInference/Middleware/AzureAIInferenceChatRequestMessageConnector.cs:264-264 | positions are written in decimal without leading zeros |
| `ToolIds.OwnAggregateExpands` | dotnet/src/AutoGen.AzureAIInference/Middleware/AzureAIInferenceChatRequestMessageConnector.cs:282-301 | the agent's own aggregate becomes one message with every call and one message per result |
| `ToolIds.OwnRequests` | dotnet/src/AutoGen.AzureAIInference/Middleware/AzureAIInferenceChatRequestMessageConnector.cs:257-301 | field by field: the text and every call with its name, arguments and own id, or else its name and position; then for each call that ran its function's return value, with its own id, or else its name and its place among the results |
| `ToolIds.ResultsSent` | dotnet/src/AutoGen.AzureAIInference/Middleware/AzureAIInferenceChatRequestMessageConnector.cs:275-280 | results are sent one by one, leaving out calls without one, which are not counted either |
| `ToolIds.ForeignRequests` | dotnet/src/AutoGen.AzureAIInference/Middleware/AzureAIInferenceChatRequestMessageConnector.cs:257-292 | somebody else's aggregate becomes one user message per result, and their tool calls are refused |
| `ToolIds.ExpansionPairsIds` | dotnet/src/AutoGen.AzureAIInference/Middleware/AzureAIInferenceChatRequestMessageConnector.cs:275-300 | every result carries the id of the call it answers if and only if no available call without an explicit id follows an unavailable one |
| `ToolIds.OwnAggregatePairs` | dotnet/src/AutoGen.AzureAIInference/Middleware/AzureAIInferenceChatRequestMessageConnector.cs:275-301 | the requests the agent's own aggregate is sent as: all calls, then one message per available call, each with its call's id if and only if no available call without an explicit id follows an unavailable one |
| `ToolIds.PairedWhenExplicitOrAvailable` | dotnet/src/AutoGen.AzureAIInference/Middleware/AzureAIInferenceChatRequestMessageConnector.cs:275-301 | in particular these requests pair up when every call has an explicit id or every name is available |
| `MiddlewareStack.MiddlewareAgent.Use` | dotnet/src/AutoGen.Core/Agent/MiddlewareAgent.cs:83-87 | the new middleware is put outermost over the current behaviour |
| `MiddlewareStack.WithMiddlewares` | dotnet/src/AutoGen.Core/Agent/MiddlewareAgent.cs:25-36 | middlewares given at construction compose, the last one outermost |
| `MiddlewareStack.BehavesAsComposed` | dotnet/src/AutoGen.Core/Agent/MiddlewareAgent.cs:60-118 | an agent always behaves as its middlewares, last outermost, around what they were put on |
| `MiddlewareStack.Register` | dotnet/src/AutoGen.Core/Extension/MiddlewareExtension.cs:135-144 | the copy has the middleware on top of the original's behaviour; neither can reach the other |
| `MiddlewareStack.UseApart` | dotnet/src/AutoGen.Core/Agent/MiddlewareAgent.cs:41-46 | a copy and its original never affect each other through later `Use` |
| `MiddlewareStack.RegisterStreaming` | dotnet/src/AutoGen.Core/Extension/StreamingMiddlewareExtension.cs:27-36 | the streaming copy wraps the original object |
| `MiddlewareStack.UseShowsThrough` | dotnet/src/AutoGen.Core/Agent/MiddlewareStreamingAgent.cs:107-111 | a later `UseStreaming` on the original shows through the streaming copy |
| `Cascade.CascadeLength` | python/samples/core_grpc_worker_runtime/agents.py:25-32 | in any handling order a cascade of M rounds over k agents is over exactly after k + k^2 + ... + k^M handled messages, never runs longer, and publishes as many receive events |
| `Cascade.EventsPerRound` | python/samples/core_grpc_worker_runtime/agents.py:25-32 | when a cascade is over there are exactly k^r receive events of each round r |
| `Cascade.EndlessBelowOneRound` | python/samples/core_grpc_worker_runtime/agents.py:30-31 | because the bound is compared with equality, a cascade past it never ends |

## Left out

- GroupChat.SendAsync: the history is a value; the source appends lazily, so a caller that adds yielded messages to the list it passed in would see them twice. Introductions and transitions added between two yielded messages are not modelled.
- FunctionCall.StreamLoop: a whole tool call message from the inner stream is taken over as a new object, so that a later update would also change the inner agent's own object is not captured; tool functions are total, so a tool that throws is not modelled.
- Mistral.FinalMessage: chunks have one choice and share no object with each other, as separately parsed streaming chunks do; per-chunk updates yielded before the final message are not modelled.
- PrintStack.StreamThrough: needs at least one layer and updates of one role and sender; stacks fed with tool-call updates are covered only one layer at a time, by `PrintLayer.Feed`.
- RoleMerge.GeminiRequest: that every part is kept is stated for distinct content objects; what repeated ones hold is stated by `BuildContents`.
- ToolCalls.ToolCallMessage.Apply: the individual tool calls are values, so sharing one tool call object between two messages is not captured.
- HandoffTheorems.OneSentinel: one request in flight; requests that share the response queue at the same time are not modelled.
- AnthropicSse.StreamingChatCompletions: prefix comparison of lines is by characters, not by culture.
- The `reply_to_topic_type` of an agent response and the printing in the hand-off sample.
- The text of prompts and of some error messages; only who is asked and what is matched is modelled.
- HTTP, JSON, protobuf and SDK types, console output, the web applications, files and the agent runtimes themselves.
- The obsolete `SelectNextSpeakerAsync` of the group chat, the Ollama connector, request options, system-message insertion and image messages: they would only add easy members.
