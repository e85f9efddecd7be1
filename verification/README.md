# Hyperforge, verified

This project models the parts of the Hyperforge agent runtime that hold real state machines,
tree transformations and parser/printer pairs, and proves what they are for. `dafny verify
dfyconfig.toml` checks all of it.

**The A2A task protocol.** A task is started on one replica and its client's answers may arrive
at any other. `Answers` and `Relay` say what a response stream shows a client directly and what
it shows through a relay topic; `RelayRun` lets the publisher, the broker and the forwarder take
steps in any order, with any number of subscription timeouts; `RelayLoops` holds the loops
themselves and the in-process broker. `TaskTables` is the executor's five tables, as a class and
as the changes to one task's entries; `TaskSystem` is the whole protocol for one task over all
replicas, with every await a scheduling point and every awaited operation allowed to fail before
or after its effect; `TaskInvariant` proves an invariant of all its steps, `TaskSafety` says
what follows over every run, `TaskHistory` where every question and reply comes from,
`TaskClosing` that a closing leaves nothing behind, `TaskSteps` what cancels, clean-ups and
renewals do once they are through, `TaskFlow` what a question and its answer go through; and
`TaskExample` shows two runs: one from the request to the closing, and one through a window in
which a cancel leaves a stored record without its entry.

**The MCP tool-schema normaliser.** `Json` and `JsonPointer` are JSON values and pointers;
`SchemaNormalizer` is the function the compiler computes, with the measure by which it ends on
cyclic references too; `SchemaShape` proves what its output looks like, `SchemaMeaning` what it
accepts; `SchemaChecks` says exactly which schemas are normalised and what is written for them,
`SchemaFaults` that a refusal names a real fault, `SchemaExact` what stands below a node;
`SchemaCompiler` runs it on dictionaries it reassigns. `SchemaClosing` is the other schema
rewriting, which closes and opens object schemas for the providers.

**Citation footnotes.** `Footnotes` reads and prints markdown footnotes, `FootnoteForms` says
what a definition is without a scanner, `FootnoteText` renumbers the markers of a text,
`Citations` expands the references to contexts into references to chunks, `CitationDetails`
takes ids, contexts, order and metadata case by case, `CitationLoops` holds the two loops, and
`CitationExample` is an answer that renumbering changes.

**The workflow editor.** `WorkflowTree` is the tree of agent steps with its printed paths,
`WorkflowLaws` the laws of changing it, `WorkflowFrames` what a change keeps field by field,
`WorkflowCanvas` and `WorkflowPlaces` the collection of canvas nodes and what they say, and
`WorkflowStore` the store's walks, collectors and actions.

**The smart agent.** `ToolArguments` and `ToolKeys` are the keys under which tool calls are
remembered, `SmartRun` the turns and runs with the language model, the tools and the user as
oracles, `SmartOutcomes` what outputs, answers and questions do to them, `SmartAgent` the
methods.

**Translations.** `Filters` builds and combines NucliaDB filter expressions, and `FilterExact`
shows that combining means what it should in no other cases than it proves; `ChatHistory` turns
a chat history into response items and regroups them into chat messages.

`Text` and `Wrappers` hold what the others share.

## Conventions

Where a modelled loop updates variables in the source there is a method with that loop, proved
equal to a function; the laws are lemmas about the function. Names of coroutines, replies and
relay topics are numbers or strings chosen freely by each step. Fields called history in a
comment (the number of a pause, the log of deliveries, where the right to answer is) are read by
no step of the modelled code; only the statements use them.

Five promises hold under a condition, and the project says which: a marker without a footnote
comes to cite something after renumbering exactly when it is a number up to that of the ids the
footnotes expand to (`NormalizedKeepsMeaning`, `StrayMarkerIsTakenOver`); removing by a node id
that leads to no step may remove another step, exactly when its last index is negative or no
number and there is a list to count in (`RemovesNothing`, `RemovingNoStepRemovesTheFirst`);
combining filter expressions means its operator for all documents exactly when `CanCombine`
holds, and a built filter exactly when `CanBuild` does: two expressions that join their sides
with "or" lose documents (`CombineMeansExactly`, `BuildMeansExactly`, `BuildLosesDocuments`); a
stored record can be without its entry, and a reply be lost by it, only once the task is no
longer live (`LiveRecordHasEntry`, `LiveReplyIsTaken`, `SomeReplyIsLost`); a normalised tool
schema accepts exactly what the original does when every node declares its type, and can accept
less otherwise (`ToolIsExact`, `ImpliedTypeNarrows`).

## Model

| member | source | states |
|---|---|---|
| Relay.RelayKeepsEvents | hyperforge/src/hyperforge/a2a/executor.py:330-368 | Whatever the response stream, forwarding what the owner publishes shows the client exactly the artifacts, steps and closing event the direct stream shows, and then stops |
| Relay.ForwardConcat | hyperforge/src/hyperforge/a2a/executor.py:331-368 | Forwarding a log in pieces is forwarding it whole, up to the message that returns |
| Relay.ConversationKeepsEvents | hyperforge/src/hyperforge/a2a/executor.py:396-466 | A conversation over any number of pauses shows the same events, request by request, when every answer is taken by a replica that relays |
| Relay.StreamShows | hyperforge/src/hyperforge/a2a/executor.py:137-164 | What a client sees of each answer: an error with its detail, a question, the completion, a step with its own data and no text, the first text that is not empty, or nothing; and a failure when the stream just ends |
| RelayRun.StartIsStrictlyAfter | hyperforge/src/hyperforge/broker/local.py:66-72 | Subscribing from the beginning or from a cursor of the topic reads exactly the entries after it |
| RelayRun.StepInv | hyperforge/src/hyperforge/a2a/executor.py:382-394 | Every step of publisher, broker and forwarder, timeouts and breaks included, keeps: published and unpublished messages make up the whole relay, the subscription stands just after its cursor, the client saw what was delivered |
| RelayRun.ForwarderSeesTheStream | hyperforge/src/hyperforge/a2a/executor.py:330-394 | In every run, with any number of timeouts, the client has seen a prefix of the direct events, all of them once the forwarder returns, and a broken relay adds only the interruption |
| RelayRun.ListenerIsNotStuck | hyperforge/src/hyperforge/a2a/executor.py:568-627 | A listening forwarder can always get closer to its closing event without a failure |
| RelayRun.WorkShrinks | hyperforge/src/hyperforge/a2a/executor.py:382-394 | Every step but a failure leaves strictly less work, so a relay without failures ends |
| RelayLoops.StreamUntilPause | hyperforge/src/hyperforge/a2a/executor.py:403-466 | The direct loop appends exactly the stream's events and stops reading where the stream pauses |
| RelayLoops.RelayUntilPause | hyperforge/src/hyperforge/a2a/executor.py:571-627 | The relay loop appends exactly the relay's messages to its topic and stops reading where the stream pauses |
| RelayLoops.ForwardBatch | hyperforge/src/hyperforge/a2a/executor.py:331-368 | The forwarder's loop shows exactly what the messages say, and remembers the last cursor when it goes on |
| RelayLoops.LocalBroker.Publish | hyperforge/src/hyperforge/broker/local.py:53-58 | Publishing appends one entry with a fresh, greater cursor to one topic and leaves the others alone |
| RelayLoops.LocalBroker.ReadFrom | hyperforge/src/hyperforge/broker/local.py:60-91 | The search for the cursor finds where reading starts |
| TaskTables.HyperforgeA2AExecutor.Register | hyperforge/src/hyperforge/a2a/executor.py:246-247 | The segment after saving the owner: the new state of the task's five entries, nothing else changed |
| TaskTables.HyperforgeA2AExecutor.StartFeedbackWaiter | hyperforge/src/hyperforge/a2a/executor.py:468-477 | The new waiter takes the entry; the one it replaces is cancelled unless it is running this |
| TaskTables.HyperforgeA2AExecutor.CancelCancelWaiter | hyperforge/src/hyperforge/a2a/executor.py:485-488 | The entry goes and its coroutine is cancelled unless it is running this |
| TaskTables.HyperforgeA2AExecutor.BeginCancel | hyperforge/src/hyperforge/a2a/executor.py:495-508 | A local cancel's first segment: all entries of the task go at once, who is cancelled, whether a receiver is told, whether the mark is dropped later |
| TaskTables.HyperforgeA2AExecutor.DropPending | hyperforge/src/hyperforge/a2a/executor.py:531-534 | The pending entry goes, and a receiver is told exactly if there was one |
| TaskTables.HyperforgeA2AExecutor.WaiterLeaves | hyperforge/src/hyperforge/a2a/executor.py:564-566 | A waiter takes out its own entry only |
| TaskTables.HyperforgeA2AExecutor.CancellerLeaves | hyperforge/src/hyperforge/a2a/executor.py:527-529 | The lease refresher takes out its own entry only |
| TaskInvariant.ExecRunsInv | hyperforge/src/hyperforge/a2a/executor.py:245-261 | Every step of `execute` keeps the invariant: one place for the right to answer, one coroutine that drives, lease and tables as long as the task is live, clean-up before closing |
| TaskInvariant.ExecReceivesInv | hyperforge/src/hyperforge/a2a/executor.py:403-466 | So does every message, pause, end and cancellation mark the direct loop meets |
| TaskInvariant.ExecRaisesInv | hyperforge/src/hyperforge/a2a/executor.py:250-261 | So does the handler of `execute`, whichever operation failed, before or after its effect |
| TaskInvariant.WaiterRunsInv | hyperforge/src/hyperforge/a2a/executor.py:537-566 | So does every step of the feedback waiter, and of the successor it starts |
| TaskInvariant.WaiterReceivesInv | hyperforge/src/hyperforge/a2a/executor.py:571-627 | So does every message the relay loop meets |
| TaskInvariant.WaiterRaisesInv | hyperforge/src/hyperforge/a2a/executor.py:558-566 | So does the waiter's handler |
| TaskInvariant.BeginCancelInv | hyperforge/src/hyperforge/a2a/executor.py:495-508 | So does the start of a local cancel, at any moment |
| TaskInvariant.CancellerRunsInv | hyperforge/src/hyperforge/a2a/executor.py:510-529 | So does every step of the lease refresher |
| TaskInvariant.CancelRunsInv | hyperforge/src/hyperforge/a2a/executor.py:629-640 | So does every step of a cancel call, on the owner's replica or another |
| TaskInvariant.ForwarderRunsInv | hyperforge/src/hyperforge/a2a/executor.py:282-315 | So does every step of a feedback request: the look, the atomic claim, the send |
| TaskInvariant.ForwarderRaisesInv | hyperforge/src/hyperforge/a2a/executor.py:316-328 | So does a send that fails before or after it delivered |
| TaskSafety.RunInv | hyperforge/src/hyperforge/a2a/executor.py:167-640 | The invariant holds after every sequence of steps of all coroutines on all replicas |
| TaskSafety.EveryReplyAnswersItsQuestion | hyperforge/src/hyperforge/a2a/executor.py:537-557 | Reply number i in the owner's queue carries question i's request id and was claimed with question i's feedback id, so no pause is answered twice or out of order |
| TaskSafety.EachFeedbackIdIsDeliveredOnce | hyperforge/src/hyperforge/a2a/executor.py:288-314 | With distinct feedback ids, each reaches the owner's queue at most once, over every interleaving |
| TaskSafety.OneReplyAtATime | hyperforge/src/hyperforge/a2a/task_store.py:92-113 | A stored record, a claim and a mailed reply exclude each other, and each answers the last question |
| TaskSafety.RecordAgreesWithEntry | hyperforge/src/hyperforge/a2a/executor.py:412-428 | The stored pending record and the owner's entry agree on context, feedback id and request id whenever both exist |
| TaskSafety.LiveTaskIsKept | hyperforge/src/hyperforge/a2a/executor.py:514-529 | From registration to the end, failure, expiry or cancellation an owned task is in the active or the pending table at every moment, and its lease is refreshed unless refreshing raised |
| TaskSafety.OneCoroutineDrives | hyperforge/src/hyperforge/a2a/executor.py:468-477 | No two coroutines read the response stream or wait for its reply |
| TaskSafety.ClosingComesLast | hyperforge/src/hyperforge/a2a/executor.py:490-493 | At every closing event, emitted or published, the lease refresher is stopped and the owner record removed, and neither comes back |
| TaskSafety.LiveRecordHasEntry | hyperforge/src/hyperforge/a2a/executor.py:412-428 | While a task is live, a stored record is that of the owner's entry; a record without an entry means that an end, failure, expiry or cancellation was handled |
| TaskSafety.LiveReplyIsTaken | hyperforge/src/hyperforge/a2a/executor.py:548-557 | While a task is live, a reply handed to its waiter goes to the receiver's queue, as the answer to the pending question |
| TaskHistory.EveryReplyIsAClients | hyperforge/src/hyperforge/a2a/executor.py:282-315 | Over every run, the answer to question i in the owner's queue is what a client sent, word for word: a feedback came with the task's context, question i's feedback id and that text, and went on with the relay topic the reply names |
| TaskHistory.EveryQuestionIsTheStreams | hyperforge/src/hyperforge/a2a/executor.py:412-428 | Every question was asked by the response stream, with its feedback id and request id |
| TaskClosing.ClosingLeavesNothing | hyperforge/src/hyperforge/a2a/executor.py:436-466 | At every closing event the task's entry and its stored record are gone as well, and neither comes back |
| TaskSteps.ExecuteShowsTheStream | hyperforge/src/hyperforge/a2a/executor.py:403-466 | What the protocol does with an answer is what the direct stream shows: the same closing event, the same question, or it reads on |
| TaskSteps.WaiterRelaysTheStream | hyperforge/src/hyperforge/a2a/executor.py:571-627 | What a waiter does with an answer is what the relay puts on the topic |
| TaskSteps.WorkCleans | hyperforge/src/hyperforge/a2a/executor.py:490-493 | Every clean-up stops the lease, removes the owner record and drops the mark; those of a finished, an ended and an expired task leave neither entry nor record |
| TaskSteps.ExpiryClears | hyperforge/src/hyperforge/a2a/executor.py:541-547 | A waiter whose task expires gets through such a clean-up by its own steps |
| TaskSteps.LocalCancelClears | hyperforge/src/hyperforge/a2a/executor.py:495-508 | A cancel on the owner's replica gets through: entries, record and owner record are gone, the lease is stopped, and the mark stays only where `execute` still runs |
| TaskSteps.RemoteCancelIsSent | hyperforge/src/hyperforge/a2a/executor.py:629-640 | A cancel on another replica sends the owner a message and does nothing else |
| TaskSteps.OwnerHearsCancel | hyperforge/src/hyperforge/a2a/executor.py:514-521 | The owner that hears it takes the task's entries away, marks it and stops its waiter |
| TaskSteps.LeaseIsRenewed | hyperforge/src/hyperforge/a2a/executor.py:509-522 | A refresher of a task in use that hears no cancel saves the owner record again by its own steps |
| TaskSteps.FailedSendLeavesNoRecord | hyperforge/src/hyperforge/a2a/executor.py:316-328 | A reply that could not be sent leaves no record to claim |
| TaskSteps.FailureIsShown | hyperforge/src/hyperforge/a2a/executor.py:250-261 | A failure of `execute` clears the task away and is shown unless the task was cancelled |
| TaskSteps.WaiterFailureIsSilent | hyperforge/src/hyperforge/a2a/executor.py:558-566 | A failure of a waiter clears the task away and publishes nothing |
| TaskFlow.AnswerIsForwarded | hyperforge/src/hyperforge/a2a/executor.py:282-315 | An answer with the stored question's context and feedback id claims the record and is sent to the owner with that question's request id and a relay topic |
| TaskFlow.OtherAnswerIsRefused | hyperforge/src/hyperforge/a2a/executor.py:282-302 | An answer to no question or another one is refused, at the look or at the claim, and nothing else changes |
| TaskFlow.ReplyIsTaken | hyperforge/src/hyperforge/a2a/executor.py:548-557 | A waiter that reads a reply puts it in the receiver's queue and reads the stream, if the task has an entry |
| TaskFlow.LateReplyIsLost | hyperforge/src/hyperforge/a2a/executor.py:548-550 | Without an entry the reply is lost and the waiter ends |
| TaskFlow.QuestionIsKept | hyperforge/src/hyperforge/a2a/executor.py:412-430 | A question is the task's entry and the stored record, and a waiter listens, before the client is asked |
| TaskFlow.NextQuestionIsKept | hyperforge/src/hyperforge/a2a/executor.py:581-601 | So is a later one, with the owner record renewed, before it is published |
| TaskFlow.ExecuteCloses | hyperforge/src/hyperforge/a2a/executor.py:403-466 | Once its stream ends, fails or finishes, or the task is marked cancelled, `execute` gets through: lease, owner record and mark are gone, and it closes unless the task was cancelled |
| TaskFlow.CancelledWaiterStops | hyperforge/src/hyperforge/a2a/executor.py:572-574 | A waiter of a task marked cancelled publishes nothing more and gets through with the same gone |
| TaskExample.SomeRecordOutlivesItsEntry | hyperforge/src/hyperforge/a2a/executor.py:419-428 | The window: in some run a local cancel begins and ends while the save is under way, and the record is stored without an entry |
| TaskExample.SomeReplyIsLost | hyperforge/src/hyperforge/a2a/executor.py:548-550 | In some run a client claims that record, and its reply is sent and handed out but reaches no queue |
| TaskExample.SomeRunAnswersAndCloses | hyperforge/src/hyperforge/a2a/executor.py:180-627 | Some run pauses, delivers the claimed answer to its question and publishes its closing, so the statements above are not about nothing |
| JsonPointer.EscapeRoundTrip | agents/mcp/src/hyperforge_mcp/schema.py:62-68 | Decoding undoes escaping, and an escaped part never looks like an invalid escape |
| JsonPointer.DecodeRoundTrip | agents/mcp/src/hyperforge_mcp/schema.py:297-301 | Escaping undoes decoding of every valid part (RFC 6901, sections 3 and 4) |
| JsonPointer.JsonPathRoundTrip | agents/mcp/src/hyperforge_mcp/schema.py:62-68 | Splitting and decoding the JSON path of any non-empty path returns the path |
| JsonPointer.JsonPathInjective | agents/mcp/src/hyperforge_mcp/schema.py:62-68 | Different non-empty paths have different JSON paths |
| JsonPointer.EmptyPathIsAmbiguous | agents/mcp/src/hyperforge_mcp/schema.py:62-68 | The empty path shares its JSON path with another one, so the round trip needs a non-empty path |
| JsonPointer.ResolveReference | agents/mcp/src/hyperforge_mcp/schema.py:296-323 | The loop over the parts ends where following the pointer leads, with the same error where it leads nowhere |
| JsonPointer.ResolveJsonPath | agents/mcp/src/hyperforge_mcp/schema.py:290-323 | Resolving the JSON path of a place in a document finds that place |
| JsonPointer.IndexFindsElement | agents/mcp/src/hyperforge_mcp/schema.py:302-317 | Of a list, a pointer part finds an element exactly if it is the element's index without sign or leading zero (RFC 6901, section 4) |
| JsonPointer.ValidPartsLead | agents/mcp/src/hyperforge_mcp/schema.py:296-323 | A pointer without invalid escapes leads where its decoded path does, or nowhere |
| JsonPointer.InvalidPartFails | agents/mcp/src/hyperforge_mcp/schema.py:297-300 | The first invalid escape is an error, unless the parts before it lead nowhere |
| SchemaNormalizer.Normalize | agents/mcp/src/hyperforge_mcp/schema.py:90-187 | Ends on every schema, cyclic references included, by the references not yet being resolved and then the size; what it returns holds no reference |
| SchemaNormalizer.FollowingLowersLevel | agents/mcp/src/hyperforge_mcp/schema.py:110-128 | Following a reference of the document leaves strictly fewer references to resolve, or none at all |
| SchemaNormalizer.InlinedIsFree | agents/mcp/src/hyperforge_mcp/schema.py:129-146 | An inlined result with the outer annotations holds no reference, so the child passes run on reference-free input |
| SchemaShape.NormalizedIsNormal | agents/mcp/src/hyperforge_mcp/schema.py:147-187 | Every node of the output keeps only supported keywords, has no reference or definitions, passes the keyword checks and has a supported type or alternatives |
| SchemaShape.NormalIsFixed | agents/mcp/src/hyperforge_mcp/schema.py:147-187 | Normalising such a schema again changes nothing |
| SchemaShape.ToolIsNormal | agents/mcp/src/hyperforge_mcp/schema.py:71-87 | Every accepted tool schema is of that shape with a root of type object |
| SchemaShape.ToolIsFixed | agents/mcp/src/hyperforge_mcp/schema.py:71-87 | Normalising an accepted tool schema twice is normalising it once |
| SchemaMeaning.NormalizedMeaning | agents/mcp/src/hyperforge_mcp/schema.py:90-187 | The output accepts exactly the instances the input accepts with references resolved, and objects, arrays or strings only where a node describes properties, items or names without declaring a type |
| SchemaMeaning.ReferenceMeaning | agents/mcp/src/hyperforge_mcp/schema.py:110-146 | A reference beside annotations alone means what it points to |
| SchemaMeaning.StrictMeaning | agents/mcp/src/hyperforge_mcp/schema.py:326-333 | Enforcing implied types only rejects more, and nothing more where every node declares a type |
| SchemaMeaning.ToolMeaning | agents/mcp/src/hyperforge_mcp/schema.py:71-87 | The same for whole tool schemas, with as many references followed as a document can need |
| SchemaMeaning.ToolIsSound | agents/mcp/src/hyperforge_mcp/schema.py:71-87 | Every instance the normalised tool schema accepts is accepted by the original |
| SchemaMeaning.ToolIsExact | agents/mcp/src/hyperforge_mcp/schema.py:71-87 | The two accept the same instances when every node declares its type |
| SchemaMeaning.ImpliedTypeNarrows | agents/mcp/src/hyperforge_mcp/schema.py:326-333 | Without a declared type the normalised schema can reject an instance the original accepts: a tool that only describes properties normalises, and its normal form rejects a string the original accepts |
| SchemaChecks.KeywordsFitIffChecked | agents/mcp/src/hyperforge_mcp/schema.py:209-256 | The keyword checks pass exactly the values each keyword may hold |
| SchemaChecks.TypeFitsIffOk | agents/mcp/src/hyperforge_mcp/schema.py:190-206 | The type check passes exactly one type, or one and "null" in either order |
| SchemaChecks.NormalizesIffFits | agents/mcp/src/hyperforge_mcp/schema.py:90-187 | A schema is normalised if and only if every node passes the checks as it is written and its references end: the second pass over inlined results refuses nothing, and only references that never end are called cyclic |
| SchemaChecks.ToolNormalizesIffFits | agents/mcp/src/hyperforge_mcp/schema.py:71-87 | A tool schema is accepted if and only if it is empty, or that holds and its root is an object's, by its own type, an implied one or that of the schema it refers to |
| SchemaChecks.KeywordsAreWritten | agents/mcp/src/hyperforge_mcp/schema.py:129-187 | Under every keyword that leads to no schema the output says what the node says, or where its references end; annotations beside a reference win; a missing type is "object" with properties, else "array" with items, else "string" |
| SchemaExact.PlacesAreWritten | agents/mcp/src/hyperforge_mcp/schema.py:147-170 | Every schema below a node is replaced by its own normal form where it stood, under the same names and in the same order |
| SchemaExact.PointerMeans | agents/mcp/src/hyperforge_mcp/schema.py:110-126 | Which references denote which pointer, and which are invalid |
| SchemaExact.OnlyEnumMeans | agents/mcp/src/hyperforge_mcp/schema.py:326-333 | A schema that only lists strings normalises to one that accepts exactly them |
| SchemaExact.OnlyItemsMeans | agents/mcp/src/hyperforge_mcp/schema.py:326-333 | A schema that only describes items normalises to one that accepts arrays only, the empty one among them |
| SchemaFaults.FaultIsThere | agents/mcp/src/hyperforge_mcp/schema.py:90-187 | A refusal names a place that has the fault: its path leads there through the schema and the references it follows, and the reason fits |
| SchemaFaults.ToolFaultIsThere | agents/mcp/src/hyperforge_mcp/schema.py:71-87 | So does the refusal of a tool schema, or its root is no object's |
| SchemaCompiler.ValidateKeywordValues | agents/mcp/src/hyperforge_mcp/schema.py:209-256 | The checks in the code's order report the first failing keyword |
| SchemaCompiler.ResolveTarget | agents/mcp/src/hyperforge_mcp/schema.py:290-323 | Reference errors are reported with the code's reasons |
| SchemaCompiler.NormalizeSchema | agents/mcp/src/hyperforge_mcp/schema.py:90-187 | Popping, updating and assigning on a copied dict computes the normal form or the fault |
| SchemaCompiler.NormalizeSchemaMap | agents/mcp/src/hyperforge_mcp/schema.py:272-287 | The pass over a map of schemas, in order, with the first fault |
| SchemaCompiler.NormalizeSchemaList | agents/mcp/src/hyperforge_mcp/schema.py:160-170 | The pass over alternatives; null is left alone, an empty list is refused |
| SchemaCompiler.NormalizeToolSchema | agents/mcp/src/hyperforge_mcp/schema.py:71-87 | The entry point computes the normalised tool schema or its fault |
| SchemaClosing.EveryObjectIsClosed | hyperforge/src/hyperforge/json_schema.py:12-54 | Along every path through definitions, properties, items and combinators, an object schema of the result is closed and no empty or missing setting is left beside properties |
| SchemaClosing.OthersStayOpen | hyperforge/src/hyperforge/json_schema.py:12-54 | Exactly empty settings, those of objects and those missing beside properties become false; every other setting stays, and so does all under keywords that bear no schema |
| SchemaClosing.ReachClosed | hyperforge/src/hyperforge/json_schema.py:36-54 | Closing the whole closes what each path reaches, and every path still leads there |
| SchemaClosing.CloseTwice | hyperforge/src/hyperforge/json_schema.py:12-54 | Closing is idempotent |
| SchemaClosing.CloseNodeCommutes | hyperforge/src/hyperforge/json_schema.py:20-54 | Setting a node's own key and going inside commute |
| SchemaClosing.OpenUndoesClose | hyperforge/src/hyperforge/json_schema.py:57-67 | Removing after closing gives the tree that removing alone gives |
| SchemaClosing.OpenTakesOneKey | hyperforge/src/hyperforge/json_schema.py:57-67 | Removing takes the key away everywhere and nothing else: every other path leads where it led |
| SchemaClosing.SetAdditionalPropertiesFalse | hyperforge/src/hyperforge/json_schema.py:12-54 | The recursion over the dicts computes the closed schema |
| SchemaClosing.RemoveAdditionalProperties | hyperforge/src/hyperforge/json_schema.py:57-67 | The recursion over the dicts and lists computes the opened schema |
| Footnotes.ReferenceIsRead | agents/summarize/src/hyperforge_summarize/agent.py:131 | A printed reference is read back by the definition pattern, up to its line feed |
| Footnotes.DefinitionBefore | agents/summarize/src/hyperforge_summarize/agent.py:131 | No definition begins in a text because a reference list follows it |
| Footnotes.SplitBodyIsPlain | agents/summarize/src/hyperforge_summarize/agent.py:382-390 | The body of a split answer has no definition line itself |
| Footnotes.SplitUndoesRender | agents/summarize/src/hyperforge_summarize/agent.py:382-398 | Splitting a rendered answer gives the stripped body and the ids numbered from 1, if and only if the body has no definition line |
| FootnoteForms.DefinitionIsForm | agents/summarize/src/hyperforge_summarize/agent.py:131 | Which texts are definitions: a number in brackets and a colon, white space, an id, and white space up to where a line ends |
| FootnoteForms.FootnotesAreDefinitions | agents/summarize/src/hyperforge_summarize/agent.py:382-390 | The footnotes of a text are the definitions at the starts of its lines, all of them, in order |
| FootnoteForms.SplitMeans | agents/summarize/src/hyperforge_summarize/agent.py:382-390 | An answer without definitions stays as it is; otherwise the body is the text before the first, stripped at its end |
| FootnoteText.PiecesOfReplaced | agents/summarize/src/hyperforge_summarize/agent.py:451-457 | Substitution replaces exactly the markers: read again, the text has the new markers and the same letters, and no marker arises by accident |
| FootnoteText.ReplacedIsPlain | agents/summarize/src/hyperforge_summarize/agent.py:457-458 | Substitution makes no definition line |
| FootnoteText.RenumberedMeaning | agents/summarize/src/hyperforge_summarize/agent.py:447-457 | Renumbered markers read in the new list mean what the old ones meant, if and only if no marker without a footnote is a number of the list |
| Citations.ChunkIdIsParsed | agents/summarize/src/hyperforge_summarize/agent.py:461-478 | The id made for a chunk is parsed back into its context and index |
| CitationDetails.ShortIdIsWhole | agents/summarize/src/hyperforge_summarize/agent.py:461-478 | An id with at most one dash names a whole context |
| CitationDetails.LongIdIsSplit | agents/summarize/src/hyperforge_summarize/agent.py:461-478 | A longer one names a context up to its last dash and a chunk after it, if that is a number, and otherwise nothing |
| CitationDetails.LastContextCounts | agents/summarize/src/hyperforge_summarize/agent.py:408-412 | Of contexts with the same citation id the last counts |
| CitationDetails.ExpansionMeans | agents/summarize/src/hyperforge_summarize/agent.py:413-437 | A footnote is expanded exactly if it names a whole context of which a chunk is selected: into those chunks by ascending index |
| CitationDetails.LastDefinitionCounts | agents/summarize/src/hyperforge_summarize/agent.py:413-437 | Of several definitions of one marker the last counts |
| CitationDetails.NothingToExpand | agents/summarize/src/hyperforge_summarize/agent.py:439-440 | If no footnote is expanded the answer stays as it is |
| Citations.SplitNormalized | agents/summarize/src/hyperforge_summarize/agent.py:401-458 | The normalised answer splits into the replaced body and the new numbered list |
| Citations.NormalizedKeepsMeaning | agents/summarize/src/hyperforge_summarize/agent.py:401-458 | Each footnoted marker becomes markers that name exactly its targets in the new list; the whole answer reads the same exactly when no marker without a footnote is a number up to that of the collected ids |
| CitationExample.StrayMarkerIsTakenOver | agents/summarize/src/hyperforge_summarize/agent.py:451-458 | An answer that cites one context of two chunks and shows a bare marker: the text it becomes, in which the bare marker cites the second chunk |
| Citations.NewListIsComplete | agents/summarize/src/hyperforge_summarize/agent.py:439-449 | The new list is numbered 1 to n without a duplicate, and its ids are exactly the targets |
| CitationDetails.NewListIsInOrder | agents/summarize/src/hyperforge_summarize/agent.py:442-449 | The new list numbers the ids in the order in which the expanded footnotes first mention them |
| Citations.NormalizedIsFixed | agents/summarize/src/hyperforge_summarize/agent.py:401-458 | Normalising twice with the same contexts is normalising once, for every answer |
| Citations.ExpandedCitationsHaveMetadata | agents/summarize/src/hyperforge_summarize/agent.py:323-379 | After normalising, a reference to a context leads to the metadata of each of its selected chunks, by index |
| Citations.ExpandedCitationsAreExact | agents/summarize/src/hyperforge_summarize/agent.py:323-379 | Of a context that was cited as a whole exactly its selected chunks have metadata, and the chunks that had a footnote of their own |
| CitationDetails.WholeCitationMetadata | agents/summarize/src/hyperforge_summarize/agent.py:354-379 | A citation of a whole context gets that context's id, no chunk, and the urls of its selected chunks, each once, in the chunks' order |
| CitationDetails.ChunkCitationMetadata | agents/summarize/src/hyperforge_summarize/agent.py:344-353 | A citation of a chunk gets its context's id, its index, and its url if there is such a chunk with one |
| CitationDetails.OnlyKnownCitations | agents/summarize/src/hyperforge_summarize/agent.py:331-343 | Metadata are listed exactly for the footnotes whose id can be read and whose context is known |
| CitationLoops.NormalizeChunkLevelCitations | agents/summarize/src/hyperforge_summarize/agent.py:401-458 | The loops over dictionaries and lists compute the normalised answer |
| CitationLoops.CollectTargets | agents/summarize/src/hyperforge_summarize/agent.py:407-434 | The footnote loop's targets, the last definition of a marker winning, and whether anything changed |
| CitationLoops.BuildAnswerCitations | agents/summarize/src/hyperforge_summarize/agent.py:323-379 | The loop collects the metadata of exactly the known citations |
| WorkflowTree.PathRoundTrip | hyperforge/frontend/src/stores/workflow.ts:38-49 | Parsing a node id returns the path it was printed from |
| WorkflowTree.PrintInjective | hyperforge/frontend/src/stores/workflow.ts:38-49 | Different paths have different node ids |
| WorkflowLaws.ChangeShows | hyperforge/frontend/src/stores/workflow.ts:86-129 | Update then get gives the merged step, attach then get the step with its child; a change fails exactly when changing the step itself fails |
| WorkflowLaws.UpdateKeepsOtherKeys | hyperforge/frontend/src/stores/workflow.ts:244-256 | Below an updated step only the updated keys look different |
| WorkflowLaws.ChangeIsLocal | hyperforge/frontend/src/stores/workflow.ts:86-129 | No change reaches a path that parts from its own |
| WorkflowLaws.RemoveShifts | hyperforge/frontend/src/stores/workflow.ts:303-315 | After removing child i, paths through later siblings lead where they led one index higher, earlier ones where they led |
| WorkflowLaws.RemoveStepShifts | hyperforge/frontend/src/stores/workflow.ts:303-315 | The same for the steps of a stage |
| WorkflowLaws.RemoveUnlinks | hyperforge/frontend/src/stores/workflow.ts:303-315 | A removed single child is gone |
| WorkflowLaws.RemovesNothing | hyperforge/frontend/src/stores/workflow.ts:303-315 | Removing by a path that leads nowhere changes nothing, if and only if its last index is a non-negative number or there is no list to count in |
| WorkflowLaws.RemovingNoStepRemovesTheFirst | hyperforge/frontend/src/stores/workflow.ts:306-309 | An id whose index is no number takes the first step of a stage away |
| WorkflowLaws.NewIdExtends | hyperforge/frontend/src/stores/workflow.ts:286-291 | A new child's id reads as its parent's path and one segment more |
| WorkflowLaws.ResolvedIdHasPairs | hyperforge/frontend/src/stores/workflow.ts:38-72 | An id that leads to a step is made of key and index pairs |
| WorkflowLaws.AddedChildIsFound | hyperforge/frontend/src/stores/workflow.ts:273-295 | Adding a child to a step that is there fails only on a link that holds no array; otherwise the returned id leads to the new child |
| WorkflowFrames.AttachedStep | hyperforge/frontend/src/stores/workflow.ts:283-292 | Adding a child keeps every other field of the step, whatever it holds, and all elements of a list; it fails exactly on a list link that holds something else |
| WorkflowFrames.AddingKeepsParent | hyperforge/frontend/src/stores/workflow.ts:273-295 | The same for the step a path leads to |
| WorkflowFrames.UnlinkingKeepsParent | hyperforge/frontend/src/stores/workflow.ts:303-315 | Removing a single child takes just its link from the parent |
| WorkflowFrames.RemovingKeepsParent | hyperforge/frontend/src/stores/workflow.ts:303-315 | Removing child i takes just that element out of its list |
| WorkflowFrames.RemovingKeepsStages | hyperforge/frontend/src/stores/workflow.ts:303-315 | The same for a step of a stage |
| WorkflowFrames.WayKeepsFields | hyperforge/frontend/src/stores/workflow.ts:86-129 | Whatever is changed, every step on the way, and the workflow, keeps all its fields but the one that leads there |
| WorkflowFrames.UpdateMakesAtMostOne | hyperforge/frontend/src/stores/workflow.ts:244-256 | An update by a path that leads to no step changes nothing, or appends one step with just the updates where the path counts one past the end |
| WorkflowFrames.IndexIsRead | hyperforge/frontend/src/stores/workflow.ts:42-46 | An index is the number a text starts with, after white space and a sign; without digits it is none |
| WorkflowCanvas.EveryStepIsCollectedOnce | hyperforge/frontend/src/stores/workflow.ts:408-479 | Every step the connectable keys lead to is collected exactly once under its own path, and nothing else is |
| WorkflowCanvas.IdsAreDistinct | hyperforge/frontend/src/stores/workflow.ts:408-479 | The collected ids are pairwise distinct |
| WorkflowCanvas.IdsLeadBack | hyperforge/frontend/src/stores/workflow.ts:408-479 | Each collected id leads to the step it was collected with |
| WorkflowCanvas.ParentsComeFirst | hyperforge/frontend/src/stores/workflow.ts:431-479 | Every node with a parent comes after a node with that id |
| WorkflowPlaces.NodesArePlaced | hyperforge/frontend/src/stores/workflow.ts:408-479 | What a node says of itself is what its id says: stage, place, link and parent; below a smart agent's links the stage is "context" |
| WorkflowPlaces.NodesAreInOrder | hyperforge/frontend/src/stores/workflow.ts:408-479 | The nodes stand stage by stage, each step before what is below it, and there link by link and place by place |
| WorkflowStore.ParsePath | hyperforge/frontend/src/stores/workflow.ts:38-49 | The loop over pairs of parts computes the path |
| WorkflowStore.GetStepByPath | hyperforge/frontend/src/stores/workflow.ts:52-72 | The walk with its current step finds what the path leads to |
| WorkflowStore.MutateStepByPath | hyperforge/frontend/src/stores/workflow.ts:86-129 | The walk with its current step, and the change at its end, compute the changed tree |
| WorkflowStore.CollectNodes | hyperforge/frontend/src/stores/workflow.ts:408-429 | The collectors push exactly the collection, in order |
| WorkflowStore.Store.GetNodeConfig | hyperforge/frontend/src/stores/workflow.ts:237-241 | What the lookup through the printed id finds, nothing when no workflow is loaded |
| WorkflowStore.Store.UpdateNodeConfig | hyperforge/frontend/src/stores/workflow.ts:244-256 | The whole new state of the store after an update |
| WorkflowStore.Store.AddChild | hyperforge/frontend/src/stores/workflow.ts:273-295 | The whole new state; the returned id extends the parent's by the link and the child's place and leads to the new child, and the parent keeps its other fields; nothing changes when the parent is not there |
| WorkflowStore.Store.RemoveStep | hyperforge/frontend/src/stores/workflow.ts:303-315 | The whole new state, with the selection cleared only for the removed id; nothing without an active agent, a throw without a workflow |
| ToolArguments.NormalizeMeans | agents/smart/src/hyperforge_smart/agent.py:168-177 | Normalising orders every object's keys and keeps the value |
| ToolArguments.OrderedIsCanonical | agents/smart/src/hyperforge_smart/agent.py:168-177 | Ordered values that are equal up to key order are equal |
| ToolKeys.StringUnambiguous | agents/smart/src/hyperforge_smart/agent.py:182-187 | A string printed with ASCII escapes ends at its first bare quote and determines the string |
| ToolKeys.DumpUnambiguous | agents/smart/src/hyperforge_smart/agent.py:182-187 | No two different values print the same, whatever follows them |
| ToolKeys.SameKeyIffSameCall | agents/smart/src/hyperforge_smart/agent.py:179-187 | Two calls share a key if and only if they have the same tool and arguments equal up to key order at every depth |
| SmartRun.AsksIffUnresolved | agents/smart/src/hyperforge_smart/agent.py:924-936 | A turn asks the user exactly when the check before it found unresolved feedback |
| SmartRun.TurnAsksOrExecutes | agents/smart/src/hyperforge_smart/agent.py:725-814 | A turn that asks, asks once about an open decision and executes nothing; any other turn asks nothing |
| SmartOutcomes.AnswerIsKept | agents/smart/src/hyperforge_smart/agent.py:725-795 | The question of the first call about an open decision is asked, and the answer, or that there was none, is kept under that decision |
| SmartOutcomes.FeedbackDecides | agents/smart/src/hyperforge_smart/agent.py:924-936 | A call is about a decision exactly if it asks for feedback with a question |
| SmartOutcomes.SameDecisionIff | agents/smart/src/hyperforge_smart/agent.py:737-745 | Requests with decision ids are about the same decision if the ids are equal, those without if the questions are, up to case and surrounding white space |
| SmartOutcomes.TurnDoesItsCalls | agents/smart/src/hyperforge_smart/agent.py:817-901 | A turn that asks nothing executes every tool call that is not settled, in order and as often as it is made, and skips the settled ones |
| SmartOutcomes.ClassifyMeans | agents/smart/src/hyperforge_smart/agent.py:189-227 | Errors are failures; nothing, blank texts, empty collections and contexts without content are empty; all else is useful |
| SmartOutcomes.TurnRecordsOutputs | agents/smart/src/hyperforge_smart/agent.py:881-893 | A call is recorded with its last output, and settled exactly if that is fruitless |
| SmartRun.TurnKeepsSettled | agents/smart/src/hyperforge_smart/agent.py:826-847 | A call recorded empty or failed is not executed in the turn and stays so |
| SmartRun.SettledIsNeverExecuted | agents/smart/src/hyperforge_smart/agent.py:817-901 | Nor in any later turn of the same registry |
| SmartOutcomes.FruitlessIsNeverRepeated | agents/smart/src/hyperforge_smart/agent.py:826-847 | So a call whose last output was an error or nothing useful is not executed in any later turn |
| SmartOutcomes.FruitfulIsRepeated | agents/smart/src/hyperforge_smart/agent.py:826-856 | And any other call is executed again when it is made again |
| SmartRun.NothingStaysPending | agents/smart/src/hyperforge_smart/agent.py:849-901 | After every turn of every run no attempt is pending |
| SmartRun.EveryDecisionIsAskedOnce | agents/smart/src/hyperforge_smart/agent.py:725-814 | Over a whole run the user is asked at most once about a decision |
| SmartOutcomes.AnswersAreKept | agents/smart/src/hyperforge_smart/agent.py:725-814 | Answers stay as they were given over all turns and executor calls |
| SmartRun.LoopIsARun | agents/smart/src/hyperforge_smart/agent.py:972-1030 | A loop with any oracles is such a run |
| SmartRun.FinishesWithoutAsking | agents/smart/src/hyperforge_smart/agent.py:1014-1030 | A loop ends in its first iteration without tool calls, or with a completion signal while no feedback is unresolved in the state before the turn, and that turn asks nothing; otherwise it takes all its turns |
| SmartRun.LoopNeverRepeatsSettled | agents/smart/src/hyperforge_smart/agent.py:1124-1165 | In a reactive loop and in an executor call a settled call is never executed in a later turn |
| SmartRun.ReactiveLoopAsksOnce | agents/smart/src/hyperforge_smart/agent.py:938-1048 | A whole reactive loop asks about each decision once and leaves nothing pending |
| SmartRun.PlanAndExecuteAsksOnce | agents/smart/src/hyperforge_smart/agent.py:1174-1325 | So does a whole plan-and-execute run, over all its executor calls |
| SmartOutcomes.ExecutorStartsFresh | agents/smart/src/hyperforge_smart/agent.py:1100-1165 | An executor call does not know of attempts made before it |
| SmartAgent.HasUnresolved | agents/smart/src/hyperforge_smart/agent.py:924-936 | The check is true exactly when a call asks about an open decision |
| SmartAgent.Runner.ExecuteToolCallsTurn | agents/smart/src/hyperforge_smart/agent.py:706-922 | One turn on the registry and the feedback table computes the turn |
| SmartAgent.Runner.RunLoop | agents/smart/src/hyperforge_smart/agent.py:972-1030 | The loop computes the state, whether it finished, and its iterations |
| SmartAgent.Runner.PlanAndExecuteLoop | agents/smart/src/hyperforge_smart/agent.py:1174-1325 | Executor calls with fresh registries and shared feedback |
| Filters.CombineMeans | agents/nucliadb/src/hyperforge_nucliadb/ask_utils.py:181-216 | Combining means the operator over what the components mean, when it is their own, or only one kind of side is filtered, or one component filters at all for "and" and all or none do for "or" |
| FilterExact.CombineMeansExactly | agents/nucliadb/src/hyperforge_nucliadb/ask_utils.py:193-216 | For sides that have nothing to do with each other, combining means the operator for every document if and only if that condition holds |
| Filters.CombineFilterExpressions | agents/nucliadb/src/hyperforge_nucliadb/ask_utils.py:181-216 | The checking loop and the two assignments compute the combination |
| Filters.BuildMeans | agents/nucliadb/src/hyperforge_nucliadb/basic_ask_agent.py:943-1029 | For requests whose expressions combine, the built filter accepts a document if and only if the keyword group, the resource group, the driver's and the call's filters and both expressions do; absent or unparsed ones ask nothing |
| FilterExact.BuildMeansExactly | agents/nucliadb/src/hyperforge_nucliadb/basic_ask_agent.py:1004-1029 | Building means that for every document if and only if the expressions combine, when the caller's and the driver's sides have nothing to do with each other |
| FilterExact.BuildLosesDocuments | agents/nucliadb/src/hyperforge_nucliadb/basic_ask_agent.py:1004-1029 | A caller's and a driver's expression, each joined by "or" inside: the built filter rejects a document both want |
| FilterExact.BuildKeepsSides | agents/nucliadb/src/hyperforge_nucliadb/basic_ask_agent.py:1004-1029 | The field side of a built filter is the request's own filters with both expressions' field filters, its paragraph side their paragraph filters, and a side is there exactly if it has any |
| Filters.BuildFails | agents/nucliadb/src/hyperforge_nucliadb/basic_ask_agent.py:1004-1029 | Building fails exactly when two expressions with different operators meet |
| Filters.BuildCatalogMeans | agents/nucliadb/src/hyperforge_nucliadb/basic_ask_agent.py:1031-1078 | The same for catalog filters |
| Filters.ToFilterExpressions | agents/nucliadb/src/hyperforge_nucliadb/basic_ask_agent.py:1787-1812 | The loop keeps what the parser knows, in order |
| Filters.FilterBuilder.BuildFilterExpression | agents/nucliadb/src/hyperforge_nucliadb/basic_ask_agent.py:943-1029 | The builder computes it with the synonyms of its cache, fetched at most once per source |
| ChatHistory.RegroupKeepsItems | hyperforge/src/hyperforge/llm.py:330-378 | Expanding the regrouped messages gives back exactly the items: no text, call, output or order is lost |
| ChatHistory.RegroupGroups | hyperforge/src/hyperforge/llm.py:337-355 | A message with calls only never follows an assistant's, and only assistants carry calls |
| ChatHistory.HistoryIsKept | hyperforge/src/hyperforge/completions.py:358-397 | Both for every chat history |
| ChatHistory.ItemsConcat | hyperforge/src/hyperforge/completions.py:358-397 | The items of a history are those of its messages, in order |
| ChatHistory.ItemsOfOne | hyperforge/src/hyperforge/completions.py:362-396 | An assistant's items are its text unless empty, then its calls in order; a tool's its output; everyone else's a message of the user or the assistant |
| ChatHistory.PartsAreKept | hyperforge/src/hyperforge/llm.py:337-378 | The parts of a message stay in place: images become image urls, the rest is kept |
| ChatHistory.RichMessagesToItems | hyperforge/src/hyperforge/completions.py:358-397 | The loop computes the items of the messages |
| ChatHistory.BuildChatMessages | hyperforge/src/hyperforge/llm.py:330-378 | The loop that extends its last message computes the regrouping |

## Left out

- HyperforgeA2AExecutor: routing metadata, the question text and `ensure_workflow_active`; the receiver object of an entry, since a task has one receiver all its life.
- TaskSystem: one run of `execute` per task id; a failed store or broker call takes effect before it fails or never, and so does one whose coroutine was cancelled; the broker hands each reply out once, although the Redis broker only logs a failed delete.
- TaskSystem: the queue of a receiver holds one message, so putting may wait; a step may be put off for ever, and no liveness is claimed.
- LocalBroker: topics dropped by the LRU bound or trimmed to the last hundred entries, and expiry of Redis streams; cursors are numbers here and decimal strings there.
- Forwarder: the checks of a feedback's own metadata and text, and the messages of a refused or expired one.
- StreamUntilPause: the cancellation check and the store calls of the loop, which are steps of `TaskSystem`.
- RelayUntilPause: the cancellation check and the store calls of the loop, which are steps of `TaskSystem`.
- Publish: topics dropped by the LRU bound.
- ReadFrom: only what a subscription finds at once; waiting and timeouts are steps of `RelayRun`.
- Event: the closing event a cancelled task gets from `cancel` is not ordered against its completion, as the code does not order them.
- SchemaNormalizer: Python's recursion limit; `urllib.parse.unquote` is a parameter; `pattern` and `format` are predicates of the reading.
- Json: the keys of a real dict are unique; the statements do not need it, except that `SetAdditionalPropertiesFalse` rewrites every field of a keyword where the code rewrites the one there is.
- SchemaMeaning: an instance is accepted with a bound on how many references may be followed one inside the other; the statements hold for every bound from `Enough` on.
- SchemaClosing: `convert_json_schema`, `add_additional_properties_and_required` and the nullable rewriting, which would add easy members.
- Footnotes: digits and white space are ASCII; the other parts of an answer are untouched text.
- ParseInt: underscores in Python numerals, and numbers too large for JavaScript.
- WorkflowTree: a step shared between two places of a tree (the walk for a change puts the changed step back on its way), arrays of anything but steps, characters of strings and properties of arrays as steps; a change that would make such a value has no result, like one that throws.
- WorkflowStore: agents other than the active one, canvas positions, drivers and saving; `addStep`, which only appends.
- SmartRun: an exception that leaves a tool call ends the run; the messages, prompts, contexts and token counts; decision ids and questions that are not texts; values JSON cannot print.
- Filters: the parser of old-format filters and its label aliases are a parameter; `split_head_and_tail` belongs to it.
- ChatHistory: tool definitions, streaming and the accumulation of streamed tool calls.
