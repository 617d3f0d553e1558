# A model of the Fractalide flow-based runtime

Fractalide runs graphs of agents that exchange packets through bounded ports. This project models four parts
of it in Dafny and proves what they are for.

**The Rust scheduler and its ports.** `Interior.dfy` gives every message handler of the interior scheduler as a
function, `Exterior.dfy` the methods of the API. `System.dfy` puts them together with the mailbox, the port
queues, the jobs of the pool and the threads outside as a step relation: a send pushes and only later announces,
a receive pops and only later announces, and any thread may come in between. `Ordering`, `Wiring`, `Ownership`,
`Tokens`, `Halting`, `Edits` and `Views` each hold one invariant and the proof that every step keeps it;
`Fifo.dfy` and `Receivers.dfy` follow the packets and the receivers; `Runs.dfy` and `Connections.dfy` state the
results over every run from the empty scheduler, with `Answers.dfy` for what the runs of agents answered and
`Stuck.dfy` for a run that never stops. The classes in `SchedState.dfy`, `SchedulerApi.dfy` and `Ports.dfy` change
their fields as the source does and are proved against those functions.

**The flattener.** `Flatten.dfy` is the recursive inlining of subgraphs as a function, `FlattenPass.dfy` the loops
over the mutable graph. `FlattenNames.dfy` says when names run into each other. `FlattenProofs.dfy` defines what an
endpoint should become, by recursion through the exported ports, and proves that the repeated rewriting does that;
`FlattenMessages.dfy` does the same for initial messages, `FlattenClosed.dfy` shows that only agents remain, and
`FlattenQuirks.dfy` says when the code does something else than its comments promise.

**The flowscript parser and the graph check.** `Parser.dfy` is the state machine with its stack, `ParserProofs.dfy`
its stack invariant and the meaning of lines, `ParserFailures.dfy` exactly when recovery from an error breaks it,
`ParserErrors.dfy` what it reports, `ParserChains.dfy` the rewritings that change nothing and the round trip,
`ParserLanguage.dfy` the accepted language and what is dropped of it. `Checker.dfy` is the well-formedness check with its exact error list.

**The Racket scheduler.** `RktAgent.dfy` and `RktScheduler.dfy` are the pure functions of the second implementation,
`RktSystem.dfy` its step relation (it announces a receive before it has the packet, and looks at the mailbox before
it stops), `RktHandlers`, `RktOwnership` and `RktTokens` its invariants, `RktFifo.dfy` follows the packets,
`RktRuns.dfy` has the results over every run, `RktTables.dfy` what agents are made of and what messages do to their
ports, `RktWitness.dfy` a run that loses a packet and one in which the loop dies, `RktSelections.dfy` the reference counts
of array selections, and `RktPorts.dfy` the ports as objects.

`Wrappers.dfy`, `Counting.dfy` and `Graph.dfy` hold the small types and counts shared by these parts.

Assumptions of the runs. Rust: ids are fresh, agents are not removed, and once HaltState has been posted the
exterior threads do nothing more and have finished their sends and receives. Racket: names are fresh, running agents
are not removed, and nothing outside acts after msg-stop. An agent's `run` may send and receive on any port and may
end at any time with any result. Blocking operations are steps that are enabled when they would return.

Where the code and its comments disagree the model follows the code: `nodes/fvm/rs/vm/lib.rs:73` and `:93` say that
exported ports are taken from the main graph only, and `:65-71` looks initial messages up by the inner port name
while edges are looked up by the outer one; `FlattenQuirks.OnlyMainExportsIff` and
`FlattenMessages.MessagesPreservedIff` say exactly when that makes no difference. `nodes/fvm/rs/parser/semantic/lib.rs:234-251`
names expected tokens that the parser refuses, and leaves out one it accepts: `ParserErrors.ExpectedIff`.

## Model

| member | source | states |
|---|---|---|
| `Runs.SafeHalt` | `modules/rs/rustfbp/src/scheduler.rs:820-854` | In every run: when a Halt is in the mailbox it is alone there, no job is left, no thread owes an announcement, every agent is home, and every scheduled queue is empty with no packet ever discarded from one; in particular the queue behind every declared input and every array element of every registered agent. |
| `Runs.HaltedIsFinal` | `modules/rs/rustfbp/src/scheduler.rs:124-165` | After the loop has left through Halt no step of the whole system is possible any more, and every declared input and array element has been read. |
| `Runs.TokenConservation` | `modules/rs/rustfbp/src/ports.rs:16-129` | In every reachable state and for every id: ips plus Incs minus Decs in the mailbox equals the packets queued on (or discarded with) its scheduled channels, minus pushes and plus pops whose announcement is still owed. |
| `Runs.NoLostWakeUp` | `modules/rs/rustfbp/src/scheduler.rs:761-854` | In every reachable state an agent at home has ips <= 0; and when all are idle, the mailbox is empty and nothing is half done, every scheduled queue is empty, behind every declared input and array element. |
| `Runs.SingleOwnership` | `modules/rs/rustfbp/src/scheduler.rs:808-869` | In every reachable state a box is absent exactly when one job or one RunEnd of its id is outstanding, never both and never two; an absent box implies is_run. |
| `Runs.ExactRunningCount` | `modules/rs/rustfbp/src/scheduler.rs:820-863` | running is the number of agents with is_run in every reachable state; a RunEnd at the head finds its agent known, is_run and running >= 1; can_halt with running = 0 means the mailbox holds exactly Halt; no `expect` fires. |
| `Runs.StopsIffFinished` | `modules/rs/rustfbp/src/scheduler.rs:820-854` | With HaltState posted, no job and an empty mailbox, nothing can happen any more, and the loop has left if and only if every agent that ever ran answered End with its last run. |
| `Runs.RunningIffUnfinished` | `modules/rs/rustfbp/src/scheduler.rs:828-869` | In every reachable state is_run is set exactly while the box is out, in a job or a RunEnd, or when the last run of the agent did not answer End. |
| `Stuck.NeverStops` | `modules/rs/rustfbp/src/scheduler.rs:834-852` | A legal run, of one agent whose run fails, after which nothing is left to do and the loop has not left and never will. |
| `Runs.TypedWiring` | `modules/rs/rustfbp/src/scheduler.rs:293-417` | In every reachable state every posted, deferred and installed connection joins a declared port to a channel of equal schema or BAny, and the message at the head is handled without error or panic. |
| `Runs.DeferredRefinesImmediate` | `modules/rs/rustfbp/src/scheduler.rs:828-880` | In every reachable state a box at home holds at every output port, output element and input element the channel of the last edit to it handed over, and nothing else, and has no edit deferred; a box in the pool lacks exactly the deferred ones. |
| `Runs.RunsStartUpToDate` | `modules/rs/rustfbp/src/scheduler.rs:828-869` | Every run that a message starts gets a box that holds at each place the channel of the last edit to it handled so far. |
| `Connections.CallsTakeEffect` | `modules/rs/rustfbp/src/scheduler.rs:293-528` | In every run: once its edits are drained, an agent holds at each place the channel of the last connect or add call about that place, and nothing where there was none. |
| `Connections.ConnectReaches` | `modules/rs/rustfbp/src/scheduler.rs:293-417` | In every run: a connect call that no later one overrides leaves, once drained, the output port or element it names connected to the channel that was registered for the receiving port when it was made. |
| `Connections.CallsIff` | `modules/rs/rustfbp/src/scheduler.rs:186-528` | In every reachable state before HaltState: the calls that go through are exactly those that name registered agents and declared ports of compatible schemas. |
| `Runs.PortsAsDeclared` | `modules/rs/rustfbp/src/scheduler.rs:186-207` | In every reachable state each registered agent is marked for starting if and only if its sort declares neither a simple nor an array input, and has a channel of its own for the option, the accumulator and each declared input, of which exactly the declared inputs are scheduled. |
| `Receivers.CutIff` | `modules/rs/rustfbp/src/agent.rs:169-180` | In every reachable state a channel is cut, and what it held lost, if and only if an agent has had a later edit that puts another receiver in the place of its own. |
| `Fifo.InOrder` | `modules/rs/rustfbp/src/ports.rs:16-129` | In every run and for every channel: what was received, followed by what is queued, is what was sent, in order, except for the packets lost at the end with a replaced receiver. |
| `Fifo.GoesThroughIff` | `modules/rs/rustfbp/src/ports.rs:80-97` | In every reachable state a queue has at most 25 packets, a send of a thread that may act goes through if and only if there are fewer, and a receive if and only if there is one. |
| `Runs.FinalIff` | `modules/rs/rustfbp/src/scheduler.rs:124-165` | In every reachable state some step is possible, unless stopping was asked for, no job is left, nobody owes an announcement, and the loop has left or has nothing to handle. |
| `Runs.ViewsAgree` | `modules/rs/rustfbp/src/scheduler.rs:461-490` | Once the edits of an agent are drained, the elements in the exterior table and the receivers in its box are the same elements over the same channels. |
| `Runs.SoftKeepsPairs` | `modules/rs/rustfbp/src/scheduler.rs:502-528` | If elements are only added softly, no channel is ever cut and every receiver ever posted is the one finally installed. |
| `Runs.DrainSucceedsIff` | `modules/rs/rustfbp/src/scheduler.rs:831-833` | Draining deferred edits succeeds if and only if each of them names a declared port. |
| `Runs.BoxReturnsIff` | `modules/rs/rustfbp/src/scheduler.rs:828-854` | A returned box is put back or started again if and only if all its deferred edits name declared ports; otherwise the early return loses it and the agent stays counted as running. |
| `Ordering.StepKeepsOrder` | `modules/rs/rustfbp/src/scheduler.rs:186-257` | Every step keeps the message order: NewAgent of a fresh id comes before anything else about that id. |
| `Wiring.ConnectPostsIff` | `modules/rs/rustfbp/src/scheduler.rs:293-417` | A connect call posts an edit if and only if both agents exist, both ports are declared with compatible schemas and the receiving channel is registered; the edit joins the named port to that channel. |
| `Wiring.ConnectPostsTypedEdit` | `modules/rs/rustfbp/src/scheduler.rs:293-417` | Whatever one of the four connect methods posts, for wired tables, is typed and is accepted by edit_one_comp. |
| `Wiring.StepKeepsWiring` | `modules/rs/rustfbp/src/scheduler.rs:871-917` | Every step keeps all tables, boxes, jobs and messages typed. |
| `Ownership.HandlerFactsHold` | `modules/rs/rustfbp/src/scheduler.rs:761-869` | What any single message does to the box, is_run, ips and running of its agent, and that every other agent stays as it was. |
| `Ownership.StepKeepsOwnership` | `modules/rs/rustfbp/src/scheduler.rs:808-869` | Every step keeps single ownership, the exact count and ips <= 0 of agents at home. |
| `Tokens.StepConserves` | `modules/rs/rustfbp/src/ports.rs:16-129` | Every step keeps the token balance of every id. |
| `Tokens.NoLoad` | `modules/rs/rustfbp/src/ports.rs:80-97` | A balance of zero means that each scheduled channel of the agent is empty and lost nothing. |
| `Halting.HaltPosted` | `modules/rs/rustfbp/src/scheduler.rs:820-854` | A handler posts Halt exactly when stopping was asked for and the count is zero afterwards, and then into an empty mailbox. |
| `Halting.StepKeepsStopping` | `modules/rs/rustfbp/src/scheduler.rs:820-854` | Every step keeps the stop protocol: HaltState once and last, Halt posted exactly when due. |
| `Edits.DrainInstalls` | `modules/rs/rustfbp/src/scheduler.rs:831-833` | A drain that succeeds leaves at each place what the last of the edits to it brings, or what was there. |
| `Edits.NewestIff` | `modules/rs/rustfbp/src/scheduler.rs:882-917` | The channel that counts for a place is the one brought by the last edit to it. |
| `Edits.StepRefines` | `modules/rs/rustfbp/src/scheduler.rs:828-880` | Every step keeps boxes equal to their immediate-edit meaning, up to the deferred edits. |
| `Views.DrainedViewsAgree` | `modules/rs/rustfbp/src/scheduler.rs:461-490` | In a sound state with no edit of an agent pending, its exterior entry and its box hold the same elements and channels. |
| `Views.AddedOnceStays` | `modules/rs/rustfbp/src/scheduler.rs:502-528` | If no element is added twice, the receiver of each addition is still installed after any further edits. |
| `SchedStateClass.SchedState.RunAgent` | `modules/rs/rustfbp/src/scheduler.rs:856-869` | Takes the box if home, counts the agent once as running and gives one job to the pool; the count stays exact. |
| `SchedStateClass.SchedState.IncToken` | `modules/rs/rustfbp/src/scheduler.rs:761-770` | New state, posts and jobs are those of the Inc handler; the count stays exact. |
| `SchedStateClass.SchedState.DecToken` | `modules/rs/rustfbp/src/scheduler.rs:772-778` | New state is that of the Dec handler, also for unknown ids. |
| `SchedStateClass.SchedState.AddAgent` | `modules/rs/rustfbp/src/scheduler.rs:780-790` | The agent is home, not running, without tokens or edits, in place of any older one of that id; the count stays exact if and only if no running agent was overwritten. |
| `SchedStateClass.SchedState.StartAgent` | `modules/rs/rustfbp/src/scheduler.rs:808-818` | New state and jobs are those of the Start handler; an unknown id panics. |
| `SchedStateClass.SchedState.RequestHalt` | `modules/rs/rustfbp/src/scheduler.rs:820-826` | Sets can_halt and posts Halt exactly when nothing runs. |
| `SchedStateClass.SchedState.DrainEdits` | `modules/rs/rustfbp/src/scheduler.rs:831-833` | The loop applies the edits in order and stops at the first refused one, like the specification of the drain. |
| `SchedStateClass.SchedState.ReturnBox` | `modules/rs/rustfbp/src/scheduler.rs:834-853` | Puts the box back, settles the count without underflow, then restarts or posts Halt. |
| `SchedStateClass.SchedState.EndRun` | `modules/rs/rustfbp/src/scheduler.rs:828-854` | The whole run_end, with the early return on a refused edit and the panic on an unknown id. |
| `SchedStateClass.SchedState.EditAgentPorts` | `modules/rs/rustfbp/src/scheduler.rs:871-880` | Applies the edit to a box at home, or defers it; a refused edit is reported and changes nothing. |
| `SchedStateClass.SchedState.Turn` | `modules/rs/rustfbp/src/scheduler.rs:124-165` | One turn of the dispatch loop does what the handler of the message says; Halt alone leaves the loop; the count stays exact unless a NewAgent overwrites a running agent. |
| `SchedulerApi.Scheduler.AddNode` | `modules/rs/rustfbp/src/scheduler.rs:186-207` | Registers the agent under the next id with channels and the start mark as its sort declares them, and posts NewAgent. |
| `SchedulerApi.Scheduler.StartAll` | `modules/rs/rustfbp/src/scheduler.rs:218-224` | Posts exactly one Start for each agent whose sort declares neither a simple nor an array input. |
| `SchedulerApi.Scheduler.StartAgent` | `modules/rs/rustfbp/src/scheduler.rs:250-257` | Posts Start for a known name, reports an unknown one. |
| `SchedulerApi.Scheduler.Connect` | `modules/rs/rustfbp/src/scheduler.rs:293-316` | Posts the edit the checks allow; an error is returned and an undeclared port panics, and then nothing is changed or posted. |
| `SchedulerApi.Scheduler.ConnectArray` | `modules/rs/rustfbp/src/scheduler.rs:324-349` | The same from an array output element. |
| `SchedulerApi.Scheduler.ConnectToArray` | `modules/rs/rustfbp/src/scheduler.rs:357-382` | The same into an array input element. |
| `SchedulerApi.Scheduler.ConnectArrayToArray` | `modules/rs/rustfbp/src/scheduler.rs:390-417` | The same between two array elements. |
| `SchedulerApi.Scheduler.AddInputArrayElement` | `modules/rs/rustfbp/src/scheduler.rs:461-490` | Makes one channel, records its sender in the table and posts its receiver; an unknown agent is an error and an undeclared port a panic, and then nothing is changed. |
| `SchedulerApi.Scheduler.SoftAddInputArrayElement` | `modules/rs/rustfbp/src/scheduler.rs:502-528` | Does nothing if the element exists, else adds it. |
| `SchedulerApi.Scheduler.Join` | `modules/rs/rustfbp/src/scheduler.rs:707-710` | Posts HaltState. |
| `Ports.MsgSender.Send` | `modules/rs/rustfbp/src/ports.rs:16-31` | Appends the packet, then announces it with one Inc if scheduled; with the receiver gone it moves nothing, with the scheduler gone the packet is queued unannounced, and both are reported; tokens minus packets change in the last case only. |
| `Ports.MsgReceiver.constructor` | `modules/rs/rustfbp/src/ports.rs:80-97` | Receiver and its own sender share one fresh queue and the same destination. |
| `Ports.MsgReceiver.TryRecv` | `modules/rs/rustfbp/src/ports.rs:115-129` | Takes the oldest packet and then announces one Dec if scheduled; an empty queue changes nothing; with the scheduler gone the packet is taken, lost and reported, and only then do tokens minus packets change. |
| `Ports.MsgReceiver.Recv` | `modules/rs/rustfbp/src/ports.rs:99-113` | The same once there is a packet. |
| `FlattenProofs.FlatteningPreservesMeaning` | `nodes/fvm/rs/vm/lib.rs:33-143` | For every well-named hierarchy the flat edges are, in order and with multiplicity and selectors, the edges of all levels with each endpoint resolved through the exported ports down to an agent. |
| `FlattenProofs.AddGraphEdges` | `nodes/fvm/rs/vm/lib.rs:33-143` | The same for a graph added under any path to any partly built flat graph: old edges are carried through, new ones appended resolved. |
| `FlattenProofs.ThruNodesResolves` | `nodes/fvm/rs/vm/lib.rs:56-92` | All the rewriting done while the nodes of a level are added carries an endpoint of that level exactly to its recursive resolution, if its name is a node or no path of one. |
| `FlattenNames.PlainIsWellNamed` | `nodes/fvm/rs/vm/lib.rs:102-141` | Where no name has a dash, distinct names within each level make a hierarchy well named. |
| `FlattenClosed.FlatNames` | `nodes/fvm/rs/vm/lib.rs:102-141` | For every hierarchy the flat node list is the agents of all levels in order, and their names are pairwise distinct if and only if no two agents have the same path. |
| `FlattenClosed.ResolvesIffLeads` | `nodes/fvm/rs/vm/lib.rs:56-141` | An endpoint resolves to an entry of the flat node list if and only if following exported ports leads to an agent. |
| `FlattenClosed.SubgraphsFallAway` | `nodes/fvm/rs/vm/lib.rs:56-141` | If every level passes the graph check and every port used on a subgraph is exported to a declared node, every endpoint of every flat edge is an entry of the flat node list. |
| `FlattenMessages.MessagesFollowInnerNames` | `nodes/fvm/rs/vm/lib.rs:47-72` | For every well-named hierarchy the flat initial messages are those of all levels, in order, carried to where a lookup by inner names leads; a message keeps its element selector if it meets no exported port, and else gets that of the last one. |
| `FlattenMessages.MessagesPreservedIff` | `nodes/fvm/rs/vm/lib.rs:65-71` | They reach the agents behind the exported ports, as edges do, with the selectors of those ports, if and only if the exports met by inner and by outer names agree on the way of every message. |
| `FlattenMessages.KeptNamesPreserveMeaning` | `nodes/fvm/rs/vm/lib.rs:65-71` | In particular whenever exported input ports keep their inner names. |
| `FlattenQuirks.MessageFollowsIff` | `nodes/fvm/rs/vm/lib.rs:65-71` | One rewriting treats a message as it would an edge if and only if outer and inner port name agree about it. |
| `FlattenQuirks.MessageLost` | `nodes/fvm/rs/vm/lib.rs:65-71` | A hierarchy whose message for a renamed exported port stays, in the flat graph, on the subgraph, which is no node of it. |
| `FlattenQuirks.PathsCollide` | `nodes/fvm/rs/vm/lib.rs:102-141` | A hierarchy, with `s-a` beside `a` inside `s`, in which two agents get the same flat name. |
| `FlattenQuirks.EdgeMisled` | `nodes/fvm/rs/vm/lib.rs:56-63` | A hierarchy whose agents have distinct flat names and one of whose edges is yet carried to an agent it does not mean, because a subgraph has the path of the agent meant. |
| `FlattenQuirks.HeldBackIff` | `nodes/fvm/rs/vm/lib.rs:27-29` | The flat graph is held back if and only if the last write to the error flag raised it. |
| `FlattenQuirks.FailureForgotten` | `nodes/fvm/rs/vm/lib.rs:117-125` | A failed level followed by a node of unknown sort is sent on all the same. |
| `FlattenQuirks.OnlyMainExportsIff` | `nodes/fvm/rs/vm/lib.rs:73-99` | The flat graph exports exactly the main graph's ports if and only if no subgraph met before the first agent exports anything; in general what it exports is stated. |
| `FlattenQuirks.ExportLeaks` | `nodes/fvm/rs/vm/lib.rs:73-99` | A main graph without exported ports whose flat graph exports one of a subgraph. |
| `FlattenPass.FlatGraph.RewriteIn` | `nodes/fvm/rs/vm/lib.rs:56-82` | The loops of one exported input port over edges and messages rewrite exactly what the specification does. |
| `FlattenPass.FlatGraph.RewriteOut` | `nodes/fvm/rs/vm/lib.rs:84-100` | The same for an exported output port. |
| `FlattenPass.FlatGraph.AddGraph` | `nodes/fvm/rs/vm/lib.rs:33-143` | The recursive in-place pass computes the specified flat graph and terminates on the hierarchy. |
| `FlattenPass.FlattenRoot` | `nodes/fvm/rs/vm/lib.rs:17-31` | The run body sends the flat graph unless the error flag is set at the end. |
| `Parser.ParseStream` | `nodes/fvm/rs/parser/semantic/lib.rs:53-232` | The receive loop computes the specified parse of the tokens. |
| `ParserProofs.StackShape` | `nodes/fvm/rs/parser/semantic/lib.rs:68-222` | On every error-free prefix the kinds of tokens on the stack are the ones the state determines. |
| `ParserProofs.FailsOnlyAfterError` | `nodes/fvm/rs/parser/semantic/lib.rs:95-191` | No pop fails and no unreachable!() is hit before a syntax error has been reported, on any input. |
| `ParserProofs.ExpectedIsDefined` | `nodes/fvm/rs/parser/semantic/lib.rs:234-251` | get_expected is never asked about the error state, on any input. |
| `ParserFailures.InternalFailureIff` | `nodes/fvm/rs/parser/semantic/lib.rs:95-191` | The parser fails internally if and only if, at some token, the error state takes a component over a stack without a component on top and the text, comments apart, goes on with `p => ext` or `p -> q in()`; an empty stack gives the stack problem, another token on it the unreachable!(). |
| `ParserProofs.RecoveryCanFail` | `nodes/fvm/rs/parser/semantic/lib.rs:188-188` | Two inputs, one for each of the two failures. |
| `ParserProofs.LineRead` | `nodes/fvm/rs/parser/semantic/lib.rs:60-226` | Reading one line adds exactly the meaning of the line to the graph, from any line start. |
| `ParserProofs.LinesParse` | `nodes/fvm/rs/parser/semantic/lib.rs:53-232` | Every sequence of lines parses to its meaning. |
| `ParserChains.SplitChain` | `nodes/fvm/rs/parser/semantic/lib.rs:119-218` | Ending a line at any accepted component and repeating the component without sort on the next line leaves the parse the same, whatever follows. |
| `ParserChains.BreakAfterBind` | `nodes/fvm/rs/parser/semantic/lib.rs:205-218` | So does a line break after any accepted `->`. |
| `ParserLanguage.KeptParsesAlike` | `nodes/fvm/rs/parser/semantic/lib.rs:205-221` | Comments, and line breaks after `->`, never change the parse of any text, with errors or without. |
| `ParserErrors.ReportsExactly` | `nodes/fvm/rs/parser/semantic/lib.rs:60-232` | For every text that does not fail internally: one error is reported for each token that is refused, in order, with the token, its line and what the state expects; the line counter is one more than the line breaks. |
| `ParserErrors.ExpectedIff` | `nodes/fvm/rs/parser/semantic/lib.rs:234-251` | In every state but the error state, what get_expected names is exactly what is accepted, except that after a port at the start of a line a component and `->` are named and refused, and after `->` a line break is accepted and not named. |
| `ParserErrors.Skips` | `nodes/fvm/rs/parser/semantic/lib.rs:68-221` | After an error everything up to the next component or message is skipped without a report and without a trace in the graph. |
| `ParserErrors.Recovers` | `nodes/fvm/rs/parser/semantic/lib.rs:185-199` | At a component or a message the parser recovers: from there on it reports what it would report at the start of a line, unless one of the two fails internally. |
| `ParserLanguage.AcceptsExactly` | `nodes/fvm/rs/parser/semantic/lib.rs:53-232` | For every text: it is free of errors if and only if, without comments and line breaks after `->`, it is whole lines followed by a beginning of a line; the final state tells which, and the text parses to their meaning. |
| `ParserLanguage.AcceptsExactlyLines` | `nodes/fvm/rs/parser/semantic/lib.rs:53-232` | For every text: it is accepted and ends at a line start if and only if, without those tokens, it is a sequence of lines; and then it parses to their meaning. |
| `ParserLanguage.DropsIff` | `nodes/fvm/rs/parser/semantic/lib.rs:60-231` | An accepted text has a started piece dropped if and only if it stops inside a statement, and then parses as if the piece were not there. |
| `ParserLanguage.DropsFinalBinds` | `nodes/fvm/rs/parser/semantic/lib.rs:205-231` | Of the accepted texts that close with a line break, as the lexer closes them, a piece is dropped exactly of those whose last token, without those that do not matter, is `->`. |
| `ParserLanguage.EdgeLost` | `nodes/fvm/rs/parser/semantic/lib.rs:205-231` | Such a text: an edge cut off after `->` is lost without an error. |
| `ParserChains.ParseAfterPrint` | `nodes/fvm/rs/parser/semantic/lib.rs:53-232` | A printed graph always parses, and to the same five lists if and only if every node has a non-empty sort. |
| `Checker.Check` | `nodes/fvm/rs/parser/graph/check/lib.rs:13-118` | The graph is passed on if and only if it is accepted; otherwise the error list holds each second sort, each undeclared endpoint and each fork with its receivers, and nothing else. |
| `Checker.AcceptedUnlessClash` | `nodes/fvm/rs/parser/graph/check/lib.rs:20-115` | For all names: exactly the well-formed graphs are accepted (no two sorted nodes share a name, every endpoint is declared, no two edges share sender port and element, no port is exported twice), except those in which two different senders share a text. |
| `Checker.AcceptedIff` | `nodes/fvm/rs/parser/graph/check/lib.rs:20-115` | With no `(` in sending components and no `[` in sending ports, as for every text the lexer reads, exactly the well-formed graphs are accepted. |
| `Checker.NothingToReport` | `nodes/fvm/rs/parser/graph/check/lib.rs:105-110` | A list with exactly the problems of a graph is empty if and only if the graph is accepted. |
| `Checker.TabulateNodes` | `nodes/fvm/rs/parser/graph/check/lib.rs:22-40` | The table has the first non-empty sort of each name, and the errors are the second sorts in order. |
| `Checker.CheckEdges` | `nodes/fvm/rs/parser/graph/check/lib.rs:43-79` | Reports exactly the undeclared endpoints and the forks of every prefix of the edges. |
| `Checker.CheckExports` | `nodes/fvm/rs/parser/graph/check/lib.rs:81-103` | Reports exactly the forks of every prefix of the exported input ports. |
| `Checker.EndpointInjective` | `nodes/fvm/rs/parser/graph/check/lib.rs:52-62` | For such names the recorded text of an endpoint determines component, port and element. |
| `Checker.BracketsClash` | `nodes/fvm/rs/parser/graph/check/lib.rs:52-62` | Two well-formed graphs that are refused, one for each half of that guard. |
| `RktRuns.CleanStop` | `modules/rkt/rkt-fbp/scheduler.rkt:197-206` | In every run in which the loop returns, no thread is left, the mailbox is empty, nobody owes or awaits anything, every synced queue has been read, and nothing can happen afterwards. |
| `RktRuns.NoMissedStop` | `modules/rkt/rkt-fbp/scheduler.rkt:161-206` | After msg-stop, with no thread and no message left, the loop has returned or returns at its next look at the mailbox. |
| `RktRuns.RunningIsExact` | `modules/rkt/rkt-fbp/scheduler.rkt:144-172` | number-running is the number of running agents; each of them, and nobody else, has exactly one thread or one run-end outstanding; an idle agent has number-ips <= 0. |
| `RktRuns.TokenConservation` | `modules/rkt/rkt-fbp/port.rkt:12-40` | The balance of tokens and packets in every reachable state, with the receives that announced themselves before they got a packet. |
| `RktRuns.NoLostWakeUp` | `modules/rkt/rkt-fbp/scheduler.rkt:144-172` | With no agent running, an empty mailbox and nothing half done, every synced queue is empty. |
| `RktRuns.SwallowedNeverStops` | `modules/rkt/rkt-fbp/port.rkt:30-40` | If a try-recv ever took a packet #f from a synced port, which it does without announcing it, the loop never returns. |
| `RktRuns.StuckIff` | `modules/rkt/rkt-fbp/scheduler.rkt:197-206` | In every run whose loop has not died the system stands still exactly when msg-stop has been posted, nobody owes an announcement, every thread is in a receive at an empty channel, and the loop waits or has returned, or has to remove a running agent, which these runs leave out. |
| `RktFifo.InOrder` | `modules/rkt/rkt-fbp/port.rkt:12-40` | In every run and for every channel: what was taken, followed by what is queued, is what was put in, in order; and exactly the packets #f that a try-recv took from a synced channel count as swallowed. |
| `RktFifo.GoesThroughIff` | `modules/rkt/rkt-fbp/port.rkt:12-40` | In every reachable state a channel has at most 30 packets, a put goes through if and only if there are fewer, a try-recv if and only if there is one, and a receive can be begun on every port but an option port. |
| `RktWitness.PacketLost` | `modules/rkt/rkt-fbp/port.rkt:30-40` | A legal run that loses a packet #f so. |
| `RktHandlers.RaisesIff` | `modules/rkt/rkt-fbp/scheduler.rkt:23-195` | In every state a message raises if and only if an agent, a port or a selection that it names is not there. |
| `RktRuns.DiesIff` | `modules/rkt/rkt-fbp/scheduler.rkt:23-195` | In every run: the loop dies on the message at the head if and only if something it names is not there; on a token if and only if its agent was removed; on a run-end never. |
| `RktWitness.LoopDies` | `modules/rkt/rkt-fbp/scheduler.rkt:35-37` | A legal run in which it dies: a packet is put, its idle agent removed, and the packet announced. |
| `RktHandlers.StartStarts` | `modules/rkt/rkt-fbp/scheduler.rkt:173-180` | msg-start starts exactly the idle agents without inputs, once each, whatever the order of the table. |
| `RktTables.StartsIff` | `modules/rkt/rkt-fbp/scheduler.rkt:144-182` | Any message starts exactly these agents: an idle one, or one whose run ends, that then has something to read; an idle one it names; or, for msg-start, the idle ones without inputs. |
| `RktTables.AgentMade` | `modules/rkt/rkt-fbp/agent.rkt:167-209` | A new agent has one input port for "acc", "option" and each declared input, each with a channel of its own that is synced but for those two; its outputs are not connected, except that "acc" leads to its own accumulator. |
| `RktTables.NoInputIff` | `modules/rkt/rkt-fbp/agent.rkt:156-160` | agent-no-input? holds of a new agent if and only if it declares no input beside "acc" and "option" and no array input. |
| `RktTables.EndsIff` | `modules/rkt/rkt-fbp/scheduler.rkt:36-138` | What any message leaves at every output port and output element of every agent: exactly the end it names is connected to the receiving end it names or disconnected, and every other one and every input port stays as it was. |
| `RktTables.MesgIff` | `modules/rkt/rkt-fbp/scheduler.rkt:136-144` | Only msg-mesg makes the loop put a packet: the one it carries, into the port it names. |
| `RktHandlers.HandleCounts` | `modules/rkt/rkt-fbp/scheduler.rkt:23-195` | What any message does to names, running flags and tokens, in every state; and that number-running goes off exactly when a running agent is replaced or removed, or a run-end comes for an idle one. |
| `RktSelections.EndsMeet` | `modules/rkt/rkt-fbp/scheduler.rkt:36-85` | After any of the four connect messages between distinct agents, the sender stored at one end and the receiver at the other are the same channel; a new one belongs to the receiving agent, an existing one is kept. |
| `RktSelections.SelectionsCount` | `modules/rkt/rkt-fbp/agent.rkt:87-142` | Over every sequence of messages between distinct agents the count of an array selection changes by connects minus disconnects, and the selection exists if and only if that leaves at least 1. |
| `RktSelections.SelectionsOfNewAgent` | `modules/rkt/rkt-fbp/agent.rkt:87-142` | From the creation of the agent on, the count is exactly connects minus disconnects, which is never negative. |
| `RktSelections.ChannelStays` | `modules/rkt/rkt-fbp/agent.rkt:87-142` | While the count stays positive the selection keeps its channel. |
| `RktSelections.DisconnectUndoesConnect` | `modules/rkt/rkt-fbp/agent.rkt:87-142` | A disconnect right after a connect restores the agent, if and only if the count did not stand at zero. |
| `RktSelections.DisconnectUndoesConnectMessage` | `modules/rkt/rkt-fbp/scheduler.rkt:58-71` | The same for the two messages of the scheduler between distinct agents. |
| `RktSelections.CountedIff` | `modules/rkt/rkt-fbp/scheduler.rkt:58-127` | An array connection or disconnection is counted if and only if it joins two different agents; with one agent at both ends its array ports stay as they were. |
| `RktPorts.Port.PortSend` | `modules/rkt/rkt-fbp/port.rkt:13-17` | Puts the packet, then posts one inc-ip if synced. |
| `RktPorts.Port.PortRecv` | `modules/rkt/rkt-fbp/port.rkt:20-27` | Takes the oldest packet and posts one dec-ip if synced; an option port answers with its newest option. |
| `RktPorts.Port.PortTryRecv` | `modules/rkt/rkt-fbp/port.rkt:30-40` | The balance of tokens and packets is kept if and only if the packet was not #f. |
| `RktPorts.Port.RecvOption` | `modules/rkt/rkt-fbp/port.rkt:43-53` | The recursive drain answers with the last packet before the end or the first #f, and puts it back behind what is left. |
| `RktPorts.OptionIsStable` | `modules/rkt/rkt-fbp/port.rkt:43-53` | Without packets #f the answer is the newest option, it alone stays, and the next read answers the same. |

## Left out

- Loading of agents from dynamic libraries and from Racket modules: an agent sort is a record of declared ports and schemas, and creating one always succeeds.
- The thread pool's limit of 8 threads, fairness and termination of agents: the results are about every order in which threads may act.
- Runs.ViewsAgree: assumes that set_array_receiver (`modules/rs/rustfbp/src/scheduler.rs:576-587`) is not called; it posts a receiver of the caller's making and leaves the exterior table as it was.
- Runs.TokenConservation: assumes the same, since that receiver may belong to another agent's channel.
- CompMsg::Remove, disconnect, set_receiver, remove and output-array edits of the Rust scheduler: their exterior calls or bodies are unimplemented, so they post nothing a run could survive.
- start_if_needed: it is StartAgent behind the start flag that StartAll tests.
- The schema and sender lookups of the API that only read a table.
- The error channel and the texts of errors: an error is a value that is returned or reported.
- Payload types, the generated Msg type and packet contents: a Rust packet is two strings; a Racket packet is #f or a number.
- send_with_action and recv_with_action as separate methods: an action is a field of the packet.
- The panic of a call on an undeclared port is a value that the caller gets, SchedulerApi's last error; that the calling thread is dead then is not modelled, only that nothing was changed or posted.
- MsgReceiver.recv on a queue without senders: a receiver holds a sender of its own queue, so it cannot happen.
- A send to a dropped receiver is no step of System.dfy: it reports an error and changes nothing, as Ports.MsgSender.Send states.
- A box is a value: the code behind an agent and its own state are not part of the model, only its port tables.
- FlattenProofs.FlatteningPreservesMeaning: asks that at every level no two nodes have a path in common and no path below a node is used as another name, as do the results that rest on it; FlattenQuirks.EdgeMisled shows what happens otherwise. It goes one way: where two paths meet, an edge is misled only if a port name matches too, and may still end where it should.
- The selectors of exported ports, which the pass ignores for edges.
- Asking for paths and graphs over ports while flattening: the hierarchy with its answers is an input.
- The lexer: the parser starts from tokens, and ends at the end of the stream.
- ParserChains.SplitChain: asks for an error-free text up to the split, since recovery keeps an arbitrary stack.
- The path of a parsed graph, which the parser copies from the start of the stream.
- Checker.Check: the order in which forks are reported is that of a hash table and is left open.
- RktRuns.RunningIsExact: speaks of loops that have not died on a missing key, and so do TokenConservation, NoLostWakeUp and NoMissedStop; RktRuns.DiesIff says when a loop dies, and RktWitness.LoopDies shows that one does.
- msg-update-agent carries the resulting agent instead of a procedure; a procedure that raises is not modelled.
- msg-display and unknown messages only print.
- Killing of Racket threads and breaks: an agent's procedure returns or raises an ordinary exception, and a run-end follows.
- recv-option is a step-by-step use of an unsynced channel in RktSystem; its own behaviour is in RktPorts without interleaving.
- File access, package management, GUI code, Idris stubs, sample agents and fractals.
