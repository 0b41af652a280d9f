# A verified model of the page-based distributed shared memory

The repository shares one array of pages between several machines. This project models the
protocols that make this work and proves what they guarantee in every run: the token-based critical
section, the page lock, the page coherence protocol, joining and leaving, and the sequential code
they rest on. `dafny verify dfyconfig.toml` checks all of it.

How the parts are modelled:

- **Critical section** (`NaimiTrehel`, `CsMachine` and the other `Cs` modules, `SpanningTree`, `QueueOrder`). A class with
  the variables of one node, proved equal to functions on its state; then a transition system over any
  finite set of nodes with a multiset of packets delivered in any order. Handler bodies run under a
  mutex and are single steps. The proofs carry three ghost accounts: where the token is and why each
  waiting node will get it, the undirected tree of father links and travelling requests, and a partial
  order of who is queued before whom. `CsCallers`, `CsSecondCaller`, `CsForgery` and `CsStranding`
  extend the transition system to any number of callers in the wait loop of one node, `CsFarewell` to
  leavers that wait for LEAVE_CS; `CsInside` counts callers by their calls alone.
- **Page lock** (`PageLock`, `ReaderUnlock`, `LockMachine`, `LockExclusion`, `LockTheorems`, `LockProgress`,
  `LockTrap`, `LockViews`, `LockLost`, `MixedLock`, `ReaderLedger`, `ReaderRuns`, `ReadersOnly`,
  `MixedInstances`, `AskReturns`). The class and the step functions cover readers and writers. `LockMachine` is the
  transition system of runs with only write requests, `MixedLock` that of runs with both kinds.
- **Hand-over of the lock** (`Wire`, `StateMessage`, `LeaveCore`). Byte buffers with a moving cursor.
- **Coherence** (`PageCell`, `PageMachine`, `Coherence`, `DataTransfer`, `Dsm`, `DsmTheorems`, `Permissions`). One page
  on all nodes first, then all pages together with the membership they share. The specification is a
  flat memory that only stores change. The lock is an abstract readers-writer lock, INVALIDATION is
  delivered in the step that sends it, and links are FIFO.
- **Membership** (`NodeList`, `Membership`, `ViewAgreement`, `LeaveLast`). NEW_NODE, ACK_NODE and INFO_DSM are separate
  steps; INFO_DSM may still be on its way when the next node joins.
- **Sequential code** (`Links`, `Sorting`, `Merging`, `Framing`, `RangeLock`). The circular list on heap
  objects, quicksort and merge in place, the length-prefixed stream, and range locking.

What does not hold of the code is proved as well, with the exact condition (and for travelling lock
requests, with a sufficient one):

- a chain of `next` can leave its father tree, if and only if a request travels between two of its
  neighbours (`CsLimits.ChainsStayInFatherTreeIff`);
- a caller that enters `request_CS` can leave a caller without any claim to the token if and only if
  another caller is blocked at its node at that moment (`CsSecondCaller.StrandsIff`); the four kinds of
  step that do it are `CsCallers.StrandedIff`, and each of them happens (`CsStranding`). Mutual
  exclusion can then fail as well (`CsStranding.TwoInside`), but not before a token is made up or sent
  away under a user, in the steps given by `CsForgery.TokensChangeIff` and `CsForgery.UnprotectedIff`;
- a write request can wait in every continuation. Where no ASK_LOCK travels, the callers that do are
  those whose requests are in each other's lists (`LockLost.LostWhenSettledIff`), and a run makes such
  callers if and only if some node took a request in although its own request led to the requester
  (`LockProgress.DeadlockArisesIff`). In general they are these callers, those whose own request
  travels and is never served, and those behind them (`LockLost.LostIff`). For a travelling request
  `LockLost.TrapLoses` gives a sufficient condition, which covers requests forwarded round and round
  (`LockLost.TravellersAreLost`);
- with readers and writers the page lock excludes nobody: a reader and a writer can be in it together
  (`MixedInstances.ReaderBesideWriter`), and a node can be in it for writing without the token
  (`MixedInstances.WriterWithoutToken`), because a grant that arrives outside the lock lets the next
  caller in (`AskReturns.LateGrantLetsIn`);
- a node that has the token and asks to write waits for ever if and only if somebody is listed there
  (`AskReturns.AskIsStuckIff`, `AskReturns.StuckForever`);
- a reader that no writer precedes in the list of a node that has the token and is not writing can
  stay without a grant (`MixedInstances.ReaderIsNotGranted`), if and only if one of the steps of
  `ReaderLedger.UnansweredIff` happened;
- the unlock of a reader removes the reader's own request if and only if the reader was the last to
  send the message; otherwise it removes the first request of the last sender, if there is one
  (`ReaderUnlock.ReaderRemovedIff`);
- a departure loses the requests that it keeps for a page and has not answered if and only if the
  page's token is elsewhere once the leaver's turn has ended (`LeaveCore.RequestIsLostIff`);
- merging a length that the segment size does not divide loses the elements after the last whole
  segment (`Merging.MergeSegments`, `Merging.KeepsElementsIff`);
- receiving a message does not end if and only if the stream ends inside a message (`Framing.RecvExitsIff`);
- cutting an empty list and splicing back does not restore it if the target list was not empty
  (`Links.CutAndSplice`);
- `leave_last` is documented to leave as the last node, but goes on while one other member is still
  there (`ViewAgreement.LeaveLastIsNotLast`), and waits for ever if there are at most two members when
  it is called and nobody joins (`LeaveLast.LeaveLastReturnsIff`); the model follows the code.

## Model

| member | source | states |
|---|---|---|
| `NaimiTrehel.CsNode.RequestCS` | src/Naimi_Trehel.c:68-85 | up to the wait loop the new state and the packet sent are those of the step that the run theorems are about |
| `NaimiTrehel.CsNode.LeaveWaitLoop` | src/Naimi_Trehel.c:80-84 | a blocked caller that sees the token becomes a user; nothing else changes |
| `NaimiTrehel.CsNode.ReleaseCS` | src/Naimi_Trehel.c:87-100 | only the last user passes the token, to `next`, which is then empty |
| `NaimiTrehel.CsNode.HandleRequestCs` | src/Naimi_Trehel.c:22-58 | whole new state and packet of the REQUEST_CS handler in each branch, nothing while leaving |
| `NaimiTrehel.CsNode.HandleGetCs` | src/Naimi_Trehel.c:60-66 | the token arrives and nothing else changes |
| `NaimiTrehel.CsNode.HandleResetCs` | src/Naimi_Trehel.c:121-133 | the state is as after init with the sender as father, and a requesting node asks again |
| `NaimiTrehel.CsNode.HandleNewRootCs` | src/Naimi_Trehel.c:135-152 | the loop sends one RESET_CS to each node of the list, then LEAVE_CS to the leaver |
| `NaimiTrehel.CsNode.LeaveCS` | src/Naimi_Trehel.c:183-195 | NEW_ROOT_CS goes to `next` if there is one, else to the given successor, and `leaving` is set |
| `NaimiTrehel.CsNode.HandleLeaveCs` | src/Naimi_Trehel.c:154-160 | `leaving` is cleared and nothing else changes |
| `CsTheorems.MutualExclusion` | src/Naimi_Trehel.c:39-100 | in every reachable state, joins and departures included, token holders and GET_CS in flight total one, users imply the token, at most one node is in the critical section |
| `CsTheorems.OneClaimEach` | src/Naimi_Trehel.c:45-55 | a node waiting without the token has exactly one claim among requests, `next` slots and grants; other nodes have none; nothing is in flight twice |
| `CsTheorems.NextIsNeverOverwritten` | src/Naimi_Trehel.c:45-51 | no step of a node that is in the protocol before and after it replaces a non-empty `next`; it is only emptied, by the release that sends the token to it (NEW_ROOT_CS and RESET_CS reinitialise nodes that are outside the protocol until then) |
| `SpanningTree.Rotate` | src/Naimi_Trehel.c:52-55 | forwarding exchanges a link and a request for a link and a request and keeps a tree a tree |
| `SpanningTree.EdgeCount` | src/Naimi_Trehel.c:22-58 | a tree in the sense of cuts has one edge less than nodes |
| `CsTheorems.AlwaysASpanningTree` | src/Naimi_Trehel.c:22-58 | father links and travelling requests form a spanning tree in every reachable state, father chains never cycle, no request reaches its own sender |
| `CsForwarding.FarSideStep` | src/Naimi_Trehel.c:45-55 | the nodes beyond a travelling request get strictly fewer when it is forwarded and never more by any other step |
| `CsForwarding.ForwardBound` | src/Naimi_Trehel.c:22-31 | with n nodes and fixed membership a request is forwarded at most n - 2 times in any interleaving |
| `CsTheorems.QueuesAreChains` | src/Naimi_Trehel.c:45-51 | `next` is injective and following it never comes back |
| `CsTheorems.TokenQueue` | src/Naimi_Trehel.c:87-98 | once no request travels, following `next` from the token lists every requesting node exactly once |
| `CsSoundness.ResetIsRejoin` | src/Naimi_Trehel.c:102-133 | a reset after a departure has the effect of joining under the new root and, if a caller waits, requesting again |
| `CsSoundness.RunKeepsInv` | src/Naimi_Trehel.c:102-152 | every run, with NEW_ROOT_CS and RESET_CS delivered in any order among re-sent requests, keeps token, claims, tree and queue order for the nodes under the new root |
| `CsInside.UsersAreCallers` | src/Naimi_Trehel.c:68-100 | in every run `users` is the number of callers to which `request_CS` has returned and that have not called `release_CS`, counted from the calls alone |
| `CsInside.TokenWaitsForCallers` | src/Naimi_Trehel.c:39-100 | in every run a step that sends GET_CS leaves no such caller at the sender |
| `CsInside.CallersAreOnOneNode` | src/Naimi_Trehel.c:68-100 | in every run such callers are on one node at most |
| `CsInside.CrowdUsersAreCallers` | src/Naimi_Trehel.c:68-100 | `users` is that number with any number of callers in the wait loops, too |
| `CsInside.TokenLeavesCallersIff` | src/Naimi_Trehel.c:45-51 | then GET_CS leaves a node with such a caller exactly when a request arrives while `father` is empty and `requesting` false |
| `CsInside.CrowdCallersOnOneNode` | src/Naimi_Trehel.c:39-100 | and the callers are on one node at most as long as no step makes up a token or sends it away under a user |
| `CsFarewell.NewRootIsNext` | src/Naimi_Trehel.c:189-195 | whenever a departure can begin, NEW_ROOT_CS goes to the node behind the leaver in the token queue, which is a waiting node whenever a node waits |
| `CsFarewell.HeirCanGoOn` | src/Naimi_Trehel.c:135-152 | its delivery gives that node the token, so that its blocked caller can go on at once |
| `CsFarewell.MovesKeepInv` | src/Naimi_Trehel.c:154-203 | with leavers that wait for LEAVE_CS and callers that enter while they are left behind, all invariants are kept, and a leaver waits exactly as long as its NEW_ROOT_CS or LEAVE_CS is in flight |
| `CsFarewell.FarewellIsExclusive` | src/Naimi_Trehel.c:39-203 | one token and one node in the critical section in these runs, too |
| `CsFarewell.LeaverIsSilent` | src/Naimi_Trehel.c:42-43 | a request that reaches a leaver is dropped: nothing is sent and nothing changes |
| `CsFarewell.ReturnsOnlyAfterLeave` | src/Naimi_Trehel.c:197-200 | `leave_CS` returns only after its NEW_ROOT_CS was delivered and then LEAVE_CS |
| `CsFarewell.LeaverGoesOn` | src/Naimi_Trehel.c:135-203 | as long as a node is leaving, the next event that its return needs can happen |
| `CsFarewell.CallerIsAskedAgain` | src/Naimi_Trehel.c:121-133 | a caller whose request was dropped by the leaver has a request at the new root when its node is reset |
| `CsLimits.DepartureKeepsCallers` | src/Naimi_Trehel.c:102-152 | a departure removes the leaver and nobody else, and blocked callers stay blocked |
| `CsLimits.DepartureCompletes` | src/Naimi_Trehel.c:183-203 | when the messages of a departure are delivered all survivors are in the protocol again with all invariants |
| `CsLimits.DepartureGoesOn` | src/Naimi_Trehel.c:121-152 | while messages of a departure are in flight one of them can be delivered |
| `CsLimits.DepartureIsBounded` | src/Naimi_Trehel.c:121-152 | in any run these deliveries are as many as the nodes that cease to wait for one |
| `CsProgress.StepWorks` | src/Naimi_Trehel.c:39-100 | every delivery, wake-up and release uses up some of a bound made of waiting callers, users, grants and the nodes before each travelling request |
| `CsProgress.CallersAreServed` | src/Naimi_Trehel.c:68-100 | after any run, if nobody calls again, the protocol stops after a bounded number of steps in any order, and then no caller waits |
| `CsLimits.SecondCallerClaimsIff` | src/Naimi_Trehel.c:77-81 | right after a second caller has entered during the wait the node has one claim if and only if `father` was empty |
| `CsLimits.SecondCallerCanHarm` | src/Naimi_Trehel.c:77-81 | a reachable state in which the second caller creates a second claim |
| `CsCallers.StrandedIff` | src/Naimi_Trehel.c:39-100 | with any number of callers in the wait loop, a step leaves a caller without a claim if and only if it is an entry with neither token nor father, a last release or an answer that sends the token away while a caller still waits, or a request put in the place of the one in `next`; a stranded caller gets a claim again only by a new call at its node with a father |
| `CsCallers.RunStrandsIff` | src/Naimi_Trehel.c:39-100 | over any run a caller is stranded in the end if and only if some such step happened and no later call of its node gave it a claim |
| `CsCallers.StrandedWaits` | src/Naimi_Trehel.c:80-81 | a stranded caller waits in every continuation in which nobody calls at its node |
| `CsSecondCaller.OneAtATime` | src/Naimi_Trehel.c:68-100 | a run without a second entry is a run of the protocol with one caller for each node and ends in the same state |
| `CsSecondCaller.TokenComes` | src/Naimi_Trehel.c:60-85 | from every reachable settled state, without new calls, the token can get to a node that waits, and does so with a second caller there too |
| `CsSecondCaller.StrandsIff` | src/Naimi_Trehel.c:68-100 | in every reachable settled state, an entry at a node followed by a continuation without another second entry can strand a caller if and only if a caller is blocked at that node |
| `CsForgery.TokensChangeIff` | src/Naimi_Trehel.c:45-51 | the number of tokens grows by one exactly when a node without the token sends it, and shrinks by one exactly when it arrives where there is one |
| `CsForgery.UnprotectedIff` | src/Naimi_Trehel.c:45-51 | a user loses the token exactly when a request arrives while `father` is empty and `requesting` false |
| `CsForgery.UnaskedIff` | src/Naimi_Trehel.c:80-93 | a user has `requesting` false exactly after leaving the wait loop when another caller of its node had released |
| `CsForgery.ExclusionWhileSane` | src/Naimi_Trehel.c:39-100 | with any number of callers, at most one node is in the critical section as long as no step makes up a token or sends it away under a user |
| `CsStranding.EntryBeforeWake` | src/Naimi_Trehel.c:71-97 | reachable: the second caller enters after the token has arrived and releases before the first wakes, which is left without a claim |
| `CsStranding.EntryBeside` | src/Naimi_Trehel.c:77-97 | reachable: with `father` empty both callers wait, and the first to release strands the other |
| `CsStranding.AnswerStrands` | src/Naimi_Trehel.c:45-51 | reachable: a request that arrives between two callers sends the token away from the waiting one |
| `CsStranding.OvertakingStrands` | src/Naimi_Trehel.c:45-47 | reachable: the second request of a node lets `next` be overwritten, which strands the only caller of another node |
| `CsStranding.EntryStrands` | src/Naimi_Trehel.c:77-81 | reachable: the only caller of a node enters where neither token nor father nor claim is left |
| `CsStranding.TwoInside` | src/Naimi_Trehel.c:45-51 | reachable with two callers on one node: two nodes in the critical section |
| `CsStranding.TokenIsForged` | src/Naimi_Trehel.c:45-51 | reachable: a node answers a request with a token it does not have |
| `CsLimits.QueueLeavesFatherTree` | src/Naimi_Trehel.c:45-55 | a reachable state in which a node and its `next` are in different father trees |
| `SpanningTree.EdgeBetween` | src/Naimi_Trehel.c:22-58 | a cut between two nodes is crossed by an edge that lies between them in the tree |
| `CsLimits.NextLeavesFatherTreeIff` | src/Naimi_Trehel.c:45-55 | a node and its `next` are in different father trees if and only if some REQUEST_CS travels between them in the spanning tree |
| `CsLimits.ChainsStayInFatherTreeIff` | src/Naimi_Trehel.c:45-55 | every chain of `next` stays inside one father tree if and only if no REQUEST_CS travels between a node and its `next` |
| `CsLimits.OneFatherTreeIff` | src/Naimi_Trehel.c:45-55 | the father links alone connect all members if and only if no REQUEST_CS travels |
| `PageLock.PageNode.RemoveRequest` | src/core/core.c:62-73 | the first request of the node is removed and the others keep their order |
| `PageLock.PageNode.FindLastWriter` | src/core/core.c:87-95 | the search from the tail finds the writer nearest to the tail |
| `PageLock.PageNode.AskFor` | src/core/core.c:134-178 | whole new state and message of `ask_lock` up to the point where it returns or blocks |
| `PageLock.PageNode.HandleLocalUnlock` | src/core/core.c:180-205 | the reader is removed and a writer that comes first gets the token |
| `PageLock.PageNode.GrantReaders` | src/core/core.c:220-237 | a grant goes to exactly the requests before the first writer |
| `PageLock.PageNode.Release` | src/core/core.c:208-268 | whole new state and messages of an unlock for readers and writers |
| `PageLock.PageNode.HandleAskLock` | src/core/core.c:284-376 | whole new state and message of the ASK_LOCK handler in each branch |
| `PageLock.PageNode.HandleGetLock` | src/core/core.c:378-407 | a write grant makes the node name itself, a read grant makes it name the sender, and the waiter is signalled |
| `MixedLock.AskGrantsIff` | src/core/core.c:284-376 | the handler grants a reader exactly when the node has the token, is not writing and has no writer listed, and a writer exactly when it has the token, is idle and has an empty list |
| `MixedLock.UnlockGrantsIff` | src/core/core.c:208-249 | the end of a writer's turn grants exactly the readers with no writer before them, once for each request in list order; the end of a reader's turn grants no reader |
| `MixedLock.ReadGrantIff` | src/core/core.c:208-376 | in every run with readers and writers these are the only steps that send a read grant, and they do |
| `MixedLock.WriterGrantsNobody` | src/core/core.c:345-357 | in every such run a node whose mode is WRITING sends no read grant before its own unlock |
| `ReaderLedger.LedgerFollows` | src/core/core.c:62-85 | the list with a mark at each granted reader follows the list of the node in every step |
| `ReaderLedger.UnansweredIff` | src/core/core.c:180-376 | exactly four kinds of step leave a reader that no writer precedes without a grant at a node that has the token and is not writing |
| `ReaderLedger.ReadersAreGranted` | src/core/core.c:180-376 | in every run without such a step every such reader has been granted |
| `ReaderRuns.ReaderGetsIn` | src/core/core.c:134-178 | along any path of nodes to a token holder that is not writing and has no writer listed, a reader is listed and granted, gets in and names that node; nothing else changes |
| `ReaderRuns.ReaderRoundTrip` | src/core/core.c:208-425 | in and out again restores the whole state but for the reader's knowledge of the owner |
| `ReaderRuns.WriterLetsReaderIn` | src/core/core.c:220-237 | behind a writer the reader is listed and waits; the unlock grants it and every other reader listed, and it gets in |
| `ReadersOnly.ListIsTheReaders` | src/core/core.c:180-425 | in every run of readers the token holder lists each reader once for its turn and once for each UNLOCK on its way, and nobody else |
| `ReadersOnly.NobodyWaits` | src/core/core.c:345-357 | in every such run a reader outside has exactly one of its request, the grant and the signal under way, the next of these steps is possible, and a delivered request is granted at once |
| `ReadersOnly.NothingIsLeft` | src/core/core.c:180-205 | when nobody is in the lock and no message travels the list is empty |
| `MixedInstances.ReaderBesideWriter` | src/core/core.c:180-205 | reachable: a reader and a writer in the lock together |
| `MixedInstances.ReaderIsNotGranted` | src/core/core.c:238-249 | reachable: a reader alone in the list of an idle token holder, without a grant |
| `MixedInstances.WriterWithoutToken` | src/core/core.c:378-407 | reachable: a writer that went on with a read grant |
| `AskReturns.AskReturnsIff` | src/core/core.c:134-178 | `ask_lock` returns at once exactly if the node is in the lock already, or has the token and asks to read, or has the token and nobody is listed |
| `AskReturns.AskIsStuckIff` | src/core/core.c:152-165 | it waits on `write_auto_lock` exactly if the node is outside the lock, has the token, asks to write and somebody is listed |
| `AskReturns.StuckForever` | src/core/core.c:152-205 | in every continuation that caller waits and its node stays in WRITING, because nothing posts the semaphore |
| `AskReturns.LocalWriterIsStuck` | src/core/core.c:152-165 | reachable: a token holder that asks to write while another node reads |
| `AskReturns.LateGrantLetsIn` | src/core/core.c:378-407 | a grant that finds its node outside the lock lets the next caller go on at once, for reading or writing, while its own request is still under way |
| `AskReturns.LateGrantHappens` | src/core/core.c:220-237 | reachable: the grant of a reader that had left |
| `ReaderUnlock.JourneyConserves` | src/core/core.c:409-425 | wherever an UNLOCK is passed on, the token holder takes off its list the first request of the last sender and the writer that then comes first, and nothing else |
| `ReaderUnlock.ReaderRemovedIff` | src/core/core.c:409-425 | a reader's unlock removes its request if and only if the reader itself was the last sender, because passing a message on puts the forwarder's name in it |
| `ReaderUnlock.ForwardedUnlockMisses` | src/core/core.c:180-191 | an UNLOCK passed on by a node that reads as well removes the wrong request |
| `PageLock.AskIsNeverLost` | src/core/core.c:284-376 | for every state and both kinds of request exactly one of listing, forwarding and passing the token happens |
| `PageLock.LocalUnlockConserves` | src/core/core.c:180-205 | only the finished reader's request and that of the writer who comes next leave the list |
| `PageLock.WriterUnlockConserves` | src/core/core.c:208-249 | only the writer who comes next leaves the list, readers stay listed |
| `LockExclusion.RunKeepsInv` | src/core/core.c:134-178 | every write-only run keeps one token, one claim for each waiter and well-formed lists |
| `LockTheorems.WriteExclusion` | src/core/core.c:134-178 | in every reachable state of write-only runs the non-waiting nodes that name themselves and the GET_LOCK in flight total one, so at most one caller holds the page |
| `LockTheorems.OneClaimEach` | src/core/core.c:284-407 | each waiting caller has exactly one claim among ASK_LOCK, request lists and GET_LOCK; other nodes have none; no list names a node twice |
| `LockTheorems.SemaphoreIsNeverUsed` | src/core/core.c:144-165 | in write-only runs nobody ever waits on `write_auto_lock`, because an idle token holder has an empty list |
| `LockProgress.DeadlockIsForever` | src/core/core.c:208-249 | waiters whose requests are kept only in each other's lists wait in every continuation |
| `LockProgress.DeadlockArisesIff` | src/core/core.c:284-376 | in reachable states without such waiters, a step creates waiters kept only in each other's lists if and only if a node takes a request into its list and who waits for whom leads from that node to the requester, in zero or more links |
| `LockLost.QueueServes` | src/core/core.c:208-249 | everybody who waits in lists that lead to the token holder can be served without new calls |
| `LockLost.ChainEnds` | src/core/core.c:284-376 | who waits for whom leads from every waiting caller to the token, to a caller whose request travels, or into a circle |
| `LockLost.LostIff` | src/core/core.c:284-376 | in every reachable state a caller waits in every continuation if and only if it waits in a circle or behind a caller whose request travels and who waits in every continuation |
| `LockLost.LostWhenSettledIff` | src/core/core.c:284-376 | where no ASK_LOCK travels, a caller waits in every continuation if and only if it waits in a circle |
| `LockLost.RunLosesIff` | src/core/core.c:284-376 | after any write-only run somebody waits in every continuation if and only if some delivery closed a circle or somebody whose request still travels does |
| `LockLost.RunLosesWhenSettledIff` | src/core/core.c:296-347 | if the run leaves no ASK_LOCK travelling, the first half alone |
| `LockLost.TrapLoses` | src/core/core.c:296-367 | waiters whose requests are in lists of nodes that never get the token, or travel among nodes whose last writers and `have_token` lead into each other, wait in every continuation |
| `LockLost.CircleIsTrap` | src/core/core.c:296-347 | circles of listed waiters are such a set |
| `LockLost.CircleLoses` | src/core/core.c:284-376 | a reachable instance: a waiter takes its own request into its own list |
| `LockLost.TravellersAreLost` | src/core/core.c:296-367 | a reachable instance without any circle: two callers wait in every continuation because the request of one is forwarded between them for ever |
| `Wire.NodeRoundTrip` | src/core/core_internal.h:16-37 | host and port are recovered from the 50 bytes, negative ports included |
| `Wire.SerializeRequest` | src/core/core_internal.h:116-122 | exactly the 54 bytes at the cursor change, and they are the encoding |
| `Wire.UnserializeRequest` | src/core/core_internal.h:127-133 | the request whose encoding is at the cursor is recovered, and the cursor moves by 54 |
| `Wire.DelegateRoundTrip` | src/core/core_internal.h:87-103 | type, sender and delegate of DELEGATE survive serialising and parsing, whatever the padding holds |
| `StateMessage.SizeIsExact` | src/core/core.c:543-562 | the size computed from the numbers of pages and requests is that of the bytes written |
| `StateMessage.SerializeRequests` | src/core/core.c:99-115 | the count slot filled last and the requests in list order, and nothing outside |
| `StateMessage.UnserializeRequests` | src/core/core.c:118-131 | the list becomes the reverse of the sent one followed by the old one, and the cursor stops after it |
| `StateMessage.BuildState` | src/core/core.c:543-588 | for every set of held pages the cursor ends at the last byte of the allocated message and the bytes are the encoding |
| `StateMessage.HandleSendState` | src/core/core.c:463-484 | parsing ends exactly at the end of the message with every list received |
| `StateMessage.HandOver` | src/core/core.c:556-588 | sending and receiving: each page whose token the leaver has gets the leaver's list reversed before the old one, every other list is untouched |
| `LeaveCore.UnlockAll` | src/core/core.c:545-554 | every turn of the leaver ends as by an unlock, with its messages |
| `LeaveCore.Leave` | src/core/core.c:537-600 | with the turns ended first: the pages, the messages and the delegate's lists |
| `LeaveCore.RequestIsLostIff` | src/core/core.c:545-588 | a request of a page neither ended nor answered by the unlock goes to the delegate if the token is still the leaver's then and is lost otherwise; the token's place is given by the page as it was before |
| `LeaveCore.SecondWriterIsLost` | src/core/core.c:545-588 | a leaver that is writing passes the token to the first of two waiting writers and loses the second |
| `LeaveCore.HandleDelegate` | src/core/core.c:427-447 | the loops over pages and lists put the delegate in the leaver's place on every page |
| `LeaveCore.DelegateReplacesLeaver` | src/core/core.c:427-447 | afterwards no page names the leaver and the requests of all other nodes are kept |
| `DataTransfer.PageTable.SetNewOwner` | src/core/data_transfer.c:16-22 | owner and up-to-date flag of one page, no other page |
| `DataTransfer.PageTable.SyncPage` | src/core/data_transfer.c:24-47 | the page is asked for exactly when the node neither owns it nor has an up-to-date copy |
| `DataTransfer.PageTable.UpdatePage` | src/core/data_transfer_utils.h:43-65 | bytes, owner, protection and wake-up for RECV_PAGE, and for RECV_PAGE_LEAVE only if the sender is believed to own the page |
| `DataTransfer.PageTable.HandleAskPage` | src/core/data_transfer_utils.h:148-192 | the owner answers with its bytes and its protection is reset, any other node passes the request to the owner it believes in |
| `DataTransfer.PageTable.HandlePageLeave` | src/core/data_transfer_utils.h:294-302 | the loop over the entries updates exactly the listed pages |
| `DataTransfer.PageTable.HandleLeave` | src/core/data_transfer_utils.h:219-241 | the loop redirects the listed pages that were believed to be the sender's and re-asks for those being synchronised |
| `DataTransfer.PageTable.OwnedPages` | src/core/data_transfer.c:89-106 | exactly the owned pages in ascending order |
| `DataTransfer.PageTable.PackPages` | src/core/data_transfer_utils.h:67-134 | one entry with number, new owner and bytes for each page given, whose protection is reset |
| `DataTransfer.PageTable.HandleInvalidation` | src/sigsegv_handler/sigsegv.c:147-152 | the page becomes inaccessible, out of date and the sender's |
| `DataTransfer.PageTable.CompleteFault` | src/sigsegv_handler/sigsegv.c:118-145 | protection and ownership after the fault, and whether others are invalidated |
| `DataTransfer.DepartureByPage` | src/core/data_transfer.c:89-128 | collecting, packing and unpacking over all pages does to each page what its own owner entry says |
| `Coherence.RunKeepsInv` | src/sigsegv_handler/sigsegv.c:87-145 | every run of one page keeps: usable copies equal the flat page, writers are alone, owners agree, every pending synchronisation has something under way |
| `DsmTheorems.RunRefines` | src/core/data_transfer_utils.h:43-65 | every run of faults, stores, transfers, joins and departures refines the flat memory |
| `DsmTheorems.ReadsSeeLastStore` | src/sigsegv_handler/sigsegv.c:53-67 | a readable, up-to-date or owned page equals the flat page, that is the last stores |
| `DsmTheorems.WritersAreAlone` | src/sigsegv_handler/sigsegv.c:118-145 | a writable page is held for writing, everybody believes in this owner, and no other copy is valid or readable |
| `DsmTheorems.AccessNeedsLock` | src/library.c:145-154 | a page that can be accessed without its lock is the owner's up-to-date copy and can only be read |
| `DsmTheorems.NoPageIsLost` | src/core/data_transfer.c:49-74 | outside departures all members agree on an owner that is a member and has the latest bytes |
| `DsmTheorems.NoPageIsLostInDeparture` | src/core/data_transfer.c:89-137 | during one, the same, or the latest bytes are with the heir or in the message to it |
| `DsmTheorems.LastCopyIsFlat` | src/library.c:220-240 | what the last `leave_DSM` returns is the flat memory |
| `DsmTheorems.AsksAreAnswered` | src/core/data_transfer_utils.h:176-192 | an ASK_PAGE that reaches a member reaches the owner, which sends the latest bytes |
| `DsmTheorems.DeliveriesEnd` | src/core/data_transfer_utils.h:216-253 | deliveries alone are bounded by the messages and notices outstanding |
| `DsmTheorems.NobodyIsStranded` | src/core/data_transfer_utils.h:54-63 | when nothing is left to deliver no fault handler waits, although a leaver drops ASK_PAGE |
| `DsmTheorems.FaultsComplete` | src/core/data_transfer.c:24-47 | both together after any run, departures in progress included |
| `Permissions.FaultPermits` | src/sigsegv_handler/sigsegv.c:118-145 | when the fault handler returns, the access that faulted is permitted on the latest bytes, and after a write fault no other node has a copy or believes in another owner |
| `Permissions.PermissionIsLostIff` | src/sigsegv_handler/sigsegv.c:53-67 | in the lock a permitted access stays permitted in every step until the node asks for a lock again, unlocks or leaves |
| `Permissions.AccessIsReached` | src/core/data_transfer.c:24-47 | whoever is in the lock gets to its access by its own faults and deliveries alone |
| `Permissions.StoreIsReached` | src/sigsegv_handler/sigsegv.c:118-145 | from every reachable state a node in the lock for writing gets to a state in which it can store any value anywhere in the page |
| `Permissions.StoresHappen` | src/sigsegv_handler/sigsegv.c:118-145 | from the start there is a run to a state in which any value can be stored anywhere in a page |
| `Permissions.PageArrives` | src/core/data_transfer_utils.h:43-65 | the page that a fault waits for is the latest, can be read at once and lets the handler go on |
| `Permissions.HeirTakesOver` | src/core/data_transfer_utils.h:43-65 | the heir owns the latest bytes, readable exactly if it has asked for the lock, and marked up to date only for a fault that waits |
| `Permissions.CreatorReads` | src/sigsegv_handler/sigsegv.c:154-184 | the creator can read every page from the start, a joining node none |
| `Permissions.UnlockedReadIsLostIff` | src/sigsegv_handler/sigsegv.c:53-152 | outside the lock a readable page stays readable until its node asks for the lock or leaves, the page is copied for another node, or another node writes |
| `DsmTheorems.DepartureRunsTheLoops` | src/core/data_transfer_utils.h:224-242 | from the beginning of a departure, whatever happens before it ends, the notice step of the run theorems is what the two handler loops compute from the leaver's pages |
| `NodeList.MemberList.AddToNodes` | src/utils/utils.c:23-34 | the newest node comes first and the counter grows by one |
| `NodeList.MemberList.RemoveNode` | src/utils/utils.c:36-53 | the first entry that names the node is removed, the counter follows only then, and `cv2` is signalled when it reaches 1 while somebody is in `leave_last` |
| `NodeList.WithoutIs` | src/utils/utils.c:36-53 | removal from a list without duplicates removes the name and keeps the rest |
| `NodeList.MemberList.BuildInfo` | src/library_messages.h:13-41 | counts, nodes and page owners in this order |
| `NodeList.MemberList.HandleInfo` | src/library.c:108-127 | nodes are added one by one and the owners start where the cursor stops |
| `NodeList.MemberList.JoinThrough` | src/library.c:97-123 | the joining node gets exactly its contact's list, reversed, and page owners |
| `ViewAgreement.ViewsAgree` | src/library.c:44-127 | between joins and departures every informed member's list names each other member once and `nb_nodees` is its length |
| `ViewAgreement.OneAckEach` | src/library.c:44-59 | at most one NEW_NODE is unacknowledged, and it is one message or one flag |
| `ViewAgreement.AcksMatch` | src/library.c:44-94 | over any run each NEW_NODE sent has one delivery, each delivery one ACK_NODE and each ACK_NODE one wait that consumes it, up to the one under way |
| `ViewAgreement.LeaveLastIsNotLast` | src/library.c:252-261 | a removal brings the counter to the value that lets `leave_last` go on if and only if one other member is still there |
| `LeaveLast.SignalsIff` | src/utils/utils.c:43-46 | a removal signals `cv2` if and only if it is made in a departure that leaves two members |
| `LeaveLast.LeaveLastReturnsIff` | src/library.c:252-261 | between two quiet moments without joins a caller of `leave_last` is let go if and only if there were at least three members and are at most two |
| `LeaveLast.TooFewNeverReturns` | src/library.c:252-261 | entered with at most two members it is not let go in any run without joins |
| `Links.Add` | src/utils/list.h:84-87 | the ring with the entry after the head |
| `Links.AddTail` | src/utils/list.h:97-100 | the ring with the entry at the end |
| `Links.Delete` | src/utils/list.h:109-132 | the ring without the entry, whose links are poisoned |
| `Links.MoveTail` | src/utils/list.h:186-191 | the entry moves to the end of its own list |
| `Links.MoveTailTo` | src/utils/list.h:186-191 | the entry moves to the end of another list, and both are rings |
| `Links.RotateLeft` | src/utils/list.h:236-244 | the first entry becomes the last; an empty list is unchanged |
| `Links.CutPosition` | src/utils/list.h:255-294 | the ring is cut into two rings after the entry, in every case of the code |
| `Links.Splice` | src/utils/list.h:296-319 | the other list's entries come right after the head |
| `Links.SpliceTail` | src/utils/list.h:326-331 | the other list's entries come at the end |
| `Links.CutAndSplice` | src/utils/list.h:282-319 | cutting anywhere and splicing back restores the ring, except for an empty list and a non-empty target; a target that is not a list is accepted unless the list is empty |
| `Sorting.Partition` | src/main.c:24-41 | everything before the returned place is at most the pivot, everything after is greater, a permutation inside the range |
| `Sorting.QuickSort` | src/main.c:44-54 | the range is sorted, the array is a permutation, nothing outside the range changes |
| `Sorting.IsSorted` | src/main.c:65-78 | true if and only if every pair is in order |
| `Merging.FindMin` | src/main.c:138-152 | no segment is found if and only if all are used up; otherwise its head is the smallest remaining |
| `Merging.MergeSegments` | src/main.c:117-169 | a length that is no multiple is only logged; no element is left exactly at the outputs after the last whole segment, where 0 is written; the outputs before are a permutation of the whole segments, sorted if these were |
| `Merging.MissedIff` | src/main.c:153-155 | the check that an element is left never fails if and only if the segment size divides the length, and fails exactly from the last whole segment on |
| `Merging.KeepsElementsIff` | src/main.c:157-164 | the result is a permutation of the input if and only if the elements after the last whole segment were all 0 |
| `Merging.MissedElement` | src/main.c:117-169 | five elements in segments of two: the last one is replaced by 0 |
| `Merging.SortBySegments` | src/main.c:80-104 | sorting each segment and merging sorts any array for every segment size that divides it |
| `Framing.Stream.SendAll` | src/network/network.c:412-424 | all bytes are appended however few `send` takes at a time |
| `Framing.Stream.RecvSteps` | src/network/network.c:148-161 | any number of iterations on any stream: what was read, and that the loop is left, after at most as many iterations as bytes asked for, if and only if the stream is at its end or long enough |
| `Framing.Stream.RecvAll` | src/network/network.c:148-161 | where the loop ends: exactly the bytes asked for, or none at the end of the stream |
| `Framing.RecvExitsIff` | src/network/network.c:152-159 | some way of delivering the bytes takes the loop to its exit if and only if the stream is at its end or holds all bytes asked for |
| `Framing.RecvIsBounded` | src/network/network.c:152-159 | then every way does, within as many iterations as bytes asked for |
| `Framing.ShortStreamNeverExits` | src/network/network.c:152-159 | on a stream that ends inside a message no run of the loop leaves it |
| `Framing.StuckAtThree` | src/network/network.c:152-159 | three bytes of a length field: `seek` stays at 3 for ever |
| `Framing.Stream.Receive` | src/network/network.c:288-311 | the list of messages whose frames are in the stream, until its end |
| `Framing.Exchange` | src/network/network.c:412-450 | for any messages and any cutting of the stream the receiver gets the list sent |
| `RangeLock.MeetsIff` | src/utils/utils.c:63-71 | a page is between the first and the last index if and only if some byte of the range is on it |
| `RangeLock.ExcludeOthers` | src/library.c:145-154 | the pages acted on are those that meet the range, each once, in ascending order |
| `RangeLock.ReachableInv` | src/library.c:263-281 | in every run from idle nodes a page that two nodes have is only read |
| `RangeLock.NoDeadlock` | src/library.c:145-154 | whenever a node is blocked, a node that has a lock is not and can go on |
| `RangeLock.StepsAreCounted` | src/library.c:263-281 | without new calls every schedule consists of the same number of steps |
| `RangeLock.NothingLeftToDo` | src/library.c:263-281 | when none of these steps is possible every call has returned |
| `RangeLock.RangesComplete` | src/library.c:263-281 | both in every run: without new calls the steps are bounded and end with every call returned |

## Left out

- CsTheorems.MutualExclusion: assumes that a node does not call `request_CS` while another local caller is in the wait loop; `CsForgery.ExclusionWhileSane` is what remains without that.
- CsCallers.StrandedIff: with several callers in the wait loop of a node nobody leaves.
- LockLost.LostIff: when a caller whose own request travels waits in every continuation is not characterised exactly; `LockLost.TrapLoses` is a sufficient condition, and its converse is not claimed.
- CsSoundness.RunKeepsInv: a departure starts with no REQUEST_CS in flight and the token at the leaver.
- CsFarewell.MovesKeepInv: of the nodes not yet reset only those whose father is a leaver start a request; a request that reaches the leaver between LEAVE_CS and its return is not modelled.
- NaimiTrehel.CsNode.HandleNewRootCs: all RESET_CS messages are sent in the step of NEW_ROOT_CS, without waiting for ACK_CS in between, because the code clears `acked` only once.
- CsProgress.CallersAreServed: speaks of the nodes in the protocol; those that a departure has not reset yet are served once it is over.
- LockTheorems.WriteExclusion: only write requests, one caller on each node and no departure; with readers it is false (`MixedInstances.ReaderBesideWriter`).
- MixedLock.ReadGrantIff: one caller on each node and no departure; progress of runs with readers and writers is not modelled beyond `ReaderRuns`, and the code never posts `write_auto_lock`.
- LeaveCore.Leave: the `leaving` flag of core.c, the broadcast of DELEGATE, the leaver's own reset of its pages after it and the runs in which other handlers come in between are not modelled.
- LeaveCore.HandleDelegate: the DELEGATE_ACK answer is not modelled.
- DsmTheorems.RunRefines: INVALIDATION is delivered at once to all members, since the code has no acknowledgement for it, and the page lock is an abstract readers-writer lock rather than the one of core.c; a join is one step.
- DataTransfer.PageTable.HandlePageLeave: the acknowledgement and the removal of the sender from the list are the step `Told` of the membership model.
- Merging.MergeSegments: where no element is left the code also increments `indices[SIZE_MAX]`, outside the array; the model only records the output.
- RangeLock.NoDeadlock: the page locks are abstract readers-writer locks, and the range is not empty.
- Address arithmetic, padding other than that of the message header, and allocation failures.
- Sockets, epoll, the connection cache, threads, mutexes and condition variables; handlers are steps and waits are enabling conditions.
- mmap, mprotect, sigaction and decoding the fault; only the resulting protection and the kind of access.
- `hlist`, the logger, benchmarks, the fork driver and the Promela sketch.
