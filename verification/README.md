# Verified models of the goal graph, the watcher, the timer loop and the wake channel

This Dafny project models four state machines of the repository and proves what holds over all
their runs. `dafny verify dfyconfig.toml` checks all of it.

**Goal graph** (`src/goal.py`). A goal is a value (`GoalModel`): nodes with their dependencies,
statuses, external waits, agent assignments and archived attempts; the goal status; the event log.
`GoalOps` gives every operation as a function from one state to the next, with the branches and the
refusals of the source, and `Commit`: operation, `validate`, one write, or nothing. `GoalGraph`
holds the object that updates a goal in place and the store; each of its methods is proved equal to
the function. A *history* (`GoalRuns.IsHistory`) is `create` followed by any sequence of commits.
`GoalTokens` follows the dispatch tokens through histories. Three modules say what the operations mean
without naming them: `GoalScopes` conflicts by the files that may be written, `GoalPermits` when a command
is committed and what a refusal tells, `GoalEffects` what commands leave behind and undo.
`Graph` holds the depth-first search behind `validate` and the theory of cycles it needs.

**Watcher** (`src/waitd.py`). `Watcher` is the asyncio task of one watch as a machine over single durable
writes, the result log before the registry. Between any two steps the daemon may crash; a restart
keeps the registry record and the log and loses everything else. `WatchTask` holds the same task as
an object with a record it updates, method for method as in the source, and proves that every step
it takes is a step of the machine. A watch has no owner, and then always counts as current, or waits for
a goal node or a loop: the owner's file then says whether it still waits for the watch, a goal only
after it took the watch's receipt while the task held its lock, and no owner takes back a watch that it
let go (`WatcherGoal.StaysLetGo`). `WatcherGoal` runs a watch next to the goal that owns it, with a
clock and the startup receipt between them; `WatcherCourse` says from outside how every phase is left and how
often a delivery is tried; `Registry` models pruning and the reconciliation of loop timers.

**Timer loop** (`src/loop.py`). `Loop` holds state, transitions and object; `LoopRuns` the runs in
which the clock never goes back and `begin` follows a `ready` from `due` for the same timer; `LoopTimers`
what the answers of `due` promise, and that the time bound is tight.

**Wake channel** (`src/codex.py`). `Frames` is the client frame format of RFC 6455 (sections 5.2 and
5.3) with a server-side decoder; `AppServer` the buffer, the reassembly of messages (sections 5.4
and 5.5) and the replies; `Delivery` how one exchange becomes the helper's exit code.

The environment decides everything that is not in the files: generated ids are new to the log;
receipts, locks, when an owner acts and whether its file can be read, exceptions, crashes, helper exit
codes, whether a turn was accepted (within the limits named under Left out), the chunks `recv`
returns, and the masks are inputs. Writes are
atomic and succeed. Times are real numbers. The order of nodes in the file is arbitrary.

## What turned out not to hold

*At most one accepted wake for a Codex watch.* `docs/waitd.md` says that a delivery which was
attempting is recorded as unconfirmed and not replayed, and the comment at `src/waitd.py:987` that an
ambiguous wake is never replayed. The code is followed here, and it falls short in three places:

- `_deliver` saves `unconfirmed` (`src/waitd.py:988-989`) before `_watch` advances the phase
  (`src/waitd.py:845`). After a crash in between, the restarted task finds `notifying` with a
  notification that is neither `attempting` (`src/waitd.py:821`) nor delivered, enters `_deliver`
  again, and uses the remaining attempts. `WatcherReplay.TwoTurnsCanHappen` is the run.
- When a failure notice has been attempted and the daemon restarts, a further exception makes
  `_record_watcher_failure` (`src/waitd.py:318-337`) build a new result without the evidence of that
  attempt, and `_notify_watcher_failure` announces it again, any number of times.
  `WatcherReplay.NoticesCanRepeat` is the run.
- An exception while a failure notice is being delivered is saved as a failed notification
  (`src/waitd.py:685-691`) while the phase is still `notifying`. After a crash before the record is
  finished (`src/waitd.py:651-656`), a plain restart delivers that notice again, without any further
  exception. `WatcherReplay.RaisedNoticeIsRepeated` is the run.

`WatcherReplay.FurtherTurnIff` gives, for every reachable record and log, the exact condition under
which a further turn can follow; runs that take none of these steps after their first turn have no
second one (`WatcherSafety.OneTurnPerWatch`).

*The attempt limit.* Replays keep it (`WatcherSafety.LaunchesWithinLimit`), a failure that is
announced again does not: each announcement starts counting from zero, so that `NoticesCanRepeat` with
one attempt allowed launches the helper twice, or any number of times. A watch may still announce a
failure as long as its log shows no attempt for a result. With an owner that can withdraw the result
there is one more case: a crash after attempt 1 reached the log but not the record leaves a record that,
once withdrawn, is written over that log (`WatcherReplay.ClosingForgets`); a watch without an owner is
never withdrawn like that. `WatcherReplay.LimitExceededIff` gives the exact condition on record, log and
owner.

*Every operation leaves a state that `validate` accepts.* `complete_node` does not look at a prepared
wait, so `GoalValidity.PreparedWaitBlocksCompletion`; `GoalValidity.PreparedWaitComesAbout` is a
history that ends there, and the exact condition for every operation is `GoalValidity.CommitAcceptedIff`.

*The loop's time bound.* `begin` does not look at `next_run_at` (`LoopRuns.BeginDoesNotWait`), so the
bound belongs to runs in which `due` said `ready` first (`LoopRuns.IterationsAreBounded`). Without that
discipline `LoopRuns.HasteBreaksBound` breaks it at a standing clock, and
`LoopRuns.BoundHoldsIffLimitFits` says for which loops it still holds: those whose iteration limit
implies it.

## Model

| member | source | states |
|---|---|---|
| Graph.FindCycle | src/goal.py:596-618 | The iterative search ends and reports a node exactly when the graph has a cycle, whatever the order of the roots, with repeated and self edges; the node it names lies on one |
| Graph.SearchFrom | src/goal.py:599-618 | One root's search keeps the stack a path of grey nodes and the black nodes topologically ordered, ends, and finishes the root or names a node on a cycle |
| Graph.GreyIsCycle | src/goal.py:610-612 | A dependency that is still being visited closes a cycle through itself |
| Graph.TopologicalIsAcyclic | src/goal.py:596-618 | A finishing order of all nodes with every dependency before its dependent rules out all cycles |
| Graph.RepointCycle | src/goal.py:753-764 | Replacing one node's dependencies in an acyclic graph makes a cycle if and only if a new dependency reaches, or is, that node |
| Graph.AppendKeepsAcyclic | src/goal.py:793-816 | A node added without a successor never makes a cycle |
| Graph.InsertBeforeCycle | src/goal.py:793-816 | A node added in front of another makes a cycle if and only if one of its dependencies reaches, or is, that other node |
| Graph.AcyclicHasBottom | src/goal.py:627-634 | In an acyclic graph every non-empty set of nodes has one that depends on no member of the set |
| Paths.OverlapIsSymmetric | src/goal.py:218-224 | Overlap does not depend on the order of the two scopes |
| Paths.OverlapIffSharedFile | src/goal.py:218-224 | Two scopes of the same kind overlap if and only if some path lies under both |
| Base.DedupInOrder | src/goal.py:797-816 | Repeats are dropped: the same elements, each once, in the order of their first occurrences |
| GoalGraph.GoalGraph.Validate | src/goal.py:388-432 | The checks in their order, ending with the search, accept exactly the valid goals, acyclicity included |
| GoalGraph.GoalGraph.RecordEvent | src/goal.py:316-332 | The log gets one entry with the next sequence number |
| GoalGraph.GoalGraph.EditNode | src/goal.py:753-764 | New state or refusal as specified: pending node of an open goal; dependencies are taken as given, repeats included |
| GoalGraph.GoalGraph.AddNode | src/goal.py:766-826 | New state or refusal as specified: node and successor change together, verification is dropped |
| GoalGraph.GoalGraph.PrepareAgent | src/goal.py:828-850 | New state or refusal as specified: the freeze, readiness and conflict guards, then the prepared token |
| GoalGraph.GoalGraph.StartNode | src/goal.py:852-883 | New state or refusal as specified: an agent by its token alone, any other node by freeze, readiness and conflict guards |
| GoalGraph.GoalGraph.AbortAgent | src/goal.py:885-896 | New state or refusal as specified: the matching token returns the node to pending |
| GoalGraph.GoalGraph.PrepareExternalWait | src/goal.py:898-931 | New state or refusal as specified: a running external node without a wait gets a prepared one |
| GoalGraph.GoalGraph.ActivateExternalWait | src/goal.py:933-955 | New state or refusal as specified: watch id, receipt, deadline and lock are checked before the node waits |
| GoalGraph.GoalGraph.AbortExternalWait | src/goal.py:957-969 | New state or refusal as specified, in an open or paused goal |
| GoalGraph.GoalGraph.WakeNode | src/goal.py:971-1005 | New state or refusal as specified; a duplicate succeeds and changes nothing |
| GoalGraph.GoalGraph.CompleteNode | src/goal.py:1007-1020 | New state or refusal as specified: the expected artifacts must be supplied; goal status and wait are not looked at |
| GoalGraph.GoalGraph.FailNode | src/goal.py:1022-1033 | New state or refusal as specified: pending, running and waiting nodes can fail |
| GoalGraph.GoalGraph.RetryNode | src/goal.py:1035-1063 | New state or refusal as specified: the failed attempt is archived and the node is pending again |
| GoalGraph.GoalGraph.Verify | src/goal.py:1065-1079 | New state or refusal as specified: only a non-empty goal with every node completed is verified |
| GoalGraph.GoalGraph.Pause | src/goal.py:1081-1085 | New state or refusal as specified |
| GoalGraph.GoalGraph.Resume | src/goal.py:1087-1091 | New state or refusal as specified |
| GoalGraph.GoalGraph.CancelNodes | src/goal.py:1096-1100 | The loop over the nodes cancels exactly those that are neither completed nor failed and ends their waits |
| GoalGraph.GoalGraph.Cancel | src/goal.py:1093-1101 | New state or refusal as specified: only a completed goal cannot be cancelled |
| GoalGraph.GoalGraph.Finish | src/goal.py:1103-1111 | New state or refusal as specified: an open, verified goal |
| GoalGraph.GoalGraph.StampFrom | src/goal.py:1144-1149 | Exactly the events recorded during the edit get its source |
| GoalGraph.GoalStore.Edit | src/goal.py:1139-1150 | The file afterwards holds the validated result of the operation or is unchanged; what is refused, and why, is `Commit`'s answer |
| GoalPermits.PassesIff | src/goal.py:753-1111 | The guards of every command pass if and only if a condition on goal, arguments and clock holds; for an activation: an open goal, the prepared wait of this watch id, the lock held, and a receipt of exactly this watch whose deadline has not passed |
| GoalPermits.CommittedIff | src/goal.py:1139-1150 | On a valid goal a command is committed if and only if it is permitted and its arguments are acceptable, or it repeats the last wake |
| GoalPermits.RefusalIsTrue | src/goal.py:753-1111 | Whatever reason a refused command is given is true of the goal, the arguments and the clock |
| GoalEffects.DispatchUndone | src/goal.py:828-896 | A prepared dispatch that is aborted leaves no trace but in the log |
| GoalEffects.DispatchAttached | src/goal.py:852-883 | An attached dispatch records its token, agent and both times, and its node runs |
| GoalEffects.NodeBegins | src/goal.py:865-883 | A node without an agent starts by itself: it runs from then on, and nothing else changes |
| GoalEffects.PreparedWaitUndone | src/goal.py:957-969 | A prepared wait that is aborted leaves no trace but in the log |
| GoalEffects.PreparedWaitSays | src/goal.py:898-931 | A prepared wait says what was asked for, on behalf of the goal's client and thread |
| GoalEffects.ActivatedWaitEnds | src/goal.py:933-1005 | An activated wait makes the node wait; aborting it undoes everything, waking it undoes everything and records the event |
| GoalEffects.FailureArchived | src/goal.py:1022-1063 | A failure records reason and time and ends the wait; the retry archives all that the attempt recorded, as the last of the attempts, and leaves the node as before its first start |
| GoalEffects.CompletionSays | src/goal.py:1007-1020 | A completed node has the result, the artifacts without repeats and the time; the verification is dropped |
| GoalEffects.EditUndone | src/goal.py:753-764 | An edit changes title, dependencies and acceptance and is undone by an edit |
| GoalEffects.PauseUndone | src/goal.py:1081-1091 | Pausing is undone by resuming, but for the log |
| GoalEffects.EndSays | src/goal.py:1065-1111 | Verification and the end of a goal record what they are told, and when; a verified goal can be finished |
| GoalEffects.CancellationSays | src/goal.py:1093-1101 | Cancelling ends exactly the nodes that are neither completed nor failed, together with their waits |
| GoalEffects.NewNodeSays | src/goal.py:797-813 | A new node is pending and has nothing but what it was given, lists without repeats and in order |
| GoalEffects.AdditionSays | src/goal.py:793-826 | An addition drops the verification, adds the node, and extends the dependencies of at most its successor |
| GoalEffects.CommitSays | src/goal.py:1139-1150 | A commit that changes the goal adds one event that says what, when and by whom, and dates the goal |
| GoalEffects.CreationSays | src/goal.py:284-300 | A created goal is open, empty and unverified and says whose it is |
| GoalEffects.NodeIdIff | src/goal.py:27 | Node ids are 1 to 128 letters, digits, dots, underscores and hyphens, the first a letter or a digit |
| GoalEffects.ValidNodeTells | src/goal.py:434-594 | What can be read off any node of an accepted goal: which fields are there in which status, and what they refer to |
| GoalEffects.ValidNodeSpeaks | src/goal.py:434-594 | No text that an accepted node, its wait, events, assignment or attempts keep is blank |
| GoalEffects.ValidGoalSpeaks | src/goal.py:371-432 | Nor is any text of an accepted goal |
| GoalEffects.ValidGoalTells | src/goal.py:371-432 | The same for the goal: its end, its verification and its numbered log |
| GoalOps.ApplyLogs | src/goal.py:316-332 | Any operation that changes the goal adds exactly one entry, numbered one above the last and naming the operation and its node |
| GoalSchedule.ApplySchedules | src/goal.py:753-1111 | Any operation keeps scopes and completed nodes as they are, and a node takes its scope only by passing the readiness, freeze and conflict guards |
| GoalSchedule.ClosureKept | src/goal.py:627-634 | Such a step keeps every claiming or completed node's dependencies completed |
| GoalSchedule.ExclusionKept | src/goal.py:648-661 | Such a step keeps claiming nodes free of conflicts and unresolved dispatches at most one, though attaching an agent checks neither |
| GoalScopes.ConflictIff | src/goal.py:648-657 | Two nodes conflict unless one only reads, or both say where they write, in paths of one kind, and no file lies under a path of each; an unknown scope conflicts with every writer |
| GoalScopes.ActiveWritersAreApart | src/goal.py:648-661 | In every history, of two nodes dispatching, running or waiting one only reads or they are apart in that sense, and at most one is dispatching |
| GoalScopes.DependenciesCameFirst | src/goal.py:627-634 | In no history is a node under way or completed before all its dependencies are completed |
| GoalScopes.NothingActiveConflicts | src/goal.py:659-662 | No active node conflicts with a node exactly when it may run together with all of them |
| GoalScopes.SelectedIffFree | src/goal.py:667-676 | A ready node is selected if and only if it may run together with every active node and every node selected before it |
| GoalScopes.ReadersAreSelected | src/goal.py:667-676 | A ready node that only reads is always selected |
| GoalSchedule.ApplyCancelsTogether | src/goal.py:1093-1101 | Nodes are cancelled only with their goal, and a cancelled goal keeps no live node |
| GoalLog.ApplyReplays | src/goal.py:316-332 | What an operation does to goal status, verification, node statuses, watch ids, tokens, artifacts and attempt counts is what replaying its one log entry does |
| GoalLog.WatchesKept | src/goal.py:898-1005 | An operation continues the story of every watch id: prepare, then abort, or activate and then wake or abort |
| GoalLog.ApplyKeepsVerification | src/goal.py:1065-1079 | After an operation the goal is verified if and only if it was just verified, or was before and the operation is a pause, resume, cancel or finish |
| GoalLog.VerifiedAppend | src/goal.py:1065-1079 | How one more entry changes what the log says about verification |
| GoalRuns.CreatedInv | src/goal.py:284-300 | A created goal satisfies the invariant |
| GoalRuns.CommitsKeeps | src/goal.py:1139-1150 | Every commit keeps the invariant, and with it the log so far, scopes and completed nodes |
| GoalRuns.HistoryInv | src/goal.py:1139-1150 | Every goal of every history is valid, dependency-closed and conflict-free, equals the replay of its log, tells an orderly story for each watch id, and is verified exactly when its log says so |
| GoalRuns.HistoryExtends | src/goal.py:1139-1150 | From any goal of a history to any later one: the log only grows, completed nodes are unchanged, scopes stay, and a finished goal is the same goal |
| GoalRuns.ActiveWritersShareNoFile | src/goal.py:218-224 | In no history does a path lie in the scopes of two nodes that are dispatching, running or waiting, and no two nodes are dispatching |
| GoalRuns.FinishedGoalRefuses | src/goal.py:1103-1111 | Nothing that can be committed changes a finished goal |
| GoalRuns.FinishedGoalIsAccepted | src/goal.py:1065-1111 | A finished goal has nodes, is verified by its log, and every expected artifact was supplied |
| GoalRuns.WakesAtMostOnce | src/goal.py:971-1005 | In every history each watch id is in at most one wake entry |
| GoalTokens.HeldTokenIsDrawn | src/goal.py:828-850 | The token of an unresolved dispatch stands in the log |
| GoalTokens.ResolutionSpends | src/goal.py:852-896 | The commit that attaches an agent, aborts or cancels a dispatch leaves no dispatch under its token |
| GoalTokens.StaysSpent | src/goal.py:828-896 | No commit brings a spent token back |
| GoalTokens.SpentIsRefused | src/goal.py:852-896 | A spent token starts nothing, aborts nothing, and is never handed out again |
| GoalTokens.TokenResolvesOnce | src/goal.py:828-896 | In every history each token is resolved in at most one commit and for one node, so it attaches at most one agent, and is spent from then on |
| GoalRuns.StaleWakeIsInert | src/goal.py:971-1005 | A watch id that has woken a node once is answered silently if it repeats the node's last event exactly and refused otherwise; the goal stays as it is either way |
| GoalRuns.WaitingWasActivated | src/goal.py:933-955 | A waiting node's watch id was activated in the log |
| GoalFrontier.RawReady | src/goal.py:632-634 | The ready nodes, each once |
| GoalFrontier.RawReadyInOrder | src/goal.py:632-634 | They are listed in the order of the file |
| GoalFrontier.ReadyNodes | src/goal.py:667-676 | The selection is free of conflicts inside and with active nodes, in order, and maximal: what is left out conflicts with an active or an earlier selected node; it is empty while a dispatch is unresolved or the goal is not open |
| GoalFrontier.FrontierStartsInAnyOrder | src/goal.py:828-883 | Started one after another, in any order, each agent under its own new token and each command at its own time, all members of such a set pass every guard and every commit is accepted; all of them then run, and nothing else has changed |
| GoalFrontier.NodeLaunched | src/goal.py:865-883 | Starting a ready node that conflicts with no active one is committed and moves that node alone |
| GoalFrontier.CompatibleReordered | src/goal.py:667-676 | Any part of the selection, in any order, can be started like that |
| GoalFrontier.EmptyFrontier | src/goal.py:667-676 | The selection is empty if and only if no ready node is free of conflicts with active nodes |
| GoalFrontier.ActivityOf | src/goal.py:732-751 | Each reported activity is equivalent to a condition on the goal; blocked means open, unfinished, nothing under way and nothing ready |
| GoalFrontier.PendingHasFailureUpstream | src/goal.py:627-634 | With nothing ready, every pending node of a settled acyclic graph depends, at some distance, on a failed one |
| GoalFrontier.BlockedByFailure | src/goal.py:732-751 | In every history a blocked goal has a failed node, and every pending node has one upstream |
| GoalValidity.CommitAcceptedIff | src/goal.py:334-618 | An operation on a valid goal whose guards have passed is committed if and only if its arguments are well formed, an edit or insertion names existing dependencies and closes no cycle, and a completed node holds no wait |
| GoalValidity.CommitIffValidState | src/goal.py:1139-1150 | The commit goes through exactly when the changed nodes, verification and ending are valid and the graph stays acyclic; the log is never the reason |
| GoalValidity.PreparedWaitBlocksCompletion | src/goal.py:363-365 | Completing a node with a prepared wait passes the operation and is refused by the validation, for all arguments |
| GoalValidity.PreparedWaitComesAbout | src/goal.py:898-931 | A history from creation at whose end a running node holds a prepared wait and its completion is refused |
| GoalValidity.InsertionCycle | src/goal.py:793-816 | An insertion leaves the dependencies acyclic if and only if no dependency leads to the successor |
| GoalValidity.EditedState | src/goal.py:753-764 | An edit leaves the dependencies acyclic if and only if no new dependency leads to the edited node |
| Loop.LoopState.Complete | src/loop.py:151-173 | New state or refusal as specified: finish at the deadline or the limit, otherwise schedule; cancel when the owning goal is closed |
| Loop.LoopState.Begin | src/loop.py:187-197 | New state or refusal as specified; exactly the last consumed timer counts as a duplicate |
| Loop.LoopState.Expire | src/loop.py:199-206 | New state or refusal as specified; exactly the last consumed timer counts as a duplicate |
| Loop.LoopState.Cancel | src/loop.py:208-212 | New state or refusal as specified |
| Loop.LoopState.MarkExpired | src/loop.py:222-230 | The loop ends, consumes the timer and logs it |
| LoopRuns.PerformKeepsValid | src/loop.py:63-137 | Every transition keeps `validate` |
| LoopRuns.PerformKeepsNumbering | src/loop.py:151-230 | Every transition keeps the saved runs numbered without gaps, the iteration next to them, and the limit |
| LoopRuns.PerformConsumesTimers | src/loop.py:151-206 | Every transition keeps each timer to one begun iteration, scheduled before |
| LoopRuns.StepOnTime | src/loop.py:175-197 | A step of the protocol keeps the pace: the next iteration is never due before another interval, or the deadline |
| LoopRuns.RunInv | src/loop.py:140-230 | All of this in every state of every run |
| LoopRuns.IterationsAreBounded | src/loop.py:151-197 | A loop that has begun k iterations satisfies (k - 1) * interval < duration, and has saved no more runs than its limit |
| LoopRuns.TimerBeginsAtMostOnce | src/loop.py:187-197 | In every run each timer is in at most one begin entry |
| LoopRuns.BeginDoesNotWait | src/loop.py:187-197 | `begin` starts the next iteration of a waiting loop if and only if the deadline has not passed, however early |
| LoopRuns.RushTo | src/loop.py:151-197 | Any number of iterations within the limit can begin without the clock moving |
| LoopRuns.HasteBreaksBound | src/loop.py:187-197 | A run at a standing clock that breaks the time bound, for every loop whose limit does not fit its duration |
| LoopRuns.BoundHoldsIffLimitFits | src/loop.py:271-292 | When runs may begin before their timers, the bound holds on every run if and only if the loop was created with a limit m and (m - 1) * interval < duration |
| LoopTimers.TimerIsTold | src/loop.py:175-185 | From its time on the awaited timer is told `ready` or `expired`, the latter exactly from the deadline on, and before that to wait; any other timer is told none of these |
| LoopTimers.ReadyBegins | src/loop.py:187-197 | A timer that is told `ready` begins the next iteration, while the monitor may go on, and cannot expire the loop |
| LoopTimers.ExpiredEnds | src/loop.py:187-230 | A timer that is told `expired` ends the loop, by `begin` as by `expire` |
| LoopTimers.TimerIsAcceptedIff | src/loop.py:187-220 | A timer not consumed is accepted by `begin` exactly if the loop waits for it, and by `expire` exactly if it was told `expired` |
| LoopTimers.ConsumedTimerIsStale | src/loop.py:175-206 | A consumed timer is told that it is stale or the loop over, and its commands change nothing |
| LoopTimers.MonitorMayGoOnIff | src/loop.py:31-46 | A monitor may go on exactly as long as its node can still fail, in an open goal of the same client and session |
| LoopTimers.MonitorIsStopped | src/loop.py:151-220 | Once it may not, the next completion cancels the loop without saving a run, and its timer is refused |
| LoopTimers.IterationIsRecorded | src/loop.py:151-173 | A completed iteration is saved; the loop is over exactly at the deadline or the limit, and otherwise waits one interval, or until the deadline if that is sooner |
| LoopTimers.CancelledIff | src/loop.py:208-212 | A loop can be cancelled until it is completed |
| LoopTimers.StartIsAcceptedIff | src/loop.py:63-137 | The conditions on the arguments of `init` under which the new loop is valid |
| LoopTimers.BoundIsReached | src/loop.py:151-197 | The time bound is tight: for every k with (k - 1) * interval < duration within the limit, some run that waits for its timers begins k iterations, the last of them exactly k - 1 intervals after the start |
| Frames.MaskedTwice | src/codex.py:157-169 | Masking undoes itself |
| Frames.MaskedBits | src/codex.py:168-169 | Byte i of the masked payload differs from that of the payload in exactly the bits set in masking byte i mod 4 |
| Frames.UnmaskIsMasked | src/codex.py:168-169 | A server that goes through the masking bytes in turn and changes the bits in which they differ takes the masking off |
| Frames.UnpackIsBigEndian | src/codex.py:183-186 | Extended lengths are read with the most significant byte first |
| Frames.DecodeOfFrame | src/codex.py:157-169 | For every opcode below 16, mask and payload within the limit, a server reads back exactly what was framed and leaves the bytes behind it |
| Frames.FrameOfDecode | src/codex.py:157-169 | Whatever the decoder accepts is the frame of what it decoded |
| Frames.LengthFieldIsShortest | src/codex.py:162-167 | The length field is the shortest of the three that can hold the length |
| AppServer.AppServer.ReceiveBytes | src/codex.py:142-148 | One chunk moves from the connection to the buffer; the stream stays the same |
| AppServer.AppServer.Take | src/codex.py:150-155 | Exactly the next bytes of the stream, however it is cut into chunks; nothing is lost when there are too few |
| AppServer.AppServer.Frame | src/codex.py:157-169 | Within the limit exactly the client frame is written, with the next mask; beyond it nothing is |
| AppServer.AppServer.ReceiveFrame | src/codex.py:174-196 | The header, length and chunk of one frame, or the reason there is none, as a function of the stream |
| AppServer.AppServer.Receive | src/codex.py:174-208 | Result, leftover stream and replies depend on the bytes that arrive, not on the chunks; each ping met is answered by a pong, in order |
| AppServer.MessageIsReceived | src/codex.py:174-208 | One text message within the limit, fragmented in any way and with pings and pongs anywhere between, yields its concatenated payload and its pings in order, and the rest of the stream stays |
| AppServer.OversizedIsRefused | src/codex.py:187-188 | A message that exceeds the limit at any frame, control frames included, is refused |
| AppServer.ReceivedIsMessage | src/codex.py:174-208 | A message is received only from a stream that starts with the frames of exactly that message |
| AppServer.OpenMessageIsKept | src/codex.py:174-208 | After the beginning of a message, fragmented and probed in any way, what follows is received as the rest of it, and the pings so far are answered |
| AppServer.BadFrameIsRefused | src/codex.py:189-203 | After any such beginning, the frame that ends the attempt says why: a close, a bad control frame, an unknown one, or data that is not due; the bytes behind it stay |
| AppServer.BadFlagsAreRefused | src/codex.py:179-181 | Reserved bits and masked frames are refused as soon as their header has been read |
| AppServer.CutStreamIsDisconnected | src/codex.py:142-155 | A stream that ends anywhere in a frame, or between the frames of a message, is a disconnection |
| AppServer.PingsAreShort | src/codex.py:190-199 | Every ping that is answered fits a control frame |
| AppServer.PongCarriesPing | src/codex.py:190-199 | Decoded by the server, the reply to a ping is a pong with the same payload, after the replies to earlier pings |
| Delivery.ExitTellsWhetherTurnMayHaveStarted | src/codex.py:228-283 | The helper exits with "started" or "unconfirmed" if and only if `turn/start` was sent and not explicitly rejected |
| Delivery.ExitMeans | src/codex.py:228-283 | Each exit code says exactly one thing: 0 a confirmed turn, 71 a turn that may be under way, 75 a busy session, 70 a connection lost before, 2 everything else |
| WatcherSafety.ExchangesArePossible | src/codex.py:262-283 | The exits and turns that the machine admits for an exchange are exactly those the exchange allows |
| WatcherSafety.StepRunsOnce | src/waitd.py:757-797 | Every step, crash and restart keeps the program at one start, none before its phase is past `queued` |
| WatcherSafety.SubmittedProgramStartsAtMostOnce | src/waitd.py:339-354 | Over all crashes and restarts the program of a submitted watch is started at most once |
| WatcherSafety.StepSound | src/waitd.py:938-1013 | Every step, but a replay after a turn and a relapse after a launch, keeps launches within the recorded attempts and shows every turn that may be under way in the saved result |
| WatcherSafety.RunShaped | src/waitd.py:302-337 | In every reachable state, whatever was replayed, record, log and position of the task agree on attempts and evidence |
| WatcherSafety.LaunchesWithinLimit | src/waitd.py:953-958 | On every run in which no announced failure fails again, replays included, the helper is launched no more often than the attempt limit |
| WatcherSafety.OneTurnPerWatch | src/waitd.py:815-845 | On every run without a replay or relapse from its first accepted turn on, there is no second |
| WatcherSafety.NoLaunchAfterOpenTurn | src/waitd.py:970-990 | After a helper that reported a turn, was left unconfirmed, timed out, or was cut off by a crash or an exception, whether or not a turn was in fact accepted, no clean continuation launches another |
| WatcherSafety.NoLaunchAfterTurn | src/waitd.py:938-1013 | The same over every run from submission, whatever was replayed before |
| WatcherReplay.DeliveryIsResumed | src/waitd.py:821-845 | From every record in `notifying` with attempts to spare that is neither attempting nor delivered, a restart can launch the helper and start a turn |
| WatcherReplay.FailureIsAnnouncedAgain | src/waitd.py:318-337 | From every log without an attempt for a result, a restart and an exception can start a turn, and leave such a log again |
| WatcherReplay.ClosingForgets | src/waitd.py:954-957 | When the owner of a watch whose record shows no attempt is not seen to wait for it, closing the watch writes that record over a log that shows one |
| WatcherReplay.AnyNumberOfTurns | src/waitd.py:658-692 | From every watch that may still announce a failure and whose owner waits for it, or can still come to, any number of launches and accepted turns can follow |
| WatcherReplay.ClaimIsGiven | src/goal.py:933-955 | A goal that has not activated the wait yet can, once the restarted task holds its lock and its receipt exists |
| WatcherReplay.LostForever | src/runtime.py:289-318 | A watch that its owner let go, or can never get hold of, launches no helper any more |
| WatcherReplay.SealedForever | src/waitd.py:815-845 | From every other record, no run launches the helper or starts a turn again |
| WatcherReplay.FurtherTurnIff | src/waitd.py:815-845 | Whenever the daemon goes down in the middle of a watch, after any run from submission, a further turn, and a further launch, is possible if and only if the watch notifies, allows attempts, its owner waits for it or can come to, and record and log show a resumable delivery or no attempt |
| WatcherReplay.SecondTurnIffCanReplay | src/waitd.py:815-845 | After one turn and no replay since, while the owner waits, this comes down to the record: an announced failure, or an unconfirmed delivery still in `notifying` with attempts to spare |
| WatcherReplay.LimitExceededIff | src/waitd.py:953-958 | After every run that leaves the daemon down in the middle of a watch, launches can exceed the limit if and only if they already have, or the watch notifies, allows attempts, its owner waits for it or can come to, and the log shows no attempt for a result, or there is an owner and the record shows none |
| WatcherReplay.TwoTurnsCanHappen | src/waitd.py:986-990 | A run from submission with two accepted turns, for every watch that notifies and allows two attempts |
| WatcherReplay.NoticesCanRepeat | src/waitd.py:658-692 | Runs from submission, through activation where a goal owns the watch, with any number of launches and of accepted notices of one failing watch, for every watch that notifies and allows an attempt |
| WatcherReplay.RaisedNoticeIsRepeated | src/waitd.py:682-691 | A run from submission, through activation where a goal owns the watch, in which an exception cuts a notice off after its turn was accepted, and a plain restart starts a second turn |
| WatcherCourse.FailedTriesAreRepeated | src/waitd.py:951-1013 | While attempts remain and the owner waits, every helper that started nothing is followed by another: one launch per try |
| WatcherCourse.DeliveryIsTriedOut | src/waitd.py:951-1013 | The tries end with a started turn, for Codex with exit 71 or a timeout, or with the last attempt, and not before; then the watch is closed and its result says which |
| WatcherCourse.BusySessionIsTriedToTheLimit | src/waitd.py:951-1013 | From submission, a session that stays busy is tried exactly as often as the limit says, and the program ran once |
| WatcherCourse.EndingEnds | src/waitd.py:827-866 | After delivery the watch is closed with the result as it is, nothing more is started, and a goal may acknowledge first |
| WatcherCourse.ProgramIsOver | src/waitd.py:798-812 | A program that ended or could not start is withdrawn, delivered or just recorded, on record in both places |
| WatcherCourse.ProgramIsRecovered | src/waitd.py:789-812 | After a restart during the program its logged result, or `interrupted`, is withdrawn, delivered or recorded in the same way |
| WatcherCourse.QueuedProgramStarts | src/waitd.py:784-788 | A queued program is started once its task has the lock |
| WatcherCourse.ResultIsTakenUp | src/waitd.py:814-859 | After a restart a saved result is delivered, acknowledged or closed as its phase says; a delivery that was being attempted becomes unconfirmed |
| WatcherCourse.ActivationEnds | src/waitd.py:899-910 | A prepared wait is polled on until it is cancelled, gone or too late; then the watch ends without a program |
| WatcherCourse.SecondTaskEnds | src/waitd.py:746-755 | A task that does not get the lock ends and leaves log and phase alone |
| WatcherCourse.NothingIsLaunched | src/waitd.py:951-980 | What cannot be launched, or must not because it was withdrawn or used up, is recorded as that and closed without a launch |
| WatcherCourse.NativeResultWaits | src/waitd.py:938-950 | A Claude watch launches nothing: its result waits, and what the acknowledgement leaves of it is recorded |
| WatcherCourse.ExceptionIsRecorded | src/waitd.py:318-337 | An exception refers to the logged result or is logged, and is announced unless the log shows an attempt, whose outcome it then takes over |
| WatcherCourse.CancelledHasCause | src/waitd.py:928-930 | A program is given up as cancelled only on request or where there is an owner to give it up |
| WatcherCourse.DropSilences | src/waitd.py:508-519 | A watch that is cancelled on request while its task waits launches no helper any more, whatever happens, and is never active again |
| WatcherCourse.OwnerComesOnce | src/goal.py:933-955 | An owner comes to wait for a watch once, with the receipt left and the lock held; one that let go stays away |
| WatcherCourse.LockIsKept | src/waitd.py:745-866 | The lock is taken by the locking step alone and held until the task is about to end |
| WatchTask.Task.constructor | src/waitd.py:339-354 | A restarted task knows the registry record and the log, and nothing else |
| WatchTask.Task.PersistResult | src/waitd.py:302-316 | The log is written before the registry, as two steps of the machine |
| WatchTask.Task.ActivateGoalWait | src/waitd.py:878-910 | Leaves the receipt, then polls until the goal is active, invalid or the deadline passes; only `active` leads on to the program |
| WatchTask.Task.ReadCurrent | src/runtime.py:289-318 | A watch without an owner is always current; any other is when its owner waits for it and its file can be read |
| WatchTask.Task.ExecuteProgram | src/waitd.py:912-936 | The program is started once or skipped, and its result is the machine's |
| WatchTask.Task.Classify | src/waitd.py:970-1010 | The notice a helper outcome leads to |
| WatchTask.Task.Deliver | src/waitd.py:938-1013 | Whatever the helper, the owner and cancellation do, the delivery loop ends where the machine ends it |
| WatchTask.Task.Reconcile | src/waitd.py:786-797 | A program that was started before a restart is not started again: its logged result, or `interrupted`, is used |
| WatchTask.Task.Reload | src/waitd.py:814-825 | A delivery that was attempting when the daemon went down is given up as unconfirmed |
| WatchTask.Task.Finish | src/waitd.py:827-866 | Delivery, acknowledgement and closing follow the machine |
| WatchTask.Task.DeliverSaved | src/waitd.py:827-845 | A saved result is delivered unless it already was, and the phase advanced as the machine does |
| WatchTask.Task.Resume | src/waitd.py:757-825 | The task is taken up in its saved phase as the machine does |
| WatchTask.Task.Watch | src/waitd.py:739-866 | The whole task, from its lock to its result or exception, is a run of the machine |
| WatchTask.Task.RecordWatcherFailure | src/waitd.py:318-337 | A failure refers to a logged result and leaves it, or is logged itself |
| WatchTask.Task.AnnounceFailure | src/waitd.py:658-692 | A failure notice is delivered like a result, and an exception in it is saved |
| WatchTask.Task.RunWatch | src/waitd.py:630-656 | From a restart to the end of the task, memory, registry and log are those of a run of the machine |
| WatcherGoal.ActiveWasLogged | src/runtime.py:259-286 | A poll answers `active` only when the log holds the activation of exactly this node and watch id |
| WatcherGoal.StepHeldBack | src/waitd.py:757-784 | No step but the sight of the activated wait lets the program go, whatever crashes |
| WatcherGoal.StaysLetGo | src/goal.py:898-1005 | A goal whose activated wait for a watch is over never waits for that watch again, whatever is committed |
| WatcherGoal.ProgramWaitsForActivation | src/waitd.py:878-910 | In every interleaving of goal edits and watch steps with crashes, the program has been started only if `activate-wait` for this node and watch id was committed, and the watch counts as waited for exactly while the goal's file says so |
| WatcherGoal.PhaseTells | src/runtime.py:259-286 | A poll answers `prepared` or `active` exactly when the node has a wait in that phase for this watch id, client and thread |
| WatcherGoal.ActivationIsInTime | src/goal.py:933-955 | In every such run, with a clock and the startup file, the goal comes to wait for the watch only while the task holds its lock, its own receipt has been left, and the clock is not past that receipt's deadline |
| WatcherGoal.ActivationSucceeds | src/goal.py:933-955 | From a prepared wait of the watch in an open goal, those three facts are all it takes: the activation is committed and the owner waits for the watch |
| WatcherGoal.ActivationIsSeen | src/waitd.py:899-910 | The next poll that can read the goal then sees it, even past the deadline, and the program starts |
| Registry.Finished | src/waitd.py:259-268 | The records that may go, latest first |
| Registry.CutPrunes | src/waitd.py:253-272 | Keeping the first 256 of them keeps everything active or protected, and drops nothing updated later than what it keeps |
| Registry.KeepsTwoHundredFiftySix | src/waitd.py:259-272 | Of the others exactly 256 stay when there are more, and all when there are not |
| Registry.ProtectedIffAwaited | src/waitd.py:253-262 | A save protects exactly the timers that registered loops wait for |
| Registry.WaitDaemon.Save | src/waitd.py:253-272 | The in-place deletion prunes like that, and the file then equals the registry |
| Registry.WaitDaemon.Submit | src/waitd.py:398-469 | A known id or a refused submission changes nothing; any other is on record and saved |
| Registry.WaitDaemon.ReconcileLoop | src/waitd.py:359-384 | One loop: cancelled if its goal is closed, its timer submitted if it waits for one that is not on record, otherwise left alone; it fails exactly when the command or the submission it needs does |
| Registry.WaitDaemon.ReconcileLoops | src/waitd.py:356-385 | For any sets of refused timers and failing commands: exactly the loops that need one of these are reported, every other registered loop has its timer on record or was cancelled, no other file changes and no other timer is submitted |
| Registry.RoundAfterRounds | src/waitd.py:356-385 | Rounds of reconciliation compose: loop files stay or are cancelled, awaited records stay, and only timers that were not on record are submitted |
| Registry.RoundReconciles | src/waitd.py:356-385 | One more round extends what the rounds before it achieved, for any sets of refused timers and failing commands |
| Registry.WorldStepKeepsTimers | src/waitd.py:253-272 | Submissions, updates, registrations, loop transitions and crashes keep timers submitted once and on record while awaited |
| Registry.TimersSubmittedOnce | src/waitd.py:356-419 | Over every run of the service, each timer is submitted at most once while a registered loop waits for it, by reconciliation or on request |
| Registry.WaitingTimerStays | src/waitd.py:253-272 | While its loop waits for it, a timer's record is never pruned |

## Left out

- Command line, JSON printing, `waitctl.py`, `protocol.py`, `install_skill.py`, `dashboard.py`, `lint`: plumbing or reports around the state machines.
- `polling.py`: a signal-driven counter loop that would add only easier members.
- Sockets, TLS, the HTTP upgrade, JSON-RPC contents, process spawning, file locks and asyncio scheduling are inputs or free choices; receive timeouts end the helper and are among its outcomes.
- Failing writes: every write succeeds. `_notify_without_persistence` and the handling of `OSError` while saving are not modelled; the documentation lets that wake repeat.
- A result is one dictionary shared by task and registry; it is modelled as a value, since nothing else runs between a change of it and the write that follows.
- Records whose arguments no longer parse after a restart, and the event a daemon leaves when it is shut down in order.
- Clients other than Codex: their wakes may be retried after a timeout, so at most one turn is claimed for Codex only. Their retries are in the machine.
- Attempt limits, timeouts, retry delays and deadlines come from `notification_limits` and the arguments; the attempt limit is a parameter, and the passing of the others is a free choice of the environment.
- The exit code kept with a record, output texts and time stamps of results: nothing proved here depends on them.
- The result log belongs to the watch that reads it; the comparison of its event id in `_recover_result` is not modelled.
- Text details: time stamps are numbers, strings are blank or not, paths are component sequences already normalised and case-folded without leading `..`; node ids use letters and digits of ASCII.
- Replaying the log does not give back dependencies, titles, results or summaries, because the source does not record them (an edit logs only the node).
- LoopRuns.IterationsAreBounded: assumes that `begin` follows a `ready` from `due`, which `begin` itself does not enforce; LoopRuns.BoundHoldsIffLimitFits says when the bound holds without that.
- WatcherSafety.OneTurnPerWatch: assumes a run without replays after its first turn; WatcherReplay.FurtherTurnIff says exactly when they are possible. It also assumes that a Codex helper whose turn was accepted exits as `main` says (0 or 71), times out, or is cut off together with the daemon or by an exception in it. A helper that is killed by a signal after `turn/start` exits with another code and is tried again; that is not modelled, and the same holds for the other results on turns.
- WatcherSafety.LaunchesWithinLimit: assumes that no announced failure fails again; WatcherReplay.LimitExceededIff says exactly when that can break the limit.
- Registry.TimersSubmittedOnce: does not count submissions of an id that no registered loop waits for at that moment; such an id may be submitted again after its record was pruned.
- Registry.WaitDaemon.Submit: whether the arguments and the notification channel are accepted is an input; parsing, the channel's preflight and its log entry are not modelled.
- Registry.WaitDaemon.ReconcileLoop: no other request runs while it waits for a state command, which either fails or cancels the loop.
- Registry.WaitDaemon.ReconcileLoops: the goal files do not change during one call, and no other request runs while it waits for a state command; such a command either fails or cancels the loop.
