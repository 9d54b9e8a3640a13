# Verified model of the editor gateway

The gateway opens, keeps and closes remote editor sessions over SSH. These modules model the parts of
it where several steps must agree, and prove what those parts are for.

- **Session lifecycle.** `Lifecycle` is a state machine: one step is the code one task runs between two
  awaits, and any task may run next. Requests (open, close, forced close, retry), start tasks, unlocked
  closing tasks, tunnel watchers, client callbacks, startup recovery, failures, cancellations and process
  restarts all interleave. `LifecycleInvariant`, `LifecycleSteps`, `LifecycleReattach`,
  `LifecycleOpening` and `LifecycleTheorems` show that every step keeps one invariant and spares what the
  other tasks rely on. `LifecycleEffects` says what one step adds to the log and which operations it begins.
  `LifecycleSafety`, `LifecycleTunnels`, `LifecycleOutcomes` (what a close was told decides whether its row
  goes), `LifecycleStarts` (where no inspection is made, nothing was ever started) and `LifecycleReady` (what
  makes a session READY) state what follows for every run, and `LifecycleWitnesses` gives runs in which a
  promise fails. `LifecycleOpenAlone`, `LifecycleStartAlone`, `LifecycleCloseAlone`, `LifecycleRetryAlone`,
  `LifecycleRecoverAlone` and `LifecycleExitAlone` follow each request, start task, recovered record and lost
  tunnel from its first step to its last when nothing else takes a turn; `LifecyclePresence` does so for the
  client callbacks. `Records` and `Database` hold the
  durable rows and one function for each SQL statement.
- **Session operations.** `Service` runs the same operations one at a time as methods that update the
  service's tables in place (`Storage` is the sessions table, `Registry` the published ports,
  `Operations` and `Backoff` say what the operations do as functions of the answers their awaits get).
  It shows what one operation leaves behind wherever it fails or is cancelled.
- **Routes and chains.** `ProxyJump` is the endpoint parser with the grammar it accepts and a printer,
  `Route` the recursive expansion against the finite expansion tree, `Chain` the loop that opens a chain
  hop by hop under one deadline.
- **Host trust.** `KnownHosts` has both scanners of known_hosts and the trust operation that rewrites the
  file, `TrustProgress` the rounds of opening, trusting and retrying. `Text` holds the Python string
  operations all of these use.
- **Login throttle.** `Throttle`.

Some promises are true only under a condition. Each of these is proved with its exact condition, both ways,
and with an input for which it fails:

- A row owns a slot unless the caller of its open was cancelled between INSERT and acquire; such a
  cancellation does leave a row without a slot (`UnownedRowWasAbandoned`, `AbandoningLeavesUnowned`; a run:
  `AbandoningHappens`).
- _tunnels, unlike the other tables, can outlive the reservation: exactly when a task that closes a session
  puts back a chain it could not close after the slot was gone, or releases the slot after one was put back
  (`StrandedTunnelWasPutBack`, `StrandsLeaves`; a run: `StrandingHappens`).
- A kept chain can be lost to another stored over it: exactly when a closing task (a close, a tunnel exit or
  a startup inspection) puts its own back, a reattachment after a tunnel's exit installs or keeps its own, or
  a start task does, while one is kept (`ReplacedExactly`; a run: `ReplacingHappens`). The reattachments of
  retries and of startup recovery never do that.
- Open is all-or-nothing exactly when no second cancellation cuts its clean-up (`DoOpen`; an input:
  `CleanUpCutHappens`).
- A reattachment keeps account of its chain unless a cancellation arrives while that chain is being closed,
  or while the listener is awaited after closing the chain failed (`ReattachExisting`; an input:
  `CloseCutHappens`).
- A row is READY only with its tunnel installed, except when a cancellation arrives while the recovery is
  being completed: the statement takes effect and the chain is closed all the same (`AttemptLeaves`; an input:
  `ReadyWithoutTunnelHappens`).
- An identity mismatch keeps a retry from stopping, removing or deleting exactly when the attempt's chain
  closes; otherwise the retry falls through to closing (`Retry`; an input: `MismatchCanStillDelete`).
- recover_all counts one failure twice for a running ERROR row with a close reason whose chain does not
  close; the report adds up otherwise (`RecoverAll`; an input: `CountedTwiceHappens`).
- known_hosts holds exactly the approved entry after a trust just when the token can be read back
  (`ExactlyWhenReadable`; an input: `HashHostIsNeverTrusted`); approvals can make a route's peers trusted just
  when peers sharing a token share a key (`SettlesExactlyWhenConsistent`; two configured
  hosts that share one but not the other: `SharedTokenNeverSettles`).
- The login bound holds of all runs exactly when the lockout is positive (`BoundedExactlyWithLockout`);
  settings allow a lockout of zero (`WithoutLockoutUnbounded`).
- A locked-out client stays out until the lockout is over exactly when the lockout is zero, or a single failure
  locks and the lockout is no longer than the window: failures that leave the window are forgotten, and with
  them the lockout (`LockoutHoldsExactly`; inputs: `LockoutCutShort`). When a login is allowed, in terms of the
  failures alone, is `AllowedExactly`.

## Model

| member | source | states |
|---|---|---|
| LifecycleSafety.OneRowAndBoundedLedger | src/vscode_gateway/sessions.py:176-247 | in every state of every run there is one row per alias and no more owned slots than the larger of capacity and the rows found at startup |
| LifecycleSafety.InsertNeverConflicts | src/vscode_gateway/sessions.py:198-225 | when open has seen no row for its alias, none appears before its INSERT: the UNIQUE constraint is never hit |
| LifecycleSafety.TablesNeverOutliveReservation | src/vscode_gateway/sessions.py:1235-1260 | registry, presence counts and grace timers only ever hold ids that own a slot, late client callbacks and duplicated closes included |
| LifecycleSafety.UnownedRowWasAbandoned | src/vscode_gateway/sessions.py:218-236 | a row without a slot, and with no open about to take one, belongs to an open cancelled between INSERT and acquire |
| LifecycleSafety.AbandoningLeavesUnowned | src/vscode_gateway/sessions.py:225-228 | such a cancellation does leave a row that nobody owns |
| LifecycleWitnesses.AbandoningHappens | src/vscode_gateway/sessions.py:225-236 | a concrete run from an empty table in which an open is cancelled there |
| LifecycleSafety.SlotReleasedAfterRow | src/vscode_gateway/sessions.py:830-834 | no step of any task gives up a slot while its row exists |
| LifecycleSafety.CloseIntentIsIrrevocable | src/vscode_gateway/sessions.py:715-738 | once a close reason is on a row, no further events take that session back to STARTING or READY: it is STOPPING or ERROR, with a reason, until deleted |
| LifecycleSafety.RecoveryAlwaysCompletes | src/vscode_gateway/sessions.py:519-541 | a recovery that began is never refused its completion: the row stays and nobody records a close until the attempt ends |
| LifecycleSafety.DeletionIsLogged | src/vscode_gateway/db.py:305-307 | a row disappears only in a step that records which operation deleted it, or in open's own rollback |
| LifecycleSafety.DeletionsAreJustified | src/vscode_gateway/sessions.py:769-830 | every unforced deletion follows, in the same operation, a stop confirmation, a not-running inspection or the pre-remote-failure rule; remote removal follows one of the first two |
| LifecycleOutcomes.DeletesExactly | src/vscode_gateway/sessions.py:769-834 | in every state of every run, a step deletes a row without force exactly when a close that was told of no error is at its end, or startup recovery found nothing running, removed what was left and closed its chain; errors are the answers a close got in the whole run, a failing listener of a tunnel it took included |
| LifecycleOutcomes.ClosesExactly | src/vscode_gateway/sessions.py:801-834 | a close ends with its row deleted exactly when it is forced or was told of no error; else the row is a STOP_FAILED error that keeps its reason, identity and slot |
| LifecycleOutcomes.DeletedWithoutErrors | src/vscode_gateway/sessions.py:817-828 | an operation that was told of an error never deletes its row without force, and forced deletions only follow a forced close request for the alias |
| LifecycleStarts.PreRemoteWasNeverStarted | src/vscode_gateway/sessions.py:858-863 | where a close took the session for gone by the pre-remote-failure rule, no open ever asked the helper to start it, before or after, restarts included |
| LifecycleStarts.LaunchedExactly | src/vscode_gateway/sessions.py:285-287 | the ids counted as started are exactly those for which some start task of the run asked the helper |
| LifecycleReady.ReadyExactly | src/vscode_gateway/sessions.py:316-320 | a step makes a session READY exactly when a start task's editor answered, or a reattachment found the session's own process with a working editor and nobody closed the row; the row then has the inspected identity and the new port |
| LifecycleOpenAlone.OpenServed | src/vscode_gateway/sessions.py:190-247 | an open served alone adds exactly one STARTING row, its slot and its start task, and leaves no lock or request behind |
| LifecycleOpenAlone.TakenOrFullRefused | src/vscode_gateway/sessions.py:198-216 | an open of an alias with a session, or beyond the capacity, leaves nothing behind |
| LifecycleStartAlone.StartTaskAlone | src/vscode_gateway/sessions.py:273-347 | a start task that runs alone ends READY with identity, tunnel and port exactly if all its awaits succeed; else in ERROR with the code of the await that failed, keeping only what its clean-up could not undo |
| LifecycleCloseAlone.CloseServed | src/vscode_gateway/sessions.py:708-738 | a close served alone, and the close it spawns, delete the row and free the slot exactly if they are told of no error; port and timer go in any case, and no lock or task is left |
| LifecycleCloseAlone.ForcedCloseServed | src/vscode_gateway/sessions.py:708-843 | a forced close served alone deletes the row, frees the slot and keeps no chain, whatever it is told |
| LifecycleCloseAlone.ShutAloneLeaves | src/vscode_gateway/sessions.py:740-843 | what _do_close leaves of row, slot, tunnel, port, counts and timer, and how each of its four callers goes on |
| LifecycleRetryAlone.RetryResumes | src/vscode_gateway/sessions.py:904-929 | a retry that finds the session's own process makes it READY with a new tunnel and port |
| LifecycleRetryAlone.RetryUnavailable | src/vscode_gateway/sessions.py:911-917 | a retry that finds another process is refused and changes nothing but the local port |
| LifecycleRetryAlone.RetrySleeps | src/vscode_gateway/sessions.py:602-615 | after another failure within the deadline it sleeps, still holding the alias's lock |
| LifecycleRetryAlone.RetryCloses | src/vscode_gateway/sessions.py:930-946 | a retry of a session being closed, or whose open never reached the helper, closes it and reopens the alias exactly if the row is gone |
| LifecycleRetryAlone.RetryClosesAfter | src/vscode_gateway/sessions.py:918-946 | so does one that finds the process absent, or fails past the deadline |
| LifecycleRecoverAlone.RecordAlone | src/vscode_gateway/sessions.py:958-1040 | startup recovery of any one record, from its lock to the next record: which answers delete, publish or mark the row, and what becomes of slot and lock |
| LifecycleExitAlone.ExitReconnects | src/vscode_gateway/sessions.py:1269-1300 | a session whose tunnel is lost gets a new tunnel and port if its own process is found |
| LifecycleExitAlone.ExitMisses | src/vscode_gateway/sessions.py:1269-1300 | a failed attempt waits to try again exactly if it was no refusal and the deadline has not passed |
| LifecycleExitAlone.ExitGivesUp | src/vscode_gateway/sessions.py:1311-1322 | else the row becomes a TUNNEL_LOST error without port, and keeps only a chain that did not close |
| LifecycleExitAlone.ExitOfOther | src/vscode_gateway/sessions.py:1269-1278 | a session being closed, or whose tunnel is another by now, is left alone |
| LifecyclePresence.ClientsArePeak | src/vscode_gateway/sessions.py:1235-1260 | after any client callbacks the presence count is the largest surplus of connections over any end of them, those there before included: a spurious disconnection never spoils the count; nothing but counts and timers changes |
| LifecyclePresence.TimersExactly | src/vscode_gateway/sessions.py:1210-1260 | the grace period runs exactly for a session with no client left and no connection or expiry since its last disconnection, or whose timer nobody took away |
| Records.InspectionDecides | src/vscode_gateway/sessions.py:436-488 | an inspection is accepted exactly when it is running, confirmed, complete, positive or non-empty, and equal to every persisted field; it counts as absence exactly when nothing runs |
| Records.PreRemoteExactly | src/vscode_gateway/sessions.py:60-67 | a close needs no inspection exactly with one of the four codes, no identity field and no local port |
| LifecycleSafety.IdentityIsWriteOnce | src/vscode_gateway/sessions.py:466-479 | no step of any run replaces a persisted identity field by another value: fields are set once or cleared |
| LifecycleTunnels.StrandedTunnelWasPutBack | src/vscode_gateway/sessions.py:801-834 | _tunnels holds an id without a slot only after a close, tunnel exit or startup inspection put back an unclosed chain when the slot was gone, or a close or startup deletion released the slot when one was put back |
| LifecycleTunnels.StrandsLeaves | src/vscode_gateway/sessions.py:801-834 | each such step does leave the tunnel without a slot |
| LifecycleWitnesses.StrandingHappens | src/vscode_gateway/sessions.py:807-834 | a run, with requests only after startup recovery, in which a spawned close fails to close its chain after a forced close has deleted the row and ended, and puts it back |
| LifecycleTunnels.ReplacedExactly | src/vscode_gateway/sessions.py:537-570 | in every state of every run, a step puts another tunnel in place of a kept one exactly when a close, tunnel exit or startup inspection puts its chain back, a tunnel-exit reattachment installs or keeps one, or a start task does, while one is kept; reattachments by retry and startup recovery never do |
| LifecycleWitnesses.ReplacingHappens | src/vscode_gateway/sessions.py:807-811 | a run in which the second of two spawned closes puts its chain back over the one the first could not close |
| LifecycleTheorems.RunInv | src/vscode_gateway/sessions.py:190-247 | the invariant behind the theorems holds in every state of every run, restarts included |
| LifecycleTheorems.StepGood | src/vscode_gateway/sessions.py:118-126 | one step of any task keeps the shared invariant and what every other task relies on, with alias locks as the only exclusion |
| LifecycleInvariant.GoodStepKeepsInv | src/vscode_gateway/sessions.py:187-188 | a step that is good for its own task leaves the invariant of all tasks intact |
| LifecycleSteps.NotRunning | src/vscode_gateway/sessions.py:725-730 | under the alias lock a start task that left _start_tasks has ended: close and retry never touch resources a start task still uses |
| LifecycleSteps.StopRemoteJustified | src/vscode_gateway/sessions.py:769-787 | a close counts the remote as absent only with evidence, and asks for removal only after it |
| Service.SessionService.TryOpen | src/vscode_gateway/sessions.py:273-329 | wherever the try block stops, rows, tunnel, published port, chain and ledger are exactly those of the awaits passed |
| Service.SessionService.ReleaseTunnel | src/vscode_gateway/sessions.py:645-666 | clean-up withdraws the port and the tunnel and forgets the local port only if the listener closed |
| Service.SessionService.StopStarted | src/vscode_gateway/sessions.py:668-679 | clean-up clears the persisted identity only when the stop was confirmed |
| Service.SessionService.CloseLedgerChain | src/vscode_gateway/sessions.py:681-693 | clean-up closes the chain, or keeps it owned because closing failed |
| Service.SessionService.OpenFailureCleanup | src/vscode_gateway/sessions.py:630-706 | a READY session found after mark_ready is left untouched; otherwise everything acquired is released |
| Service.SessionService.DoOpen | src/vscode_gateway/sessions.py:273-347 | an open ends READY holding identity, tunnel and port, or ERROR holding nothing but a chain whose close failed, exactly when no second cancellation cuts the clean-up; READY exactly when mark_ready was issued; the recorded code is that of the await that failed, and the pre-remote rule applies only if no start was asked for |
| Service.CleanUpCutHappens | src/vscode_gateway/sessions.py:681-706 | a concrete open that fails, is cancelled while its chain is being closed, and leaves its row STARTING |
| Service.SessionService.Open | src/vscode_gateway/sessions.py:190-247 | an unlisted, existing or over-capacity open changes no row, table or chain, its own INSERT rolled back included; one that starts adds one row and one slot within the capacity and ends as DoOpen says |
| Service.SessionService.Close | src/vscode_gateway/sessions.py:708-738 | the alias's row is deleted and its slot freed exactly for force or a clean close, else it is an error that keeps the reason and the slot; the port is withdrawn in any case |
| Service.SessionService.OpenThenClose | src/vscode_gateway/sessions.py:769-787 | after an open that asked the helper to start, an unforced close deletes the row only after asking the helper to remove the session |
| Service.SessionService.OpenThenForceClose | src/vscode_gateway/sessions.py:708-738 | a forced close undoes an open wherever it failed or was cancelled: rows, slots and published ports are as before |
| Service.SessionService.ReattachExisting | src/vscode_gateway/sessions.py:417-570 | the chain an attempt opens ends installed, closed or retained exactly unless a cancellation hits the closing of the chain, or the wait for the listener after that closing failed; it is open afterwards exactly if installed or not closed; a port is published only with an installed chain; it is installed exactly when the helper confirms the session's own process and all awaits succeed, and the row then says so |
| Operations.AttemptDecides | src/vscode_gateway/sessions.py:490-570 | exactly when an attempt attaches, finds the process absent or ends as cancelled, in terms of what its awaits answer |
| Operations.AttemptLeaves | src/vscode_gateway/sessions.py:519-541 | no attempt but a confirmed one changes more of its row than the local port; the row becomes READY exactly when the attempt installs, or is cancelled while completing; removal is asked for exactly when nothing runs |
| Service.ReadyWithoutTunnelHappens | src/vscode_gateway/sessions.py:533-539 | a concrete attempt cancelled there leaves the row READY with no chain, tunnel or port |
| Service.CloseCutHappens | src/vscode_gateway/sessions.py:553-570 | a concrete attempt cancelled while its chain is being closed leaves that chain open and in no table |
| Service.SessionService.ReattachWithRetry | src/vscode_gateway/sessions.py:572-615 | with a given record or one read under the alias lock for each attempt, all but the last attempt broke; sleeps never pass the deadline; with timeout T there are fewer than (T + 18) / 5 attempts, whatever each takes |
| Backoff.DelayIsCappedPower | src/vscode_gateway/sessions.py:614-615 | the k-th delay is min(2^k, 5) |
| Backoff.DelaySumGrows | src/vscode_gateway/sessions.py:59-60 | n full delays take at least 5n - 8 seconds |
| Operations.MismatchDecides | src/vscode_gateway/sessions.py:553-570 | an attempt that saw a mismatch reports it if its chain closes; if closing fails it and all later attempts break, and none inspects again |
| Operations.HeldStays | src/vscode_gateway/sessions.py:496-497 | while tunnel resources are owned, attempts change nothing and ask the helper nothing |
| Service.SessionService.RetryAttach | src/vscode_gateway/sessions.py:904-929 | a loop that saw a mismatch breaks exactly when that chain's close fails or the deadline interrupts it; else it only inspected and stopped there |
| Service.SessionService.Retry | src/vscode_gateway/sessions.py:879-946 | which end of the loop resumes, refuses or closes; with a mismatch seen, retry goes on to close exactly in that case; otherwise no stop, removal or deletion and no slot released |
| Service.MismatchCanStillDelete | src/vscode_gateway/sessions.py:553-570 | a concrete retry that sees another process, cannot close its chain, and stops, removes and deletes |
| Service.SessionService.StopAndRemove | src/vscode_gateway/sessions.py:769-791 | absence is confirmed exactly by the pre-remote rule, a stop, or an inspection of nothing running; which helper calls are made |
| Service.SessionService.CloseResources | src/vscode_gateway/sessions.py:758-811 | the remote is absent with no error exactly when the close is clean; the chain is kept exactly when its close failed and force was not asked |
| Service.SessionService.Conclude | src/vscode_gateway/sessions.py:813-834 | the row is deleted and the slot released exactly for force or a clean close |
| Service.SessionService.DoClose | src/vscode_gateway/sessions.py:740-843 | an uninterrupted close deletes the row and frees slot and port exactly for force or a clean close; else the row is a STOP_FAILED error that keeps its close reason and slot; its chain is closed, or kept exactly when its close failed without force |
| Service.SessionService.RecoverClosing | src/vscode_gateway/sessions.py:1001-1030 | an ERROR row being closed is deleted exactly when nothing runs, removal is confirmed and the chain closes; a failure counts twice only when it runs and the chain does not close |
| Service.SessionService.RecoverLive | src/vscode_gateway/sessions.py:964-992 | a row that may have its process is deleted exactly when it is not READY, nothing runs, removal is confirmed and the chain closes; READY with the inspected identity, tunnel and port exactly when its own process is confirmed; else an error that keeps its identity unless the process is known to be gone |
| Service.SessionService.RecoverAll | src/vscode_gateway/sessions.py:948-1062 | with nothing else running, every row meets its fate as those three operations say; owned ids are exactly the remaining rows, cleaned counts the rows removed, and cleaned, recovered and remaining errors add up to all rows; failures equal remaining errors but for the double count |
| Service.CountedTwiceHappens | src/vscode_gateway/sessions.py:1010-1047 | a concrete row for which recovered, failed and cleaned add up to two |
| ProxyJump.EndpointAccepted | src/vscode_gateway/ssh_connection.py:119-158 | the endpoint parser accepts exactly [user@]host[:port] with bracketed IPv6 hosts, and reads it as the hop it spells |
| ProxyJump.AcceptedExactly | src/vscode_gateway/ssh_connection.py:161-179 | the value parser accepts exactly the keyword none and comma-separated endpoint spellings none of which is that keyword |
| ProxyJump.PortAccepted | src/vscode_gateway/ssh_connection.py:99-105 | a port is a decimal number from 1 to 65535, leading zeros allowed |
| ProxyJump.PrintParses | src/vscode_gateway/ssh_connection.py:161-179 | parse(print(hops)) == hops for all well-formed hops, users with '@' included |
| ProxyJump.ReprintParses | src/vscode_gateway/ssh_connection.py:119-179 | every accepted value yields well-formed hops whose reprint parses to the same hops |
| Route.Resolver.Visit | src/vscode_gateway/ssh_connection.py:397-444 | a visit appends the post-order of the hop's expansion if what it adds fits, and fails exactly if no expansion fits |
| Route.Resolve | src/vscode_gateway/ssh_connection.py:387-447 | resolving succeeds exactly when the alias has a finite expansion with at most eight jump hosts, all different and none the alias; the route is that tree's post-order |
| Route.EightLeavesAtMost | src/vscode_gateway/ssh_connection.py:411-412 | an alias that lists different hosts without jumps of their own resolves exactly if they are at most eight |
| Route.ExpansionIsUnique | src/vscode_gateway/ssh_connection.py:426-434 | a hop has at most one finite expansion |
| Route.RouteIsShort | src/vscode_gateway/ssh_connection.py:24 | a route has one to nine endpoints and ends at the alias |
| Chain.CloseConnectionChain | src/vscode_gateway/ssh_connection.py:482-495 | whatever close() raises and however the wait ends, a cancellation included, all connections are asked to close, last first, and each is waited for |
| Chain.AskedLastFirst | src/vscode_gateway/ssh_connection.py:482-495 | the connections asked to close are all of them, once each and backwards, for every outcome of the closes |
| Chain.RecordHostKeyChallenge | src/vscode_gateway/ssh_connection.py:522-557 | a refused key becomes the pending challenge, and counts as changed exactly when the file already has an entry for the presented host and port |
| Chain.OpenChain | src/vscode_gateway/ssh_connection.py:241-281 | all hops open in time and the result is one connection each, opened through its predecessor; or the first that does not decides the error and the challenge, whatever the closes meet, and all opened ones are closed in reverse |
| Chain.ConnectForSession | src/vscode_gateway/ssh_connection.py:225-355 | a connection for an alias ends at that alias along its resolved route; every failure, one that interrupts the resolving included, leaves all opened connections closed |
| Chain.FailureCodes | src/vscode_gateway/ssh_connection.py:280-343 | each error code of a failed hop has exactly the causes listed, changed and unknown keys told apart by the file's entries |
| Chain.FailedChainIsBalanced | src/vscode_gateway/ssh_connection.py:280-281 | after a failure every connection was opened as often as asked to close, whatever the closes raise |
| Chain.TimeoutsShrink | src/vscode_gateway/ssh_connection.py:248-264 | each hop gets a positive timeout that is what remains of the one deadline, never more than its predecessor got |
| KnownHosts.IsKnownHost | src/vscode_gateway/ssh_connection.py:566-590 | the SSH service's scanner finds an entry exactly when the trust service's matching part is not empty |
| KnownHosts.HostTrust.ExistingEntryLines | src/vscode_gateway/host_trust.py:39-66 | the lines are split into those naming the token and the others, each in order |
| KnownHosts.ScannersAgree | src/vscode_gateway/host_trust.py:219-226 | for every text, host and port a key counts as changed exactly when replacing must be asked for |
| KnownHosts.RewriteIsExact | src/vscode_gateway/host_trust.py:68-88 | the re-read file has exactly the approved entry for the token if it can be read back and none otherwise, after all other lines verbatim and in order |
| KnownHosts.ExactlyWhenReadable | src/vscode_gateway/host_trust.py:24-26 | the rewrite leaves exactly one entry just for hosts without whitespace or comma and, on port 22, neither empty nor starting with '#' |
| KnownHosts.TokenOkHost | src/vscode_gateway/host_trust.py:24-26 | which hosts have a token that can be read back |
| TrustProgress.JumpHostsAreReadable | src/vscode_gateway/ssh_connection.py:119-158 | of the jump hosts the ProxyJump parser accepts, only those that start with # have an unreadable token, and only on port 22 |
| TrustProgress.HashHostIsNeverTrusted | src/vscode_gateway/host_trust.py:24-26 | the jump host #h is accepted, and approving its key on port 22 never makes it trusted |
| KnownHosts.HostTrust.Trust | src/vscode_gateway/host_trust.py:183-229 | a decision is accepted exactly when it repeats the pending challenge, names its algorithm, and replaces or finds no entry; a refusal changes neither file nor challenge, and after acceptance the file is exact and the challenge gone |
| TrustProgress.TrustDecreases | src/vscode_gateway/host_trust.py:183-229 | each approval of an untrusted endpoint strictly lowers the number of route endpoints without a matching key |
| TrustProgress.TrustKeepsOthers | src/vscode_gateway/host_trust.py:39-66 | an approval takes no other endpoint's trust away |
| TrustProgress.ApprovalTakesEffect | src/vscode_gateway/host_trust.py:68-73 | right after an approval, a peer sharing the token is trusted exactly if the token can be read back and it presents the approved key |
| TrustProgress.SettlesExactlyWhenConsistent | src/vscode_gateway/host_trust.py:68-73 | some run of approvals makes all peers trusted exactly when peers that share a token share a key |
| TrustProgress.SharedTokenNeverSettles | src/vscode_gateway/host_trust.py:24-26 | two hosts that share a token and present different keys are never both trusted, after any run of approvals |
| TrustProgress.BracketFreeIsConsistent | src/vscode_gateway/host_trust.py:24-26 | hosts without brackets never share a token |
| TrustProgress.ChallengeIsFirstUntrusted | src/vscode_gateway/ssh_connection.py:247-277 | the challenge a failed chain leaves is for the first endpoint without a matching key, and a chain that leaves none did not fail host verification |
| TrustProgress.OpenVerified | src/vscode_gateway/ssh_connection.py:241-279 | a chain opens only if every endpoint has a matching key, and with nothing else going wrong fails only by a challenge |
| TrustProgress.TrustAndRetry | src/vscode_gateway/ssh_connection.py:522-557 | opening, trusting the challenge left and retrying ends after at most as many rounds as endpoints lacked a key, with an open that does not fail host verification and, if it succeeds, with every endpoint trusted |
| TrustProgress.NineRoundsSuffice | src/vscode_gateway/ssh_connection.py:241-279 | for any alias that resolves, at most nine rounds |
| Throttle.LoginThrottle.Check | src/vscode_gateway/auth.py:141-151 | a check is allowed below the limit or once window and lockout have passed; else retry_after is the first whole second past both |
| Throttle.LoginThrottle.RecordFailure | src/vscode_gateway/auth.py:153-157 | a failure is appended to the pruned list of its key only |
| Throttle.LoginThrottle.Login | src/vscode_gateway/routes.py:144-167 | a login changes its key's list as the request's outcome says and no other key's |
| Throttle.FailuresAreBounded | src/vscode_gateway/auth.py:133-160 | with a positive lockout, no half-open window since the last success holds more than max_attempts failures, whatever is sent |
| Throttle.BoundedExactlyWithLockout | src/vscode_gateway/auth.py:141-151 | the bound holds of all runs exactly when the lockout is positive |
| Throttle.WithoutLockoutUnbounded | src/vscode_gateway/settings.py:77-79 | a run with no lockout that exceeds the bound, for every limit and window |
| Throttle.AllowedExactly | src/vscode_gateway/auth.py:132-151 | under any settings and after any requests, a login is allowed exactly when fewer than max_attempts failures since the last success are in the window, or the oldest lies on its edge and the lockout has passed |
| Throttle.LockoutHoldsExactly | src/vscode_gateway/auth.py:145-149 | a locked-out client is denied until the lockout is over, in every run, exactly when the lockout is zero or a single failure locks for no longer than the window |
| Throttle.LockoutCutShort | src/vscode_gateway/settings.py:77-79 | runs in which a locked-out client is let in before the lockout is over |
| Throttle.LockoutEndsWithWindow | src/vscode_gateway/auth.py:132-151 | a key without a failure in the last window is never denied, whatever the lockout |
| Throttle.AllowedIsSpread | src/vscode_gateway/auth.py:145-151 | a failure after an allowed check is a full window later than the one max_attempts before it |
| Throttle.RetryAfterIsEnough | src/vscode_gateway/auth.py:145-150 | after a denial that saw exactly max_attempts failures, a check retry_after seconds later with no new failure is allowed |

## Left out

- SQL statements are atomic and take effect when issued; database failures are not modelled.
- Columns nothing branches on: stage, error message, timestamps, presence counts and the disconnect
  deadline in the row; error codes nothing branches on are one value.
- In `Lifecycle`, one step covers a stretch of awaits that touch no shared state: connecting, installing
  and starting the remote process of an open, or connecting, inspecting and forwarding of a reattachment.
- The grace watcher is folded into two events: a close request at any time, and the end of its entry.
- `Lifecycle` lets tasks switch at a few points where the code has no await, such as closing a chain without
  a listener: more runs than the program has. The runs of `LifecycleWitnesses` do not switch there.
- The theorems of the `...Alone` modules follow requests that nobody cancels or interleaves with; cancelled and
  interleaved ones are covered by the theorems over all runs.
- asyncio's lock fairness: a waiting task may be overtaken, which allows more runs than the program has.
- shutdown, reconcile_catalog, workspace views and background-task error logging.
- In `Service`, presence tables, grace timers and alias locks, which `Lifecycle` has; an open's start task
  and a close's spawned task run to their end at once, the start task that retry awaits has ended, and the
  open that follows a successful retry is only reported.
- Service.SessionService.DoOpen: the exception type that leaves the operation and _run_open's late error
  marking are not stated; the latter is in `Lifecycle`.
- Service.SessionService.ReattachWithRetry: what other tasks do between attempts to this session's row and
  held tunnels is arbitrary; their effect on other sessions and their helper calls are in `Lifecycle`.
- Service.SessionService.RecoverAll: assumes that nothing is cancelled and that the process has just
  started; interleaved and cancelled recovery is in `Lifecycle`. Restoring disconnect timers is left out.
- Service.SessionService.TryOpen: requires that the id has no published port, since open has just made it.
- Service.SessionService.Close: is stated for closes that are not cancelled; cancelled ones are in
  `Lifecycle` and in DoClose.
- Remote helper commands, SFTP, the editor health check and AsyncSSH: represented by their answers.
- Which colon-bearing text is an IPv6 address is a parameter of the ProxyJump parser.
- Route.Resolve: the SSH config is read as one fixed function from hop to options, and every failure to
  construct options counts as an invalid configuration.
- Error messages; `Chain` keeps the codes.
- AsyncSSH's own matching of known_hosts (patterns, hashed names, revoked keys): `TrustProgress` uses the
  exact host token.
- known_hosts text that is not valid UTF-8, read errors, file permissions and the atomicity of the
  replacing rename.
- Preservation of other hosts named on a comma-separated line that is replaced.
- Times are exact reals, not floats.
