# Enzarb: verified models of the state that several actors race over

Enzarb runs workflow tracks for repositories in sandboxes. This project models, in Dafny, the parts
where state outlives one call and several actors work on it at once, and proves what those parts
promise over every run. Check it with `dafny verify dfyconfig.toml`.

## What is modelled

**The run executor** (`tracks/src/exec.rs`). `RunTable` holds every SQL statement as a function on a
row, and a class whose methods change the table in place; `Executor` lets any number of replicas
claim, steal expired leases, stall and crash between two statements; `ExecutorSafety` proves that no
transition is lost, that waits are consumed once, that ended is absorbing and that `max_runs` holds.
`render` and `advance` are arbitrary functions; lease expiry is a step that can happen at any time,
so nothing rests on clocks. Hypothesis, made a guard of the claim step: a process does not claim a
run while an earlier drive of it in the same process is in flight, because the fence is per process
(`tracks/src/exec.rs:147`). `ClaimsMustWait` proves that ended is absorbing exactly under this
hypothesis, `ExecutorLimits.NothingLostIff` that no transition is lost exactly under it, and
`EndedChangesIff` and `StaysEndedIff` say, for any state and any run without it, which step alone changes
an ended run. `ExecutorLimits` also says how far `max_runs` reaches once runs are woken.

**The comment action** (`tracks/src/actions.rs`). `CommentAction` has the paged search and the POST as
a method over a subject on which others comment meanwhile, and a transition system of drives that
crash and lose replies. Hypotheses: comments are not deleted; a drive that lost its lease makes no
further call, and a call takes effect, if at all, before the drive stops. The limit of 30 pages is
part of the model: beyond 3000 comments a replay does post twice (`SecondFollowsIff`).

**The change stream** (`realtime/src`). `Hub` is the bounded broadcast ring, `Realtime` the listener,
the ring and any number of filtering clients, with lost connections, failed lookups and lag. The listener's
loop and the client's loop are methods, tied to the steps of that system (`LogIsPublished`,
`DrainIsDelivery`).

**The sandbox proxy.** `Guard` and `ChatSlot`: the one chat slot of a socket between two FIFO queues.
`Revocation`: watch events, the name tracker, the notification ring and the relays' checks.
`Credentials` and `Rekey`: associated data, the keyring over a perfect cipher, the store, and key
rotation while other replicas put and delete rows and calls fail with or without effect.

**The sandbox supervisor.** `ChatAdmission`: registration, supersede-and-wait, shutdown.
`WorkspacePrune`, `CheckoutScan`, `CacheDirs` and `AsideNames`: the pruner's phases, its verdict on a
checkout, its search for caches and the names it sets directories aside under. `LineBuf` and
`Capture`: the streaming scanners. `Reaper` and `ChildReaping`: the registry of children against a
kernel that reuses pids, for every policy of who locks, who is waited for and who else waits. Hypothesis,
a flag of the policy (`exclusive`): no other code waits for a registered child, nor for any child beside a
reaper of all; `AllToldIff`, `NoneFalseIff` and `NothingIsLostIff` say what rests on it. In the same way the
order in which chats register is a flag of `ChatAdmission` (`ordered`), and only the cap rests on it.

**The GitHub client.** `RateLimit`: waiting out limits. `SnapshotCache`: the cache of branch heads and
their files, revalidated with entity tags.

A label of a transition system that is not enabled changes nothing, so a theorem about every sequence
of labels is a theorem about every run. Methods take what the world does (other writers, refusals,
the time that passes, what concurrent calls learn) as an arbitrary script or an arbitrary choice.

## What was found

These are places where the code does not do what its comments or the obvious reading promise, each with
a concrete run and the exact condition.

- The flip of a pending run to `running` (`tracks/src/exec.rs:493-500`) does not test `finished_at`. In any
  state it changes an ended run exactly if a drive of that run holds a snapshot that says pending, its
  replica owns the row and the cap allows it (`ExecutorSafety.EndedChangesIff`). That never happens as long
  as no process claims a run while an earlier drive of it is in flight there, and does happen otherwise
  (`ExecutorSafety.ClaimsMustWait`, `ExecutorSafety.ReclaimRevivesAnEndedRun`). Under the same condition, and
  only then, no stale drive overwrites an advanced state (`ExecutorLimits.NothingLostIff`,
  `ExecutorLimits.StaleWriteLoses`).
- `max_runs` is not asked again when a run is woken from a wait. The running runs are at most the largest
  pinned `max_runs` and those that were woken (`ExecutorLimits.RunningIsBounded`), and for every cap any
  number of runs can be running that way (`ExecutorLimits.WakeUpsExceed`).
- A comment can be posted twice: once the first one of a node visit is posted, a second one can follow
  exactly if the first has 3000 or more comments before it and none of the first 3000 carries the marker,
  whoever wrote it (`CommentAction.SecondFollowsIff`, with the run in `CommentAction.DuplicatePastReach`).
- A client that subscribes before the very first successful LISTEN can miss an event without a resync
  (`Realtime.EarlyEventIsMissed`). The stream answers from that LISTEN on, or from the beginning if an
  attempt failed before it; of an earlier event a client is told exactly by a resync it gets for another
  reason (`Realtime.EarlyEventIff`, `Realtime.ToldIff`).
- The proxy's slot alone keeps a socket at one chat exactly if the sandbox takes no channel id twice, not
  even one it refused, and honours a CLOSE that comes before its decision (`ChatSlot.OneChatIffStrict`).
  A sandbox that does either can have two chats as far as the proxy is concerned; the supervisor's own
  check of the socket (`ChatAdmission.OneChatPerSocket`) is then what keeps them apart.
- Connection ids are drawn before the registry lock is taken (`sandbox-container/src/chat.rs:578`), so
  registration order can differ from id order. For every cap of at least one, the cap holds in all runs
  exactly if the orders agree (`ChatAdmission.CapHoldsIff`); if they do not, any number of chats can pass
  (`ChatAdmission.OutOfOrderBreaksTheCap`).
- Two resumed chats can work under one chat id: an older chat that takes its id after a newer one made
  room under the same id is not noticed (`ChatAdmission.OneChatPerIdIff`). This happens in some run exactly
  if the cap is at least two, or is one and chats can register out of id order
  (`ChatAdmission.TwoUnderOneIdIff`, with the run for an ordered registry in `ChatAdmission.OlderNamedLater`).
- A token candidate shorter than 100 bytes that is ended by anything but a line break switches the scanner
  off for good, even if a whole token follows (`Capture.ShortCandidateIsFinal`). In every stream the scanner
  is switched off without a token exactly if such a candidate occurs, counted from the first prefix since
  the last candidate that ran over (`Capture.SwitchedOffIff`).
- A chunk with a line that is too long fails as a whole: the complete lines before it in the chunk are lost,
  and so is the rest of the chunk. The teardown loop (`sandbox-container/src/chat.rs:1645`) reads on all the
  same, with what was unfinished before that line still buffered. A later line then arrives spliced to it
  (`LineBuf.ReadingOnSplices`), or, with nothing buffered, the end of the long line arrives as a line
  (`LineBuf.ReadingOnBeheads`). Reading on cuts the rest of the stream right exactly if the dropped bytes
  hold a newline and end, after their last one, with just what is buffered; with nothing buffered, exactly
  if they end with a newline (`LineBuf.ReadingOnIff`).
- No request is to be sent while a limit is known to be active (`tracks/src/github.rs:279-282`), but one goes
  out before a deadline that some call was told exactly in two cases (`RateLimit.EarlyIff`). After the sleep
  until the deadline the client does not look again (`tracks/src/github.rs:291-304`), so another call can
  have stored a longer one meanwhile (`RateLimit.SendsWhileBlocked`). And the deadline is always replaced by
  the last answer's (`tracks/src/github.rs:316`), so a shorter one that is over hides a longer one
  (`RateLimit.SendsAfterAShorterAnswer`).
- The rotation's compare-and-set looks at the key id only: a token put under the same old key between the
  read and the update is overwritten (`Rekey.TokenIsLostIff`, `Rekey.OldKeyPutIsLost`).
- A reaper of registered children that finds one gone reports a status the child never had
  (`sandbox-container/src/reaper.rs:116-121`, `ChildReaping.LostIsReported`); this happens exactly if other
  code waits for registered children (`ChildReaping.NothingIsLostIff`).
- A snapshot can be older than the TTL: the age counts from the end of the fetch, while the head was read at
  an instant within it, before any waiting for the two files. The answer is younger than the TTL and what
  the fetch took after that instant (`SnapshotCache.SnapshotCache.GetOrFetch`), and this bound is met
  (`SnapshotCache.OlderThanTheTtl`).

## Model

| member | source | states |
|---|---|---|
| RunTable.Table.Claim | tracks/src/exec.rs:223-236 | takes the lease of the oldest unfinished, pending or running run that is not leased, sets its owner, and changes no other column and no other row; takes none only if there is none |
| RunTable.Table.Release | tracks/src/exec.rs:238-249 | if this replica is still on the row, nobody can claim the run afterwards; else nothing changes; every fence holds as before, no other column and no other row changes |
| RunTable.Table.Renew | tracks/src/exec.rs:259-276 | the heartbeat reports a lost lease exactly if every fenced write would be refused; a run it keeps cannot be claimed meanwhile and is changed in nothing else |
| RunTable.Table.WakeWaiting | tracks/src/exec.rs:203-220 | wakes exactly the parked, unfinished runs that are due, stopped or past their deadline, and counts them; one that only timed out gets the timeout as its result, one that is stopped or past its deadline gets none |
| RunTable.Table.StartAllowed | tracks/src/exec.rs:470-504 | starts a run exactly if fewer than `max_runs` other running, unfinished, non-test runs of its project and workflow are there |
| RunTable.Table.EndRun | tracks/src/exec.rs:507-541 | ends the run exactly if this replica owns it and it has not finished; a lost lease changes nothing |
| RunTable.Table.Park | tracks/src/exec.rs:750-793 | parks node row and run row together or, on a lost lease, neither; the row names the node visit, has no result, no owner and no lease, and waits for a timeout exactly if the node has one |
| RunTable.Table.Finish | tracks/src/exec.rs:798-848 | writes the advanced state exactly under the fence; the local form also clears the wait columns |
| Executor.StepKeeps | tracks/src/exec.rs:295-406 | every statement of every replica keeps the invariant: each row agrees with its log, and whoever owns a row has a current snapshot of it |
| Executor.RunKeeps | tracks/src/exec.rs:295-406 | the invariant holds after every run |
| ExecutorSafety.NoTransitionLost | tracks/src/exec.rs:798-851 | every accepted write of a run's state was computed from the state persisted just before it, and the row holds what the last one wrote, whatever replicas steal, stall or crash |
| ExecutorSafety.WaitsConsumedOnce | tracks/src/exec.rs:694-793 | a park is woken at most once, by event or timeout, and the result is advanced on at once or never, from the very wait visit it was set for |
| ExecutorSafety.WaitResultFitsTheRun | tracks/src/exec.rs:750-793 | a result on a live run belongs to the wait visit that `wait_node_run_id` names and the run is at |
| ExecutorSafety.SweepTells | tracks/src/exec.rs:203-220 | the sweep tells a parked run that it timed out exactly if it is neither stopped nor past its deadline and its wait is due |
| ExecutorSafety.EventTells | tracks/src/exec.rs:694-716 | an event tells the run parked at the visit it names, and no other, with itself as the result |
| ExecutorSafety.WokenIsConsumed | tracks/src/exec.rs:716-744 | in every reachable state a drive that owns a run woken with a result and is at its wait cannot park; it advances from that very visit with the event's own body or the outputs of a timeout, or ends the run as failed if the workflow cannot advance on them |
| ExecutorSafety.WokenComesToWait | tracks/src/exec.rs:295-406 | a drive that loads such a run comes to that wait, unless the run is to stop |
| ExecutorSafety.ReadDecides | tracks/src/exec.rs:302-340 | a drive that read a run which is stopped, past its deadline, over or unreadable neither starts it nor works on it, and can only end it in the one way, which it does if it still owns it |
| ExecutorSafety.ProceedsIff | tracks/src/exec.rs:302-328 | only a run that is at a node, neither stopped nor past its deadline, goes on |
| ExecutorSafety.StartedDecides | tracks/src/exec.rs:358-402 | an end node ends the run with its own status, a node that cannot be rendered ends it as failed, and no other node ends it before its work begins |
| ExecutorSafety.FinishedIffEnded | tracks/src/exec.rs:522-541 | `finished_at` is set exactly when the status is terminal |
| ExecutorSafety.EndedIsAbsorbing | tracks/src/exec.rs:470-541 | once a run ended, no step of any replica changes its status, its state or its log |
| ExecutorSafety.MaxRunsHolds | tracks/src/exec.rs:470-504 | over all interleavings the running, non-test runs of a project and workflow that never parked are at most the largest pinned `max_runs` |
| ExecutorSafety.EndedChangesIff | tracks/src/exec.rs:470-504 | in any state at all, one step changes an ended run exactly if it is the flip by a drive of that run with a pending snapshot whose replica is on the row, under the cap |
| ExecutorSafety.StaysEndedIff | tracks/src/exec.rs:470-541 | over any run, with or without the hypothesis on claims, an ended run stays as it is exactly if no step is such a flip |
| ExecutorSafety.ClaimsMustWait | tracks/src/exec.rs:147 | ended is absorbing over all runs exactly if no process claims a run while an earlier drive of it is in flight there |
| ExecutorSafety.WaitingClaimsSuffice | tracks/src/exec.rs:147 | in each single run whose claims all waited, nothing is lost and ended agrees with finished |
| ExecutorLimits.NothingLostIff | tracks/src/exec.rs:798-851 | over all workflows and runs, no transition is lost exactly if no process claims a run while an earlier drive of it is in flight there |
| ExecutorLimits.StaleWriteLoses | tracks/src/exec.rs:798-851 | otherwise a run in which the older drive of the process overwrites the state the newer one advanced to |
| ExecutorLimits.RunningIsBounded | tracks/src/exec.rs:470-504 | over all interleavings the running, non-test runs of a project and workflow are at most the largest pinned `max_runs` and those woken from a wait |
| ExecutorLimits.WakeUpsExceed | tracks/src/exec.rs:203-220 | for every cap that all runs pinned, any number of them can be running, woken from their waits |
| ExecutorSafety.StalledIsReached | tracks/src/exec.rs:223-236 | the state the counterexample starts from is reached by claim, expiry and load |
| ExecutorSafety.SecondDriveEndsTheRun | tracks/src/exec.rs:507-541 | a second drive of the same process cancels the run behind the first one's back |
| ExecutorSafety.ReclaimRevivesAnEndedRun | tracks/src/exec.rs:493-500 | without the hypothesis on claims a finished run is set back to running |
| CommentAction.MarkerInjective | tracks/src/actions.rs:87-89 | a marker names one node visit of one run, whatever the node is called |
| CommentAction.Subject.Post | tracks/src/actions.rs:197-238 | without trouble a replay finds the comment if one of the first 3000 is marked and posts if none is; a first attempt posts; it fails exactly on trouble, and at most one comment is posted, as the last |
| CommentAction.AtMostOneComment | tracks/src/exec.rs:602-659 | wherever drives crash and whichever replies are lost, a second comment of a visit is there only if the first has 3000 or more comments before it and none of the first 3000 is marked |
| CommentAction.SecondFollowsIff | tracks/src/actions.rs:197-238 | once the first comment of a visit is posted, some continuation posts a second one exactly if the first is past the 3000th and none of the first 3000 is marked |
| CommentAction.ReplayPosts | tracks/src/actions.rs:197-238 | on a subject whose first 3000 comments are unmarked, a replay posts, whatever is behind them |
| CommentAction.SearchMisses | tracks/src/actions.rs:203-225 | with 3000 unmarked comments first, the paged search finds nothing |
| CommentAction.DuplicatePastReach | tracks/src/actions.rs:203-225 | on such a subject a lost reply and a replay do post twice |
| Hub.Hub.Publish | realtime/src/hub.rs:45-47 | the ring holds the newest frames up to its capacity |
| Hub.Hub.Recv | realtime/src/hub.rs:36-47 | a receiver gets the next frame, or a lag that says how many frames it missed and jumps to the oldest one kept |
| Hub.RingIs | realtime/src/hub.rs:36-47 | the ring holds the newest frames, as many as were published or as it has slots |
| Hub.ReceiveIs | realtime/src/hub.rs:36-47 | who is within the newest frames gets the one at its place; who is behind is told how many it missed and goes on with the oldest kept |
| Realtime.NoSilentGap | realtime/src/ws.rs:335-349 | once the listener is connected and the queues are drained, every visible event a client is due was sent to it or followed by a resync sent after its commit |
| Realtime.DeliverKeeps | realtime/src/ws.rs:335-349 | reading one frame, or turning a lag into a resync, leaves no due event uncovered |
| Realtime.NothingForeignIsSent | realtime/src/hub.rs:18-29 | an event frame a client gets is committed, names its true repository, and that is one of the client's |
| Realtime.EarlyEventIsMissed | realtime/src/listener.rs:47-72 | a client older than a clean first LISTEN can miss an event without a resync |
| Realtime.EarlyEventIff | realtime/src/listener.rs:47-72 | in every run, a client has been told of an event from before the stream answers exactly if it got any resync |
| Realtime.ToldIff | realtime/src/ws.rs:335-349 | connected and drained, a client has been told of a visible event committed since it subscribed exactly if the stream answers for it or the client got any resync |
| Realtime.Listen | realtime/src/listener.rs:47-92 | attempt after attempt, every accepted connection but the very first attempt publishes one resync and then its frames, all after what the attempts before published; a refused one publishes nothing |
| Realtime.LogIsPublished | realtime/src/listener.rs:47-92 | in every run of the transition system the log is what the listener's loop publishes for the attempts of that run, so that what holds of the log holds of the loop |
| Realtime.ListenAsRun | realtime/src/listener.rs:47-92 | the loop itself leaves that log on a ring |
| Realtime.Drain | realtime/src/ws.rs:335-349 | a draining client is sent one resync for all that was lost, then every visible frame the ring holds, in order |
| Realtime.DrainIsDelivery | realtime/src/ws.rs:335-349 | draining is the single deliveries of the transition system, one after the other, until all is read |
| Guard.Guard.CheckBrowserMessage | sandbox-proxy/src/guard.rs:127-237 | only an admitted chat open takes the slot and only the browser's CLOSE frees it; no open of a chat and none with a token is forwarded as it came; each refusal is given exactly for its own reason |
| Guard.LengthLimits | sandbox-proxy/src/guard.rs:158-183 | an open is too long exactly if its repository, session, branch or start is over 2048, 256, 256 or 256 characters |
| Guard.Guard.ReleaseAcp | sandbox-proxy/src/guard.rs:245-251 | afterwards an open is admitted as if the slot were empty exactly when that channel had it; a slot that another channel has is untouched |
| ChatSlot.AtMostOneChat | sandbox-proxy/src/guard.rs:127-294 | with a strict sandbox a socket never has two chats, deciding or live, whatever stale frames free the slot |
| ChatSlot.DrainedSlotIsTheChat | sandbox-proxy/src/guard.rs:278-302 | once both queues are drained the slot is exactly the sandbox's chat |
| ChatSlot.ProxyReadsKeeps | sandbox-proxy/src/guard.rs:278-302 | a stale frame frees the slot only for an id that is dead at the sandbox |
| ChatSlot.InjectedKeeps | sandbox-proxy/src/relay.rs:427-445 | the rewritten open may go up although its slot was freed meanwhile |
| ChatSlot.OneChatIffStrict | sandbox-proxy/src/guard.rs:127-294 | the guard alone keeps a socket at one live chat exactly if the sandbox takes no id twice and honours an early CLOSE |
| Revocation.NameTracker.Change | sandbox-proxy/src/kube_resolver.rs:85-113 | whatever store the tracker follows it keeps following through the event, every Project whose entry changed is reported, and no name it never heard of |
| Revocation.TrackerMissesNothing | sandbox-proxy/src/kube_resolver.rs:85-113 | every Project whose entry an event changes is reported, also one a relist dropped, and the tracker keeps knowing the store |
| Revocation.OpenIsAuthorized | sandbox-proxy/src/relay.rs:288-318 | an open relay with nothing left to hear is authorised by the current Project, over every sequence of applies, deletes, relists and lags |
| Revocation.ClosedOnlyIfRevoked | sandbox-proxy/src/relay.rs:288-318 | a relay is closed only by a check or lookup that finds its Project gone, without a sandbox or not its user's |
| Revocation.CheckIff | sandbox-proxy/src/relay.rs:288-298 | a check leaves the relay open exactly if the store has its Project, with a sandbox, for the user it was authorised for |
| Revocation.LookupIff | sandbox-proxy/src/app.rs:97-113 | a lookup lets the user in exactly if the store has the Project, with a sandbox, for that user |
| Revocation.NeverStaleIff | sandbox-proxy/src/app.rs:97-110 | that holds exactly if a relay subscribes before the lookup or checks again before it waits, and a relist reports the names known before |
| Revocation.RelistDrops | sandbox-proxy/src/kube_resolver.rs:104-110 | a tracker reporting only the new listing would leave a dropped Project's relay open |
| Revocation.LateIsDeaf | sandbox-proxy/src/relay.rs:300-305 | a late subscription without the initial check would miss a deletion |
| Credentials.AadInjective | sandbox-proxy/src/credential.rs:67-85 | the associated data tells owner and key apart for all owners and valid key ids |
| Credentials.ZeroInAnIdCollides | sandbox-proxy/src/credential.rs:67-85 | without the check on ids it would not |
| Credentials.ValidIdIff | sandbox-proxy/src/credential.rs:67-74 | a key id is 1 to 253 letters, digits, `-`, `_` and `.`, and does not begin with a dot |
| Credentials.OpensOnlyAsSealed | sandbox-proxy/src/credential.rs:156-211 | what was sealed opens, with its token, for its owner under the active id and for no other owner or id |
| Credentials.FromKeys | sandbox-proxy/src/credential.rs:89-108 | a keyring comes of valid ids that include the active one; otherwise the first invalid id, then the missing active key, is reported |
| Credentials.MemStore.PutRow | sandbox-proxy/src/store.rs:217-240 | upserts, or inserts only when absent: afterwards the row is the one given, or the old one if it was there and only an absent one was wanted; no other owner's row changes |
| Credentials.MemStore.ListStale | sandbox-proxy/src/store.rs:253-263 | lists exactly the owners whose row is under another key |
| Credentials.MemStore.Rekey | sandbox-proxy/src/store.rs:265-282 | replaces the row exactly if it is still under the old key id; a refusal changes nothing, every other row stays, and the stale rows are one fewer exactly on success |
| Rekey.Shared.Migrate | sandbox-proxy/src/rekey.rs:46-86 | one attempt writes at most one row, from a stale key to the active one with the token it read |
| Rekey.Run | sandbox-proxy/src/rekey.rs:27-98 | rotation ends whatever others do; it replaces no row under the active key; if others put under the active key only, readers see what they would have seen without it; every owner has at most three attempts and none after a failed one, and what is left stale when it stops had failed or had its three; the report counts the attempts that migrated and the owners that failed; undisturbed, migrated plus failed is the initial stale count, failed are the unreadable rows, and only those stay stale |
| Rekey.Pass | sandbox-proxy/src/rekey.rs:44-87 | a pass makes one attempt for every owner to do, puts each in the books with its outcome, and adds good writes only |
| Rekey.ApplyAllKeepsView | sandbox-proxy/src/store.rs:217-246 | foreign puts and deletes leave two stores that look alike alike |
| Rekey.StaleIsUntouched | sandbox-proxy/src/store.rs:265-282 | after puts under the active key, a row still stale is the row that was there |
| Rekey.TokenIsLostIff | sandbox-proxy/src/store.rs:265-282 | an attempt takes a token away exactly if others left a row under the key id read, with another token |
| Rekey.OldKeyPutIsLost | sandbox-proxy/src/rekey.rs:46-86 | such a put is overwritten by the older token |
| ChatAdmission.ChatManager.Open | sandbox-container/src/chat.rs:578-619 | registers exactly if chats are enabled, no shutdown is under way and the socket has no chat that is not tearing down; each refusal is given exactly for its own reason |
| ChatAdmission.ChatManager.MakeRoom | sandbox-container/src/chat.rs:742-764 | stops an older chat exactly if it has the same chat id, or it, the other chats behind it and the new one together are more than the cap; changes nothing else |
| ChatAdmission.StoppedIff | sandbox-container/src/chat.rs:742-764 | the same of the set of chats waited for |
| ChatAdmission.JustEnough | sandbox-container/src/chat.rs:742-764 | with chats in order and other ids, the newest chat stops just as many as are over the cap, the oldest ones; a registry within the cap loses nobody |
| ChatAdmission.ChatManager.Shutdown | sandbox-container/src/chat.rs:624-646 | stops every chat and refuses later opens |
| ChatAdmission.ChatManager.End | sandbox-container/src/chat.rs:614-619 | an ended chat, and no other, leaves the registry |
| ChatAdmission.RoomIsMade | sandbox-container/src/chat.rs:742-764 | with chats in registration order, fewer than `max_chats` of those older than a new one are left unstopped |
| ChatAdmission.CapHolds | sandbox-container/src/chat.rs:742-769 | if chats register in id order, those past `make_room` and not yet ended never exceed `max_chats` |
| ChatAdmission.CapHoldsIff | sandbox-container/src/chat.rs:578-612 | for every cap, it holds in all runs exactly if chats register in id order, or no chat is allowed |
| ChatAdmission.SomeWaitIsFree | sandbox-container/src/chat.rs:742-769 | in whatever order chats register, waiting cannot deadlock: some waiting chat waits for no waiting one |
| ChatAdmission.OneChatPerSocket | sandbox-container/src/chat.rs:578-619 | in whatever order chats register, a socket has at most one chat that is not tearing down |
| ChatAdmission.OneChatPerIdIff | sandbox-container/src/chat.rs:733-764 | two chats past `make_room` share a chat id exactly if the older one took it after the newer one made room under it |
| ChatAdmission.TwoUnderOneIdIff | sandbox-container/src/chat.rs:733-764 | in some run two chats past `make_room` share a chat id exactly if the cap is at least two, or is one and chats register out of id order |
| ChatAdmission.OlderNamedLater | sandbox-container/src/chat.rs:733-764 | with any cap of at least two, a run in registration order ends with two chats under one id |
| ChatAdmission.OlderRegisteredLater | sandbox-container/src/chat.rs:733-764 | out of registration order a cap of one is enough |
| ChatAdmission.NonePassAfterShutdown | sandbox-container/src/chat.rs:1252-1256 | after shutdown no chat goes past `make_room` any more |
| ChatAdmission.OutOfOrderBreaksTheCap | sandbox-container/src/chat.rs:578-612 | whatever the cap, chats that register newest id first all pass, however many they are |
| LineBuf.LineBuf.Push | sandbox-container/src/chat.rs:263-282 | fails exactly if a complete or unfinished line is over the cap; otherwise returns the non-blank lines and keeps the unfinished one; on a failure it has taken the data up to the line that is too long and keeps what was unfinished there |
| LineBuf.DroppedIff | sandbox-container/src/chat.rs:270-272 | a line is dropped exactly if it holds white space only |
| LineBuf.ReadAll | sandbox-container/src/chat.rs:262-282 | over any split into chunks, the outcome is that of splitting the whole stream at once |
| LineBuf.CutAtNewlines | sandbox-container/src/chat.rs:262-282 | lines and rest are a cut of the text at its newlines |
| LineBuf.CutIsUnique | sandbox-container/src/chat.rs:262-282 | it is the only one |
| LineBuf.LinesAcross | sandbox-container/src/chat.rs:263-282 | only the unfinished line matters to what follows |
| LineBuf.FitsAcross | sandbox-container/src/chat.rs:263-282 | a stream is within the cap exactly if its parts are |
| LineBuf.CutsRightIff | sandbox-container/src/chat.rs:1630-1655 | what is delivered of a stream from some point on are its last lines, whatever comes, exactly if the buffer holds the stream's unfinished line there |
| LineBuf.ReadingOnIff | sandbox-container/src/chat.rs:1630-1655 | after a failure that is so exactly if the dropped bytes hold a newline and end, after the last, with what is kept; with nothing kept, exactly if they end with a newline |
| LineBuf.DeliversTheStream | sandbox-container/src/chat.rs:1630-1655 | then what is delivered are the last non-blank lines of the stream |
| LineBuf.ReadingOnSplices | sandbox-container/src/chat.rs:1630-1655 | reading on with a start of a line kept delivers it spliced to a later end |
| LineBuf.ReadingOnBeheads | sandbox-container/src/chat.rs:1630-1655 | reading on with nothing kept delivers the end of a line that was dropped as a line |
| LineBuf.SameStartIsHarmless | sandbox-container/src/chat.rs:1630-1655 | a kept start does no harm if the dropped bytes end with the same one |
| Capture.AnsiStripper.Push | sandbox-container/src/capture.rs:54-79 | the bytes and state of the whole-stream specification |
| Capture.StripAcross | sandbox-container/src/capture.rs:54-79 | stripping does not depend on where the stream was cut |
| Capture.SequenceVanishes | sandbox-container/src/capture.rs:54-79 | a whole control sequence, title (ended by BEL or by ESC and a backslash), character-set or two-byte escape leaves no byte and nothing open |
| Capture.InsideIsOpen | sandbox-container/src/capture.rs:54-79 | and no shorter piece of it does: inside a sequence the stripper stays until its last byte |
| Capture.TextIsKept | sandbox-container/src/capture.rs:54-79 | text without escapes is kept |
| Capture.TokenByteIff | sandbox-container/src/capture.rs:106-108 | a token is made of letters, digits, `-` and `_` |
| Capture.TokenScanner.Push | sandbox-container/src/capture.rs:110-144 | the token and state of the whole-stream specification, returning early included |
| Capture.TokenScanner.Close | sandbox-container/src/capture.rs:147-153 | a long enough pending token counts at the end |
| Capture.ScanAcross | sandbox-container/src/capture.rs:110-153 | scanning does not depend on where the stream was cut |
| Capture.ScannerIsPlaced | sandbox-container/src/capture.rs:110-144 | since the last reset the scanner collects exactly if the prefix occurred, and has collected the text from its first occurrence on |
| Capture.EntersAtFirst | sandbox-container/src/capture.rs:117-131 | the byte that completes the first occurrence starts the collection |
| Capture.TokensAreReal | sandbox-container/src/capture.rs:110-153 | a token from the stream has the prefix, only token bytes, 100 to 1023 of them, and stands in the text from the first prefix up to a byte that ends it |
| Capture.TokenAtTheEnd | sandbox-container/src/capture.rs:147-153 | so has one that the end of the stream completes |
| Capture.TokenIsFound | sandbox-container/src/capture.rs:110-144 | a token of that shape is found whole, wrapped or not, whatever follows |
| Capture.ShortCandidateIsFinal | sandbox-container/src/capture.rs:132-153 | a shorter candidate ended by another byte than a line break ends the search for good, whatever follows |
| Capture.SwitchedOffIff | sandbox-container/src/capture.rs:110-153 | for every stream, the scanner is off and has found nothing exactly if somewhere the text from the first prefix since the last reset is a candidate of fewer than 100 bytes and a byte follows that is neither a token byte nor a line break |
| Capture.Observe | sandbox-container/src/capture.rs:355-369 | what is captured from a terminal does not depend on chunking |
| Reaper.Reaper.SpawnWith | sandbox-container/src/reaper.rs:72-81 | registers the child's channel under its pid, or nothing on an error |
| Reaper.Reaper.Deliver | sandbox-container/src/reaper.rs:217-224 | a registered pid's channel gets exactly this status, as the last sent, and is forgotten; for an orphan nothing is sent; every other entry stays |
| Reaper.Reaper.ReapAll | sandbox-container/src/reaper.rs:89-110 | delivers, in order, everything told up to the answer that ends the pass, and counts it |
| Reaper.Reaper.ReapRegistered | sandbox-container/src/reaper.rs:111-131 | waits for registered pids only; a pid somebody else reaped is reported lost |
| Reaper.ReportsWhatItIsTold | sandbox-container/src/reaper.rs:89-110 | a pass reports the exits and deaths by signal the kernel tells of, as told and in order, up to the answer that ends it |
| Reaper.NoiseIsSkipped | sandbox-container/src/reaper.rs:89-110 | an interrupted call and a child that only stopped make no difference |
| Reaper.ReapedOneIff | sandbox-container/src/reaper.rs:111-131 | of a registered pid exactly its exit, its death by signal, or that it is gone is reported |
| Reaper.ReapedOfIff | sandbox-container/src/reaper.rs:111-131 | a pass over registered pids reports each of which there is something to report, and nothing else |
| ChildReaping.EachIsTold | sandbox-container/src/reaper.rs:72-131 | under a sound policy, when the reaper is settled, each registered child that exited has been told exactly its own status, once, over every reuse of pids |
| ChildReaping.NothingFalseIsSent | sandbox-container/src/reaper.rs:217-224 | under a sound policy, at any moment what was sent is true, sent once, and for no orphan |
| ChildReaping.InHandIsPending | sandbox-container/src/reaper.rs:217-224 | no child is taken for an orphan and no orphan for a child |
| ChildReaping.InsertOverwritesNothing | sandbox-container/src/reaper.rs:72-81 | registering never overwrites a pending entry |
| ChildReaping.NothingIsLostIff | sandbox-container/src/reaper.rs:116-121 | no registered child is ever reported lost exactly if the reaper waits for all children or nobody else waits for registered ones |
| ChildReaping.LostIsReported | sandbox-container/src/reaper.rs:116-121 | otherwise a child that somebody else waited for is reported with a status it never had |
| ChildReaping.TakenIsNotTold | sandbox-container/src/reaper.rs:89-131 | a child that somebody else waited for is not told its status, in either mode |
| ChildReaping.NoneFalseIff | sandbox-container/src/reaper.rs:89-131 | no false status is ever sent exactly if nobody else waits for the reaper's children and, as pid 1, the lock is held from fork to registration |
| ChildReaping.StrangerIsDelivered | sandbox-container/src/reaper.rs:217-224 | a pid that is gone but still registered, given to a stranger, brings the child's channel the stranger's status |
| ChildReaping.StolenUnlocked | sandbox-container/src/reaper.rs:69-81 | without the lock across fork and registration a quick child is reaped as an orphan |
| ChildReaping.AllToldIff | sandbox-container/src/reaper.rs:69-131 | every registered child is told its own status, once, in every run exactly if nobody else waits for the reaper's children and, as pid 1, the lock is held from fork to registration |
| RateLimit.RateLimitWait | tracks/src/github.rs:40-65 | which answers are rate limits, and how long each wait is: what `retry-after` says, until `x-ratelimit-reset`, or 60 s, and at least one second |
| RateLimit.Client.Send | tracks/src/github.rs:280-328 | whatever the answers and whatever other calls learn meanwhile, sending ends; each request is the one of its own turn; it sleeps at most `max_wait` in all, and gives up on a limit only if the next wait would be too much; a request goes out before a deadline that was learned only in the two cases of `EarlyIff` |
| RateLimit.Client.OneTurn | tracks/src/github.rs:288-327 | a turn sends exactly if the wait until the deadline is within what is left; it ends the call, or has waited out the answer's own limit and stored its deadline over the one before |
| RateLimit.EarlyIff | tracks/src/github.rs:288-316 | a request goes out before some deadline learned by any call exactly if another call stored a longer one during the sleep, or a later answer had replaced it by one that was over |
| RateLimit.NothingIsSentIff | tracks/src/github.rs:291-302 | no request goes out at all exactly if the first deadline is too far ahead already |
| RateLimit.BlockedIff | tracks/src/github.rs:291-304 | the deadline stored last is still ahead when a request goes out exactly if it was stored during the sleep and is past its end |
| RateLimit.SendsWhileBlocked | tracks/src/github.rs:291-316 | a run in which a request goes out 55 s before the stored deadline |
| RateLimit.SendsAfterAShorterAnswer | tracks/src/github.rs:304-316 | a run in which a request goes out 58 s before a deadline another call was told, because a shorter one replaced it |
| SnapshotCache.FetchSnapshot | tracks/src/github.rs:464-543 | a 304 to a stale entry gives that entry after one request, a head with its sha gives it under the new tag after one, a new head whose files are answered gives them after three; it fails only if some request had no useful answer; the files are those of the commit named, which was the head at an instant of the fetch |
| SnapshotCache.File | tracks/src/github.rs:548-574 | the text of the file, nothing on 404, or the error |
| SnapshotCache.WorthAnotherTry | tracks/src/github.rs:341-351 | which errors are worth another try |
| SnapshotCache.LooksLikeShaIff | tracks/src/github.rs:521-525 | a head is taken for a sha exactly if it is at least seven hexadecimal digits |
| SnapshotCache.SnapshotCache.GetOrFetch | tracks/src/github.rs:178-198 | a fresh entry comes back without a request; an old or missing one is fetched as `FetchSnapshot` says and its age starts anew; whatever is returned was the head at an instant of a fetch that is this call's own or ended less than the TTL ago, so it is younger than the TTL and what that fetch took afterwards; failures change nothing |
| SnapshotCache.OlderThanTheTtl | tracks/src/github.rs:178-198 | that bound is met: a commit comes back that stopped being the head more than the TTL ago |
| AsideNames.IsAsideIff | sandbox-container/src/workspace_prune.rs:284-299 | a name is taken for a set-aside directory exactly if moving some directory aside gives it |
| AsideNames.MovedIsAside | sandbox-container/src/workspace_prune.rs:765-780 | every directory moved aside is recognized |
| AsideNames.MovedOnce | sandbox-container/src/workspace_prune.rs:765-780 | a directory that is aside is not renamed again |
| AsideNames.DigitsIff | sandbox-container/src/workspace_prune.rs:294-298 | the numbers of a name are runs of the ten digits |
| CheckoutScan.Findings.ScanInto | sandbox-container/src/workspace_prune.rs:448-488 | appends the repositories and blockers of the tree, in listing order, stopping where the code stops |
| CheckoutScan.ScanIff | sandbox-container/src/workspace_prune.rs:448-488 | no blocker exactly if every directory outside repositories, caches and set-aside directories is at most eight deep, readable and holds directories only |
| CheckoutScan.ReposIff | sandbox-container/src/workspace_prune.rs:448-488 | then the repositories found are all there are outside one another, caches and set-aside directories |
| CheckoutScan.EveryFileIsCovered | sandbox-container/src/workspace_prune.rs:448-488 | then every file lies in a repository found, a tagged cache or a set-aside directory |
| CheckoutScan.CacheIff | sandbox-container/src/workspace_prune.rs:845-847 | a cache is a directory with a file `CACHEDIR.TAG` that begins with the signature |
| CheckoutScan.RepoBlocker | sandbox-container/src/workspace_prune.rs:498-538 | a repository is clear exactly if it is plain, at rest, fully pushed and has no change but untracked caches |
| CheckoutScan.CheckoutBlockers | sandbox-container/src/workspace_prune.rs:424-446 | the verdict is empty exactly if no link points in, the tree is clean and every repository in it is clear |
| CacheDirs.Find | sandbox-container/src/workspace_prune.rs:817-832 | returns the list of the specification |
| CacheDirs.FoundIff | sandbox-container/src/workspace_prune.rs:815-832 | exactly the outermost tagged directories within the depth and outside `.git` are found |
| CacheDirs.NoneContainsAnother | sandbox-container/src/workspace_prune.rs:815-832 | none of them contains another |
| WorkspacePrune.PrunePass | sandbox-container/src/workspace_prune.rs:185-231 | on any disk, each removal of phases 1 to 4 is of a candidate just before which the disk was found low; if nobody else writes, every candidate of the earlier phases was tried and the disk still low after them; nothing in use, tracked or on another file system is renamed; no checkout goes that anything speaks for; deletions are counted; if the disk stays low and nothing stands in the way, everything goes that may, and on a disk that is not low nothing |
| WorkspacePrune.Gate | sandbox-container/src/workspace_prune.rs:196-207 | a phase is entered only with the earlier ones exhausted and the disk low |
| WorkspacePrune.PruneTaskCaches | sandbox-container/src/workspace_prune.rs:312-353 | ends early only if the disk is no longer low or the pass was stopped |
| WorkspacePrune.TakeCaches | sandbox-container/src/workspace_prune.rs:328-341 | renames only eligible caches, and only of a task without a running step at that moment; if nothing runs, every eligible one that can be renamed and deleted goes |
| WorkspacePrune.TakeCheckout | sandbox-container/src/workspace_prune.rs:377-417 | deletes a checkout only if it was clear, and renames it only if neither protected nor linked at that moment; if nothing stands in the way, exactly then |
| WorkspacePrune.TakeShared | sandbox-container/src/workspace_prune.rs:698-714 | renames a shared target only while no build holds its lock; if nothing stands in the way, it goes |

## Left out

- `drive_inner` and `attach_and_wait` as loops: the drive's steps are labels of the transition system, one per statement or local decision, because other replicas act between any two of them; the heartbeat is the label `Renew`, a pause the label `Release`.
- Claim order in the transition system: any claimable run may be claimed; that the oldest one is taken is in `RunTable.Table.Claim`.
- Contents of `node_runs` beyond the existence of a node visit's row, the columns `current_node`, `visits` and `reason`, notifications, and the stall and attach timing of sandbox steps.
- The router: only its flip of a parked run is modelled (`DeliverRow`); how it matches events is not part of this model.
- `open_pull_request` and `labels`: their replays rest on GitHub's own idempotence (one open pull request per head, labels as a set), which would be assumed, not proved.
- Two drives that call GitHub at the same time: the code does not promise one comment then.
- `finish_local` and `finish_node` without a next state, and `record_failed_node`: unfenced writes of node rows.
- The client's ping, token expiry and shutdown arms, and the readiness flag of the hub.
- Guard.Guard.CheckBrowserMessage: decoding of frames and the list of CTRL types a browser may send are inputs (`Bad`, `Denied`), because the wire format is not part of this model.
- The relay's loops and `ProjectWatch::changed` as loops: their iterations are labels, because the other queue, the watch and other relays act in between.
- `intercept_sandbox_message` and captured credential frames; the proxy's token cache, dialing and idle timer.
- Lookups that fail with `Unavailable`: the Kubernetes resolver answers from memory and never does; a relay would stay open over such a failure.
- AES-GCM, nonces that repeat, UTF-8 of tokens and `Encrypt` failures: the cipher is symbolic and perfect.
- Credentials.MemStore.Rekey: the SQL functions of the Postgres store are taken to do what the in-memory store does.
- The time limit on waiting in `make_room` (`cancel_grace` plus 15 s): the theorems are about waits that complete.
- `open` before registration (argument checks), resume lookup, worktrees, transcripts and the relay of a chat.
- Capture.TokenScanner.Push: conversion of the token to text; promotion of legacy token files.
- `signal_all`, `terminate_all` and the SIGCHLD loop of the reaper.
- RateLimit.Client.Send: a sleep takes exactly the time asked for; header parsing is an input; what other calls learn during the wait for an answer's own limit is learned before the next turn looks.
- SnapshotCache.SnapshotCache.GetOrFetch: starts when the caller holds the slot's lock, so waiting for a running fetch of another caller is before it; white space around the sha is not modelled; that a 304 answers only the tag of the current head is assumed (`obeys`).
- Order in which a phase of the pruner lists candidates (age, sccache times, busy repositories last): the lists are inputs, fixed for the pass.
- WorkspacePrune.PrunePass: that removals come only after exhausted phases assumes that nobody else writes to the disk (`quiet`); the rest does not. Work created in an ended task's checkout between its inspection and the rename, other than by a step or a link, is not modelled.
- CheckoutScan.RepoBlocker: git itself, symbolic links inside `.git` and permissions; what git and the file system say are inputs.
- Configuration parsers, statistics, Docker pruning, MCP, repository link handling, UI, Helm and branding.
