# Verified models of go-libp2p components

A Dafny model of the parts of go-libp2p that account, schedule and order, with proofs of what they promise. Dafny 4.11
verifies all of it with `dafny verify dfyconfig.toml`; nothing is executed.

## What is modelled

**The resource manager** (`p2p/host/resource-manager`), on three levels.

- `Int64`, `Resources`: 64-bit arithmetic as Go computes it, the six counters of a scope (memory, streams and
  connections each way, descriptors), its limits, and the checks that admit a reservation.
- `Ledgers`, `Accounts`, `Moves`, `Registry`: all scopes as one value, a *world*, and the effect of every operation on
  it. `Sound` is the invariant: each open scope counts its own reservations plus those of every open scope that lists it
  as a parent; a reference count is the number of open children, open spans and outstanding references; open scopes have
  open parents; every counter is within its limit. The amount `own` that was reserved on a scope directly, its spans
  included, exists in the proofs only. `Good` adds which scopes the manager has on its books.
- `Admission`: what that means to callers, written out in counters and limits.
- `Scopes`, `Manager`: the code, as classes with loops, rollback and fields updated in place. Every method is proved to
  have exactly the effect that `Accounts`, `Moves` and `Registry` define, so the theorems about those are theorems about
  the code.
- `Interleaving`: any number of threads, each in the middle of a reservation, release, closing, attachment or garbage
  collection, taking turns one locked change at a time. What is in flight is part of the state, and the books balance
  with it after every single change. `Effects` says what one reservation amounts to when others come in between, all
  of it or nothing; `Alone` that one which nobody interrupts has the effect of the sequential method.
- `Stranding`: a concrete run in which a failed `SetPeer` leaves a connection without parents, and a second one breaks
  the books.

**The connection manager** (`p2p/net/connmgr`). `ConnTracker` and `ConnManager` have the live entries with their cached
sums and the cached connection count; the specification is a map of peers without any cache, and each method does to it
what the name says. `PeerEffects` says what that is for one peer: its tags, its connections and its worth. `TrimOrder` is
the comparator; `DecaySchedule` and `Decay` are the decayer, and `TagLife` is what becomes of a closed tag. `Sums` is the
theory of sums over finite maps.

**Smaller components.** `EventBus`: delivery and the life of nodes. `AutoNat`: the confidence machine. `Envelope`: the
signed bytes. `RelayWork`, `Relays`: the relay finder's deadlines, and its number of relays under interleaving.
`Discovery`: receiver queue, merge of addresses, dispatcher. `Dedup`: in-place deduplication of addresses.

## What the proofs assume

The code relies on the first four; the model makes them preconditions, or conditions of a step, and never more than
stated.

- *Users release no more than they hold* (`Accounts.Holds`, `Interleaving.UserHolds`). The comment at
  p2p/host/resource-manager/scope.go:24-32 rules out double release by the code only for spans.
- *Room where the check is off* (`Resources.Fits`, `Registry.Takes`, `Registry.FitsOn`, `Interleaving.CanTake`). With a
  memory limit of MaxInt64 the code skips the overflow check; `GrantIsExactIff` says this is exactly what is needed.
- *Connections and streams are attached while open*, and `SetPeer` is not repeated after a transfer that failed; no code
  checks either. `SetPeerIsSoundIff` says that just these two are needed, `RetryIsUnsound` is the second one broken, and
  `RetryHappens` a run that breaks it.
- *Limits do not change* once a scope exists.
- *Who works on what* (`Interleaving.MayUse`): a thread works on connections, streams and spans, on the four fixed
  scopes, on scopes it has a reference to, and on the peer, protocol and service scopes that an open connection or
  stream hands out.
- *The clock does not run backwards* (`DecaySchedule.Monotone`, and the clock of `RelayWork`).

## Where the code and its documentation differ

The model follows the code.

- `TrimOpenConns` is documented to make the *peer* count equal the low water mark
  (p2p/net/connmgr/connmgr.go:320-323); the code counts *connections*, and only those of peers that may be trimmed.
  `TrimLeavesNoPeer` is an input on which it does not; `LeavesLowWaterPeersIff` and `OneConnectionEachIff` say when it
  does.
- `mergeAddrInfos` is called to "return the address union" (p2p/discovery/backoff/backoffcache.go:234), but answers
  nothing when the first list repeats at least as many addresses as are new: `MergedIff`, `NewAddressLost`. No new
  address is ever lost if and only if the first list repeats none: `NoticesNewIff`.
- A closed decaying tag is said to be removed from all peers (p2p/net/connmgr/decay.go:264); a bump command that the loop
  takes after the close command brings it back, and nothing decays it any more: `Revive`, `NeverDecays`. It stays gone if
  and only if no such command is on its way: `ClosedForGoodIff`.
- A failed `SetPeer` is not all-or-nothing when the connection has to leave the allowlisted scopes:
  `RefusedSetPeerRestoresIff`, and the run `RetryHappens`.

## Model

| member | source | states |
|---|---|---|
| `Int64.AddIsExact` | p2p/host/resource-manager/scope.go:84-87 | the helper answers ok exactly when the mathematical sum fits in int64, and then it is the sum; for all inputs |
| `Int64.MulIsExact` | p2p/host/resource-manager/scope.go:91-102 | the same for products, the special cases and the division test included |
| `Resources.ThresholdIsExact` | p2p/host/resource-manager/scope.go:117-134 | the 64-bit path and the big-integer path both compute floor(limit * (1 + prio) / 256) |
| `Resources.CheckIsExact` | p2p/host/resource-manager/scope.go:105-291 | memory, streams and connections are granted exactly when, in plain arithmetic, each direction, the total, the descriptors and the priority's share of memory have room |
| `Resources.StreamAdmission` | p2p/host/resource-manager/scope.go:163-205 | an inbound stream is granted if and only if one more is within the inbound limit and the total, any other if and only if one more is within the outbound limit and the total |
| `Resources.StreamIsCounted` | p2p/host/resource-manager/scope.go:163-205 | a stream adds one to the counter of its direction and to no other |
| `Resources.ConnAdmission` | p2p/host/resource-manager/scope.go:228-291 | the same for a connection, which needs room for a descriptor exactly when it uses one |
| `Resources.ConnIsCounted` | p2p/host/resource-manager/scope.go:228-291 | a connection adds one in its direction, and one descriptor if it uses one |
| `Resources.MemoryAdmission` | p2p/host/resource-manager/scope.go:105-142 | memory is granted up to (1 + prio) parts in 256 of the limit, and always with a limit of MaxInt64 |
| `Resources.MoveAdmission` | p2p/host/resource-manager/scope.go:651-683 | what moves with a connection or stream may use the whole memory limit, and needs room in plain inequalities for everything it counts |
| `Resources.RemoveTakesAtMost` | p2p/host/resource-manager/scope.go:153-161 | a counter of which more is released than is there becomes zero, any other is lowered by what is released |
| `Resources.GrantKeepsLimits` | p2p/host/resource-manager/scope.go:144-151 | a granted request leaves every counter within its limit, and the 64-bit addition is the exact one |
| `Resources.GrantIsExactIff` | p2p/host/resource-manager/scope.go:110-115 | a granted request is counted exactly, and within the limit, if and only if the sum fits; it can fail only with a memory limit of MaxInt64 |
| `Resources.UnlimitedMemoryCanWrap` | p2p/host/resource-manager/scope.go:110-115 | the input that shows it: a grant that makes the memory counter negative |
| `Resources.RemoveUndoesAdd` | p2p/host/resource-manager/scope.go:153-161 | what was added can be taken back exactly, even after the addition wrapped |
| `Accounts.AdmissionIsExact` | p2p/host/resource-manager/scope.go:341-421 | nobody on a list of scopes refuses exactly when each of them is open and has room |
| `Accounts.ReserveKeepsSound` | p2p/host/resource-manager/scope.go:341-393 | a granted reservation keeps conservation, reference counts and limits of all scopes, and is the scope's own to release, nobody else's |
| `Accounts.ReleaseIsCovered` | p2p/host/resource-manager/scope.go:153-161 | every scope that a release reaches counts at least what is released, so the clamp for "too much released" never fires |
| `Accounts.ReleaseKeepsSound` | p2p/host/resource-manager/scope.go:423-446 | a release keeps all books; at the first closed owner it stops |
| `Accounts.FinishKeepsSound` | p2p/host/resource-manager/scope.go:744-773 | a scope without open children closes and each unit leaves each of its edges exactly once |
| `Accounts.FinishSpanKeepsSound` | p2p/host/resource-manager/scope.go:24-32 | a span closes at any time, also after its owners, and nothing is released twice |
| `Accounts.UnreferencedHasNoChildren` | p2p/host/resource-manager/scope.go:796-814 | a scope with no references has no open child: what garbage collection goes by |
| `Accounts.CreateKeepsSound` | p2p/host/resource-manager/scope.go:52-65 | a new scope under open parents keeps all books |
| `Accounts.SpanOpenKeepsSound` | p2p/host/resource-manager/scope.go:732-742 | so does a new span of an open scope |
| `Scopes.ResourceScope.Reserve` | p2p/host/resource-manager/scope.go:341-393 | the answer is the first refusal along owners and then edges; granted, the amount is on the whole path, refused, every scope is as before |
| `Scopes.ResourceScope.ReserveOnEdges` | p2p/host/resource-manager/scope.go:367-393 | the rollback loop: when an edge refuses, those before it get back exactly what they granted |
| `Scopes.ResourceScope.ReserveAllForChild` | p2p/host/resource-manager/scope.go:651-683 | memory, streams and connections are granted together or not at all |
| `Scopes.ResourceScope.Release` | p2p/host/resource-manager/scope.go:395-446 | the amount leaves the owners up to the first closed one, and the edges if none is closed |
| `Scopes.ResourceScope.Done` | p2p/host/resource-manager/scope.go:744-773 | everything the scope counts and its references go back to the owner, or to each edge; a second call does nothing |
| `Scopes.ResourceScope.BeginSpan` | p2p/host/resource-manager/scope.go:732-742 | an open scope gets a span with its limit, and a reference; a closed one refuses |
| `Scopes.ResourceScope.IsUnused` | p2p/host/resource-manager/scope.go:796-814 | unused means closed, or no references and nothing but memory |
| `Moves.MoveKeepsSound` | p2p/host/resource-manager/rcmgr.go:666-843 | moving an open scope to any set of open parents with room loses no unit and counts none twice |
| `Moves.AttachIsSoundIff` | p2p/host/resource-manager/rcmgr.go:666-843 | charging some parents, discharging others and replacing the edges keeps the books if and only if the scope is open and counted on exactly the parents it leaves and those it keeps |
| `Registry.SetPeerIsSoundIff` | p2p/host/resource-manager/rcmgr.go:666-724 | SetPeer keeps the books if and only if the connection is open and its parents are exactly its transient and system scopes |
| `Registry.RetryIsUnsound` | p2p/host/resource-manager/rcmgr.go:627-664 | after a transfer that failed, a repeated SetPeer that is granted always breaks the books |
| `Registry.RefusedSetPeerRestoresIff` | p2p/host/resource-manager/rcmgr.go:666-724 | a refused SetPeer leaves every scope as before, reference counts included (but for the one a scope opened for the peer has on the system scope), if and only if it is not the case that the connection is allowlisted and the peer is not |
| `Stranding.TransferFails` | p2p/host/resource-manager/rcmgr.go:627-664 | an allowlisted connection whose peer is not, when the standard scopes have no room: the call is refused and nothing is restored |
| `Stranding.RetryHappens` | p2p/host/resource-manager/rcmgr.go:666-724 | the whole run from a new manager: the connection is admitted at the second attempt, SetPeer fails, is repeated and granted, and the books no longer balance |
| `Registry.TransferredGood` | p2p/host/resource-manager/rcmgr.go:627-664 | the transfer keeps everything sound; refused, it leaves the connection without parents |
| `Admission.StreamOpens` | p2p/host/resource-manager/rcmgr.go:316-330 | a stream is opened if and only if its own limit, the peer, the transient and the system scope have room for one more of its direction; it is then counted in its direction on these and nowhere else |
| `Admission.ConnectionOpens` | p2p/host/resource-manager/rcmgr.go:290-314 | the same for a connection on the two scopes that it is tried on |
| `Admission.SetPeerMovesIff` | p2p/host/resource-manager/rcmgr.go:700-724 | SetPeer moves an open connection if and only if the peer's scope, known or new, has room for all it counts, memory up to the whole limit |
| `Admission.GroupJoinsIff` | p2p/host/resource-manager/rcmgr.go:738-843 | SetProtocol and SetService take a stream in if and only if the protocol or service and its part for the peer have room for all it counts, memory up to the whole limit |
| `Admission.CollectionIsExact` | p2p/host/resource-manager/rcmgr.go:357-409 | a collection closes exactly the protocols and peers that are not sticky, have no references and nothing but memory on them, and the parts for those peers of services and of protocols left open |
| `Admission.BooksAfterCollection` | p2p/host/resource-manager/rcmgr.go:357-409 | what it closes goes off the books, and what it leaves open stays on them |
| `Registry.DeadPeerHasNoStreams` | p2p/host/resource-manager/rcmgr.go:386-408 | a per-peer scope of a service or protocol whose peer has no open scope has no open child, although it is closed without being looked at |
| `Manager.ResourceManager.NewManager` | p2p/host/resource-manager/rcmgr.go:128-164 | a new manager is sound, with the four fixed scopes held open |
| `Manager.ResourceManager.GetPeerScope` | p2p/host/resource-manager/rcmgr.go:249-261 | the one open scope of the peer, opened if there is none, with one more reference |
| `Manager.ResourceManager.GetGroupScope` | p2p/host/resource-manager/rcmgr.go:211-237 | the same for a service or protocol |
| `Manager.ResourceManager.GetPartScope` | p2p/host/resource-manager/rcmgr.go:557-605 | the same for what a service or protocol keeps for one peer |
| `Manager.ResourceManager.OpenConnection` | p2p/host/resource-manager/rcmgr.go:290-314 | tried on the standard scopes, then, if allowed, on the allowlisted ones; a refusal leaves every earlier scope exactly as it was, reference counts included |
| `Manager.ResourceManager.OpenStream` | p2p/host/resource-manager/rcmgr.go:316-330 | the stream is charged to peer, transient and system scopes, or to none |
| `Manager.Connection.SetPeer` | p2p/host/resource-manager/rcmgr.go:666-724 | moved from the transient scope to the peer's, or refused, by way of a transfer where the code makes one; sound in every case |
| `Manager.Connection.TransferAllowedToStandard` | p2p/host/resource-manager/rcmgr.go:627-664 | leaves the allowlisted scopes, then joins both standard ones or none |
| `Manager.StreamScope.SetProtocol` | p2p/host/resource-manager/rcmgr.go:738-782 | the stream joins the protocol and its part for the peer and leaves the transient scope, or no charge and no edge changes |
| `Manager.StreamScope.SetService` | p2p/host/resource-manager/rcmgr.go:796-843 | the stream joins the service and its part for the peer as well, or no charge and no edge changes |
| `Manager.ResourceManager.Gc` | p2p/host/resource-manager/rcmgr.go:357-409 | closes exactly the unused non-sticky protocols, the unused non-sticky peers and all that services and protocols keep for those peers, and stays sound |
| `Manager.ResourceManager.UserReserve` | p2p/host/resource-manager/scope.go:341-393 | a user's reservation on any scope keeps the manager sound |
| `Manager.ResourceManager.UserRelease` | p2p/host/resource-manager/scope.go:423-446 | so does a release of what is held |
| `Manager.ResourceManager.UserBeginSpan` | p2p/host/resource-manager/scope.go:732-742 | so does a span |
| `Manager.ResourceManager.UserDone` | p2p/host/resource-manager/scope.go:744-773 | so does closing a connection, stream or span, in any order |
| `Interleaving.NextKeeps` | p2p/host/resource-manager/scope.go:341-814 | every locked change of every operation, by any thread in any state, keeps the balance with what is in flight |
| `Interleaving.RunKeeps` | p2p/host/resource-manager/rcmgr.go:357-843 | so the balance holds in every state of every run |
| `Interleaving.RunIsSafe` | p2p/host/resource-manager/scope.go:20-24 | in every reachable state open scopes are within all their limits and have open parents |
| `Interleaving.QuietRunIsSound` | p2p/host/resource-manager/scope.go:341-814 | whenever nothing is in flight, counters and reference counts are exact |
| `Interleaving.RunNeverClamps` | p2p/host/resource-manager/scope.go:153-161 | in no run does a release find less on an open scope than it takes, neither where it starts nor at an owner or edge it comes to, so the clamps never fire |
| `Interleaving.CloseChosenKeeps` | p2p/host/resource-manager/rcmgr.go:362-384 | what the collector has found unused still has no open child when it closes it, whatever other threads did in between |
| `Interleaving.DeadPartIsFree` | p2p/host/resource-manager/rcmgr.go:386-408 | no open scope counts on, and no thread is about to attach to, what is kept for a dead peer |
| `Interleaving.RunCollectsSafely` | p2p/host/resource-manager/rcmgr.go:357-409 | in no run does the collector close a parent of an open scope |
| `Effects.OthersSpareLocked` | p2p/host/resource-manager/scope.go:341-814 | no step of any other thread changes a scope that a thread has locked |
| `Effects.ReservationIsAllOrNothing` | p2p/host/resource-manager/scope.go:341-393 | whatever other threads do between the steps of a reservation, its own steps have in the end added the amount to the counters of just its owner chain and the edges of the last owner, and to the own charges of just the chain, or nothing to any scope |
| `Alone.AloneIsSequential` | p2p/host/resource-manager/scope.go:341-393 | a reservation of one thread that nobody interrupts, in any order of settling and giving back, ends as the sequential code does: on the whole path if nobody on it refuses, and else with every scope as it was |
| `TrimOrder.BeforeIsLexicographic` | p2p/net/connmgr/connmgr.go:282-316 | the comparator is the lexicographic order of five criteria, although it tests streams before direction only when one side has none |
| `TrimOrder.BeforeIsStrictWeakOrder` | p2p/net/connmgr/connmgr.go:282-316 | irreflexive, transitive, with transitive ties, for both values of the flag |
| `TrimOrder.TiedIsEqual` | p2p/net/connmgr/connmgr.go:282-316 | two peers tie only when all that the order looks at is equal |
| `TrimOrder.Sort` | p2p/net/connmgr/connmgr.go:262-317 | a permutation of the candidates in which none comes before an earlier one |
| `ConnTracker.PeerInfo.IncomingAndStreams` | p2p/net/connmgr/connmgr.go:289-298 | whether any connection is inbound, and the sum of the streams of all |
| `ConnTracker.PeerInfo.Decay` | p2p/net/connmgr/decay.go:186-207 | the visited tags of an entry take their new values or go, and the cached sum stays that of all tags |
| `PeerEffects.TaggingMoves` | p2p/net/connmgr/connmgr.go:563-573 | the tag has its value, the worth of the peer moves by the difference, nothing else changes; an unknown peer becomes known, first seen now |
| `PeerEffects.UntaggingMoves` | p2p/net/connmgr/connmgr.go:576-590 | the tag and its value go, and nothing else |
| `PeerEffects.BumpMoves` | p2p/net/connmgr/decay.go:216-241 | the tag has what its function makes of its old value, or of zero, with the time of the visit; the worth moves by the difference |
| `PeerEffects.RemovalMoves` | p2p/net/connmgr/decay.go:243-255 | the decaying tag and its value go |
| `PeerEffects.ClosingMoves` | p2p/net/connmgr/decay.go:264-276 | the tag and its value go from every peer |
| `PeerEffects.TickMoves` | p2p/net/connmgr/decay.go:185-208 | a visited tag has what its function answers, with the time of the visit, or goes; the others stay |
| `PeerEffects.OpeningCounts` | p2p/net/connmgr/connmgr.go:655-690 | the connection is listed under its peer; the grace period starts with the only one; a known one changes nothing |
| `PeerEffects.ClosingForgets` | p2p/net/connmgr/connmgr.go:694-719 | the connection is not listed any more; the peer is forgotten if and only if it had no other |
| `ConnManager.BasicConnMgr.TagPeer` | p2p/net/connmgr/connmgr.go:563-573 | sets a tag of a peer, with an entry made if needed; all caches stay exact |
| `ConnManager.BasicConnMgr.UpsertTag` | p2p/net/connmgr/connmgr.go:593-604 | the same with a value computed from the old one |
| `ConnManager.BasicConnMgr.UntagPeer` | p2p/net/connmgr/connmgr.go:576-590 | takes a tag away; all caches stay exact |
| `ConnManager.BasicConnMgr.Connected` | p2p/net/connmgr/connmgr.go:655-690 | adds a connection once, starts the grace period with the first one; value, temporary flag and connection count stay exact |
| `ConnManager.BasicConnMgr.Disconnected` | p2p/net/connmgr/connmgr.go:694-719 | takes it away, and forgets the peer with its last one; all caches stay exact |
| `ConnManager.BasicConnMgr.Bump` | p2p/net/connmgr/decay.go:216-241 | bumps a decaying tag, made when the peer lacks it; all caches stay exact |
| `ConnManager.BasicConnMgr.RemoveDecaying` | p2p/net/connmgr/decay.go:243-255 | removes a decaying tag, and makes an entry for an unknown peer; all caches stay exact |
| `ConnManager.BasicConnMgr.Tick` | p2p/net/connmgr/decay.go:185-208 | every entry decays by the tags visited; all caches stay exact |
| `ConnManager.BasicConnMgr.CloseTag` | p2p/net/connmgr/decay.go:257-276 | the tag leaves every peer; all caches stay exact |
| `ConnManager.BasicConnMgr.Protect` | p2p/net/connmgr/connmgr.go:198-208 | adds one protection tag |
| `ConnManager.BasicConnMgr.Unprotect` | p2p/net/connmgr/connmgr.go:210-223 | takes one away; the peer stays protected as long as another is left |
| `ConnManager.BasicConnMgr.GetConnsToClose` | p2p/net/connmgr/connmgr.go:453-528 | the early exits; otherwise the connections of the shortest prefix of the sorted candidates after which no more than the low water mark is left, and the entries without connections in it deleted |
| `ConnManager.BasicConnMgr.Trim` | p2p/net/connmgr/connmgr.go:375-381 | once the chosen connections have closed, exactly the peers of that prefix are forgotten; whether it ran or not, with both watermarks set no more than the low one is left of what may be trimmed, and with no more connections than that nothing changes |
| `ConnManager.TrimIsExact` | p2p/net/connmgr/connmgr.go:453-528 | a trim is sound (no protected peer, none in its grace period, no peer spared that comes before one forgotten), sufficient (at most the low water mark of candidate connections is left) and minimal (the last peer had connections, and without it too many would be left) |
| `ConnManager.TrimForgetsTheLesser` | p2p/net/connmgr/connmgr.go:282-316 | between a peer forgotten and one spared that might have been forgotten: one without connections goes first, then the one worth less, then one without streams, then one with an inbound connection, then fewer streams, all told from tags, connections and streams |
| `ConnManager.LeavesLowWaterPeersIff` | p2p/net/connmgr/connmgr.go:320-328 | a trim leaves as many peers as the low water mark if and only if, of the peers in excess of it at the front of the queue, all but the last leave too many connections behind them and all of them do not |
| `ConnManager.OneConnectionEachIff` | p2p/net/connmgr/connmgr.go:320-328 | where every peer has a connection and may be trimmed: if and only if there are as many peers and those at the end of the queue have one connection each |
| `ConnManager.TrimLeavesNoPeer` | p2p/net/connmgr/connmgr.go:453-528 | the input that shows it can fail: one peer with two connections, of which one may stay, leaves no peer |
| `DecaySchedule.VisitsAreLeastReach` | p2p/net/connmgr/decay.go:165-214 | for every run of ticks, late or not, the number of visits is the least, over all moments, of the intervals that had passed then plus the ticks since |
| `DecaySchedule.KeepsPaceIff` | p2p/net/connmgr/decay.go:165-214 | a tag has been visited once for each interval if and only if no stretch of ticks has fewer ticks than intervals that passed during it |
| `DecaySchedule.OnTimeKeepsPace` | p2p/net/connmgr/decay.go:165-214 | when ticks come at least once an interval, each interval that passes is one visit |
| `Decay.Decayer.RegisterDecayingTag` | p2p/net/connmgr/decay.go:101-132 | refuses a name in use; raises the interval to the resolution; the first visit is one interval after the last tick |
| `Decay.Decayer.Tick` | p2p/net/connmgr/decay.go:165-214 | decays every peer by exactly the due tags, each visited once, and moves their next visit on |
| `Decay.Decayer.KeepsPace` | p2p/net/connmgr/decay.go:109-214 | a registered tag is never visited more often than its intervals have passed, and exactly as often when ticks come every resolution |
| `Decay.Decayer.Close` | p2p/net/connmgr/decay.go:344-356 | closes a tag once, with an error and no command when the queue is full |
| `Decay.Decayer.ProcessClose` | p2p/net/connmgr/decay.go:257-276 | unregisters the closed tag and never another of the same name |
| `Decay.Decayer.Bump` | p2p/net/connmgr/decay.go:310-325 | refused when the tag is closed or the queue is full, and otherwise the command waits behind the others |
| `Decay.Decayer.ProcessBump` | p2p/net/connmgr/decay.go:216-241 | the oldest command is taken, whatever has become of its tag |
| `Decay.Decayer.GoneIsNotDue` | p2p/net/connmgr/decay.go:165-214 | no tick visits a tag whose close has been processed |
| `Decay.Decayer.ClosedForGoodIff` | p2p/net/connmgr/decay.go:257-276 | a closed tag that no peer has, as after its close has been processed, stays gone in every continuation if and only if no bump of it waits or is about to be sent |
| `Decay.Revive` | p2p/net/connmgr/decay.go:216-276 | a run that brings it back: registered, bumped, closed, and the close taken first |
| `TagLife.StaysGoneIff` | p2p/net/connmgr/decay.go:165-276 | a tag that no peer has stays gone through any sequence of commands if and only if none of them bumps it |
| `TagLife.NeverDecays` | p2p/net/connmgr/decay.go:185-208 | a tag that ticks do not visit keeps its value at a peer through any commands that spare it there |
| `TagLife.ClosedStaysGoneIff` | p2p/net/connmgr/decay.go:310-325 | the same as `ClosedForGoodIff` for any state, with the check of the closed flag and the send as two steps |
| `EventBus.Node.Emit` | p2p/host/eventbus/basic.go:391-410 | every sink is sent the event once, in order, and the last one is kept by a stateful node |
| `EventBus.Node.AddSink` | p2p/host/eventbus/basic.go:245-263 | a new sink is sent the kept event, if any, and nothing else before later ones |
| `EventBus.Node.RemoveSink` | p2p/host/eventbus/basic.go:166-179 | exactly this sink leaves, although the last one takes its place |
| `EventBus.Node.DeliversFromTheOneBefore` | p2p/host/eventbus/basic.go:245-263 | at a node stateful from its start, a sink that joined after k events was sent exactly history[max(k-1, 0)..] to the end of its stay, without gap or repetition |
| `EventBus.Bus.NewEmitter` | p2p/host/eventbus/basic.go:278-302 | attaches an open emitter to the node registered for its type |
| `EventBus.Bus.Subscribe` | p2p/host/eventbus/basic.go:245-263 | attaches a sink to it, with its first event as above |
| `EventBus.Bus.CloseEmitter` | p2p/host/eventbus/basic.go:49-57 | closes once; asks for the drop when it was the last |
| `EventBus.Bus.CloseSink` | p2p/host/eventbus/basic.go:166-188 | takes the sink out; asks for the drop when nothing is left |
| `EventBus.Bus.TryDropNode` | p2p/host/eventbus/basic.go:94-112 | unregisters the node unless it has been attached to again in the meantime |
| `EventBus.Bus.NeverApart` | p2p/host/eventbus/basic.go:70-112 | in any order of all these, an open emitter and a present sink of one type are at the same, registered node |
| `AutoNat.AmbientAutoNAT.RecordObservation` | p2p/host/autonat/autonat.go:327-397 | the branches implement a rule of three cases: confirm, displace, weaken |
| `AutoNat.AmbientAutoNAT.Background` | p2p/host/autonat/autonat.go:164-249 | the event loop does the run, and keeps the invariant |
| `AutoNat.RunKeeps` | p2p/host/autonat/autonat.go:327-397 | in every run confidence is in 0..3 and 0 while unknown, a present service is enabled exactly when the status is not private, and the events emitted are exactly the changes of status |
| `AutoNat.EqualObservationsWin` | p2p/host/autonat/autonat.go:327-397 | one more equal observations than the confidence bring any state to that status and keep it, whatever address changes come between |
| `AutoNat.FourWin` | p2p/host/autonat/autonat.go:327-397 | so four always do |
| `AutoNat.ConfirmationsStrengthen` | p2p/host/autonat/autonat.go:340-390 | in a run of n probes that confirm a public or private status it stays, nothing is emitted, and the confidence ends at the lesser of three and n more than before |
| `AutoNat.DialedIsPublic` | p2p/host/autonat/autonat.go:335-350 | after any run one successful dial makes the status public, with no confidence if it is new |
| `AutoNat.NoConfidenceFollows` | p2p/host/autonat/autonat.go:327-397 | without confidence the status becomes what the next probe says: a dial public, a dial error private, another error unknown |
| `AutoNat.PublicIsDisplacedIff` | p2p/host/autonat/autonat.go:361-391 | observations other than public, with any address changes between them, displace the public status if and only if there are more of them than the confidence, less one if an address change comes first at full confidence |
| `AutoNat.PublicLastsAsConfirmed` | p2p/host/autonat/autonat.go:327-397 | from the start, after n + 1 successful dials, unsuccessful probes displace the public status if and only if there are more of them than n, or than three |
| `AutoNat.PrivateIsDisplacedIff` | p2p/host/autonat/autonat.go:361-397 | probes that say nothing displace a private status by unknown if and only if there are more of them than the confidence, less one if an address change comes first at full confidence |
| `Envelope.UvarintReads` | core/record/envelope.go:281-285 | the bytes of a number have the top bit set on all but the last, are no more than needed, and sum to the number, seven bits a byte, least significant first |
| `Envelope.OnlyVarint` | core/record/envelope.go:281-285 | and they are the only such bytes |
| `Envelope.UvarintIsPrefixCode` | core/record/envelope.go:281-285 | from the bytes of a varint and what follows, both can be read off |
| `Envelope.UnsignedIsInjective` | core/record/envelope.go:270-296 | two triples of domain, payload type and payload have the same signed bytes if and only if they are equal |
| `Envelope.UnsignedReadsBack` | core/record/envelope.go:270-296 | reading the signed bytes field by field, each with its length before it, gives the domain, then the payload type, then the payload, and nothing is left |
| `Envelope.MakeUnsigned` | core/record/envelope.go:270-296 | the copies fill the buffer to its last byte with the framed fields |
| `Envelope.Seal` | core/record/envelope.go:53-86 | the errors, in order, and otherwise the signature of the framed fields |
| `Envelope.Validate` | core/record/envelope.go:250-265 | accepts exactly when the signature verifies for the domain and what the envelope holds |
| `Envelope.SealBinds` | core/record/envelope.go:53-265 | a sealed signature validates for a domain, payload type and payload if and only if they are those that were sealed |
| `Envelope.EqualMeansSameDomain` | core/record/envelope.go:210-221 | equal envelopes were sealed in the same domain, as the comment on Equal claims |
| `RelayWork.RelayFinder.RunScheduledWork` | p2p/host/autorelay/relay_finder.go:223-275 | the next run is later than this one, no stored deadline is later than an expiry it is for, and no entry is left whose time had run out |
| `RelayWork.Clear` | p2p/host/autorelay/relay_finder.go:279-325 | deletes exactly the expired entries, and answers the earliest expiry of the others |
| `Relays.NeverTooManyRelays` | p2p/host/autorelay/relay_finder.go:520-666 | in every interleaving of candidate loop, background loop and parallel refreshes there are at most as many relays as desired |
| `Relays.RelayIffGainedLast` | p2p/host/autorelay/relay_finder.go:520-666 | in every run a peer is a relay if and only if the last that has happened to it was a slot given or a refresh that succeeded, and not a disconnect or a refresh that failed |
| `Relays.WaitsIffUnanswered` | p2p/host/autorelay/relay_finder.go:621-643 | in every run a refresh is waited for if and only if it has been started and not answered |
| `Relays.DisconnectDuringRefreshWouldExceed` | p2p/host/autorelay/relay_finder.go:179-211 | the bound rests on the background loop taking no disconnect while refreshes run: a run that breaks it otherwise |
| `Discovery.Receiver.Receive` | p2p/discovery/backoff/backoffcache.go:268-288 | sent followed by queued is always seed followed by received, whatever room the output has |
| `Discovery.Receiver.Finish` | p2p/discovery/backoff/backoffcache.go:289-299 | when the input closes, everything is delivered unless cancelled, and then a prefix |
| `Discovery.MergeAddrInfos` | p2p/discovery/backoff/backoffcache.go:302-322 | the two loops compute the first occurrences of both lists |
| `Discovery.MergedIff` | p2p/discovery/backoff/backoffcache.go:302-322 | it answers the duplicate-free union if and only if more addresses are new than the first list repeats |
| `Discovery.NoticesNewIff` | p2p/discovery/backoff/backoffcache.go:302-322 | every new address is noticed, whatever the second list, if and only if the first list repeats none |
| `Discovery.NewAddressLost` | p2p/discovery/backoff/backoffcache.go:302-322 | the input that shows it: a list that repeats an address swallows a new one |
| `Discovery.Dispatcher.Receive` | p2p/discovery/backoff/backoffcache.go:226-256 | each peer's entry is the duplicate-free union of all lists received for it, if none of them repeats an address; each channel has been sent the first of the news since it joined, up to its limit |
| `Dedup.DedupAddrs` | core/network/network.go:192-208 | the front holds the addresses given, each once and increasing, the rest is cleared |
| `Dedup.Compact` | core/network/network.go:197-203 | the comparison with the previous cell always reads the sorted value, despite the writes |
| `Dedup.LessIsByteOrder` | core/network/network.go:192-208 | one address comes before another if and only if it is a proper prefix of it or has the smaller byte where they first differ |
| `Dedup.IncreasingIsCanonical` | core/network/network.go:192-208 | the result depends only on which addresses were given, not on their order or repetitions |

## Left out

- Tracing, metrics and logging: they do not affect state.
- Limit configuration: limits are plain records, chosen by a function of the scope's name.
- Allowlist matching: two flags given to `OpenConnection` and `SetPeer`.
- Integer width of everything but memory: counters of streams, connections, descriptors and references, and values of
  tags, are unbounded.
- The three spellings of reserve, release and rollback for memory, streams and connections are one, with the request as a
  parameter. In the third, the loop after an owner's removal has no return (p2p/host/resource-manager/scope.go:629-637);
  spans have no edges, so it makes no difference.
- Services and protocols are one map, and their per-peer maps are values in it rather than objects of their own.
- `Manager.StreamScope.SetProtocol`: refused, it leaves protocol and per-peer scopes that it had to open, without any
  charge on them; they are collected later. The same holds for `SetService`, and for the peer's scope in `OpenStream` and
  `SetPeer`.
- `Interleaving.NextKeeps`: opening a peer, protocol or service scope is one step, and the closed flag is set at the start
  of a closing whose lock is kept to its end; neither can be observed. A user who keeps a scope it was handed without a
  reference, and works on it after the connection or stream has closed, is not modelled.
- `Interleaving.Join`: a parent is charged by a thread that has a reference to it, where transferAllowedToStandard charges
  the system and transient scopes first and takes the references after (p2p/host/resource-manager/rcmgr.go:640-656).
  These scopes are never collected, so it makes no difference.
- The 256 segments of the connection manager are one map; each operation holds one segment's lock, and a trim or tick is
  one step here although it takes the locks in turn.
- The streams of a connection are read once per trim; the code reads them at each comparison.
- `ConnManager.BasicConnMgr.GetConnsToClose`: the chosen connections are a set, as their order within a peer is that of a
  Go map.
- `getConnsToCloseEmergency`, the silence period, the watermark test of the background loop and its clock.
- `GetTagInfo`, `GetInfo` and the queue of remove commands.
- `EventBus.Bus.CloseEmitter`: the closed flag and the count of emitters change in one step, in the code in two
  (p2p/host/eventbus/basic.go:50-53).
- `EventBus.Bus.Subscribe`: a channel subscribes to a type once; the wildcard node, and an emit that has passed the closed
  check before the emitter closes, are left out.
- AutoNAT probing, its schedule and the stream service.
- Cryptography and protobuf: an abstract signature scheme; marshalling a record is given.
- Finding and testing relay candidates, reservations themselves and their expiry; a candidate may appear at any time. The
  bound on candidates is not claimed, as the code compares with `>` (p2p/host/autorelay/relay_finder.go:445).
- The backoff strategy and the cached answers of discovery; with a limit of 0 a receiver is sent nothing, as in the code.
- Sorting is an insertion sort in place of the library's.
- `Dedup.DedupAddrs`: addresses are their bytes; a nil address, on which the code panics, is not given.
