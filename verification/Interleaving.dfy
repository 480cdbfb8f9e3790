/**
 * The resource manager under concurrency: any number of threads, each in the middle of a reservation, a release, a
 * closing or an attachment, take turns one locked change at a time (p2p/host/resource-manager/scope.go and
 * rcmgr.go). What a thread has charged but not yet settled, what it owes and which references it holds are part of
 * the state, and the books balance, with these amounts, after every change.
 */
module Interleaving {
  import opened Common
  import opened Resources
  import opened Ledgers
  import opened Accounts
  import opened Moves
  import opened Registry

  type Tid = nat

  // ---------------------------------------------------------------- what threads are in the middle of

  datatype Phase =
    | Free
    /** Charging the request up the owners and then on the edges of the last one. */
    | Reserving(req: Request)
    /** Every scope has granted; the charges become own charges, from the root down. */
    | Granted
    /** A scope has refused; the charges are given back. */
    | Refused
    /** Something was released or closed, and is on its way to owners and edges. */
    | Releasing
    /** New parents are being charged for a connection or stream. */
    | Attaching

  /**
   * `chain`: scopes whose lock the thread keeps, each followed by its owner.
   * `held`: scopes on which `d` is counted on the thread's account.
   * `owed`: an owner that has yet to give up `d`.
   * `refs`: references the thread has taken; `drops`: references it is about to drop.
   */
  datatype Task = Task(phase: Phase, chain: seq<Id>, d: Stat, held: seq<Id>, owed: Option<Id>, refs: multiset<Id>,
                       drops: multiset<Id>)

  // ---------------------------------------------------------------- the ledger of all threads

  function Load(a: Task, i: Id, k: Kind): Entry {
    Entry(if i in a.held then At(a.d, k) else 0, if a.owed == Some(i) then At(a.d, k) else 0, a.refs[i] + a.drops[i])
  }

  function AddEntry(a: Entry, b: Entry): Entry { Entry(a.charged + b.charged, a.owed + b.owed, a.pins + b.pins) }

  function SubEntry(a: Entry, b: Entry): Entry { Entry(a.charged - b.charged, a.owed - b.owed, a.pins - b.pins) }

  /** What the first `n` threads have under way on scope `i`. */
  function Loads(tasks: seq<Task>, n: nat, i: Id, k: Kind): Entry
    requires n <= |tasks|
  {
    if n == 0 then NOTHING else AddEntry(Loads(tasks, n - 1, i, k), Load(tasks[n - 1], i, k))
  }

  lemma {:induction false} LoadsUpdate(tasks: seq<Task>, t: nat, b: Task, n: nat, i: Id, k: Kind)
    requires t < |tasks| && n <= |tasks|
    ensures Loads(tasks[t := b], n, i, k) ==
            if t < n then AddEntry(SubEntry(Loads(tasks, n, i, k), Load(tasks[t], i, k)), Load(b, i, k))
            else Loads(tasks, n, i, k)
  {
    hide Load;
    if n > 0 { LoadsUpdate(tasks, t, b, n - 1, i, k); }
  }

  predicate Carries(a: Entry, b: Entry) { b.charged <= a.charged && b.owed <= a.owed && b.pins <= a.pins }

  /** Amounts under way are not negative, so all threads together carry at least what one of them does. */
  lemma {:induction false} LoadsCarry(tasks: seq<Task>, n: nat, t: nat, i: Id, k: Kind)
    requires n <= |tasks| && forall j :: 0 <= j < |tasks| ==> Amount(tasks[j].d)
    ensures Carries(Loads(tasks, n, i, k), NOTHING)
    ensures t < n ==> Carries(Loads(tasks, n, i, k), Load(tasks[t], i, k))
  {
    if n > 0 {
      LoadsCarry(tasks, n - 1, t, i, k);
      LoadCarries(tasks[n - 1], i, k);
      hide Load;
    }
  }

  lemma LoadCarries(a: Task, i: Id, k: Kind)
    requires Amount(a.d)
    ensures Carries(Load(a, i, k), NOTHING)
  {
  }

  /** The ledger: what all threads have under way, and the references of the manager itself (`base`). */
  function LedgerOf(base: seq<int>, tasks: seq<Task>, k: Kind): (led: Ledger)
    ensures |led| == |base|
  {
    seq(|base|, i requires 0 <= i < |base| => AddEntry(Loads(tasks, |tasks|, i, k), Entry(0, 0, base[i])))
  }

  lemma LedgerUpdate(base: seq<int>, tasks: seq<Task>, t: nat, b: Task, k: Kind, i: Id)
    requires t < |tasks| && i < |base|
    ensures LedgerOf(base, tasks[t := b], k)[i] ==
            AddEntry(SubEntry(LedgerOf(base, tasks, k)[i], Load(tasks[t], i, k)), Load(b, i, k))
  {
    hide Load;
    LoadsUpdate(tasks, t, b, |tasks|, i, k);
  }

  lemma LedgerCarries(base: seq<int>, tasks: seq<Task>, t: nat, i: Id, k: Kind)
    requires t < |tasks| && i < |base| && 0 <= base[i] && forall j :: 0 <= j < |tasks| ==> Amount(tasks[j].d)
    ensures Carries(LedgerOf(base, tasks, k)[i], Load(tasks[t], i, k))
    ensures Carries(LedgerOf(base, tasks, k)[i], Entry(0, 0, base[i]))
  {
    hide Load;
    LoadsCarry(tasks, |tasks|, t, i, k);
  }

  /** Recognizing the ledger after one thread has moved on. */
  lemma LedgerIs(base: seq<int>, tasks: seq<Task>, t: nat, b: Task, k: Kind, led: Ledger)
    requires t < |tasks| && |led| == |base|
    requires forall i :: 0 <= i < |base| ==>
      led[i] == AddEntry(SubEntry(LedgerOf(base, tasks, k)[i], Load(tasks[t], i, k)), Load(b, i, k))
    ensures LedgerOf(base, tasks[t := b], k) == led
  {
    hide LedgerOf, Load;
    forall i | 0 <= i < |base| ensures LedgerOf(base, tasks[t := b], k)[i] == led[i] {
      LedgerUpdate(base, tasks, t, b, k, i);
    }
  }

  // ---------------------------------------------------------------- states

  /**
   * `base`: references of the manager itself. `locks`: locks that are kept from one step to the next.
   * `gc`: the thread that keeps the lock of the manager to collect garbage; `chosen`: a scope it has found unused;
   * `dead`: the peers whose scopes it has closed.
   */
  datatype State = State(w: World, base: seq<int>, locks: seq<Option<Tid>>, tasks: seq<Task>, peers: map<string, Id>,
                         gc: Option<Tid>, chosen: Option<Id>, dead: set<string>)

  predicate Sizes(s: State) {
    |s.base| == |s.w| == |s.locks| && forall i :: 0 <= i < |s.base| ==> 0 <= s.base[i]
  }

  /** Every scope in the chain is followed by its owner. */
  predicate Linked(w: World, chain: seq<Id>) {
    && (forall j :: 0 <= j < |chain| ==> chain[j] < |w| && !w[chain[j]].done)
    && (forall j :: 0 <= j < |chain| - 1 ==> w[chain[j]].owner == Some(chain[j + 1]))
  }

  /** A charge that keeps its scope open: there is a reference to drop, or an open scope that has it as a parent. */
  predicate Backed(w: World, a: Task, e: Id)
    requires a.chain != []
  {
    var r := a.chain[|a.chain| - 1];
    e in a.drops || (r < |w| && !w[r].done && e in w[r].edges)
  }

  predicate PhaseOk(w: World, a: Task) {
    match a.phase
    case Free =>
      a.chain == [] && a.held == [] && a.owed == None
    case Reserving(req) =>
      && !req.Bulk? && a.d == Delta(req) && a.owed == None && a.chain != [] && Linked(w, a.chain)
      && var edges := w[a.chain[|a.chain| - 1]].edges;
      && |a.chain| <= |a.held| <= |a.chain| + |edges| && a.held == a.chain + edges[..|a.held| - |a.chain|]
    case Granted =>
      && a.chain != [] && Linked(w, a.chain) && (a.held == a.chain || a.held == a.chain[..|a.chain| - 1])
      && a.owed == (if a.held == [] then None else w[a.held[|a.held| - 1]].owner)
      && (a.held != [] ==> a.owed.Some?)
    case Refused =>
      a.chain != [] && a.owed == None && forall e :: e in a.held ==> e in a.chain || Backed(w, a, e)
    case Releasing =>
      a.chain != [] && (a.owed.Some? ==> a.held == []) && forall e :: e in a.held ==> Backed(w, a, e)
    case Attaching =>
      && a.owed == None && |a.chain| == 1
      && var x := a.chain[0];
      && Attachable(w, x) && w[x].rc == a.d
      && (forall e :: e in a.held ==> e in a.refs && e != x && e !in w[x].edges)
      && (forall e :: e in a.refs && e < |w| && w[e].name.PerPeer? ==>
            exists f :: f in w[x].edges && f < |w| && w[f].name == Peer(w[e].name.peer))
  }

  predicate TaskOk(w: World, locks: seq<Option<Tid>>, u: Tid, a: Task)
    requires |locks| == |w|
  {
    && Amount(a.d) && Distinct(a.chain) && HeldOk(w, a.held, a.chain) && RefsOk(w, a) && PhaseOk(w, a)
    && (forall l :: l in a.chain ==> l < |w| && locks[l] == Some(u))
    && (a.owed.Some? ==> a.owed.value < |w|)
  }

  /** Charges are held on scopes that the thread keeps locked, or on scopes that may be parents. */
  predicate HeldOk(w: World, held: seq<Id>, chain: seq<Id>) {
    Distinct(held) && forall e :: e in held ==> e < |w| && (e in chain || Filable(w[e].name))
  }

  /** References are to open scopes; to the parts of services and protocols only while attaching. */
  predicate RefsOk(w: World, a: Task) {
    && (forall e :: e in a.refs ==> e < |w| && !w[e].done && Filable(w[e].name))
    && (forall e :: e in a.refs && e < |w| && w[e].name.PerPeer? ==> a.phase.Attaching?)
    && (forall e :: e in a.drops ==> e < |w|)
  }

  predicate TasksOk(s: State)
    requires Sizes(s)
  {
    forall u :: 0 <= u < |s.tasks| ==> TaskOk(s.w, s.locks, u, s.tasks[u])
  }

  /** The balance, with everything that is under way. */
  ghost predicate InBalance(s: State) {
    forall k: Kind :: Balanced(GraphOf(s.w, k), LedgerOf(s.base, s.tasks, k))
  }

  /** Names and links: the fixed scopes stay, peers have one open scope each, only spans have owners. */
  predicate NamesOk(w: World, peers: map<string, Id>) {
    && Fixed(w) && Parents(w)
    && (forall i :: 0 <= i < |w| ==>
          (w[i].name.Span? <==> w[i].owner.Some?) && (w[i].name.PerPeer? ==> w[i].edges == []))
    && (forall i :: 0 <= i < |w| && w[i].name.Peer? && !w[i].done ==>
          w[i].name.peer in peers && peers[w[i].name.peer] == i)
    && (forall p :: p in peers ==> peers[p] < |w| && w[peers[p]].name == Peer(p) && !w[peers[p]].done)
  }

  /** What the collector knows: the chosen scope has no references, and dead peers have no open scope. */
  predicate CollectorOk(s: State) {
    && (s.chosen.Some? || s.dead != {} ==> s.gc.Some?)
    && (s.chosen.Some? ==>
          && s.chosen.value < |s.w| && !s.w[s.chosen.value].done && s.w[s.chosen.value].refCnt == 0
          && (s.w[s.chosen.value].name.Peer? || s.w[s.chosen.value].name.Shared?))
    && (forall p :: p in s.dead ==> p !in s.peers)
  }

  ghost predicate Inv(s: State) {
    Sizes(s) && Limited(s.w) && InBalance(s) && TasksOk(s) && NamesOk(s.w, s.peers) && CollectorOk(s)
  }

  // ---------------------------------------------------------------- how a step affects the other threads

  /** A step of thread `t` respects the locks of the others, and closes nothing that they hold a reference to. */
  predicate Respects(s: State, s': State, t: Tid)
    requires Sizes(s) && Sizes(s')
  {
    && t < |s.tasks| && |s.w| <= |s'.w| && s'.tasks == s.tasks[t := if t < |s'.tasks| then s'.tasks[t] else s.tasks[t]]
    && (forall i :: 0 <= i < |s.w| ==> s'.w[i].name == s.w[i].name)
    && (forall i :: 0 <= i < |s.w| && s.locks[i].Some? && s.locks[i] != Some(t) ==>
          s'.w[i] == s.w[i] && s'.locks[i] == s.locks[i])
    && (forall u, e :: 0 <= u < |s.tasks| && u != t && e in s.tasks[u].refs && e < |s.w| ==> !s'.w[e].done)
  }

  lemma OtherOk(s: State, s': State, t: Tid, u: Tid)
    requires Sizes(s) && Sizes(s') && TasksOk(s) && Respects(s, s', t) && u < |s.tasks| && u != t && Shaped(s.w)
    ensures TaskOk(s'.w, s'.locks, u, s'.tasks[u])
  {
    hide PhaseOk, Filable;
    var a := s.tasks[u];
    assert s'.tasks[u] == a && TaskOk(s.w, s.locks, u, a);
    forall l | l in a.chain ensures l < |s'.w| && s'.locks[l] == Some(u) && s'.w[l] == s.w[l] {}
    if a.phase.Granted? { GrantedHeld(s.w, a); }
    OtherPhaseOk(s.w, s'.w, a);
  }

  lemma GrantedHeld(w: World, a: Task)
    requires PhaseOk(w, a) && a.phase.Granted?
    ensures forall e :: e in a.held ==> e in a.chain
  {
    forall e | e in a.held ensures e in a.chain {
      var j :| 0 <= j < |a.held| && a.held[j] == e;
      assert a.chain[j] == e;
    }
  }

  /** The phase of a thread depends only on the scopes in its chain, and on names. */
  lemma OtherPhaseOk(w: World, w': World, a: Task)
    requires PhaseOk(w, a) && |w| <= |w'|
    requires forall i :: 0 <= i < |w| ==> w'[i].name == w[i].name
    requires forall l :: l in a.chain ==> l < |w| && w'[l] == w[l]
    requires forall e :: e in a.refs ==> e < |w|
    requires a.phase.Granted? ==> forall e :: e in a.held ==> e in a.chain
    ensures PhaseOk(w', a)
  {
    if a.chain != [] {
      assert a.chain[|a.chain| - 1] in a.chain && a.chain[0] in a.chain;
      forall j | 0 <= j < |a.chain| ensures a.chain[j] < |w| && w'[a.chain[j]] == w[a.chain[j]] {
        assert a.chain[j] in a.chain;
      }
    }
    if a.phase.Granted? && a.held != [] { assert a.held[|a.held| - 1] in a.held; }
    if a.phase.Attaching? {
      var x := a.chain[0];
      forall e | e in a.refs && e < |w'| && w'[e].name.PerPeer?
        ensures exists f :: f in w'[x].edges && f < |w'| && w'[f].name == Peer(w'[e].name.peer)
      {
        var f :| f in w[x].edges && f < |w| && w[f].name == Peer(w[e].name.peer);
        assert w'[f].name == w[f].name;
      }
    }
  }

  /** The parts of the invariant, after a step. */
  lemma StepKeeps(s: State, s': State, t: Tid)
    requires Inv(s) && Sizes(s') && Respects(s, s', t) && TaskOk(s'.w, s'.locks, t, s'.tasks[t])
    requires Limited(s'.w) && InBalance(s') && NamesOk(s'.w, s'.peers) && CollectorOk(s')
    ensures Inv(s')
  {
    hide Limited, InBalance, NamesOk, CollectorOk, TaskOk, Respects;
    InvShaped(s);
    RespectsTasks(s, s', t);
    forall u | 0 <= u < |s'.tasks| ensures TaskOk(s'.w, s'.locks, u, s'.tasks[u]) {
      if u != t { OtherOk(s, s', t, u); }
    }
  }

  lemma RespectsTasks(s: State, s': State, t: Tid)
    requires Sizes(s) && Sizes(s') && Respects(s, s', t)
    ensures t < |s.tasks| == |s'.tasks|
  {
  }

  lemma InvShaped(s: State)
    requires Inv(s)
    ensures Shaped(s.w)
  {
    assert Balanced(GraphOf(s.w, MemoryKind), LedgerOf(s.base, s.tasks, MemoryKind));
  }

  // ---------------------------------------------------------------- charging a scope, and taking a charge back

  /** The scope counts the request on the thread's account; its lock may be kept. */
  function Counted(s: State, t: Tid, e: Id, a: Task, keep: bool): State
    requires t < |s.tasks| && e < |s.w| == |s.locks|
  {
    s.(w := AddedOn(s.w, [e], [], a.d), tasks := s.tasks[t := a], locks := if keep then s.locks[e := Some(t)]
      else s.locks)
  }

  /** The thread takes on a charge on `e`, and nothing else. */
  predicate TakesOn(a: Task, a': Task, e: Id) {
    && e !in a.held && a'.held == a.held + [e] && a.owed == None && a'.owed == None
    && a'.refs == a.refs && a'.drops == a.drops && (a.held != [] ==> a'.d == a.d)
  }

  lemma CountedBalance(s: State, t: Tid, e: Id, a': Task, keep: bool, req: Request)
    requires Inv(s) && t < |s.tasks| && e < |s.w| && TakesOn(s.tasks[t], a', e)
    requires a'.d == Delta(req) && Amount(a'.d) && Verdict(s.w[e], req) == None && Fits(s.w[e].limit, s.w[e].rc, a'.d)
    ensures InBalance(Counted(s, t, e, a', keep)) && Limited(Counted(s, t, e, a', keep).w)
  {
    hide Limited, TasksOk, NamesOk, CollectorOk, Add, Plus, Check, Within;
    LimitedAt(s.w, e);
    GrantKeepsLimits(s.w[e].limit, s.w[e].rc, req);
    CountedLimits(s.w, e, a'.d);
    forall k: Kind ensures Balanced(GraphOf(AddedOn(s.w, [e], [], a'.d), k), LedgerOf(s.base, s.tasks[t := a'], k)) {
      CountedGraph(s.w, e, a'.d, k);
      CountedLedger(s.base, s.tasks, t, e, a', k);
      ChargeBalances(GraphOf(s.w, k), LedgerOf(s.base, s.tasks, k), e, At(a'.d, k));
    }
  }

  lemma LimitedAt(w: World, e: Id)
    requires Limited(w) && e < |w|
    ensures w[e].limit.Valid() && Sane(w[e].rc) && (!w[e].done ==> Within(w[e].limit, w[e].rc))
  {
  }

  lemma CountedLimits(w: World, e: Id, d: Stat)
    requires Limited(w) && e < |w| && !w[e].done && Within(w[e].limit, Add(w[e].rc, d))
    ensures Limited(AddedOn(w, [e], [], d))
  {
    hide Add;
  }

  lemma CountedGraph(w: World, e: Id, d: Stat, k: Kind)
    requires e < |w| && !w[e].done && Add(w[e].rc, d) == Plus(w[e].rc, d)
    ensures GraphOf(AddedOn(w, [e], [], d), k) == Charged(GraphOf(w, k), e, At(d, k))
  {
    hide Add;
    NodeAfter(w[e], d, false, k);
  }

  lemma CountedLedger(base: seq<int>, tasks: seq<Task>, t: Tid, e: Id, a': Task, k: Kind)
    requires t < |tasks| && e < |base| && TakesOn(tasks[t], a', e)
    ensures LedgerOf(base, tasks[t := a'], k) == Charge(LedgerOf(base, tasks, k), e, At(a'.d, k))
  {
    hide LedgerOf, At;
    LedgerIs(base, tasks, t, a', k, Charge(LedgerOf(base, tasks, k), e, At(a'.d, k)));
  }

  /** The scope gives back what it counted on the thread's account. */
  function Uncounted(s: State, t: Tid, e: Id, a: Task): State
    requires t < |s.tasks|
  {
    s.(w := RemovedOn(s.w, [e], [], a.d), tasks := s.tasks[t := a])
  }

  function Without(ids: seq<Id>, e: Id): seq<Id> {
    if ids == [] then [] else if ids[0] == e then ids[1..] else [ids[0]] + Without(ids[1..], e)
  }

  lemma {:induction false} WithoutIs(ids: seq<Id>, e: Id)
    requires Distinct(ids)
    ensures Distinct(Without(ids, e)) && forall i :: i in Without(ids, e) <==> i in ids && i != e
    ensures e !in ids ==> Without(ids, e) == ids
  {
    if ids != [] {
      hide Distinct;
      DistinctTail(ids);
      WithoutIs(ids[1..], e);
      if ids[0] != e { DistinctCons(ids[0], Without(ids[1..], e)); }
    }
  }

  lemma DistinctTail(ids: seq<Id>)
    requires ids != [] && Distinct(ids)
    ensures Distinct(ids[1..]) && ids[0] !in ids[1..]
    ensures forall i :: i in ids <==> i == ids[0] || i in ids[1..]
  {
    assert ids == [ids[0]] + ids[1..];
  }

  lemma DistinctCons(x: Id, rest: seq<Id>)
    requires Distinct(rest) && x !in rest
    ensures Distinct([x] + rest) && forall i :: i in [x] + rest <==> i == x || i in rest
  {
  }

  predicate LaysDown(a: Task, a': Task, e: Id) {
    && Distinct(a.held) && e in a.held && a'.held == Without(a.held, e)
    && a'.owed == a.owed && a'.refs == a.refs && a'.drops == a.drops && a'.d == a.d
  }

  /** The clamps do not fire: an open scope counts at least what is charged to it. */
  lemma HeldIsCounted(s: State, t: Tid, e: Id)
    requires Inv(s) && t < |s.tasks| && e in s.tasks[t].held && e < |s.w| && !s.w[e].done
    ensures Remove(s.w[e].rc, s.tasks[t].d) == Minus(s.w[e].rc, s.tasks[t].d) && Leq(s.tasks[t].d, s.w[e].rc)
  {
    hide Remove, Minus, Leq, LedgerOf;
    var d := s.tasks[t].d;
    forall k: Kind ensures At(d, k) <= At(s.w[e].rc, k) {
      var g, led := GraphOf(s.w, k), LedgerOf(s.base, s.tasks, k);
      assert Balanced(g, led);
      TasksAmount(s);
      LedgerCarries(s.base, s.tasks, t, e, k);
      UseCovers(g, led, e);
    }
    LeqByKinds(d, s.w[e].rc);
    LimitedAt(s.w, e);
    assert TaskOk(s.w, s.locks, t, s.tasks[t]);
    RemoveIsExact(s.w[e].rc, d);
  }

  lemma TasksAmount(s: State)
    requires Inv(s)
    ensures forall j :: 0 <= j < |s.tasks| ==> Amount(s.tasks[j].d)
  {
    forall j | 0 <= j < |s.tasks| ensures Amount(s.tasks[j].d) { assert TaskOk(s.w, s.locks, j, s.tasks[j]); }
  }

  lemma UncountedBalance(s: State, t: Tid, e: Id, a': Task)
    requires Inv(s) && t < |s.tasks| && e < |s.w| && LaysDown(s.tasks[t], a', e)
    ensures InBalance(Uncounted(s, t, e, a')) && Limited(Uncounted(s, t, e, a').w)
  {
    hide Limited, TasksOk, NamesOk, CollectorOk, Remove, Minus, Within;
    TasksAmount(s);
    if !s.w[e].done { HeldIsCounted(s, t, e); }
    UncountedLimits(s.w, e, a'.d);
    forall k: Kind ensures Balanced(GraphOf(RemovedOn(s.w, [e], [], a'.d), k), LedgerOf(s.base, s.tasks[t := a'], k)) {
      var x := -At(a'.d, k);
      UncountedGraph(s.w, e, a'.d, k, x);
      UncountedLedger(s.base, s.tasks, t, e, a', k, x);
      ChargeBalances(GraphOf(s.w, k), LedgerOf(s.base, s.tasks, k), e, x);
    }
  }

  lemma UncountedLimits(w: World, e: Id, d: Stat)
    requires Limited(w) && e < |w| && Amount(d)
    requires !w[e].done ==> Remove(w[e].rc, d) == Minus(w[e].rc, d) && Leq(d, w[e].rc)
    ensures Limited(RemovedOn(w, [e], [], d))
  {
    hide Remove, Minus, Leq, Amount, Within, Sane;
    LimitedAt(w, e);
    if !w[e].done { LessIsWithin(w[e].limit, w[e].rc, d); }
  }

  lemma LessIsWithin(limit: Limit, rc: Stat, d: Stat)
    requires Sane(rc) && Within(limit, rc) && Amount(d) && Leq(d, rc)
    ensures Sane(Minus(rc, d)) && Within(limit, Minus(rc, d))
  {
  }

  lemma UncountedGraph(w: World, e: Id, d: Stat, k: Kind, x: int)
    requires e < |w| && x == -At(d, k) && (!w[e].done ==> Remove(w[e].rc, d) == Minus(w[e].rc, d))
    ensures GraphOf(RemovedOn(w, [e], [], d), k) == Charged(GraphOf(w, k), e, x)
  {
    hide Remove;
    NodeBefore(w[e], d, false, k, x);
  }

  lemma UncountedLedger(base: seq<int>, tasks: seq<Task>, t: Tid, e: Id, a': Task, k: Kind, x: int)
    requires t < |tasks| && e < |base| && LaysDown(tasks[t], a', e) && x == -At(a'.d, k)
    ensures LedgerOf(base, tasks[t := a'], k) == Charge(LedgerOf(base, tasks, k), e, x)
  {
    hide LedgerOf, At;
    WithoutIs(tasks[t].held, e);
    LedgerIs(base, tasks, t, a', k, Charge(LedgerOf(base, tasks, k), e, x));
  }

  // ---------------------------------------------------------------- steps that only change counters

  /** Counters may differ, references and links may not. */
  predicate CountersOnly(w: World, w': World) {
    SameNames(w, w') && forall i :: 0 <= i < |w| ==> w'[i].refCnt == w[i].refCnt && w'[i].limit == w[i].limit
  }

  lemma CountersKeepNames(w: World, w': World, peers: map<string, Id>)
    requires NamesOk(w, peers) && SameNames(w, w')
    ensures NamesOk(w', peers)
  {
    forall i | 0 <= i < |w'| ensures ParentsAt(w', i) {
      assert ParentsAt(w, i);
      ParentsOfNames(w, w', i);
    }
  }

  /** A step by which one thread changes counters of scopes that no other thread has locked. */
  predicate CounterStep(s: State, s': State, t: Tid)
    requires Sizes(s)
  {
    && t < |s.tasks| && |s'.tasks| == |s.tasks| && s'.tasks == s.tasks[t := s'.tasks[t]]
    && CountersOnly(s.w, s'.w) && s'.base == s.base && |s'.locks| == |s.locks|
    && s'.peers == s.peers && s'.gc == s.gc && s'.chosen == s.chosen && s'.dead == s.dead
    && (forall i :: 0 <= i < |s.w| && s.locks[i].Some? && s.locks[i] != Some(t) ==>
          s'.w[i] == s.w[i] && s'.locks[i] == s.locks[i])
  }

  lemma CounterStepKeeps(s: State, s': State, t: Tid)
    requires Inv(s) && CounterStep(s, s', t) && TaskOk(s'.w, s'.locks, t, s'.tasks[t])
    requires Limited(s'.w) && InBalance(s')
    ensures Inv(s')
  {
    hide Limited, InBalance, NamesOk, TaskOk, Inv, PhaseOk;
    InvParts(s);
    CountersKeepNames(s.w, s'.w, s.peers);
    CounterStepRespects(s, s', t);
    StepKeeps(s, s', t);
  }

  lemma InvParts(s: State)
    requires Inv(s)
    ensures Sizes(s) && Limited(s.w) && InBalance(s) && TasksOk(s) && NamesOk(s.w, s.peers) && CollectorOk(s)
  {
  }

  lemma CounterStepRespects(s: State, s': State, t: Tid)
    requires Sizes(s) && TasksOk(s) && CounterStep(s, s', t)
    ensures Sizes(s') && Respects(s, s', t)
  {
    hide PhaseOk;
    forall u, e | 0 <= u < |s.tasks| && u != t && e in s.tasks[u].refs && e < |s.w| ensures !s'.w[e].done {
      assert TaskOk(s.w, s.locks, u, s.tasks[u]);
    }
  }

  lemma AddedCounters(w: World, e: Id, d: Stat)
    ensures CountersOnly(w, AddedOn(w, [e], [], d))
  {
  }

  lemma RemovedCounters(w: World, e: Id, d: Stat)
    ensures CountersOnly(w, RemovedOn(w, [e], [], d))
  {
  }

  predicate Unlocked(s: State, e: Id)
    requires Sizes(s)
  {
    e < |s.w| && s.locks[e] == None
  }

  /**
   * The scopes a thread may work on: those handed out to users, the fixed ones, those it has a reference to, and those
   * that an open connection or stream counts on and hands out without a reference.
   */
  predicate MayUse(s: State, t: Tid, x: Id)
    requires t < |s.tasks|
  {
    x < |s.w| && (!Filable(s.w[x].name) || x <= ALLOWED_TRANSIENT || x in s.tasks[t].refs || HasOpenChild(s.w, x))
  }

  predicate HasOpenChild(w: World, x: Id) {
    exists c :: 0 <= c < |w| && !w[c].done && x in w[c].edges
  }

  predicate CanTake(s: State, e: Id, req: Request) {
    e < |s.w| && Verdict(s.w[e], req) == None && Fits(s.w[e].limit, s.w[e].rc, Delta(req))
  }

  /** A reservation begins on `x`: refused at once, or counted there, with the lock of `x` kept. */
  predicate StartReserve(s: State, t: Tid, x: Id, req: Request, s': State)
    requires Sizes(s) && t < |s.tasks|
  {
    var a := s.tasks[t];
    && a.phase.Free? && Unlocked(s, x) && MayUse(s, t, x) && !req.Bulk?
    && (if Verdict(s.w[x], req).Some? then s' == s
        else CanTake(s, x, req) && s' == Counted(s, t, x,
                                                 Task(Reserving(req), [x], Delta(req), [x], None, a.refs, a.drops),
                                                 true))
  }

  function Last(chain: seq<Id>): Id
    requires chain != []
  {
    chain[|chain| - 1]
  }

  /** The owner of the last scope is asked next. */
  predicate ReserveOwner(s: State, t: Tid, o: Id, s': State)
    requires Sizes(s) && t < |s.tasks|
  {
    var a := s.tasks[t];
    && a.phase.Reserving? && a.chain != [] && Last(a.chain) < |s.w| && s.w[Last(a.chain)].owner == Some(o)
        && Unlocked(s, o)
    && (if Verdict(s.w[o], a.phase.req).Some? then s' == s.(tasks := s.tasks[t := a.(phase := Refused)])
        else CanTake(s, o, a.phase.req) && s' == Counted(s, t, o, a.(chain := a.chain + [o], held := a.held + [o]),
                                                         true))
  }

  /** The next edge of the last owner is asked. */
  predicate ReserveEdge(s: State, t: Tid, s': State)
    requires Sizes(s) && t < |s.tasks|
  {
    var a := s.tasks[t];
    && a.phase.Reserving? && a.chain != [] && Last(a.chain) < |s.w| && s.w[Last(a.chain)].owner.None?
    && var edges := s.w[Last(a.chain)].edges;
    && 0 <= |a.held| - |a.chain| < |edges|
    && var e := edges[|a.held| - |a.chain|];
    && Unlocked(s, e)
    && (if Verdict(s.w[e], a.phase.req).Some? then s' == s.(tasks := s.tasks[t := a.(phase := Refused)])
        else CanTake(s, e, a.phase.req) && s' == Counted(s, t, e, a.(held := a.held + [e]), false))
  }

  lemma GrantedAmountOf(c: Scope, req: Request)
    requires Verdict(c, req).None? && !req.Bulk?
    ensures Amount(Delta(req))
  {
  }

  lemma CountedStep(s: State, t: Tid, e: Id, a': Task, keep: bool)
    requires Sizes(s) && t < |s.tasks| && Unlocked(s, e)
    ensures CounterStep(s, Counted(s, t, e, a', keep), t)
  {
    AddedCounters(s.w, e, a'.d);
  }

  lemma UncountedStep(s: State, t: Tid, e: Id, a': Task)
    requires Sizes(s) && t < |s.tasks| && e < |s.w| && (s.locks[e] == None || s.locks[e] == Some(t))
    ensures CounterStep(s, Uncounted(s, t, e, a'), t)
  {
    RemovedCounters(s.w, e, a'.d);
  }

  lemma RefsKept(w: World, w': World, a: Task, a': Task)
    requires RefsOk(w, a) && SameNames(w, w') && a'.refs == a.refs && a'.drops == a.drops
    requires a.phase.Attaching? ==> a'.phase.Attaching?
    ensures RefsOk(w', a')
  {
  }

  /** One more charge, and perhaps a longer chain. */
  lemma MoreHeld(w: World, w': World, held: seq<Id>, chain: seq<Id>, e: Id, chain': seq<Id>)
    requires HeldOk(w, held, chain) && SameNames(w, w') && e !in held && e < |w|
    requires forall x :: x in chain ==> x in chain'
    requires e in chain' || Filable(w[e].name)
    ensures HeldOk(w', held + [e], chain')
  {
    forall x | x in held + [e] ensures x == e || x in held {}
  }

  lemma StartReserveTask(w: World, locks: seq<Option<Tid>>, t: Tid, a: Task, x: Id, req: Request, w': World, a': Task)
    requires |locks| == |w| && TaskOk(w, locks, t, a) && a.phase.Free? && x < |w| && !w[x].done && !req.Bulk?
    requires Amount(Delta(req)) && SameNames(w, w')
    requires a' == Task(Reserving(req), [x], Delta(req), [x], None, a.refs, a.drops)
    ensures TaskOk(w', locks[x := Some(t)], t, a') && TakesOn(a, a', x)
  {
    hide Amount, Delta, Filable;
    RefsKept(w, w', a, a');
    assert [x] + w'[x].edges[..0] == [x];
  }

  lemma StartReserveKeeps(s: State, t: Tid, x: Id, req: Request, s': State)
    requires Inv(s) && t < |s.tasks| && StartReserve(s, t, x, req, s')
    ensures Inv(s')
  {
    hide Inv, TaskOk, InBalance, Limited, Check, Fits, Amount, Delta, CounterStep, AddedOn, SameNames;
    if Verdict(s.w[x], req).None? {
      InvParts(s);
      var a' := s'.tasks[t];
      GrantedAmountOf(s.w[x], req);
      AddedCounters(s.w, x, a'.d);
      StartReserveTask(s.w, s.locks, t, s.tasks[t], x, req, s'.w, a');
      CountedBalance(s, t, x, a', true, req);
      CountedStep(s, t, x, a', true);
      CounterStepKeeps(s, s', t);
    }
  }

  lemma SameLoads(base: seq<int>, tasks: seq<Task>, t: Tid, a': Task, k: Kind)
    requires t < |tasks| && a'.held == tasks[t].held && a'.owed == tasks[t].owed && a'.d == tasks[t].d
    requires a'.refs + a'.drops == tasks[t].refs + tasks[t].drops
    ensures LedgerOf(base, tasks[t := a'], k) == LedgerOf(base, tasks, k)
  {
    forall i | 0 <= i < |base| ensures Load(a', i, k) == Load(tasks[t], i, k) {
      assert (a'.refs + a'.drops)[i] == (tasks[t].refs + tasks[t].drops)[i];
    }
    hide LedgerOf, Load;
    LedgerIs(base, tasks, t, a', k, LedgerOf(base, tasks, k));
  }

  /** The thread moves on without touching any scope. */
  lemma TaskStepKeeps(s: State, t: Tid, a': Task, s': State)
    requires Inv(s) && t < |s.tasks| && s'.w == s.w && s'.tasks == s.tasks[t := a'] && CounterStep(s, s', t)
    requires a'.held == s.tasks[t].held && a'.owed == s.tasks[t].owed && a'.d == s.tasks[t].d
    requires a'.refs + a'.drops == s.tasks[t].refs + s.tasks[t].drops
    requires TaskOk(s.w, s'.locks, t, a')
    ensures Inv(s')
  {
    hide Inv, TaskOk, Limited, CounterStep;
    InvParts(s);
    forall k: Kind ensures Balanced(GraphOf(s'.w, k), LedgerOf(s'.base, s'.tasks, k)) {
      CounterStepBase(s, s', t);
      SameLoads(s.base, s.tasks, t, a', k);
    }
    CounterStepKeeps(s, s', t);
  }

  lemma CounterStepBase(s: State, s': State, t: Tid)
    requires Sizes(s) && CounterStep(s, s', t)
    ensures s'.base == s.base && |s'.locks| == |s.locks|
  {
  }

  lemma NoChange(s: State, t: Tid, a': Task)
    requires Sizes(s) && t < |s.tasks|
    ensures CounterStep(s, s.(tasks := s.tasks[t := a']), t)
  {
  }

  lemma RefusedTask(w: World, locks: seq<Option<Tid>>, t: Tid, a: Task)
    requires |locks| == |w| && TaskOk(w, locks, t, a) && a.phase.Reserving?
    ensures TaskOk(w, locks, t, a.(phase := Refused))
  {
  }

  lemma ReserveOwnerTask(w: World, locks: seq<Option<Tid>>, t: Tid, a: Task, o: Id, w': World, a': Task)
    requires |locks| == |w| && TaskOk(w, locks, t, a) && a.phase.Reserving? && SameNames(w, w') && Shaped(w)
    requires o < |w| && locks[o] == None && !w[o].done && w[Last(a.chain)].owner == Some(o)
    requires a' == a.(chain := a.chain + [o], held := a.held + [o])
    ensures TaskOk(w', locks[o := Some(t)], t, a') && TakesOn(a, a', o)
  {
    hide Amount, Delta, Filable, Shaped, Linked, RefsOk, HeldOk;
    var r := Last(a.chain);
    assert r in a.chain;
    SpanHasNoEdges(w, r);
    assert a.held == a.chain;
    assert o !in a.chain;
    RefsKept(w, w', a, a');
    MoreHeld(w, w', a.held, a.chain, o, a'.chain);
    LinkedMore(w, w', a.chain, o);
    assert Last(a'.chain) == o && a'.chain + w'[o].edges[..0] == a'.held;
  }

  lemma LastOpen(w: World, chain: seq<Id>)
    requires chain != [] && Linked(w, chain)
    ensures Last(chain) < |w| && !w[Last(chain)].done
  {
  }

  lemma SpanHasNoEdges(w: World, r: Id)
    requires Shaped(w) && r < |w| && w[r].owner.Some?
    ensures w[r].edges == [] && w[r].owner.value < r
  {
    assert ShapeAt(Links(w), r);
    assert Links(w)[r].edges == w[r].edges && Links(w)[r].owner == w[r].owner;
  }

  lemma LinkedMore(w: World, w': World, chain: seq<Id>, o: Id)
    requires chain != [] && Linked(w, chain) && SameNames(w, w') && w[Last(chain)].owner == Some(o) && o < |w|
      && !w[o].done
    ensures Linked(w', chain + [o])
  {
  }

  lemma LinkedSame(w: World, w': World, chain: seq<Id>)
    requires Linked(w, chain) && SameNames(w, w')
    ensures Linked(w', chain)
  {
  }

  lemma ReserveEdgeTask(w: World, locks: seq<Option<Tid>>, t: Tid, a: Task, e: Id, w': World, a': Task)
    requires |locks| == |w| && TaskOk(w, locks, t, a) && a.phase.Reserving? && SameNames(w, w') && Shaped(w)
      && Parents(w)
    requires w[Last(a.chain)].owner.None? && 0 <= |a.held| - |a.chain| < |w[Last(a.chain)].edges|
    requires e == w[Last(a.chain)].edges[|a.held| - |a.chain|] && e < |w| && locks[e] == None
    requires a' == a.(held := a.held + [e])
    ensures TaskOk(w', locks, t, a') && TakesOn(a, a', e)
  {
    hide Amount, Delta, Filable, Shaped, Linked, Parents, RefsOk, HeldOk;
    var r := Last(a.chain);
    LastOpen(w, a.chain);
    var edges, n := w[r].edges, |a.held| - |a.chain|;
    assert r in a.chain && e in edges;
    RootFacts(w, r);
    LinkedSame(w, w', a.chain);
    NextEdge(edges, n);
    assert e !in a.chain;
    assert forall x :: x in a.held <==> x in a.chain || x in edges[..n];
    RefsKept(w, w', a, a');
    MoreHeld(w, w', a.held, a.chain, e, a.chain);
    assert a'.held == a.chain + edges[..n + 1];
  }

  /** The edges of an open scope. */
  lemma RootFacts(w: World, r: Id)
    requires Shaped(w) && Parents(w) && r < |w|
    ensures Distinct(w[r].edges) && r !in w[r].edges
    ensures forall e :: e in w[r].edges ==> e < |w| && (!w[r].done ==> Filable(w[e].name))
  {
    assert ShapeAt(Links(w), r);
    assert Links(w)[r].edges == w[r].edges;
    assert ParentsAt(w, r);
  }

  lemma NextEdge(edges: seq<Id>, n: nat)
    requires Distinct(edges) && n < |edges|
    ensures edges[n] !in edges[..n] && edges[..n + 1] == edges[..n] + [edges[n]]
  {
  }

  lemma ReserveOwnerKeeps(s: State, t: Tid, o: Id, s': State)
    requires Inv(s) && t < |s.tasks| && ReserveOwner(s, t, o, s')
    ensures Inv(s')
  {
    hide Inv, TaskOk, InBalance, Limited, Check, Fits, Amount, Delta, CounterStep, AddedOn, SameNames, Shaped;
    InvParts(s);
    InvShaped(s);
    TaskAt(s, t);
    var req, a' := s.tasks[t].phase.req, s'.tasks[t];
    if Verdict(s.w[o], req).Some? {
      RefusedTask(s.w, s.locks, t, s.tasks[t]);
      NoChange(s, t, a');
      TaskStepKeeps(s, t, a', s');
    } else {
      AddedCounters(s.w, o, a'.d);
      ReserveOwnerTask(s.w, s.locks, t, s.tasks[t], o, s'.w, a');
      CountedBalance(s, t, o, a', true, req);
      CountedStep(s, t, o, a', true);
      CounterStepKeeps(s, s', t);
    }
  }

  /** A reserving thread counts what it asks for. */
  lemma TaskAt(s: State, t: Tid)
    requires Inv(s) && t < |s.tasks|
    ensures TaskOk(s.w, s.locks, t, s.tasks[t]) && Amount(s.tasks[t].d)
    ensures s.tasks[t].phase.Reserving? ==>
      s.tasks[t].d == Delta(s.tasks[t].phase.req) && !s.tasks[t].phase.req.Bulk? && s.tasks[t].chain != []
  {
    assert TaskOk(s.w, s.locks, t, s.tasks[t]);
  }

  lemma ReserveEdgeKeeps(s: State, t: Tid, s': State)
    requires Inv(s) && t < |s.tasks| && ReserveEdge(s, t, s')
    ensures Inv(s')
  {
    hide Inv, TaskOk, InBalance, Limited, Check, Fits, Amount, Delta, CounterStep, AddedOn, SameNames, Shaped;
    InvParts(s);
    InvShaped(s);
    TaskAt(s, t);
    var a := s.tasks[t];
    var req, a', e := a.phase.req, s'.tasks[t], s.w[Last(a.chain)].edges[|a.held| - |a.chain|];
    if Verdict(s.w[e], req).Some? {
      RefusedTask(s.w, s.locks, t, a);
      NoChange(s, t, a');
      TaskStepKeeps(s, t, a', s');
    } else {
      AddedCounters(s.w, e, a'.d);
      NamesParents(s.w, s.peers);
      ReserveEdgeTask(s.w, s.locks, t, a, e, s'.w, a');
      CountedBalance(s, t, e, a', false, req);
      CountedStep(s, t, e, a', false);
      CounterStepKeeps(s, s', t);
    }
  }

  lemma NamesParents(w: World, peers: map<string, Id>)
    requires NamesOk(w, peers)
    ensures Parents(w)
  {
  }

  // ---------------------------------------------------------------- settling, from the root down

  function Owned(w: World, x: Id, d: Stat): World
    requires x < |w|
  {
    w[x := w[x].(own := Plus(w[x].own, d))]
  }

  function AllButLast(ids: seq<Id>): seq<Id>
    requires ids != []
  {
    ids[..|ids| - 1]
  }

  /** Everything has been granted: the charges on the root and its edges are the root's own from now on. */
  predicate SettleRoot(s: State, t: Tid, s': State)
    requires Sizes(s) && t < |s.tasks|
  {
    var a := s.tasks[t];
    && a.phase.Reserving? && a.chain != [] && Last(a.chain) < |s.w| && s.w[Last(a.chain)].owner.None?
    && |a.held| == |a.chain| + |s.w[Last(a.chain)].edges|
    && var r := Last(a.chain);
    var a' := a.(phase := Granted, held := AllButLast(a.chain), owed := if |a.chain| > 1 then Some(r) else None);
    s' == s.(w := Owned(s.w, r, a.d), tasks := s.tasks[t := a'])
  }

  /** The next span on the way back takes its charge as its own; its owner has it already. */
  predicate SettleSpan(s: State, t: Tid, s': State)
    requires Sizes(s) && t < |s.tasks|
  {
    var a := s.tasks[t];
    && a.phase.Granted? && a.held != [] && a.held == a.chain && Last(a.held) < |s.w|
    && var x := Last(a.held);
    var a' := a.(held := AllButLast(a.held), owed := if |a.held| > 1 then Some(x) else None);
    s' == s.(w := Owned(s.w, x, a.d), tasks := s.tasks[t := a'])
  }

  lemma OwnedGraph(w: World, x: Id, d: Stat, k: Kind)
    requires x < |w|
    ensures GraphOf(Owned(w, x, d), k) == GraphOf(w, k)[x := GraphOf(w, k)[x].(own := GraphOf(w, k)[x].own + At(d, k))]
  {
  }

  /** What is left on the ledger when a scope has settled and, if `more`, reserves the amount for its span. */
  function Promised(led: Ledger, x: Id, d: int, more: bool): Ledger
    requires x < |led|
  {
    if more then Owe(led, x, d) else led
  }

  lemma SettleRootBooks(g: Graph, led: Ledger, r: Id, d: int, more: bool)
    requires Balanced(g, led) && r < |g| && !g[r].done && g[r].owner.None? && 0 <= d
    ensures Balanced(g[r := g[r].(own := g[r].own + d)],
                     Promised(Carry(Uncharge(led, r, d), g[r].edges, -d, 0), r, d, more))
  {
    assert BooksBalance(g[r], Tally(g, r), led[r]) && ShapeAt(g, r);
    SettleBalances(g, led, r, d);
    SettledTally(g, r, d, r);
    var g1, led1 := g[r := g[r].(own := g[r].own + d)], Carry(Uncharge(led, r, d), g[r].edges, -d, 0);
    if more { OweBalances(g1, led1, r, d); }
  }

  lemma SettleSpanBooks(g: Graph, led: Ledger, x: Id, o: Id, d: int, more: bool)
    requires Balanced(g, led) && x < |g| && o < |g| && o != x && !g[x].done && g[x].owner == Some(o) && 0 <= d
    ensures Balanced(g[x := g[x].(own := g[x].own + d)], Promised(Owe(Uncharge(led, x, d), o, -d), x, d, more))
  {
    assert BooksBalance(g[x], Tally(g, x), led[x]) && ShapeAt(g, x);
    SettleSpanBalances(g, led, x, o, d);
    SettledSpanTally(g, x, d, x);
    var g1, led1 := g[x := g[x].(own := g[x].own + d)], Owe(Uncharge(led, x, d), o, -d);
    if more { OweBalances(g1, led1, x, d); }
  }

  lemma SettleRootLedger(base: seq<int>, tasks: seq<Task>, t: Tid, r: Id, edges: seq<Id>, a': Task, k: Kind, x: int)
    requires t < |tasks| && r < |base| && r !in edges && x == At(a'.d, k)
    requires var a := tasks[t];
             && a'.d == a.d && a'.refs == a.refs && a'.drops == a.drops && a.owed == None
             && (a'.owed == None || a'.owed == Some(r))
             && r !in a'.held && (forall i :: i in a.held <==> i in a'.held || i == r || i in edges)
             && (forall i :: i in a'.held ==> i !in edges)
    ensures LedgerOf(base, tasks[t := a'], k) ==
            Promised(Carry(Uncharge(LedgerOf(base, tasks, k), r, x), edges, -x, 0), r, x, a'.owed.Some?)
  {
    hide LedgerOf, At;
    LedgerIs(base, tasks, t, a', k, Promised(Carry(Uncharge(LedgerOf(base, tasks, k), r, x), edges, -x, 0), r, x,
                                             a'.owed.Some?));
  }

  lemma SettleSpanLedger(base: seq<int>, tasks: seq<Task>, t: Tid, x: Id, o: Id, a': Task, k: Kind, d: int)
    requires t < |tasks| && x < |base| && o < |base| && x != o && d == At(a'.d, k)
    requires var a := tasks[t];
             && a'.d == a.d && a'.refs == a.refs && a'.drops == a.drops && a.owed == Some(o)
             && (a'.owed == None || a'.owed == Some(x))
             && x !in a'.held && (forall i :: i in a.held <==> i in a'.held || i == x)
    ensures LedgerOf(base, tasks[t := a'], k) ==
            Promised(Owe(Uncharge(LedgerOf(base, tasks, k), x, d), o, -d), x, d, a'.owed.Some?)
  {
    hide LedgerOf, At;
    LedgerIs(base, tasks, t, a', k, Promised(Owe(Uncharge(LedgerOf(base, tasks, k), x, d), o, -d), x, d,
                                             a'.owed.Some?));
  }

  lemma OwnedStep(s: State, t: Tid, x: Id, d: Stat, a': Task)
    requires Sizes(s) && t < |s.tasks| && x < |s.w| && s.locks[x] == Some(t)
    ensures var s' := s.(w := Owned(s.w, x, d), tasks := s.tasks[t := a']);
            CounterStep(s, s', t) && SameNames(s.w, s'.w)
    ensures Limited(s.w) ==> Limited(Owned(s.w, x, d))
  {
  }

  lemma PrefixFacts(chain: seq<Id>, edges: seq<Id>)
    requires chain != [] && Distinct(chain + edges)
    ensures Distinct(AllButLast(chain)) && Last(chain) !in AllButLast(chain) && Last(chain) !in edges
    ensures forall i :: i in chain + edges <==> i in AllButLast(chain) || i == Last(chain) || i in edges
    ensures forall i :: i in AllButLast(chain) ==> i !in edges && i in chain
  {
    var all, n := chain + edges, |chain|;
    assert chain == AllButLast(chain) + [Last(chain)];
    assert all[n - 1] == Last(chain) && forall j :: 0 <= j < |edges| ==> all[n + j] == edges[j];
    assert forall j :: 0 <= j < n ==> all[j] == chain[j];
  }

  lemma SettleRootTask(w: World, locks: seq<Option<Tid>>, t: Tid, a: Task, w': World, a': Task)
    requires |locks| == |w| && TaskOk(w, locks, t, a) && a.phase.Reserving? && SameNames(w, w')
    requires |a.held| == |a.chain| + |w[Last(a.chain)].edges|
    requires a' == a.(phase := Granted, held := AllButLast(a.chain), owed := if |a.chain| > 1 then Some(Last(a.chain))
      else None)
    ensures TaskOk(w', locks, t, a') && a.held == a.chain + w[Last(a.chain)].edges && Distinct(a.held)
  {
    hide Amount, Filable, RefsOk, Linked;
    var edges := w[Last(a.chain)].edges;
    assert edges[..|edges|] == edges;
    PrefixFacts(a.chain, edges);
    RefsKept(w, w', a, a');
    LinkedSame(w, w', a.chain);
    LinkedOwner(w', a.chain);
    assert Last(a.chain) in a.chain;
    forall e | e in a'.held ensures e in a.chain && e < |w'| {}
  }

  /** The scope before the last has the last as its owner. */
  lemma LinkedOwner(w: World, chain: seq<Id>)
    requires Linked(w, chain)
    ensures |chain| > 1 ==>
      && Last(AllButLast(chain)) < |w| && w[Last(AllButLast(chain))].owner == Some(Last(chain))
    ensures forall l :: l in chain ==> l < |w|
  {
  }

  lemma SettleRootBalance(s: State, t: Tid, s': State, k: Kind)
    requires Inv(s) && t < |s.tasks| && SettleRoot(s, t, s')
    ensures Balanced(GraphOf(s'.w, k), LedgerOf(s'.base, s'.tasks, k))
  {
    hide Inv, TaskOk, Limited, Amount, Owned, SameNames, Shaped, LedgerOf, GraphOf, Balanced, CounterStep;
    InvParts(s);
    TaskAt(s, t);
    var a, a' := s.tasks[t], s'.tasks[t];
    var r, edges := Last(a.chain), s.w[Last(a.chain)].edges;
    var g, led, x := GraphOf(s.w, k), LedgerOf(s.base, s.tasks, k), At(a.d, k);
    ReservingLast(s.w, s.locks, t, a, k);
    SettleRootBooks(g, led, r, x, |a.chain| > 1);
    OwnedGraph(s.w, r, a.d, k);
    SameNamesRefl(s.w);
    SettleRootTask(s.w, s.locks, t, a, s.w, a');
    PrefixFacts(a.chain, edges);
    SettleRootLedger(s.base, s.tasks, t, r, edges, a', k, x);
  }

  lemma SameNamesRefl(w: World)
    ensures SameNames(w, w)
  {
  }

  lemma SettleRootKeeps(s: State, t: Tid, s': State)
    requires Inv(s) && t < |s.tasks| && SettleRoot(s, t, s')
    ensures Inv(s')
  {
    hide Inv, TaskOk, Limited, Amount, CounterStep, Owned, SameNames, LedgerOf, GraphOf, Balanced;
    InvParts(s);
    TaskAt(s, t);
    var a, a' := s.tasks[t], s'.tasks[t];
    ChainLocked(s.w, s.locks, t, a);
    OwnedStep(s, t, Last(a.chain), a.d, a');
    SettleRootTask(s.w, s.locks, t, a, s'.w, a');
    forall k: Kind ensures Balanced(GraphOf(s'.w, k), LedgerOf(s'.base, s'.tasks, k)) {
      SettleRootBalance(s, t, s', k);
    }
    CounterStepKeeps(s, s', t);
  }

  lemma ChainLocked(w: World, locks: seq<Option<Tid>>, t: Tid, a: Task)
    requires |locks| == |w| && TaskOk(w, locks, t, a) && a.chain != []
    ensures Last(a.chain) < |w| && locks[Last(a.chain)] == Some(t)
  {
    assert Last(a.chain) in a.chain;
  }

  /** The last scope of the chain as a node. */
  lemma ReservingLast(w: World, locks: seq<Option<Tid>>, t: Tid, a: Task, k: Kind)
    requires |locks| == |w| && TaskOk(w, locks, t, a) && (a.phase.Reserving? || a.phase.Granted?)
    ensures a.chain != [] && (a.phase.Reserving? ==> a.owed == None)
    ensures var r := Last(a.chain);
            && r < |w| && !GraphOf(w, k)[r].done && GraphOf(w, k)[r].owner == w[r].owner
                && GraphOf(w, k)[r].edges == w[r].edges
            && 0 <= At(a.d, k)
  {
  }

  lemma SettleSpanTask(w: World, locks: seq<Option<Tid>>, t: Tid, a: Task, w': World, a': Task)
    requires |locks| == |w| && TaskOk(w, locks, t, a) && a.phase.Granted? && SameNames(w, w')
    requires a.held != [] && a.held == a.chain
    requires a' == a.(held := AllButLast(a.held), owed := if |a.held| > 1 then Some(Last(a.held)) else None)
    ensures TaskOk(w', locks, t, a') && Distinct(a.chain + []) && a.chain + [] == a.chain
    ensures a.owed == w[Last(a.chain)].owner && a.owed.Some? && a.owed.value < |w|
  {
    hide Amount, Filable, RefsOk, Linked;
    assert a.chain + [] == a.chain;
    PrefixFacts(a.chain, []);
    RefsKept(w, w', a, a');
    LinkedSame(w, w', a.chain);
    LinkedOwner(w', a.chain);
    forall e | e in a'.held ensures e in a.chain && e < |w'| {}
  }

  lemma SettleSpanBalance(s: State, t: Tid, s': State, k: Kind)
    requires Inv(s) && t < |s.tasks| && SettleSpan(s, t, s')
    ensures Balanced(GraphOf(s'.w, k), LedgerOf(s'.base, s'.tasks, k))
  {
    hide Inv, TaskOk, Limited, Amount, Owned, SameNames, Shaped, LedgerOf, GraphOf, Balanced, CounterStep;
    InvParts(s);
    InvShaped(s);
    TaskAt(s, t);
    var a, a' := s.tasks[t], s'.tasks[t];
    var x := Last(a.held);
    var g, led, d := GraphOf(s.w, k), LedgerOf(s.base, s.tasks, k), At(a.d, k);
    SameNamesRefl(s.w);
    SettleSpanTask(s.w, s.locks, t, a, s.w, a');
    ReservingLast(s.w, s.locks, t, a, k);
    SpanHasNoEdges(s.w, x);
    SettleSpanBooks(g, led, x, a.owed.value, d, |a.held| > 1);
    OwnedGraph(s.w, x, a.d, k);
    PrefixFacts(a.chain, []);
    SettleSpanLedger(s.base, s.tasks, t, x, a.owed.value, a', k, d);
  }

  lemma SettleSpanKeeps(s: State, t: Tid, s': State)
    requires Inv(s) && t < |s.tasks| && SettleSpan(s, t, s')
    ensures Inv(s')
  {
    hide Inv, TaskOk, Limited, Amount, CounterStep, Owned, SameNames, LedgerOf, GraphOf, Balanced;
    InvParts(s);
    TaskAt(s, t);
    var a, a' := s.tasks[t], s'.tasks[t];
    ChainLocked(s.w, s.locks, t, a);
    OwnedStep(s, t, Last(a.held), a.d, a');
    SettleSpanTask(s.w, s.locks, t, a, s'.w, a');
    forall k: Kind ensures Balanced(GraphOf(s'.w, k), LedgerOf(s'.base, s'.tasks, k)) {
      SettleSpanBalance(s, t, s', k);
    }
    CounterStepKeeps(s, s', t);
  }

  // ---------------------------------------------------------------- giving back and passing on

  /** After a refusal: charges on edges and new parents first, then those on the chain, from the root down. */
  predicate GiveBack(s: State, t: Tid, e: Id, s': State)
    requires Sizes(s) && t < |s.tasks|
  {
    var a := s.tasks[t];
    && a.phase.Refused? && e in a.held && e < |s.w|
    && (if e in a.chain then e == Last(a.chain) && (forall x :: x in a.held ==> x in a.chain) else Unlocked(s, e))
    && s' == Uncounted(s, t, e, a.(held := Without(a.held, e)))
  }

  /** What was released or closed arrives at an edge. A closed edge ignores it. */
  predicate ReleaseEdge(s: State, t: Tid, e: Id, s': State)
    requires Sizes(s) && t < |s.tasks|
  {
    var a := s.tasks[t];
    && a.phase.Releasing? && e in a.held && Unlocked(s, e)
    && s' == Uncounted(s, t, e, a.(held := Without(a.held, e)))
  }

  lemma LessHeld(w: World, locks: seq<Option<Tid>>, t: Tid, a: Task, e: Id, w': World, a': Task)
    requires |locks| == |w| && TaskOk(w, locks, t, a) && (a.phase.Refused? || a.phase.Releasing?) && e in a.held
    requires SameNames(w, w') && a' == a.(held := Without(a.held, e))
    ensures TaskOk(w', locks, t, a') && LaysDown(a, a', e)
  {
    hide Amount, Filable, RefsOk;
    WithoutIs(a.held, e);
    RefsKept(w, w', a, a');
  }

  lemma GiveBackKeeps(s: State, t: Tid, e: Id, s': State)
    requires Inv(s) && t < |s.tasks| && (GiveBack(s, t, e, s') || ReleaseEdge(s, t, e, s'))
    ensures Inv(s')
  {
    hide Inv, TaskOk, InBalance, Limited, Amount, CounterStep, RemovedOn, SameNames;
    InvParts(s);
    TaskAt(s, t);
    var a, a' := s.tasks[t], s'.tasks[t];
    if e in a.chain { ChainLocked(s.w, s.locks, t, a); ChainLockedAt(s.w, s.locks, t, a, e); }
    RemovedCounters(s.w, e, a'.d);
    LessHeld(s.w, s.locks, t, a, e, s'.w, a');
    UncountedBalance(s, t, e, a');
    UncountedStep(s, t, e, a');
    CounterStepKeeps(s, s', t);
  }

  lemma ChainLockedAt(w: World, locks: seq<Option<Tid>>, t: Tid, a: Task, e: Id)
    requires |locks| == |w| && TaskOk(w, locks, t, a) && e in a.chain
    ensures e < |w| && locks[e] == Some(t)
  {
  }

  /** The thread is done with the last scope of its chain. */
  predicate UnlockLast(s: State, t: Tid, s': State)
    requires Sizes(s) && t < |s.tasks|
  {
    var a := s.tasks[t];
    && a.chain != [] && Last(a.chain) < |s.w|
    && (match a.phase
        case Refused => Last(a.chain) !in a.held && (forall x :: x in a.held ==> x in a.chain)
        case Granted => Last(a.chain) !in a.held
        case Releasing => a.held == [] && a.owed == None
        case _ => false)
    && var a' := a.(phase := if |a.chain| == 1 then Free else a.phase, chain := AllButLast(a.chain));
       s' == s.(tasks := s.tasks[t := a'], locks := s.locks[Last(a.chain) := None])
  }

  lemma UnlockedTask(w: World, locks: seq<Option<Tid>>, t: Tid, a: Task, a': Task)
    requires |locks| == |w| && TaskOk(w, locks, t, a) && a.chain != [] && Last(a.chain) < |w|
    requires match a.phase
             case Refused => Last(a.chain) !in a.held && (forall x :: x in a.held ==> x in a.chain)
             case Granted => Last(a.chain) !in a.held
             case Releasing => a.held == [] && a.owed == None
             case _ => false
    requires a' == a.(phase := if |a.chain| == 1 then Free else a.phase, chain := AllButLast(a.chain))
    ensures TaskOk(w, locks[Last(a.chain) := None], t, a')
  {
    hide Amount, Filable, Linked, RefsOk, HeldOk;
    var r := Last(a.chain);
    ButLast(a.chain);
    if r !in a.held { LessChain(w, a.held, a.chain); }
    RefsUnlocked(w, a, a');
    if a.phase.Granted? {
      LinkedPrefix(w, a.chain);
      assert r in a.chain;
    }
    if a.phase.Refused? && |a.chain| == 1 { OnlyLast(a.held, a.chain); }
  }

  lemma ButLast(chain: seq<Id>)
    requires chain != [] && Distinct(chain)
    ensures Distinct(AllButLast(chain)) && Last(chain) !in AllButLast(chain)
    ensures forall i :: i in chain <==> i in AllButLast(chain) || i == Last(chain)
  {
    assert chain == AllButLast(chain) + [Last(chain)];
  }

  lemma LessChain(w: World, held: seq<Id>, chain: seq<Id>)
    requires chain != [] && Distinct(chain) && HeldOk(w, held, chain) && Last(chain) !in held
    ensures HeldOk(w, held, AllButLast(chain))
  {
    ButLast(chain);
  }

  lemma RefsUnlocked(w: World, a: Task, a': Task)
    requires RefsOk(w, a) && !a.phase.Attaching? && a'.refs == a.refs && a'.drops == a.drops
    ensures RefsOk(w, a')
  {
  }

  lemma LinkedPrefix(w: World, chain: seq<Id>)
    requires chain != [] && Linked(w, chain)
    ensures Linked(w, AllButLast(chain))
  {
  }

  lemma FirstIsIn(ids: seq<Id>)
    requires ids != []
    ensures ids[0] in ids
  {
  }

  lemma OnlyLast(held: seq<Id>, chain: seq<Id>)
    requires |chain| == 1 && Last(chain) !in held && forall x :: x in held ==> x in chain
    ensures held == []
  {
    if held != [] { FirstIsIn(held); }
  }

  lemma UnlockKeeps(s: State, t: Tid, s': State)
    requires Inv(s) && t < |s.tasks| && UnlockLast(s, t, s')
    ensures Inv(s')
  {
    hide Inv, TaskOk, Limited, Amount;
    InvParts(s);
    TaskAt(s, t);
    var a, a' := s.tasks[t], s'.tasks[t];
    ChainLocked(s.w, s.locks, t, a);
    UnlockedTask(s.w, s.locks, t, a, a');
    TaskStepKeeps(s, t, a', s');
  }

  // ---------------------------------------------------------------- releasing

  function Disowned(w: World, x: Id, d: Stat): World
    requires x < |w|
  {
    w[x := w[x].(rc := Remove(w[x].rc, d), own := Minus(w[x].own, d))]
  }

  /** The rule for users: no more is released on a scope than is held on it directly, and not yet being released. */
  ghost predicate UserHolds(s: State, x: Id, d: Stat)
    requires Sizes(s) && x < |s.w|
  {
    Amount(d) && forall k: Kind :: At(d, k) <= Direct(GraphOf(s.w, k), LedgerOf(s.base, s.tasks, k), x)
  }

  /** A release begins on an open scope; on a closed one it does nothing. */
  ghost predicate StartRelease(s: State, t: Tid, x: Id, d: Stat, s': State)
    requires Sizes(s) && t < |s.tasks|
  {
    var a := s.tasks[t];
    && a.phase.Free? && Unlocked(s, x) && MayUse(s, t, x)
    && (if s.w[x].done then s' == s
        else
          && UserHolds(s, x, d)
          && s' == s.(w := Disowned(s.w, x, d), locks := s.locks[x := Some(t)],
                      tasks := s.tasks[t := Task(Releasing, [x], d, s.w[x].edges, s.w[x].owner, a.refs, a.drops)]))
  }

  /** The release reaches the owner; a closed owner has returned the amount already, and it stops there. */
  predicate ReleaseOwner(s: State, t: Tid, o: Id, s': State)
    requires Sizes(s) && t < |s.tasks|
  {
    var a := s.tasks[t];
    && a.phase.Releasing? && a.owed == Some(o) && Unlocked(s, o)
    && (if s.w[o].done then s' == s.(tasks := s.tasks[t := a.(owed := None)])
        else s' == s.(w := Disowned(s.w, o, a.d), locks := s.locks[o := Some(t)],
                      tasks := s.tasks[t := a.(chain := a.chain + [o], held := s.w[o].edges, owed := s.w[o].owner)]))
  }

  lemma DisownedGraph(w: World, x: Id, d: Stat, k: Kind, n: int)
    requires x < |w| && Remove(w[x].rc, d) == Minus(w[x].rc, d) && n == -At(d, k)
    ensures GraphOf(Disowned(w, x, d), k) == GraphOf(w, k)[x := Bumped(GraphOf(w, k)[x], n)]
  {
    hide Remove;
    NodeBefore(w[x], d, true, k, n);
  }

  /** A scope with edges gives up `d`, which its edges still count. */
  lemma ReleaseRootBooks(g: Graph, led: Ledger, x: Id, d: int, n: int)
    requires Balanced(g, led) && x < |g| && !g[x].done && g[x].owner.None? && n == -d && 0 <= d <= Direct(g, led, x)
    requires 0 <= led[x].owed
    ensures Balanced(g[x := Bumped(g[x], n)], Carry(led, g[x].edges, d, 0))
  {
    hide Balanced, Tally, Carry, Uncharge, ShapeAt, Bumped;
    BooksAt(g, led, x);
    SettleBalances(g, led, x, n);
    var g1, led1 := g[x := g[x].(own := g[x].own + n)], Carry(Uncharge(led, x, n), g[x].edges, -n, 0);
    ChargeBalances(g1, led1, x, n);
    BumpedIs(g, x, n);
    CarryReleased(led, g[x].edges, x, d, n);
  }

  lemma BooksAt(g: Graph, led: Ledger, x: Id)
    requires Balanced(g, led) && x < |g|
    ensures |led| == |g| && BooksBalance(g[x], Tally(g, x), led[x]) && Proper(Tally(g, x)) && x !in g[x].edges
  {
    assert ShapeAt(g, x);
    BalancedTotals(g, led, x);
  }

  lemma BumpedIs(g: Graph, x: Id, n: int)
    requires x < |g| && !g[x].done
    ensures Charged(g[x := g[x].(own := g[x].own + n)], x, n) == g[x := Bumped(g[x], n)]
  {
  }

  lemma CarryReleased(led: Ledger, edges: seq<Id>, x: Id, d: int, n: int)
    requires x < |led| && x !in edges && n == -d
    ensures Charge(Carry(Uncharge(led, x, n), edges, -n, 0), x, n) == Carry(led, edges, d, 0)
  {
  }

  lemma ReleaseSpanBooks(g: Graph, led: Ledger, x: Id, o: Id, d: int, n: int)
    requires Balanced(g, led) && x < |g| && o < |g| && !g[x].done && g[x].owner == Some(o) && n == -d
    requires 0 <= d <= Direct(g, led, x) && 0 <= led[x].owed && o != x
    ensures Balanced(g[x := Bumped(g[x], n)], Owe(led, o, d))
  {
    assert BooksBalance(g[x], Tally(g, x), led[x]) && ShapeAt(g, x);
    BalancedTotals(g, led, x);
    SettleSpanBalances(g, led, x, o, n);
    var g1, led1 := g[x := g[x].(own := g[x].own + n)], Owe(Uncharge(led, x, n), o, -n);
    ChargeBalances(g1, led1, x, n);
    assert Charged(g1, x, n) == g[x := Bumped(g[x], n)];
    assert Charge(led1, x, n) == Owe(led, o, d);
  }

  /** The debt of a span to its owner is struck off when the owner gives up the amount itself, or is closed. */
  lemma StrikeOff(g: Graph, led: Ledger, o: Id, d: int, n: int)
    requires Balanced(g, led) && o < |g| && n == -d && 0 <= d <= led[o].owed
    ensures Balanced(g, Owe(led, o, n)) && 0 <= Owe(led, o, n)[o].owed
    ensures !g[o].done ==> d <= Direct(g, Owe(led, o, n), o)
  {
    assert BooksBalance(g[o], Tally(g, o), led[o]);
    OweBalances(g, led, o, n);
  }

  lemma OwnerDecided(w: World, x: Id)
    requires Shaped(w) && x < |w|
    ensures w[x].owner.Some? ==> w[x].owner.value < x && w[x].edges == []
    ensures Distinct(w[x].edges) && x !in w[x].edges
  {
    assert ShapeAt(Links(w), x);
    assert Links(w)[x].edges == w[x].edges && Links(w)[x].owner == w[x].owner;
  }

  /** What a release puts on the ledger: charges on the edges, or a debt to the owner. */
  function PassedOn(led: Ledger, owner: Option<Id>, edges: seq<Id>, d: int): Ledger
    requires owner.Some? ==> owner.value < |led|
  {
    if owner.Some? then Owe(led, owner.value, d) else Carry(led, edges, d, 0)
  }

  lemma PassOnBooks(g: Graph, led: Ledger, x: Id, d: int, n: int)
    requires Balanced(g, led) && x < |g| && !g[x].done && n == -d && 0 <= d <= Direct(g, led, x) && 0 <= led[x].owed
    ensures g[x].owner.Some? ==> g[x].owner.value < |led|
    ensures Balanced(g[x := Bumped(g[x], n)], PassedOn(led, g[x].owner, g[x].edges, d))
  {
    assert ShapeAt(g, x);
    if g[x].owner.None? {
      ReleaseRootBooks(g, led, x, d, n);
    } else {
      ReleaseSpanBooks(g, led, x, g[x].owner.value, d, n);
    }
  }

  /** The ledger when a thread without charges starts to release. */
  lemma PassedOnLedger(base: seq<int>, tasks: seq<Task>, t: Tid, a': Task, k: Kind, d: int)
    requires t < |tasks| && tasks[t].held == [] && tasks[t].owed == None && d == At(a'.d, k)
    requires a'.refs == tasks[t].refs && a'.drops == tasks[t].drops
      && (a'.owed.Some? ==> a'.owed.value < |base| && a'.held == [])
    ensures LedgerOf(base, tasks[t := a'], k) == PassedOn(LedgerOf(base, tasks, k), a'.owed, a'.held, d)
  {
    hide LedgerOf, At;
    LedgerIs(base, tasks, t, a', k, PassedOn(LedgerOf(base, tasks, k), a'.owed, a'.held, d));
  }

  lemma CoveredByOwn(s: State, x: Id, d: Stat)
    requires Inv(s) && x < |s.w| && !s.w[x].done && Amount(d)
    requires forall k: Kind :: At(d, k) <= At(s.w[x].own, k)
    ensures Remove(s.w[x].rc, d) == Minus(s.w[x].rc, d) && Leq(d, s.w[x].rc)
  {
    hide Remove, Minus, Leq, LedgerOf, TasksOk, NamesOk, CollectorOk;
    TasksAmount(s);
    forall k: Kind ensures At(d, k) <= At(s.w[x].rc, k) {
      var g, led := GraphOf(s.w, k), LedgerOf(s.base, s.tasks, k);
      assert Balanced(g, led);
      LedgerNotNegative(s.base, s.tasks, x, k);
      UseCovers(g, led, x);
    }
    LeqByKinds(d, s.w[x].rc);
    LimitedAt(s.w, x);
    RemoveIsExact(s.w[x].rc, d);
  }

  lemma LedgerNotNegative(base: seq<int>, tasks: seq<Task>, i: Id, k: Kind)
    requires i < |base| && 0 <= base[i] && forall j :: 0 <= j < |tasks| ==> Amount(tasks[j].d)
    ensures Carries(LedgerOf(base, tasks, k)[i], NOTHING)
  {
    LoadsCarry(tasks, |tasks|, 0, i, k);
  }

  lemma DisownedStep(s: State, t: Tid, x: Id, d: Stat, a': Task)
    requires Sizes(s) && t < |s.tasks| && Unlocked(s, x)
    ensures var s' := s.(w := Disowned(s.w, x, d), locks := s.locks[x := Some(t)], tasks := s.tasks[t := a']);
            CounterStep(s, s', t) && SameNames(s.w, s'.w)
  {
  }

  lemma DisownedLimits(w: World, x: Id, d: Stat)
    requires Limited(w) && x < |w| && Amount(d) && !w[x].done && Remove(w[x].rc, d) == Minus(w[x].rc, d)
      && Leq(d, w[x].rc)
    ensures Limited(Disowned(w, x, d))
  {
    hide Remove, Minus, Leq, Amount, Within, Sane;
    LimitedAt(w, x);
    LessIsWithin(w[x].limit, w[x].rc, d);
  }

  lemma StartReleaseTask(w: World, locks: seq<Option<Tid>>, t: Tid, a: Task, x: Id, d: Stat, w': World, a': Task)
    requires |locks| == |w| && TaskOk(w, locks, t, a) && a.phase.Free? && x < |w| && !w[x].done && Amount(d)
    requires SameNames(w, w') && Shaped(w) && Parents(w)
    requires a' == Task(Releasing, [x], d, w[x].edges, w[x].owner, a.refs, a.drops)
    ensures TaskOk(w', locks[x := Some(t)], t, a')
  {
    hide Amount, Filable, RefsOk, Parents, Shaped;
    RefsKept(w, w', a, a');
    RootFacts(w, x);
    OwnerDecided(w, x);
  }

  lemma StartReleaseBalance(s: State, t: Tid, x: Id, d: Stat, s': State, k: Kind)
    requires Inv(s) && t < |s.tasks| && StartRelease(s, t, x, d, s') && !s.w[x].done
    requires Remove(s.w[x].rc, d) == Minus(s.w[x].rc, d)
    ensures Balanced(GraphOf(s'.w, k), LedgerOf(s'.base, s'.tasks, k))
  {
    hide Inv, TaskOk, Limited, Amount, Disowned, Shaped, LedgerOf, Balanced, Remove, Minus, UserHolds;
    InvParts(s);
    InvShaped(s);
    TaskAt(s, t);
    var g, led, m, n := GraphOf(s.w, k), LedgerOf(s.base, s.tasks, k), At(d, k), -At(d, k);
    TasksAmount(s);
    LedgerNotNegative(s.base, s.tasks, x, k);
    UserHoldsAt(s, x, d, k);
    PassOnBooks(g, led, x, m, n);
    DisownedGraph(s.w, x, d, k, n);
    OwnerDecided(s.w, x);
    FreeTask(s.w, s.locks, t, s.tasks[t]);
    PassedOnLedger(s.base, s.tasks, t, s'.tasks[t], k, m);
  }

  lemma FreeTask(w: World, locks: seq<Option<Tid>>, t: Tid, a: Task)
    requires |locks| == |w| && TaskOk(w, locks, t, a) && a.phase.Free?
    ensures a.held == [] && a.owed == None && a.chain == []
  {
  }

  lemma UserHoldsAt(s: State, x: Id, d: Stat, k: Kind)
    requires Sizes(s) && x < |s.w| && UserHolds(s, x, d)
    ensures 0 <= At(d, k) <= Direct(GraphOf(s.w, k), LedgerOf(s.base, s.tasks, k), x) && Amount(d)
  {
  }

  /** What users may release on a scope is the scope's own. */
  lemma UserHoldsOwn(s: State, x: Id, d: Stat)
    requires Inv(s) && x < |s.w| && !s.w[x].done && UserHolds(s, x, d)
    ensures forall k: Kind :: At(d, k) <= At(s.w[x].own, k)
  {
    forall k: Kind ensures At(d, k) <= At(s.w[x].own, k) {
      var g, led := GraphOf(s.w, k), LedgerOf(s.base, s.tasks, k);
      assert Balanced(g, led);
      TasksAmount(s);
      hide LedgerOf, Inv, Limited, TasksOk, NamesOk, CollectorOk;
      LedgerNotNegative(s.base, s.tasks, x, k);
      UserHoldsAt(s, x, d, k);
      BalancedTotals(g, led, x);
    }
  }

  lemma StartReleaseKeeps(s: State, t: Tid, x: Id, d: Stat, s': State)
    requires Inv(s) && t < |s.tasks| && StartRelease(s, t, x, d, s')
    ensures Inv(s')
  {
    hide Inv, TaskOk, Limited, Amount, CounterStep, Disowned, SameNames, LedgerOf, GraphOf, Balanced, Shaped,
      UserHolds, Remove, Minus, Leq;
    if !s.w[x].done {
      InvParts(s);
      InvShaped(s);
      TaskAt(s, t);
      UserHoldsAt(s, x, d, MemoryKind);
      UserHoldsOwn(s, x, d);
      CoveredByOwn(s, x, d);
      DisownedStep(s, t, x, d, s'.tasks[t]);
      DisownedLimits(s.w, x, d);
      NamesParents(s.w, s.peers);
      StartReleaseTask(s.w, s.locks, t, s.tasks[t], x, d, s'.w, s'.tasks[t]);
      forall k: Kind ensures Balanced(GraphOf(s'.w, k), LedgerOf(s'.base, s'.tasks, k)) {
        StartReleaseBalance(s, t, x, d, s', k);
      }
      CounterStepKeeps(s, s', t);
    }
  }

  lemma StruckLedger(base: seq<int>, tasks: seq<Task>, t: Tid, a': Task, o: Id, k: Kind, d: int, n: int)
    requires t < |tasks| && o < |base| && tasks[t].held == [] && tasks[t].owed == Some(o) && d == At(a'.d, k) && n == -d
    requires a'.d == tasks[t].d && a'.refs == tasks[t].refs && a'.drops == tasks[t].drops
    requires a'.owed.Some? ==> a'.owed.value < |base| && a'.held == [] && a'.owed.value != o
    ensures LedgerOf(base, tasks[t := a'], k) == PassedOn(Owe(LedgerOf(base, tasks, k), o, n), a'.owed, a'.held, d)
  {
    hide LedgerOf, At;
    LedgerIs(base, tasks, t, a', k, PassedOn(Owe(LedgerOf(base, tasks, k), o, n), a'.owed, a'.held, d));
  }

  lemma ReleaseOwnerTask(w: World, locks: seq<Option<Tid>>, t: Tid, a: Task, o: Id, w': World, a': Task)
    requires |locks| == |w| && TaskOk(w, locks, t, a) && a.phase.Releasing? && a.owed == Some(o)
    requires o < |w| && !w[o].done && locks[o] == None && SameNames(w, w') && Shaped(w) && Parents(w)
    requires a' == a.(chain := a.chain + [o], held := w[o].edges, owed := w[o].owner)
    ensures TaskOk(w', locks[o := Some(t)], t, a') && a.held == []
  {
    hide Amount, Filable, RefsOk, Parents, Shaped;
    RefsKept(w, w', a, a');
    RootFacts(w, o);
    OwnerDecided(w, o);
    assert o !in a.chain;
  }

  lemma ReleaseOwnerBalance(s: State, t: Tid, o: Id, s': State, k: Kind)
    requires Inv(s) && t < |s.tasks| && ReleaseOwner(s, t, o, s')
    requires !s.w[o].done ==> Remove(s.w[o].rc, s.tasks[t].d) == Minus(s.w[o].rc, s.tasks[t].d)
    ensures Balanced(GraphOf(s'.w, k), LedgerOf(s'.base, s'.tasks, k))
  {
    hide Inv, TaskOk, Limited, Amount, Disowned, Shaped, LedgerOf, Balanced, Remove, Minus;
    InvParts(s);
    InvShaped(s);
    TaskAt(s, t);
    var a := s.tasks[t];
    var g, led, m, n := GraphOf(s.w, k), LedgerOf(s.base, s.tasks, k), At(a.d, k), -At(a.d, k);
    OwedTask(s, t, o, k);
    StrikeOff(g, led, o, m, n);
    OwnerDecided(s.w, o);
    StruckLedger(s.base, s.tasks, t, s'.tasks[t], o, k, m, n);
    if !s.w[o].done {
      PassOnBooks(g, Owe(led, o, n), o, m, n);
      DisownedGraph(s.w, o, a.d, k, n);
    } else {
      NothingPassedOn(Owe(led, o, n), m);
    }
  }

  lemma NothingPassedOn(led: Ledger, d: int)
    ensures PassedOn(led, None, [], d) == led
  {
  }

  lemma OwedTask(s: State, t: Tid, o: Id, k: Kind)
    requires Inv(s) && t < |s.tasks| && s.tasks[t].phase.Releasing? && s.tasks[t].owed == Some(o)
    ensures s.tasks[t].held == [] && o < |s.w| && 0 <= At(s.tasks[t].d, k) <= LedgerOf(s.base, s.tasks, k)[o].owed
  {
    TasksAmount(s);
    assert TaskOk(s.w, s.locks, t, s.tasks[t]);
    hide LedgerOf, Inv, TasksOk, Limited, NamesOk;
    LedgerCarries(s.base, s.tasks, t, o, k);
  }

  lemma OwedIsOwn(s: State, t: Tid, o: Id)
    requires Inv(s) && t < |s.tasks| && s.tasks[t].phase.Releasing? && s.tasks[t].owed == Some(o)
    ensures o < |s.w| && (!s.w[o].done ==> forall k: Kind :: At(s.tasks[t].d, k) <= At(s.w[o].own, k))
  {
    OwedTask(s, t, o, MemoryKind);
    if !s.w[o].done {
      forall k: Kind ensures At(s.tasks[t].d, k) <= At(s.w[o].own, k) {
        var g, led := GraphOf(s.w, k), LedgerOf(s.base, s.tasks, k);
        assert Balanced(g, led);
        hide LedgerOf, Inv, Limited, TasksOk, NamesOk, CollectorOk;
        OwedTask(s, t, o, k);
        UseCovers(g, led, o);
      }
    }
  }

  lemma ReleaseOwnerKeeps(s: State, t: Tid, o: Id, s': State)
    requires Inv(s) && t < |s.tasks| && ReleaseOwner(s, t, o, s')
    ensures Inv(s')
  {
    hide Inv, TaskOk, Limited, Amount, CounterStep, Disowned, SameNames, LedgerOf, GraphOf, Balanced, Shaped, Remove,
      Minus, Leq;
    InvParts(s);
    InvShaped(s);
    TaskAt(s, t);
    var a, a' := s.tasks[t], s'.tasks[t];
    if s.w[o].done {
      StruckTask(s.w, s.locks, t, a);
      NoChange(s, t, a');
    } else {
      OwedIsOwn(s, t, o);
      CoveredByOwn(s, o, a.d);
      DisownedStep(s, t, o, a.d, a');
      DisownedLimits(s.w, o, a.d);
      NamesParents(s.w, s.peers);
      ReleaseOwnerTask(s.w, s.locks, t, a, o, s'.w, a');
    }
    forall k: Kind ensures Balanced(GraphOf(s'.w, k), LedgerOf(s'.base, s'.tasks, k)) {
      ReleaseOwnerBalance(s, t, o, s', k);
    }
    CounterStepKeeps(s, s', t);
  }

  lemma StruckTask(w: World, locks: seq<Option<Tid>>, t: Tid, a: Task)
    requires |locks| == |w| && TaskOk(w, locks, t, a) && a.phase.Releasing?
    ensures TaskOk(w, locks, t, a.(owed := None))
  {
  }

  // ---------------------------------------------------------------- closing

  /** What is left to do after `x` has been closed: its amount and a reference go back to its edges or its owner. */
  function Closing(a: Task, c: Scope, x: Id): Task {
    Task(Releasing, [x], c.rc, c.edges, c.owner, a.refs,
         a.drops + if c.owner.Some? then multiset{c.owner.value} else multiset(c.edges))
  }

  function ClosedAt(s: State, t: Tid, x: Id): State
    requires Sizes(s) && t < |s.tasks| && x < |s.w|
  {
    s.(w := s.w[x := Ended(s.w[x])], locks := s.locks[x := Some(t)],
       tasks := s.tasks[t := Closing(s.tasks[t], s.w[x], x)])
  }

  /**
   * Users close connections, streams and spans; closing twice does nothing. (The lock hides that the flag is set
   * first.)
   */
  predicate StartDone(s: State, t: Tid, x: Id, s': State)
    requires Sizes(s) && t < |s.tasks|
  {
    && s.tasks[t].phase.Free? && Unlocked(s, x) && !Filable(s.w[x].name)
    && s' == if s.w[x].done then s else ClosedAt(s, t, x)
  }

  lemma {:induction false} LoadsUncharged(tasks: seq<Task>, n: nat, i: Id, k: Kind)
    requires n <= |tasks| && forall u :: 0 <= u < |tasks| ==> i !in tasks[u].held
    ensures Loads(tasks, n, i, k).charged == 0
  {
    if n > 0 { LoadsUncharged(tasks, n - 1, i, k); }
  }

  /** Nobody has charged a connection, stream or span that is not locked. */
  lemma NotCharged(s: State, x: Id, k: Kind)
    requires Inv(s) && Unlocked(s, x) && !Filable(s.w[x].name)
    ensures LedgerOf(s.base, s.tasks, k)[x].charged == 0
  {
    forall u | 0 <= u < |s.tasks| ensures x !in s.tasks[u].held { assert TaskOk(s.w, s.locks, u, s.tasks[u]); }
    LoadsUncharged(s.tasks, |s.tasks|, x, k);
  }

  /** A scope whose name makes it nobody's parent. */
  lemma Childless(w: World, x: Id)
    requires Shaped(w) && Parents(w) && x < |w| && !Filable(w[x].name)
    ensures NoChildren(w, x)
  {
    forall i | 0 <= i < |w| && !w[i].done ensures x !in w[i].edges {
      assert ParentsAt(w, i);
      EdgesKnownAt(w, i);
    }
  }

  lemma NoChildRefs(w: World, x: Id, k: Kind)
    requires x < |w| && NoChildren(w, x)
    ensures Tally(GraphOf(w, k), x).edgeRefs == 0
  {
    NoRefsToNone(GraphOf(w, k), x);
  }

  /** A closed scope without edges puts nothing on the ledger, even if something was still charged to it. */
  lemma CloseBareBalances(g: Graph, led: Ledger, x: Id)
    requires Balanced(g, led) && x < |g| && !g[x].done && g[x].owner.None? && g[x].edges == []
    requires Tally(g, x).edgeRefs == 0
    ensures Balanced(g[x := Closed(g[x])], led)
  {
    var g' := g[x := Closed(g[x])];
    assert ShapeAt(g, x) && BooksBalance(g[x], Tally(g, x), led[x]);
    BalancedTotals(g, led, x);
    CloseGraph(g, x);
    forall i | 0 <= i < |g| ensures BooksBalance(g'[i], Tally(g', i), led[i]) {
      ClosedTally(g, x, i);
      assert BooksBalance(g[i], Tally(g, i), led[i]);
    }
  }

  /** The books after a scope has closed that nobody has charged. */
  lemma CloseBooks(g: Graph, led: Ledger, x: Id)
    requires Balanced(g, led) && x < |g| && !g[x].done && led[x].charged == 0 && Tally(g, x).edgeRefs == 0
    ensures g[x].owner.Some? ==> g[x].owner.value < |led|
    ensures g[x].use == g[x].own
    ensures Balanced(g[x := Closed(g[x])],
                     if g[x].owner.Some? then AddPins(Owe(led, g[x].owner.value, g[x].own), g[x].owner.value, 1)
                     else Carry(led, g[x].edges, g[x].own, 1))
  {
    assert ShapeAt(g, x);
    if g[x].owner.Some? {
      CloseSpanBalances(g, led, x, g[x].owner.value);
    } else {
      CloseBalances(g, led, x);
    }
  }

  lemma ClosingLedger(base: seq<int>, tasks: seq<Task>, t: Tid, c: Scope, x: Id, k: Kind, d: int)
    requires t < |tasks| && tasks[t].held == [] && tasks[t].owed == None && d == At(c.rc, k) && Distinct(c.edges)
    requires c.owner.Some? ==> c.owner.value < |base| && c.edges == []
    ensures LedgerOf(base, tasks[t := Closing(tasks[t], c, x)], k) ==
            if c.owner.Some? then AddPins(Owe(LedgerOf(base, tasks, k), c.owner.value, d), c.owner.value, 1)
            else Carry(LedgerOf(base, tasks, k), c.edges, d, 1)
  {
    var led := LedgerOf(base, tasks, k);
    var led' := if c.owner.Some? then AddPins(Owe(led, c.owner.value, d), c.owner.value, 1)
      else Carry(led, c.edges, d, 1);
    forall i | 0 <= i < |base|
      ensures led'[i] == AddEntry(SubEntry(led[i], Load(tasks[t], i, k)), Load(Closing(tasks[t], c, x), i, k))
    {
      DistinctCount(c.edges, i);
    }
    hide LedgerOf, Load;
    LedgerIs(base, tasks, t, Closing(tasks[t], c, x), k, led');
  }

  lemma {:induction false} DistinctCount(ids: seq<Id>, i: Id)
    requires Distinct(ids)
    ensures multiset(ids)[i] == if i in ids then 1 else 0
  {
    if ids != [] {
      DistinctTail(ids);
      DistinctCount(ids[1..], i);
      assert ids == [ids[0]] + ids[1..];
      assert multiset(ids) == multiset{ids[0]} + multiset(ids[1..]);
    }
  }

  lemma EndedGraphOf(w: World, x: Id, k: Kind)
    requires x < |w|
    ensures GraphOf(w[x := Ended(w[x])], k) == GraphOf(w, k)[x := Closed(GraphOf(w, k)[x])]
  {
    EndedNode(w[x], k);
  }

  lemma ClosedBalance(s: State, t: Tid, x: Id, k: Kind)
    requires Inv(s) && t < |s.tasks| && s.tasks[t].phase.Free? && x < |s.w| && !s.w[x].done && NoChildren(s.w, x)
    requires LedgerOf(s.base, s.tasks, k)[x].charged == 0
    ensures Balanced(GraphOf(ClosedAt(s, t, x).w, k), LedgerOf(s.base, ClosedAt(s, t, x).tasks, k))
  {
    hide Inv, TaskOk, Limited, Shaped, LedgerOf, Balanced, NoChildren, Ended;
    InvParts(s);
    InvShaped(s);
    TaskAt(s, t);
    FreeTask(s.w, s.locks, t, s.tasks[t]);
    OwnerDecided(s.w, x);
    NoChildRefs(s.w, x, k);
    var g, led := GraphOf(s.w, k), LedgerOf(s.base, s.tasks, k);
    CloseBooks(g, led, x);
    EndedGraphOf(s.w, x, k);
    ClosingLedger(s.base, s.tasks, t, s.w[x], x, k, At(s.w[x].rc, k));
  }

  /** No thread has a reference to `x` that it relies on. */
  predicate NoRefsTo(s: State, x: Id) { forall u :: 0 <= u < |s.tasks| ==> x !in s.tasks[u].refs }

  lemma ClosedTask(w: World, locks: seq<Option<Tid>>, t: Tid, a: Task, x: Id)
    requires |locks| == |w| && TaskOk(w, locks, t, a) && a.phase.Free? && x < |w| && !w[x].done && x !in a.refs
    requires Shaped(w) && Parents(w) && Sane(w[x].rc)
    ensures TaskOk(w[x := Ended(w[x])], locks[x := Some(t)], t, Closing(a, w[x], x))
  {
    hide Filable, Parents, Shaped;
    RootFacts(w, x);
    OwnerDecided(w, x);
    forall e | e in Closing(a, w[x], x).drops ensures e < |w| {
      assert e in a.drops || (if w[x].owner.Some? then e == w[x].owner.value else e in w[x].edges);
    }
  }

  lemma ClosedRespects(s: State, t: Tid, x: Id)
    requires Sizes(s) && TasksOk(s) && t < |s.tasks| && Unlocked(s, x) && NoRefsTo(s, x)
    ensures Sizes(ClosedAt(s, t, x)) && Respects(s, ClosedAt(s, t, x), t)
  {
    hide PhaseOk;
    var s' := ClosedAt(s, t, x);
    forall u, e | 0 <= u < |s.tasks| && u != t && e in s.tasks[u].refs && e < |s.w| ensures !s'.w[e].done {
      assert TaskOk(s.w, s.locks, u, s.tasks[u]);
    }
  }

  lemma ClosedLimits(w: World, x: Id)
    requires Limited(w) && x < |w|
    ensures Limited(w[x := Ended(w[x])])
  {
  }

  /** The parts of the invariant after a closing; `s'` may differ in what the collector keeps track of. */
  lemma ClosedKeeps(s: State, t: Tid, x: Id, s': State)
    requires Inv(s) && t < |s.tasks| && s.tasks[t].phase.Free? && Unlocked(s, x) && !s.w[x].done && NoRefsTo(s, x)
    requires s' == ClosedAt(s, t, x).(peers := s'.peers, chosen := s'.chosen, dead := s'.dead)
    requires InBalance(ClosedAt(s, t, x)) && NamesOk(s'.w, s'.peers) && CollectorOk(s')
    ensures Inv(s')
  {
    hide Inv, TaskOk, Limited, InBalance, NamesOk, Closing, Ended, CollectorOk, Respects;
    InvParts(s);
    InvShaped(s);
    NamesParents(s.w, s.peers);
    LimitedAt(s.w, x);
    TaskAt(s, t);
    ClosedTask(s.w, s.locks, t, s.tasks[t], x);
    ClosedRespects(s, t, x);
    ClosedLimits(s.w, x);
    SameBalance(ClosedAt(s, t, x), s');
    SameRespects(s, ClosedAt(s, t, x), s', t);
    StepKeeps(s, s', t);
  }

  lemma SameBalance(s: State, s': State)
    requires InBalance(s) && s'.w == s.w && s'.base == s.base && s'.tasks == s.tasks
    ensures InBalance(s')
  {
  }

  lemma SameRespects(s: State, s1: State, s2: State, t: Tid)
    requires Sizes(s) && Sizes(s1) && Respects(s, s1, t)
    requires s2.w == s1.w && s2.base == s1.base && s2.tasks == s1.tasks && s2.locks == s1.locks
    ensures Sizes(s2) && Respects(s, s2, t)
  {
  }

  /** A scope is closed that is not one of the fixed ones; a closed peer is struck off the list. */
  lemma ClosedNames(w: World, x: Id, peers: map<string, Id>, peers': map<string, Id>)
    requires NamesOk(w, peers) && Shaped(w) && x < |w| && !w[x].done
    requires w[x].name !in {System, Transient, AllowedSystem, AllowedTransient}
    requires peers' == if w[x].name.Peer? then peers - {w[x].name.peer} else peers
    ensures NamesOk(w[x := Ended(w[x])], peers')
  {
    hide Fixed, Parents, Shaped, ClosedOne;
    var w' := w[x := Ended(w[x])];
    EndedIsClosed(w, x);
    ClosedOneFixed(w, w', x);
    ClosedOneParents(w, w', x);
  }

  lemma EndedIsClosed(w: World, x: Id)
    requires x < |w|
    ensures ClosedOne(w, w[x := Ended(w[x])], x)
  {
  }

  lemma StartDoneKeeps(s: State, t: Tid, x: Id, s': State)
    requires Inv(s) && t < |s.tasks| && StartDone(s, t, x, s')
    ensures Inv(s')
  {
    hide Inv, TaskOk, Limited, NamesOk, Closing, Ended, NoChildren, LedgerOf, GraphOf, Balanced, ClosedAt;
    if !s.w[x].done {
      InvParts(s);
      InvShaped(s);
      NamesParents(s.w, s.peers);
      Childless(s.w, x);
      NotReferred(s, x);
      forall k: Kind ensures Balanced(GraphOf(ClosedAt(s, t, x).w, k), LedgerOf(s.base, ClosedAt(s, t, x).tasks, k)) {
        NotCharged(s, x, k);
        ClosedBalance(s, t, x, k);
      }
      ClosedAtIs(s, t, x);
      ClosedNames(s.w, x, s.peers, s.peers);
      ClosedKeeps(s, t, x, s');
    }
  }

  lemma ClosedAtIs(s: State, t: Tid, x: Id)
    requires Sizes(s) && t < |s.tasks| && x < |s.w|
    ensures var s' := ClosedAt(s, t, x);
            && s'.w == s.w[x := Ended(s.w[x])] && s'.base == s.base && s'.peers == s.peers
            && s'.gc == s.gc && s'.chosen == s.chosen && s'.dead == s.dead
            && (CollectorOk(s) && s.chosen != Some(x) ==> CollectorOk(s'))
            && (CollectorOk(s) && !Filable(s.w[x].name) ==> s.chosen != Some(x))
  {
  }

  lemma NotReferred(s: State, x: Id)
    requires Inv(s) && x < |s.w| && !Filable(s.w[x].name)
    ensures NoRefsTo(s, x)
  {
    forall u | 0 <= u < |s.tasks| ensures x !in s.tasks[u].refs { assert TaskOk(s.w, s.locks, u, s.tasks[u]); }
  }

  // ---------------------------------------------------------------- collecting garbage

  predicate StartGc(s: State, t: Tid, s': State)
    requires t < |s.tasks|
  {
    s.tasks[t].phase.Free? && s.gc == None && s' == s.(gc := Some(t))
  }

  predicate EndGc(s: State, t: Tid, s': State)
    requires t < |s.tasks|
  {
    s.tasks[t].phase.Free? && s.gc == Some(t) && s' == s.(gc := None, chosen := None, dead := {})
  }

  /** The collector finds a peer or a protocol unused; other threads go on before it is closed. */
  predicate Choose(s: State, t: Tid, x: Id, s': State)
    requires Sizes(s) && t < |s.tasks|
  {
    && s.tasks[t].phase.Free? && s.gc == Some(t) && Unlocked(s, x) && !s.w[x].done && Unused(s.w[x])
    && (s.w[x].name.Peer? || (s.w[x].name.Shared? && s.w[x].name.key.Protocol?))
    && s' == s.(chosen := Some(x))
  }

  /** The chosen scope is closed, and a peer struck off the list. */
  predicate CloseChosen(s: State, t: Tid, s': State)
    requires Sizes(s) && t < |s.tasks|
  {
    && s.tasks[t].phase.Free? && s.gc == Some(t) && s.chosen.Some? && Unlocked(s, s.chosen.value)
    && var x := s.chosen.value;
    && !s.w[x].done
    && s' == var s1 := ClosedAt(s, t, x).(chosen := None);
             if s.w[x].name.Peer? then s1.(peers := s.peers - {s.w[x].name.peer}, dead := s.dead + {s.w[x].name.peer})
               else s1
  }

  /** What a service or protocol keeps for a dead peer is closed without further checks. */
  predicate ClosePart(s: State, t: Tid, x: Id, s': State)
    requires Sizes(s) && t < |s.tasks|
  {
    && s.tasks[t].phase.Free? && s.gc == Some(t) && Unlocked(s, x) && s.w[x].name.PerPeer? && s.w[x].name.peer in s.dead
    && s' == if s.w[x].done then s else ClosedAt(s, t, x)
  }

  lemma {:induction false} NoPins(tasks: seq<Task>, n: nat, i: Id, k: Kind, u: Tid)
    requires n <= |tasks| && u < n && (forall j :: 0 <= j < |tasks| ==> Amount(tasks[j].d))
      && Loads(tasks, n, i, k).pins == 0
    ensures i !in tasks[u].refs && i !in tasks[u].drops
  {
    LoadsCarry(tasks, n, u, i, k);
  }

  /** A scope with a reference count of zero: no child, no pin, no charge. */
  lemma Unreferenced0(s: State, x: Id, k: Kind)
    requires Inv(s) && Unlocked(s, x) && s.w[x].refCnt <= 0
    ensures s.w[x].refCnt == 0 && NoChildren(s.w, x)
    ensures forall u :: 0 <= u < |s.tasks| ==> x !in s.tasks[u].refs && x !in s.tasks[u].drops
    ensures LedgerOf(s.base, s.tasks, k)[x].charged == 0
  {
    hide TasksOk, Limited, NamesOk, CollectorOk;
    RefCntZero(s, x, k);
    TasksAmount(s);
    forall u | 0 <= u < |s.tasks| ensures x !in s.tasks[u].refs && x !in s.tasks[u].drops && x !in s.tasks[u].held {
      NoPins(s.tasks, |s.tasks|, x, k, u);
      TaskAt(s, u);
      NamesParents(s.w, s.peers);
      InvShaped(s);
      UnpinnedUnheld(s.w, s.locks, u, s.tasks[u], x);
    }
    LoadsUncharged(s.tasks, |s.tasks|, x, k);
  }

  lemma RefCntZero(s: State, x: Id, k: Kind)
    requires Inv(s) && x < |s.w| && s.w[x].refCnt <= 0
    ensures s.w[x].refCnt == 0 && NoChildren(s.w, x) && Loads(s.tasks, |s.tasks|, x, k).pins == 0
  {
    hide TasksOk, Limited, NamesOk, CollectorOk, Load;
    TasksAmount(s);
    LoadsCarry(s.tasks, |s.tasks|, 0, x, k);
    var g, led := GraphOf(s.w, k), LedgerOf(s.base, s.tasks, k);
    assert Balanced(g, led);
    assert BooksBalance(g[x], Tally(g, x), led[x]);
    BalancedTotals(g, led, x);
    forall i | 0 <= i < |s.w| && !s.w[i].done ensures x !in s.w[i].edges {
      assert !g[i].done && g[i].edges == s.w[i].edges;
    }
  }

  /** Without a pin and without an open child there is no charge on an unlocked scope. */
  lemma UnpinnedUnheld(w: World, locks: seq<Option<Tid>>, u: Tid, a: Task, x: Id)
    requires |locks| == |w| && TaskOk(w, locks, u, a) && x < |w| && locks[x] == None && NoChildren(w, x)
    requires x !in a.refs && x !in a.drops
    ensures x !in a.held
  {
    hide Filable, RefsOk;
    assert x !in a.chain;
    if a.chain != [] { LastIsIn(a.chain); }
    if a.phase.Granted? { GrantedHeld(w, a); }
    if a.phase.Reserving? {
      var edges := w[Last(a.chain)].edges;
      LastOpen(w, a.chain);
      assert forall e :: e in a.chain + edges[..|a.held| - |a.chain|] ==> e in a.chain || e in edges;
    }
  }

  lemma LastIsIn(chain: seq<Id>)
    requires chain != []
    ensures Last(chain) in chain
  {
  }

  lemma StartGcKeeps(s: State, t: Tid, s': State)
    requires Inv(s) && t < |s.tasks| && (StartGc(s, t, s') || EndGc(s, t, s'))
    ensures Inv(s')
  {
    hide Limited, NamesOk, Balanced, LedgerOf, TaskOk;
  }

  lemma ChooseKeeps(s: State, t: Tid, x: Id, s': State)
    requires Inv(s) && t < |s.tasks| && Choose(s, t, x, s')
    ensures Inv(s')
  {
    hide Limited, NamesOk, Balanced, LedgerOf, TaskOk;
    RefCntZero(s, x, MemoryKind);
  }

  /**
   * The safety of collection: what is closed has no open child, no reference and no charge, although others went on.
   */
  lemma CloseChosenKeeps(s: State, t: Tid, s': State)
    requires Inv(s) && t < |s.tasks| && CloseChosen(s, t, s')
    ensures Inv(s') && NoChildren(s.w, s.chosen.value)
  {
    hide Inv, TaskOk, Limited, NamesOk, Closing, Ended, NoChildren, LedgerOf, GraphOf, Balanced, ClosedAt, NoRefsTo;
    var x := s.chosen.value;
    InvParts(s);
    InvShaped(s);
    Unreferenced0(s, x, MemoryKind);
    forall k: Kind ensures Balanced(GraphOf(ClosedAt(s, t, x).w, k), LedgerOf(s.base, ClosedAt(s, t, x).tasks, k)) {
      Unreferenced0(s, x, k);
      ClosedBalance(s, t, x, k);
    }
    NoRefsToIs(s, x);
    ClosedAtFields(s, t, x);
    ClosedNames(s.w, x, s.peers, s'.peers);
    ClosedKeeps(s, t, x, s');
  }

  lemma NoRefsToIs(s: State, x: Id)
    requires forall u :: 0 <= u < |s.tasks| ==> x !in s.tasks[u].refs
    ensures NoRefsTo(s, x)
  {
  }

  lemma ClosedAtFields(s: State, t: Tid, x: Id)
    requires Sizes(s) && t < |s.tasks| && x < |s.w|
    ensures var s' := ClosedAt(s, t, x);
            && s'.w == s.w[x := Ended(s.w[x])] && s'.base == s.base && s'.peers == s.peers
            && s'.gc == s.gc && s'.chosen == s.chosen && s'.dead == s.dead
  {
  }

  /** No open scope is, and no thread is about to make one, a child of what is kept for a peer without open scope. */
  lemma DeadPartIsFree(s: State, x: Id)
    requires Inv(s) && x < |s.w| && s.w[x].name.PerPeer? && s.w[x].name.peer !in s.peers
    ensures NoChildren(s.w, x) && NoRefsTo(s, x)
  {
    hide Limited, TasksOk, Balanced, Inv;
    InvParts(s);
    InvShaped(s);
    var p := s.w[x].name.peer;
    forall c | 0 <= c < |s.w| && !s.w[c].done ensures x !in s.w[c].edges {
      assert ParentsAt(s.w, c);
      if x in s.w[c].edges { NoPeerParent(s, c, p); }
    }
    forall u | 0 <= u < |s.tasks| ensures x !in s.tasks[u].refs {
      TaskAt(s, u);
      if x in s.tasks[u].refs {
        AttachingTo(s.w, s.locks, u, s.tasks[u], x);
        NoPeerParent(s, s.tasks[u].chain[0], p);
      }
    }
  }

  lemma AttachingTo(w: World, locks: seq<Option<Tid>>, u: Tid, a: Task, x: Id)
    requires |locks| == |w| && TaskOk(w, locks, u, a) && x in a.refs && x < |w| && w[x].name.PerPeer?
    ensures |a.chain| == 1 && a.chain[0] < |w| && !w[a.chain[0]].done
    ensures exists f :: f in w[a.chain[0]].edges && f < |w| && w[f].name == Peer(w[x].name.peer)
  {
  }

  /** A peer that is not on the list is no parent of an open scope. */
  lemma NoPeerParent(s: State, c: Id, p: string)
    requires Inv(s) && c < |s.w| && !s.w[c].done && p !in s.peers
    ensures !exists f :: f in s.w[c].edges && f < |s.w| && s.w[f].name == Peer(p)
  {
    hide Limited, TasksOk;
    var g := Links(s.w);
    assert Balanced(g, LedgerOf(s.base, s.tasks, MemoryKind));
    assert ShapeAt(g, c) && !g[c].done && g[c].edges == s.w[c].edges;
    forall f | f in s.w[c].edges && f < |s.w| ensures s.w[f].name != Peer(p) {
      assert !g[f].done;
    }
  }

  lemma PartClosedBalance(s: State, t: Tid, x: Id, k: Kind)
    requires Inv(s) && t < |s.tasks| && s.tasks[t].phase.Free? && x < |s.w| && !s.w[x].done && NoChildren(s.w, x)
    requires s.w[x].owner.None? && s.w[x].edges == []
    ensures Balanced(GraphOf(ClosedAt(s, t, x).w, k), LedgerOf(s.base, ClosedAt(s, t, x).tasks, k))
  {
    hide Inv, TaskOk, Limited, LedgerOf, Balanced, NoChildren, Ended;
    InvParts(s);
    TaskAt(s, t);
    FreeTask(s.w, s.locks, t, s.tasks[t]);
    NoChildRefs(s.w, x, k);
    var g, led := GraphOf(s.w, k), LedgerOf(s.base, s.tasks, k);
    CloseBareBalances(g, led, x);
    EndedGraphOf(s.w, x, k);
    ClosingLedger(s.base, s.tasks, t, s.w[x], x, k, At(s.w[x].rc, k));
    NothingCarried(led, At(s.w[x].rc, k));
  }

  lemma NothingCarried(led: Ledger, d: int)
    ensures Carry(led, [], d, 1) == led
  {
  }

  lemma ClosePartKeeps(s: State, t: Tid, x: Id, s': State)
    requires Inv(s) && t < |s.tasks| && ClosePart(s, t, x, s')
    ensures Inv(s') && NoChildren(s.w, x)
  {
    hide Inv, TaskOk, Limited, Closing, Ended, NoChildren, LedgerOf, GraphOf, Balanced, ClosedAt, NoRefsTo, Fixed,
      Parents;
    InvParts(s);
    DeadPartIsFree(s, x);
    if !s.w[x].done {
      InvShaped(s);
      forall k: Kind ensures Balanced(GraphOf(ClosedAt(s, t, x).w, k), LedgerOf(s.base, ClosedAt(s, t, x).tasks, k)) {
        PartClosedBalance(s, t, x, k);
      }
      ClosedAtIs(s, t, x);
      ClosedNames(s.w, x, s.peers, s.peers);
      ClosedKeeps(s, t, x, s');
    }
  }

  // ---------------------------------------------------------------- references

  /** IncRef or DecRef by a thread. */
  function Pinned(s: State, t: Tid, e: Id, n: int, a: Task): State
    requires t < |s.tasks|
  {
    s.(w := Referenced(s.w, [e], n), tasks := s.tasks[t := a])
  }

  lemma PinnedGraph(w: World, e: Id, n: int, k: Kind)
    requires e < |w|
    ensures GraphOf(Referenced(w, [e], n), k)
            == GraphOf(w, k)[e := GraphOf(w, k)[e].(refCnt := GraphOf(w, k)[e].refCnt + n)]
  {
  }

  lemma PinnedLedger(base: seq<int>, tasks: seq<Task>, t: Tid, e: Id, n: int, a': Task, k: Kind)
    requires t < |tasks| && e < |base|
    requires a'.held == tasks[t].held && a'.owed == tasks[t].owed && a'.d == tasks[t].d
    requires forall i :: a'.refs[i] + a'.drops[i] == tasks[t].refs[i] + tasks[t].drops[i] + if i == e then n else 0
    ensures LedgerOf(base, tasks[t := a'], k) == AddPins(LedgerOf(base, tasks, k), e, n)
  {
    hide LedgerOf, At;
    LedgerIs(base, tasks, t, a', k, AddPins(LedgerOf(base, tasks, k), e, n));
  }

  lemma PinnedKeeps(s: State, t: Tid, e: Id, n: int, a': Task)
    requires Inv(s) && t < |s.tasks| && Unlocked(s, e) && s.chosen != Some(e)
    requires a'.held == s.tasks[t].held && a'.owed == s.tasks[t].owed && a'.d == s.tasks[t].d
    requires forall i :: a'.refs[i] + a'.drops[i] == s.tasks[t].refs[i] + s.tasks[t].drops[i] + if i == e then n else 0
    requires n == 1 || (n == -1 && (e in s.tasks[t].refs || e in s.tasks[t].drops))
    requires TaskOk(Referenced(s.w, [e], n), s.locks, t, a')
    ensures Inv(Pinned(s, t, e, n, a'))
  {
    hide Inv, TaskOk, Limited, NamesOk, LedgerOf, GraphOf, Balanced, Referenced, Respects, Amount;
    var s' := Pinned(s, t, e, n, a');
    InvParts(s);
    TasksAmount(s);
    forall k: Kind ensures Balanced(GraphOf(s'.w, k), LedgerOf(s'.base, s'.tasks, k)) {
      LedgerCarries(s.base, s.tasks, t, e, k);
      PinBalances(GraphOf(s.w, k), LedgerOf(s.base, s.tasks, k), e, n);
      PinnedGraph(s.w, e, n, k);
      PinnedLedger(s.base, s.tasks, t, e, n, a', k);
    }
    PinnedNames(s.w, e, n);
    CountersKeepNames(s.w, s'.w, s.peers);
    PinnedRest(s, t, e, n, a');
    StepKeeps(s, s', t);
  }

  lemma PinnedNames(w: World, e: Id, n: int)
    ensures SameNames(w, Referenced(w, [e], n))
    ensures Limited(w) ==> Limited(Referenced(w, [e], n))
  {
  }

  lemma PinnedRest(s: State, t: Tid, e: Id, n: int, a': Task)
    requires Inv(s) && t < |s.tasks| && Unlocked(s, e) && s.chosen != Some(e)
    ensures var s' := Pinned(s, t, e, n, a'); Sizes(s') && Respects(s, s', t) && CollectorOk(s')
  {
    hide PhaseOk, Limited, NamesOk, InBalance;
    var s' := Pinned(s, t, e, n, a');
    forall u, x | 0 <= u < |s.tasks| && u != t && x in s.tasks[u].refs && x < |s.w| ensures !s'.w[x].done {
      assert TaskOk(s.w, s.locks, u, s.tasks[u]);
    }
  }

  /** The scope being attached has an open peer as a parent. */
  predicate AttachesFor(w: World, a: Task, p: string) {
    && a.phase.Attaching? && |a.chain| == 1 && a.chain[0] < |w|
    && exists f :: f in w[a.chain[0]].edges && f < |w| && w[f].name == Peer(p)
  }

  /**
   * A reference is taken on a fixed scope; or on a peer, protocol or service, under the lock of the manager unless the
   * thread has one already; or, while attaching a stream of peer `p`, on what a protocol or service keeps for `p`.
   */
  predicate Take(s: State, t: Tid, e: Id, s': State)
    requires Sizes(s) && t < |s.tasks|
  {
    var a := s.tasks[t];
    && (a.phase.Free? || a.phase.Attaching?) && Unlocked(s, e)
    && (match s.w[e].name
        case Peer(_) => (s.gc == None || e in a.refs) && !s.w[e].done
        case Shared(_) => (s.gc == None || e in a.refs) && !s.w[e].done
        case PerPeer(_, p) => !s.w[e].done && AttachesFor(s.w, a, p)
        case _ => e <= ALLOWED_TRANSIENT)
    && s' == Pinned(s, t, e, 1, a.(refs := a.refs + multiset{e}))
  }

  /** A user returns a scope it was given to look at. */
  predicate PutDown(s: State, t: Tid, e: Id, s': State)
    requires t < |s.tasks|
  {
    var a := s.tasks[t];
    a.phase.Free? && e in a.refs && s' == s.(tasks := s.tasks[t := a.(refs := a.refs - multiset{e},
                                                                      drops := a.drops + multiset{e})])
  }

  predicate Drop(s: State, t: Tid, e: Id, s': State)
    requires Sizes(s) && t < |s.tasks|
  {
    var a := s.tasks[t];
    e in a.drops && e !in a.held && Unlocked(s, e) && s' == Pinned(s, t, e, -1, a.(drops := a.drops - multiset{e}))
  }

  lemma TakenTask(w: World, locks: seq<Option<Tid>>, t: Tid, a: Task, e: Id, w': World)
    requires |locks| == |w| && TaskOk(w, locks, t, a) && SameNames(w, w') && e < |w| && !w[e].done && Filable(w[e].name)
    requires w[e].name.PerPeer? ==> AttachesFor(w, a, w[e].name.peer)
    requires a.phase.Attaching? ==> a.chain != [] && a.chain[0] < |w| && w'[a.chain[0]] == w[a.chain[0]]
    requires a.phase.Free? || a.phase.Attaching?
    ensures TaskOk(w', locks, t, a.(refs := a.refs + multiset{e}))
  {
    hide Amount, Filable;
    var a' := a.(refs := a.refs + multiset{e});
    assert forall x :: x in a'.refs ==> x in a.refs || x == e;
    if a.phase.Attaching? {
      var y := a.chain[0];
      forall x | x in a'.refs && x < |w'| && w'[x].name.PerPeer?
        ensures exists f :: f in w'[y].edges && f < |w'| && w'[f].name == Peer(w'[x].name.peer)
      {
        var f :| f in w[y].edges && f < |w| && w[f].name == Peer(w[x].name.peer);
        assert w'[f].name == w[f].name;
      }
    }
  }

  lemma TakeKeeps(s: State, t: Tid, e: Id, s': State)
    requires Inv(s) && t < |s.tasks| && Take(s, t, e, s')
    ensures Inv(s')
  {
    hide Inv, TaskOk, Limited, Balanced, LedgerOf, Referenced, Parents, AttachesFor;
    InvParts(s);
    TaskAt(s, t);
    FixedOpen(s.w, e);
    if e in s.tasks[t].refs { PinnedNotChosen(s, t, e); }
    PinnedNames(s.w, e, 1);
    if s.tasks[t].phase.Attaching? { AttachingChain(s.w, s.locks, t, s.tasks[t]); }
    PinnedElsewhere(s.w, e, 1);
    TakenTask(s.w, s.locks, t, s.tasks[t], e, s'.w);
    PinnedKeeps(s, t, e, 1, s'.tasks[t]);
  }

  lemma FixedOpen(w: World, e: Id)
    requires Fixed(w)
    ensures e <= ALLOWED_TRANSIENT ==> e < |w| && !w[e].done && Filable(w[e].name) && !w[e].name.PerPeer?
    ensures e < |w| && (w[e].name.Peer? || w[e].name.Shared? || w[e].name.PerPeer?) ==> Filable(w[e].name)
    ensures e <= ALLOWED_TRANSIENT ==> !w[e].name.Peer? && !w[e].name.Shared?
  {
    assert e <= ALLOWED_TRANSIENT ==> e == SYSTEM || e == TRANSIENT || e == ALLOWED_SYSTEM || e == ALLOWED_TRANSIENT;
  }

  lemma AttachingChain(w: World, locks: seq<Option<Tid>>, t: Tid, a: Task)
    requires |locks| == |w| && TaskOk(w, locks, t, a) && a.phase.Attaching?
    ensures |a.chain| == 1 && a.chain[0] < |w| && locks[a.chain[0]] == Some(t)
    ensures Attachable(w, a.chain[0]) && w[a.chain[0]].rc == a.d && a.owed == None
  {
    assert a.chain[0] in a.chain;
  }

  lemma PinnedElsewhere(w: World, e: Id, n: int)
    ensures forall i :: 0 <= i < |w| && i != e ==> Referenced(w, [e], n)[i] == w[i]
  {
  }

  lemma PutDownKeeps(s: State, t: Tid, e: Id, s': State)
    requires Inv(s) && t < |s.tasks| && PutDown(s, t, e, s')
    ensures Inv(s')
  {
    hide Inv, TaskOk, Limited;
    InvParts(s);
    TaskAt(s, t);
    var a, a' := s.tasks[t], s'.tasks[t];
    PutDownTask(s.w, s.locks, t, a, e);
    NoChange(s, t, a');
    assert a'.refs + a'.drops == a.refs + a.drops;
    TaskStepKeeps(s, t, a', s');
  }

  lemma PutDownTask(w: World, locks: seq<Option<Tid>>, t: Tid, a: Task, e: Id)
    requires |locks| == |w| && TaskOk(w, locks, t, a) && a.phase.Free? && e in a.refs
    ensures TaskOk(w, locks, t, a.(refs := a.refs - multiset{e}, drops := a.drops + multiset{e}))
  {
    var a' := a.(refs := a.refs - multiset{e}, drops := a.drops + multiset{e});
    assert forall x :: x in a'.refs ==> x in a.refs;
    assert forall x :: x in a'.drops ==> x in a.drops || x == e;
  }

  /** Whoever is pinned has a positive reference count, so it is not chosen for collection. */
  lemma PinnedNotChosen(s: State, t: Tid, e: Id)
    requires Inv(s) && t < |s.tasks| && Unlocked(s, e) && (e in s.tasks[t].refs || e in s.tasks[t].drops)
    ensures s.chosen != Some(e)
  {
    hide Limited, TasksOk, NamesOk, InBalance;
    if s.w[e].refCnt <= 0 { Unreferenced0(s, e, MemoryKind); }
  }

  lemma DropKeeps(s: State, t: Tid, e: Id, s': State)
    requires Inv(s) && t < |s.tasks| && Drop(s, t, e, s')
    ensures Inv(s')
  {
    hide Inv, TaskOk, Limited, Referenced;
    InvParts(s);
    TaskAt(s, t);
    PinnedNotChosen(s, t, e);
    PinnedNames(s.w, e, -1);
    PinnedElsewhere(s.w, e, -1);
    AttachingUnlocked(s.w, s.locks, t, s.tasks[t], e);
    DroppedTask(s.w, s.locks, t, s.tasks[t], e, s'.w);
    PinnedKeeps(s, t, e, -1, s'.tasks[t]);
  }

  lemma AttachingUnlocked(w: World, locks: seq<Option<Tid>>, t: Tid, a: Task, e: Id)
    requires |locks| == |w| && TaskOk(w, locks, t, a) && e < |w| && locks[e] == None
    ensures e !in a.chain && forall l :: l in a.chain ==> l < |w| && l != e
  {
  }

  lemma DroppedTask(w: World, locks: seq<Option<Tid>>, t: Tid, a: Task, e: Id, w': World)
    requires |locks| == |w| && TaskOk(w, locks, t, a) && SameNames(w, w') && e in a.drops && e !in a.held
    requires forall l :: l in a.chain ==> l < |w| && w'[l] == w[l]
    ensures TaskOk(w', locks, t, a.(drops := a.drops - multiset{e}))
  {
    hide Amount, Filable, PhaseOk;
    var a' := a.(drops := a.drops - multiset{e});
    assert forall x :: x in a'.drops ==> x in a.drops;
    assert forall x :: x in a.drops && x != e ==> x in a'.drops;
    if a.phase.Granted? { GrantedHeld(w, a); }
    RefsFacts(w, a);
    OtherPhaseOk(w, w', a);
    DroppedPhase(w', a, e);
  }

  lemma RefsFacts(w: World, a: Task)
    requires RefsOk(w, a)
    ensures forall e :: e in a.refs ==> e < |w|
  {
  }

  lemma DroppedPhase(w: World, a: Task, e: Id)
    requires PhaseOk(w, a) && e !in a.held
    ensures PhaseOk(w, a.(drops := a.drops - multiset{e}))
  {
    assert forall x :: x in a.drops && x != e ==> x in a.drops - multiset{e};
  }

  // ---------------------------------------------------------------- new scopes

  /** A new scope, without locks and without references of the manager. */
  function Appended(s: State, w: World): State { s.(w := w, base := s.base + [0], locks := s.locks + [None]) }

  lemma {:induction false} LoadsOfStranger(tasks: seq<Task>, n: nat, i: Id, k: Kind)
    requires n <= |tasks| && forall u :: 0 <= u < |tasks| ==> Load(tasks[u], i, k) == NOTHING
    ensures Loads(tasks, n, i, k) == NOTHING
  {
    if n > 0 { LoadsOfStranger(tasks, n - 1, i, k); }
  }

  lemma LedgerAppend(s: State, k: Kind)
    requires Sizes(s) && TasksOk(s)
    ensures LedgerOf(s.base + [0], s.tasks, k) == LedgerOf(s.base, s.tasks, k) + [NOTHING]
  {
    hide Load, Loads;
    forall u | 0 <= u < |s.tasks| ensures Load(s.tasks[u], |s.w|, k) == NOTHING {
      NoLoadYet(s, u, k);
    }
    LoadsOfStranger(s.tasks, |s.tasks|, |s.w|, k);
  }

  lemma NoLoadYet(s: State, u: Tid, k: Kind)
    requires Sizes(s) && TasksOk(s) && u < |s.tasks|
    ensures Load(s.tasks[u], |s.w|, k) == NOTHING
  {
    assert TaskOk(s.w, s.locks, u, s.tasks[u]);
  }

  /** Scopes that only grow in number and references. */
  predicate Longer(w: World, w': World) {
    && |w'| == |w| + 1
    && forall i :: 0 <= i < |w| ==> w'[i] == w[i].(refCnt := w'[i].refCnt, spanId := w'[i].spanId)
  }

  lemma LongerNames(w: World, w': World, peers: map<string, Id>)
    requires NamesOk(w, peers) && Shaped(w) && Longer(w, w') && ParentsAt(w', |w|)
    requires w'[|w|].name.Span? <==> w'[|w|].owner.Some?
    requires w'[|w|].name.PerPeer? ==> w'[|w|].edges == []
    requires w'[|w|].name.Peer? ==> w'[|w|].name.peer !in peers && !w'[|w|].done
    ensures NamesOk(w', if w'[|w|].name.Peer? then peers[w'[|w|].name.peer := |w|] else peers)
  {
    hide Parents, ParentsAt, Shaped;
    LongerParents(w, w');
  }

  lemma LongerParents(w: World, w': World)
    requires Parents(w) && Shaped(w) && Longer(w, w') && ParentsAt(w', |w|)
    ensures Parents(w')
  {
    hide ParentsAt, Shaped;
    forall i | 0 <= i < |w'| ensures ParentsAt(w', i) {
      if i < |w| {
        assert ParentsAt(w, i);
        EdgesKnownAt(w, i);
        ParentsKept(w, w', i);
      }
    }
  }

  lemma LongerLimits(w: World, w': World)
    requires Limited(w) && Longer(w, w') && w'[|w|].limit.Valid() && w'[|w|].rc == ZERO
    ensures Limited(w')
  {
  }

  lemma LongerRespects(s: State, t: Tid, w': World, a': Task)
    requires Sizes(s) && TasksOk(s) && t < |s.tasks| && Longer(s.w, w')
    requires forall i :: 0 <= i < |s.w| && s.locks[i].Some? ==> w'[i] == s.w[i]
    ensures var s' := Appended(s, w').(tasks := s.tasks[t := a']); Sizes(s') && Respects(s, s', t)
  {
    hide PhaseOk;
    forall u, x | 0 <= u < |s.tasks| && u != t && x in s.tasks[u].refs && x < |s.w| ensures !w'[x].done {
      assert TaskOk(s.w, s.locks, u, s.tasks[u]);
    }
  }

  lemma LongerTask(w: World, locks: seq<Option<Tid>>, t: Tid, a: Task, w': World)
    requires |locks| == |w| && TaskOk(w, locks, t, a) && Longer(w, w')
    requires forall l :: l in a.chain && l < |w| ==> w'[l] == w[l]
    ensures TaskOk(w', locks + [None], t, a)
  {
    hide Amount, Filable, PhaseOk;
    if a.phase.Granted? { GrantedHeld(w, a); }
    RefsFacts(w, a);
    OtherPhaseOk(w, w', a);
  }

  /** A user opens a span under a scope. */
  predicate BeginSpan(s: State, t: Tid, o: Id, s': State)
    requires Sizes(s) && t < |s.tasks|
  {
    && s.tasks[t].phase.Free? && Unlocked(s, o) && MayUse(s, t, o)
    && s' == if s.w[o].done then s else Appended(s, SpanOpened(s.w, o))
  }

  lemma SpanIsLonger(w: World, o: Id)
    requires o < |w| && w[o].limit.Valid()
    ensures var w' := SpanOpened(w, o);
            && Longer(w, w') && ParentsAt(w', |w|) && w'[|w|].name.Span? && w'[|w|].owner == Some(o)
                && w'[|w|].rc == ZERO
            && w'[|w|].limit.Valid() && forall i :: 0 <= i < |w| && i != o ==> w'[i] == w[i]
  {
  }

  lemma SpanGraph(w: World, o: Id, k: Kind)
    requires o < |w|
    ensures GraphOf(SpanOpened(w, o), k) == SpanBegun(GraphOf(w, k), o)
  {
  }

  lemma BeginSpanKeeps(s: State, t: Tid, o: Id, s': State)
    requires Inv(s) && t < |s.tasks| && BeginSpan(s, t, o, s')
    ensures Inv(s')
  {
    hide Inv, TaskOk, Limited, Balanced, LedgerOf, SpanOpened, NamesOk, Respects, CollectorOk, GraphOf, ParentsAt;
    if !s.w[o].done {
      InvParts(s);
      InvShaped(s);
      LimitedAt(s.w, o);
      SpanIsLonger(s.w, o);
      LongerNames(s.w, s'.w, s.peers);
      LongerLimits(s.w, s'.w);
      TaskAt(s, t);
      FreeTask(s.w, s.locks, t, s.tasks[t]);
      LongerTask(s.w, s.locks, t, s.tasks[t], s'.w);
      LongerRespects(s, t, s'.w, s.tasks[t]);
      assert s.tasks[t := s.tasks[t]] == s.tasks;
      forall k: Kind ensures Balanced(GraphOf(s'.w, k), LedgerOf(s'.base, s'.tasks, k)) {
        GraphAt(s.w, o, k);
        BeginSpanBalances(GraphOf(s.w, k), LedgerOf(s.base, s.tasks, k), o);
        SpanGraph(s.w, o, k);
        LedgerAppend(s, k);
      }
      UsedNotChosen(s, t, o);
      LongerCollector(s, s'.w);
      StepKeeps(s, s', t);
    }
  }

  lemma GraphAt(w: World, i: Id, k: Kind)
    requires i < |w|
    ensures GraphOf(w, k)[i] == NodeOf(w[i], k)
  {
  }

  lemma UsedNotChosen(s: State, t: Tid, o: Id)
    requires Inv(s) && t < |s.tasks| && MayUse(s, t, o) && Unlocked(s, o)
    ensures s.chosen != Some(o)
  {
    hide Limited, TasksOk, InBalance, Parents;
    FixedOpen(s.w, o);
    if o in s.tasks[t].refs { PinnedNotChosen(s, t, o); }
    if HasOpenChild(s.w, o) { ParentNotChosen(s, o); }
  }

  /** A parent of an open scope has a positive reference count. */
  lemma ParentNotChosen(s: State, o: Id)
    requires Inv(s) && Unlocked(s, o) && HasOpenChild(s.w, o)
    ensures s.chosen != Some(o)
  {
    hide Limited, TasksOk, NamesOk, InBalance;
    if s.w[o].refCnt <= 0 { RefCntZero(s, o, MemoryKind); }
  }

  lemma LongerCollector(s: State, w': World)
    requires CollectorOk(s) && Longer(s.w, w')
    requires s.chosen.Some? && s.chosen.value < |s.w| ==> w'[s.chosen.value] == s.w[s.chosen.value]
    ensures CollectorOk(Appended(s, w'))
  {
  }

  /** A connection or stream is created; the references it needs on its parents have been taken. */
  predicate OpenScope(s: State, t: Tid, name: Name, limit: Limit, edges: seq<Id>, s': State)
    requires Sizes(s) && t < |s.tasks|
  {
    var a := s.tasks[t];
    && a.phase.Free? && (name.Connection? || name.Stream?) && limit.Valid() && Distinct(edges)
    && (forall e :: e in edges ==> e in a.refs)
    && s' == Appended(s, s.w + [Fresh(name, limit, None, edges)])
             .(tasks := s.tasks[t := a.(refs := a.refs - multiset(edges))])
  }

  lemma OpenedTask(w: World, locks: seq<Option<Tid>>, t: Tid, a: Task, edges: seq<Id>)
    requires |locks| == |w| && TaskOk(w, locks, t, a) && a.phase.Free?
    ensures TaskOk(w, locks, t, a.(refs := a.refs - multiset(edges)))
  {
    var a' := a.(refs := a.refs - multiset(edges));
    assert forall x :: x in a'.refs ==> x in a.refs;
  }

  lemma OpenedLedger(base: seq<int>, tasks: seq<Task>, t: Tid, edges: seq<Id>, a': Task, k: Kind)
    requires t < |tasks| && Distinct(edges) && forall e :: e in edges ==> e in tasks[t].refs
    requires a' == tasks[t].(refs := tasks[t].refs - multiset(edges))
    ensures LedgerOf(base, tasks[t := a'], k) == Carry(LedgerOf(base, tasks, k), edges, 0, -1)
  {
    var led := LedgerOf(base, tasks, k);
    forall i | 0 <= i < |base|
      ensures Carry(led, edges, 0, -1)[i] == AddEntry(SubEntry(led[i], Load(tasks[t], i, k)), Load(a', i, k))
    {
      DistinctCount(edges, i);
    }
    hide LedgerOf, Load;
    LedgerIs(base, tasks, t, a', k, Carry(led, edges, 0, -1));
  }

  lemma OpenedIsLonger(w: World, name: Name, limit: Limit, edges: seq<Id>)
    requires (name.Connection? || name.Stream?) && limit.Valid()
    requires forall e :: e in edges ==> e < |w| && Filable(w[e].name) && !w[e].name.PerPeer?
    ensures var w' := w + [Fresh(name, limit, None, edges)];
            && Longer(w, w') && ParentsAt(w', |w|) && w'[|w|].name == name && w'[|w|].owner == None
                && w'[|w|].rc == ZERO
            && w'[|w|].limit.Valid() && forall i :: 0 <= i < |w| ==> w'[i] == w[i]
  {
  }

  lemma OpenedGraph(w: World, name: Name, limit: Limit, edges: seq<Id>, k: Kind)
    ensures GraphOf(w + [Fresh(name, limit, None, edges)], k) == GraphOf(w, k) + [NewNode(None, edges)]
  {
  }

  /** The scopes a thread without a chain refers to. */
  lemma RefsOfFree(s: State, t: Tid)
    requires Inv(s) && t < |s.tasks|
    ensures forall e :: e in s.tasks[t].refs ==>
      && e < |s.w| && !s.w[e].done && Filable(s.w[e].name) && s.w[e].owner.None?
      && (s.w[e].name.PerPeer? ==> s.tasks[t].phase.Attaching?)
  {
    assert TaskOk(s.w, s.locks, t, s.tasks[t]);
  }

  lemma PinsOfRefs(s: State, t: Tid, e: Id, k: Kind)
    requires Inv(s) && t < |s.tasks| && e < |s.w| && e in s.tasks[t].refs
    ensures LedgerOf(s.base, s.tasks, k)[e].pins >= 1
  {
    TasksAmount(s);
    hide LedgerOf, TasksOk, Limited, InBalance, NamesOk, CollectorOk;
    LedgerCarries(s.base, s.tasks, t, e, k);
  }

  lemma OpenScopeBalance(s: State, t: Tid, name: Name, limit: Limit, edges: seq<Id>, s': State, k: Kind)
    requires Inv(s) && t < |s.tasks| && OpenScope(s, t, name, limit, edges, s')
    ensures Balanced(GraphOf(s'.w, k), LedgerOf(s'.base, s'.tasks, k))
  {
    hide Inv, TaskOk, Limited, Balanced, LedgerOf, NamesOk, CollectorOk, GraphOf;
    InvParts(s);
    TaskAt(s, t);
    RefsOfFree(s, t);
    var g, led, a' := GraphOf(s.w, k), LedgerOf(s.base, s.tasks, k), s'.tasks[t];
    OpenedTask(s.w, s.locks, t, s.tasks[t], edges);
    forall e | e in edges ensures e < |g| && !g[e].done && g[e].owner.None? && led[e].pins >= 1 {
      GraphAt(s.w, e, k);
      PinsOfRefs(s, t, e, k);
    }
    CreateBalances(g, led, edges);
    OpenedGraph(s.w, name, limit, edges, k);
    OpenedLedger(s.base, s.tasks, t, edges, a', k);
    LedgerAppend(s.(tasks := s'.tasks), k);
  }

  lemma OpenScopeKeeps(s: State, t: Tid, name: Name, limit: Limit, edges: seq<Id>, s': State)
    requires Inv(s) && t < |s.tasks| && OpenScope(s, t, name, limit, edges, s')
    ensures Inv(s')
  {
    hide Inv, TaskOk, Limited, Balanced, LedgerOf, NamesOk, Respects, CollectorOk, GraphOf, ParentsAt, Filable;
    InvParts(s);
    InvShaped(s);
    TaskAt(s, t);
    RefsOfFree(s, t);
    OpenedIsLonger(s.w, name, limit, edges);
    LongerNames(s.w, s'.w, s.peers);
    LongerLimits(s.w, s'.w);
    OpenedTask(s.w, s.locks, t, s.tasks[t], edges);
    LongerTask(s.w, s.locks, t, s'.tasks[t], s'.w);
    LongerRespects(s, t, s'.w, s'.tasks[t]);
    forall k: Kind ensures Balanced(GraphOf(s'.w, k), LedgerOf(s'.base, s'.tasks, k)) {
      OpenScopeBalance(s, t, name, limit, edges, s', k);
    }
    OtherTasksCollector(s, s'.tasks);
    LongerCollector(s.(tasks := s'.tasks), s'.w);
    StepKeeps(s, s', t);
  }

  lemma OtherTasksCollector(s: State, tasks: seq<Task>)
    requires CollectorOk(s)
    ensures CollectorOk(s.(tasks := tasks)) && (s.chosen.Some? ==> s.chosen.value < |s.w|)
  {
  }

  /**
   * A peer, service or protocol is opened on first use, with a reference for the thread; this happens under the lock of
   * the manager. What a service or protocol keeps for a peer is opened the same way while a stream of the peer is
   * attached.
   */
  predicate NewShared(s: State, t: Tid, name: Name, limit: Limit, s': State)
    requires Sizes(s) && t < |s.tasks|
  {
    var a := s.tasks[t];
    && (a.phase.Free? || a.phase.Attaching?) && limit.Valid() && Unlocked(s, SYSTEM)
    && (match name
        case Peer(p) => s.gc == None && p !in s.peers
        case Shared(_) => s.gc == None
        case PerPeer(_, p) => AttachesFor(s.w, a, p)
        case _ => false)
    && s' == Appended(s, OpenedShared(s.w, name, limit)).(
               tasks := s.tasks[t := a.(refs := a.refs + multiset{|s.w|})],
               peers := if name.Peer? then s.peers[name.peer := |s.w|] else s.peers)
  }

  function EdgesFor(name: Name): seq<Id> { if name.PerPeer? then [] else [SYSTEM] }

  function OpenedShared(w: World, name: Name, limit: Limit): World { Opened(w, name, limit, EdgesFor(name)) }

  lemma SharedIsLonger(w: World, name: Name, limit: Limit)
    requires Fixed(w) && limit.Valid() && (name.Peer? || name.Shared? || name.PerPeer?)
    ensures var w' := OpenedShared(w, name, limit);
            && Longer(w, w') && ParentsAt(w', |w|) && w'[|w|].name == name && w'[|w|].owner == None
                && w'[|w|].rc == ZERO
            && !w'[|w|].done && w'[|w|].limit.Valid() && w'[|w|].edges == EdgesFor(name)
            && forall i :: 0 <= i < |w| && i != SYSTEM ==> w'[i] == w[i]
  {
    hide Opened, Fixed;
    OpenedScope(w, name, limit, EdgesFor(name));
    FixedNames(w);
  }

  lemma OpenedScope(w: World, name: Name, limit: Limit, edges: seq<Id>)
    ensures var w' := Opened(w, name, limit, edges);
            && |w'| == |w| + 1 && w'[|w|] == Fresh(name, limit, None, edges).(refCnt := w'[|w|].refCnt)
            && (forall i :: 0 <= i < |w| ==> w'[i] == w[i].(refCnt := w'[i].refCnt))
            && (forall i :: 0 <= i < |w| && i !in edges ==> w'[i] == w[i])
  {
  }

  lemma SharedGraph(w: World, name: Name, limit: Limit, edges: seq<Id>, k: Kind)
    requires forall e :: e in edges ==> e < |w|
    ensures var g := Adjusted(GraphOf(w, k), edges, 0, 1) + [NewNode(None, edges)];
            GraphOf(Opened(w, name, limit, edges), k) == g[|w| := g[|w|].(refCnt := 1)]
  {
    CreatedGraph(w, name, limit, edges, k);
    hide Created;
    PinnedGraph(Created(w, name, limit, edges), |w|, 1, k);
  }

  /** A new scope takes a reference on each edge, and is referred to once. */
  lemma NewSharedBooks(g: Graph, led: Ledger, edges: seq<Id>)
    requires Balanced(g, led) && Distinct(edges)
    requires forall e :: e in edges ==> e < |g| && !g[e].done && g[e].owner.None?
    ensures var g' := Adjusted(g, edges, 0, 1) + [NewNode(None, edges)];
            Balanced(g'[|g| := g'[|g|].(refCnt := 1)], AddPins(led + [NOTHING], |g|, 1))
  {
    forall e | e in edges ensures e < |g| && 0 <= led[e].pins + 1 { assert BooksBalance(g[e], Tally(g, e), led[e]); }
    AdjustBalances(g, led, edges, 0, 1);
    var g1, led1 := Adjusted(g, edges, 0, 1), Carry(led, edges, 0, 1);
    forall e | e in edges ensures e < |g1| && !g1[e].done && g1[e].owner.None? && led1[e].pins >= 1 {
      assert BooksBalance(g[e], Tally(g, e), led[e]);
    }
    CreateBalances(g1, led1, edges);
    CarriedBack(led, edges);
    PinBalances(g1 + [NewNode(None, edges)], led + [NOTHING], |g|, 1);
  }

  lemma CarriedBack(led: Ledger, edges: seq<Id>)
    ensures Carry(Carry(led, edges, 0, 1), edges, 0, -1) == led
  {
  }

  lemma NewSharedBalance(s: State, t: Tid, name: Name, limit: Limit, s': State, k: Kind)
    requires Inv(s) && t < |s.tasks| && NewShared(s, t, name, limit, s')
    ensures Balanced(GraphOf(s'.w, k), LedgerOf(s'.base, s'.tasks, k))
  {
    hide Inv, TaskOk, Limited, Balanced, LedgerOf, CollectorOk, GraphOf, Parents, Opened;
    InvParts(s);
    FixedOpen(s.w, SYSTEM);
    FixedRoot(s.w);
    var g, led, edges := GraphOf(s.w, k), LedgerOf(s.base, s.tasks, k), EdgesFor(name);
    GraphAt(s.w, SYSTEM, k);
    NewSharedBooks(g, led, edges);
    SharedGraph(s.w, name, limit, edges, k);
    LedgerAppend(s, k);
    PinnedLedger(s.base + [0], s.tasks, t, |s.w|, 1, s'.tasks[t], k);
  }

  lemma FixedRoot(w: World)
    requires Fixed(w)
    ensures SYSTEM < |w| && w[SYSTEM].owner.None? && !w[SYSTEM].done
  {
  }

  lemma NewSharedTask(w: World, locks: seq<Option<Tid>>, t: Tid, a: Task, name: Name, w': World)
    requires |locks| == |w| && TaskOk(w, locks, t, a) && Longer(w, w') && (a.phase.Free? || a.phase.Attaching?)
    requires forall l :: l in a.chain && l < |w| ==> w'[l] == w[l]
    requires w'[|w|].name == name && !w'[|w|].done && (name.Peer? || name.Shared? || name.PerPeer?)
    requires name.PerPeer? ==> AttachesFor(w, a, name.peer)
    ensures TaskOk(w', locks + [None], t, a.(refs := a.refs + multiset{|w|}))
  {
    LongerTask(w, locks, t, a, w');
    hide Amount, Filable, Longer;
    LongerSame(w, w');
    SameNamesRefl(w');
    if name.PerPeer? {
      var y := a.chain[0];
      assert y in a.chain && y < |w| && w'[y] == w[y];
      var f :| f in w[y].edges && f < |w| && w[f].name == Peer(name.peer);
      assert f in w'[y].edges && w'[f].name == Peer(name.peer);
    }
    TakenTask(w', locks + [None], t, a, |w|, w');
  }

  lemma LongerSame(w: World, w': World)
    requires Longer(w, w')
    ensures |w'| == |w| + 1 && forall i :: 0 <= i < |w| ==> w'[i].name == w[i].name && w'[i].edges == w[i].edges
  {
  }

  lemma NewSharedKeeps(s: State, t: Tid, name: Name, limit: Limit, s': State)
    requires Inv(s) && t < |s.tasks| && NewShared(s, t, name, limit, s')
    ensures Inv(s')
  {
    hide Inv, TaskOk, Limited, Balanced, LedgerOf, Respects, GraphOf, ParentsAt, Opened, AttachesFor, Longer, Parents,
      Fixed;
    InvParts(s);
    InvShaped(s);
    TaskAt(s, t);
    NamesFixed(s.w, s.peers);
    SharedIsLonger(s.w, name, limit);
    LongerNames(s.w, s'.w, s.peers);
    LongerLimits(s.w, s'.w);
    ChainElsewhere(s.w, s.locks, t, s.tasks[t], SYSTEM);
    NewSharedTask(s.w, s.locks, t, s.tasks[t], name, s'.w);
    LongerRespects(s, t, s'.w, s'.tasks[t]);
    forall k: Kind ensures Balanced(GraphOf(s'.w, k), LedgerOf(s'.base, s'.tasks, k)) {
      NewSharedBalance(s, t, name, limit, s', k);
    }
    NewSharedCollector(s, t, name, limit, s');
    NewSharedRespects(s, t, s'.w, s'.tasks[t], s');
    StepKeeps(s, s', t);
  }

  lemma NamesFixed(w: World, peers: map<string, Id>)
    requires NamesOk(w, peers)
    ensures Fixed(w) && |w| >= 4 && w[SYSTEM].name == System
  {
  }

  lemma ChainElsewhere(w: World, locks: seq<Option<Tid>>, t: Tid, a: Task, e: Id)
    requires |locks| == |w| && TaskOk(w, locks, t, a) && e < |w| && locks[e] == None
    ensures forall l :: l in a.chain ==> l < |w| && l != e
  {
  }

  lemma NewSharedRespects(s: State, t: Tid, w': World, a': Task, s': State)
    requires Sizes(s) && t < |s.tasks|
    requires Sizes(Appended(s, w').(tasks := s.tasks[t := a']))
      && Respects(s, Appended(s, w').(tasks := s.tasks[t := a']), t)
    requires s' == Appended(s, w').(tasks := s.tasks[t := a'], peers := s'.peers)
    ensures Sizes(s') && Respects(s, s', t)
  {
  }

  lemma NewSharedCollector(s: State, t: Tid, name: Name, limit: Limit, s': State)
    requires Sizes(s) && t < |s.tasks| && NewShared(s, t, name, limit, s') && CollectorOk(s) && |s.w| >= 4
    requires s.w[SYSTEM].name == System && Longer(s.w, s'.w)
    requires forall i :: 0 <= i < |s.w| && i != SYSTEM ==> s'.w[i] == s.w[i]
    ensures CollectorOk(s')
  {
  }

  // ---------------------------------------------------------------- attaching

  /** SetPeer, SetProtocol or SetService begins: the scope is locked and what it counts is noted. */
  predicate StartAttach(s: State, t: Tid, x: Id, s': State)
    requires Sizes(s) && t < |s.tasks|
  {
    var a := s.tasks[t];
    && a.phase.Free? && Unlocked(s, x) && Attachable(s.w, x)
    && s' == s.(locks := s.locks[x := Some(t)], tasks := s.tasks[t := Task(Attaching, [x], s.w[x].rc, [], None, a.refs,
                                                                           a.drops)])
  }

  /** A new parent is asked; if it refuses, everything is given back. */
  predicate Join(s: State, t: Tid, e: Id, s': State)
    requires Sizes(s) && t < |s.tasks|
  {
    var a := s.tasks[t];
    && a.phase.Attaching? && |a.chain| == 1 && a.chain[0] < |s.w|
    && e in a.refs && e !in a.held && e !in s.w[a.chain[0]].edges && Unlocked(s, e)
    && (if Verdict(s.w[e], Bulk(a.d)).Some?
        then s' == s.(tasks := s.tasks[t := a.(phase := Refused, refs := multiset{}, drops := a.drops + a.refs)])
        else CanTake(s, e, Bulk(a.d)) && s' == Counted(s, t, e, a.(held := a.held + [e]), false))
  }

  lemma {:induction false} LoadsSame(base: seq<int>, tasks: seq<Task>, t: Tid, a': Task, k: Kind)
    requires t < |tasks| && tasks[t].held == [] == a'.held && tasks[t].owed == None == a'.owed
    requires a'.refs + a'.drops == tasks[t].refs + tasks[t].drops
    ensures LedgerOf(base, tasks[t := a'], k) == LedgerOf(base, tasks, k)
  {
    forall i | 0 <= i < |base| ensures Load(a', i, k) == Load(tasks[t], i, k) {
      assert (a'.refs + a'.drops)[i] == (tasks[t].refs + tasks[t].drops)[i];
    }
    hide LedgerOf, Load;
    LedgerIs(base, tasks, t, a', k, LedgerOf(base, tasks, k));
  }

  lemma StartAttachKeeps(s: State, t: Tid, x: Id, s': State)
    requires Inv(s) && t < |s.tasks| && StartAttach(s, t, x, s')
    ensures Inv(s')
  {
    hide Inv, TaskOk, Limited, CounterStep, LedgerOf, Balanced, Attachable;
    InvParts(s);
    TaskAt(s, t);
    FreeTask(s.w, s.locks, t, s.tasks[t]);
    LimitedAt(s.w, x);
    StartAttachTask(s.w, s.locks, t, s.tasks[t], x);
    LockedStep(s, t, x, s'.tasks[t]);
    forall k: Kind ensures Balanced(GraphOf(s'.w, k), LedgerOf(s'.base, s'.tasks, k)) {
      LoadsSame(s.base, s.tasks, t, s'.tasks[t], k);
    }
    CounterStepKeeps(s, s', t);
  }

  lemma LockedStep(s: State, t: Tid, x: Id, a': Task)
    requires Sizes(s) && t < |s.tasks| && Unlocked(s, x)
    ensures CounterStep(s, s.(locks := s.locks[x := Some(t)], tasks := s.tasks[t := a']), t)
  {
  }

  lemma StartAttachTask(w: World, locks: seq<Option<Tid>>, t: Tid, a: Task, x: Id)
    requires |locks| == |w| && TaskOk(w, locks, t, a) && a.phase.Free? && Attachable(w, x) && Sane(w[x].rc)
    ensures TaskOk(w, locks[x := Some(t)], t, Task(Attaching, [x], w[x].rc, [], None, a.refs, a.drops))
  {
    hide Filable;
  }

  lemma JoinTask(w: World, locks: seq<Option<Tid>>, t: Tid, a: Task, e: Id, w': World, a': Task)
    requires |locks| == |w| && TaskOk(w, locks, t, a) && a.phase.Attaching? && SameNames(w, w')
    requires e in a.refs && e !in a.held && e !in w[a.chain[0]].edges && locks[e] == None
      && a' == a.(held := a.held + [e])
    requires w'[a.chain[0]] == w[a.chain[0]]
    ensures TaskOk(w', locks, t, a') && TakesOn(a, a', e)
  {
    hide Amount, Filable, HeldOk;
    assert a.chain[0] in a.chain;
    assert e < |w| && Filable(w[e].name);
    MoreHeld(w, w', a.held, a.chain, e, a.chain);
    assert forall x :: x in a'.held ==> x in a.held || x == e;
    SamePeerParent(w, w', a);
  }

  lemma SamePeerParent(w: World, w': World, a: Task)
    requires SameNames(w, w') && PhaseOk(w, a) && a.phase.Attaching?
    ensures forall e :: e in a.refs && e < |w'| && w'[e].name.PerPeer? ==>
      exists f :: f in w'[a.chain[0]].edges && f < |w'| && w'[f].name == Peer(w'[e].name.peer)
  {
    var x := a.chain[0];
    forall e | e in a.refs && e < |w'| && w'[e].name.PerPeer?
      ensures exists f :: f in w'[x].edges && f < |w'| && w'[f].name == Peer(w'[e].name.peer)
    {
      var f :| f in w[x].edges && f < |w| && w[f].name == Peer(w[e].name.peer);
      assert w'[f].name == w[f].name;
    }
  }

  lemma JoinRefusedTask(w: World, locks: seq<Option<Tid>>, t: Tid, a: Task)
    requires |locks| == |w| && TaskOk(w, locks, t, a) && a.phase.Attaching?
    ensures TaskOk(w, locks, t, a.(phase := Refused, refs := multiset{}, drops := a.drops + a.refs))
  {
    hide Filable;
    var a' := a.(phase := Refused, refs := multiset{}, drops := a.drops + a.refs);
    assert forall x :: x in a'.drops <==> x in a.drops || x in a.refs;
  }

  lemma JoinKeeps(s: State, t: Tid, e: Id, s': State)
    requires Inv(s) && t < |s.tasks| && Join(s, t, e, s')
    ensures Inv(s')
  {
    hide Inv, TaskOk, InBalance, Limited, Check, Fits, Amount, CounterStep, AddedOn, SameNames, Attachable;
    InvParts(s);
    TaskAt(s, t);
    var a, a' := s.tasks[t], s'.tasks[t];
    AttachingChain(s.w, s.locks, t, a);
    if Verdict(s.w[e], Bulk(a.d)).Some? {
      JoinRefusedTask(s.w, s.locks, t, a);
      NoChange(s, t, a');
      assert a'.refs + a'.drops == a.refs + a.drops;
      TaskStepKeeps(s, t, a', s');
    } else {
      AddedCounters(s.w, e, a'.d);
      AddedElsewhere(s.w, e, a'.d);
      JoinTask(s.w, s.locks, t, a, e, s'.w, a');
      CountedBalance(s, t, e, a', false, Bulk(a.d));
      CountedStep(s, t, e, a', false);
      CounterStepKeeps(s, s', t);
    }
  }

  lemma AddedElsewhere(w: World, e: Id, d: Stat)
    ensures forall i :: 0 <= i < |w| && i != e ==> AddedOn(w, [e], [], d)[i] == w[i]
  {
  }

  /** The old edges that are not among the new ones. */
  function Leaves(old_: seq<Id>, new_: seq<Id>): seq<Id> {
    if old_ == [] then []
    else (if old_[0] in new_ then [] else [old_[0]]) + Leaves(old_[1..], new_)
  }

  lemma {:induction false} LeavesAre(old_: seq<Id>, new_: seq<Id>)
    requires Distinct(old_)
    ensures Distinct(Leaves(old_, new_)) && forall i :: i in Leaves(old_, new_) <==> i in old_ && i !in new_
  {
    if old_ != [] {
      hide Distinct;
      DistinctTail(old_);
      LeavesAre(old_[1..], new_);
      if old_[0] !in new_ { DistinctCons(old_[0], Leaves(old_[1..], new_)); }
    }
  }

  /**
   * All new parents have granted: the edges are replaced. What was charged on the new parents is now the scope's own
   * charge; what it had on the parents it leaves is on its way to them, and so are the references.
   */
  predicate Commit(s: State, t: Tid, edges: seq<Id>, s': State)
    requires Sizes(s) && t < |s.tasks|
  {
    var a := s.tasks[t];
    && a.phase.Attaching? && |a.chain| == 1 && a.chain[0] < |s.w|
    && var x := a.chain[0];
    && Distinct(edges) && x !in edges
    && (forall e :: e in edges ==> e in a.held || e in s.w[x].edges)
    && (forall e :: e in a.held ==> e in edges)
    && ParentsAt(s.w[x := s.w[x].(edges := edges)], x)
    && s' == s.(w := s.w[x := s.w[x].(edges := edges)], tasks := s.tasks[t := Committed(a, s.w[x].edges, edges)])
  }

  function Committed(a: Task, old_: seq<Id>, new_: seq<Id>): Task {
    a.(phase := Releasing, held := Leaves(old_, new_), refs := multiset{},
       drops := a.drops + (a.refs - multiset(a.held)) + multiset(Leaves(old_, new_)))
  }

  function Swapped(led: Ledger, joins: seq<Id>, leaves: seq<Id>, d: int): Ledger {
    seq(|led|, i requires 0 <= i < |led| =>
      if i in leaves then led[i].(charged := led[i].charged + d, pins := led[i].pins + 1)
      else if i in joins then led[i].(charged := led[i].charged - d, pins := led[i].pins - 1)
      else led[i])
  }

  lemma RewireBalances(g: Graph, led: Ledger, x: Id, edges: seq<Id>, joins: seq<Id>, leaves: seq<Id>, d: int)
    requires Balanced(g, led) && x < |g| && !g[x].done && g[x].owner.None? && d == g[x].own
    requires Distinct(edges) && x !in edges
    requires forall i :: i in leaves <==> i in g[x].edges && i !in edges
    requires forall i :: i in joins <==> i in edges && i !in g[x].edges
    requires forall e :: e in joins ==> e < |g| && !g[e].done && g[e].owner.None? && led[e].pins >= 1
    ensures Balanced(g[x := g[x].(edges := edges)], Swapped(led, joins, leaves, d))
  {
    hide Balanced, Carry, Swapped;
    LeaveEdgesBalances(g, led, x);
    var g1, led1 := g[x := g[x].(edges := [])], Carry(led, g[x].edges, g[x].own, 1);
    CarryLength(led, g[x].edges, g[x].own);
    forall e | e in edges ensures e < |g1| && !g1[e].done && g1[e].owner.None? && led1[e].pins >= 1 {
      OldOrNewParent(g, led, x, e);
    }
    JoinEdgesBalances(g1, led1, x, edges);
    assert g1[x := g1[x].(edges := edges)] == g[x := g[x].(edges := edges)];
    SwappedIs(led, g[x].edges, edges, joins, leaves, d, g[x].own);
  }

  lemma CarryLength(led: Ledger, ids: seq<Id>, d: int)
    ensures |Carry(led, ids, d, 1)| == |led|
  {
  }

  lemma OldOrNewParent(g: Graph, led: Ledger, x: Id, e: Id)
    requires Balanced(g, led) && x < |g| && !g[x].done && e != x
    requires e in g[x].edges || (e < |g| && !g[e].done && g[e].owner.None? && led[e].pins >= 1)
    ensures e < |g| && !g[e].done && g[e].owner.None? && e < |Carry(led, g[x].edges, g[x].own, 1)|
    ensures Carry(led, g[x].edges, g[x].own, 1)[e].pins >= 1
  {
    assert ShapeAt(g, x);
    if e in g[x].edges { assert BooksBalance(g[e], Tally(g, e), led[e]); }
  }

  lemma SwappedIs(led: Ledger, old_: seq<Id>, new_: seq<Id>, joins: seq<Id>, leaves: seq<Id>, d: int, own: int)
    requires d == own
    requires forall i :: i in leaves <==> i in old_ && i !in new_
    requires forall i :: i in joins <==> i in new_ && i !in old_
    ensures Carry(Carry(led, old_, own, 1), new_, -own, -1) == Swapped(led, joins, leaves, d)
  {
  }

  lemma CommittedLedger(base: seq<int>, tasks: seq<Task>, t: Tid, old_: seq<Id>, new_: seq<Id>, k: Kind, d: int)
    requires t < |tasks| && d == At(tasks[t].d, k) && tasks[t].owed == None && Distinct(old_) && Distinct(tasks[t].held)
    requires forall e :: e in tasks[t].held ==> e in tasks[t].refs && e !in old_ && e in new_
    ensures LedgerOf(base, tasks[t := Committed(tasks[t], old_, new_)], k) ==
            Swapped(LedgerOf(base, tasks, k), tasks[t].held, Leaves(old_, new_), d)
  {
    hide LedgerOf, Load, Committed;
    var a := tasks[t];
    var led := LedgerOf(base, tasks, k);
    forall i | 0 <= i < |base|
      ensures Swapped(led, a.held, Leaves(old_, new_), d)[i] ==
              AddEntry(SubEntry(led[i], Load(a, i, k)), Load(Committed(a, old_, new_), i, k))
    {
      CommittedLoad(a, old_, new_, i, k, d);
    }
    LedgerIs(base, tasks, t, Committed(a, old_, new_), k, Swapped(led, a.held, Leaves(old_, new_), d));
  }

  lemma CommittedLoad(a: Task, old_: seq<Id>, new_: seq<Id>, i: Id, k: Kind, d: int)
    requires d == At(a.d, k) && a.owed == None && Distinct(old_) && Distinct(a.held)
    requires forall e :: e in a.held ==> e in a.refs && e !in old_ && e in new_
    ensures var old', new' := Load(a, i, k), Load(Committed(a, old_, new_), i, k);
            var leaves := i in Leaves(old_, new_);
            && new'.charged == old'.charged + (if leaves then d else if i in a.held then -d else 0)
            && new'.owed == old'.owed
            && new'.pins == old'.pins + (if leaves then 1 else if i in a.held then -1 else 0)
  {
    hide At;
    LeavesAre(old_, new_);
    DistinctCount(a.held, i);
    DistinctCount(Leaves(old_, new_), i);
  }

  /** While a scope is being attached it counts exactly its own charge. */
  lemma AttachedOwn(s: State, t: Tid, k: Kind)
    requires Inv(s) && t < |s.tasks| && s.tasks[t].phase.Attaching?
    ensures |s.tasks[t].chain| == 1 && s.tasks[t].chain[0] < |s.w|
    ensures var x := s.tasks[t].chain[0];
            GraphOf(s.w, k)[x].own == At(s.tasks[t].d, k) && NoChildren(s.w, x)
  {
    hide Limited, Balanced, TasksOk, NamesOk, CollectorOk;
    TaskAt(s, t);
    AttachingChain(s.w, s.locks, t, s.tasks[t]);
    var x := s.tasks[t].chain[0];
    InvShaped(s);
    NamesParents(s.w, s.peers);
    Childless(s.w, x);
    UnchargedByOthers(s, t, x, k);
    NoChildRefs(s.w, x, k);
    OwnIsUse(GraphOf(s.w, k), LedgerOf(s.base, s.tasks, k), x);
  }

  lemma OwnIsUse(g: Graph, led: Ledger, x: Id)
    requires Balanced(g, led) && x < |g| && !g[x].done && led[x].charged == 0 && Tally(g, x).edgeRefs == 0
    ensures g[x].use == g[x].own
  {
    assert BooksBalance(g[x], Tally(g, x), led[x]);
    BalancedTotals(g, led, x);
  }

  lemma UnchargedByOthers(s: State, t: Tid, x: Id, k: Kind)
    requires Inv(s) && t < |s.tasks| && s.tasks[t].phase.Attaching? && s.tasks[t].chain == [x] && x < |s.w|
    ensures LedgerOf(s.base, s.tasks, k)[x].charged == 0
  {
    hide Limited, InBalance, NamesOk, CollectorOk;
    forall u | 0 <= u < |s.tasks| ensures x !in s.tasks[u].held {
      assert TaskOk(s.w, s.locks, t, s.tasks[t]) && TaskOk(s.w, s.locks, u, s.tasks[u]);
      assert x in s.tasks[t].chain;
      UnheldByName(s.w, s.locks, t, s.tasks[t], u, s.tasks[u], x);
    }
    LoadsUncharged(s.tasks, |s.tasks|, x, k);
  }

  lemma UnheldByName(w: World, locks: seq<Option<Tid>>, t: Tid, a: Task, u: Tid, b: Task, x: Id)
    requires |locks| == |w| && TaskOk(w, locks, t, a) && TaskOk(w, locks, u, b) && (u == t ==> b == a)
    requires a.phase.Attaching? && a.chain == [x] && x < |w|
    ensures x !in b.held
  {
    assert x in a.chain;
  }

  lemma CommitBalance(s: State, t: Tid, edges: seq<Id>, s': State, k: Kind)
    requires Inv(s) && t < |s.tasks| && Commit(s, t, edges, s')
    ensures Balanced(GraphOf(s'.w, k), LedgerOf(s'.base, s'.tasks, k))
  {
    hide Inv, Limited, Balanced, LedgerOf, NamesOk, CollectorOk, GraphOf, ParentsAt, NoChildren;
    InvParts(s);
    InvShaped(s);
    var a := s.tasks[t];
    var x := a.chain[0];
    var g, led, old_ := GraphOf(s.w, k), LedgerOf(s.base, s.tasks, k), s.w[x].edges;
    AttachedOwn(s, t, k);
    AttachingFacts(s, t);
    GraphAt(s.w, x, k);
    OwnerDecided(s.w, x);
    LeavesAre(old_, edges);
    forall e | e in a.held ensures e < |g| && !g[e].done && g[e].owner.None? && led[e].pins >= 1 {
      GraphAt(s.w, e, k);
      PinsOfRefs(s, t, e, k);
    }
    RewireBalances(g, led, x, edges, a.held, Leaves(old_, edges), At(a.d, k));
    RewiredGraphOf(s.w, x, edges, k);
    CommittedLedger(s.base, s.tasks, t, old_, edges, k, At(a.d, k));
  }

  lemma RewiredGraphOf(w: World, x: Id, edges: seq<Id>, k: Kind)
    requires x < |w|
    ensures GraphOf(w[x := w[x].(edges := edges)], k) == GraphOf(w, k)[x := GraphOf(w, k)[x].(edges := edges)]
  {
  }

  lemma AttachingFacts(s: State, t: Tid)
    requires Inv(s) && t < |s.tasks| && s.tasks[t].phase.Attaching?
    ensures var a := s.tasks[t];
            && |a.chain| == 1 && a.chain[0] < |s.w| && Attachable(s.w, a.chain[0]) && a.owed == None && Distinct(a.held)
            && s.locks[a.chain[0]] == Some(t)
            && forall e :: e in a.held ==>
                 && e in a.refs && e !in s.w[a.chain[0]].edges && e < |s.w| && !s.w[e].done && s.w[e].owner.None?
  {
    assert TaskOk(s.w, s.locks, t, s.tasks[t]);
    assert s.tasks[t].chain[0] in s.tasks[t].chain;
  }

  lemma CommittedTask(w: World, locks: seq<Option<Tid>>, t: Tid, a: Task, edges: seq<Id>)
    requires |locks| == |w| && TaskOk(w, locks, t, a) && a.phase.Attaching? && Shaped(w) && Parents(w)
    ensures a.chain[0] < |w|
    ensures TaskOk(w[a.chain[0] := w[a.chain[0]].(edges := edges)], locks, t, Committed(a, w[a.chain[0]].edges, edges))
  {
    hide Amount, Parents, Shaped, Filable, Committed, RefsOk, HeldOk, Distinct;
    var x := a.chain[0];
    assert x in a.chain;
    assert a.chain == [x];
    CommittedFields(a, w[x].edges, edges);
    CommittedHeld(w, x, edges);
    CommittedRefs(w, a, x, edges);
  }

  lemma CommittedFields(a: Task, old_: seq<Id>, new_: seq<Id>)
    ensures var a' := Committed(a, old_, new_);
            && a'.phase == Releasing && a'.chain == a.chain && a'.d == a.d && a'.owed == a.owed
            && a'.held == Leaves(old_, new_) && forall e :: e in a'.held ==> e in a'.drops
  {
    var a' := Committed(a, old_, new_);
    forall e | e in a'.held ensures e in a'.drops { assert e in multiset(a'.held); }
  }

  lemma CommittedHeld(w: World, x: Id, edges: seq<Id>)
    requires Shaped(w) && Parents(w) && Attachable(w, x)
    ensures HeldOk(w[x := w[x].(edges := edges)], Leaves(w[x].edges, edges), [x])
  {
    hide Filable, Parents, Shaped;
    RootFacts(w, x);
    LeavesAre(w[x].edges, edges);
  }

  lemma CommittedRefs(w: World, a: Task, x: Id, edges: seq<Id>)
    requires RefsOk(w, a) && Shaped(w) && Parents(w) && x < |w|
    ensures RefsOk(w[x := w[x].(edges := edges)], Committed(a, w[x].edges, edges))
  {
    hide Filable, Parents, Shaped, Leaves;
    RootFacts(w, x);
    LeavesAre(w[x].edges, edges);
    var a' := Committed(a, w[x].edges, edges);
    forall e | e in a'.drops ensures e < |w| {
      FromParts(a.drops, a.refs, multiset(a.held), Leaves(w[x].edges, edges), e);
    }
  }

  lemma FromParts(a: multiset<Id>, b: multiset<Id>, c: multiset<Id>, d: seq<Id>, e: Id)
    requires e in a + (b - c) + multiset(d)
    ensures e in a || e in b || e in d
  {
  }

  lemma RewiredNames(w: World, x: Id, edges: seq<Id>, peers: map<string, Id>)
    requires NamesOk(w, peers) && Attachable(w, x) && ParentsAt(w[x := w[x].(edges := edges)], x)
    ensures NamesOk(w[x := w[x].(edges := edges)], peers)
  {
    var w' := w[x := w[x].(edges := edges)];
    forall i | 0 <= i < |w'| ensures ParentsAt(w', i) { assert ParentsAt(w, i); }
  }

  lemma CommitRest(s: State, t: Tid, x: Id, edges: seq<Id>, a': Task)
    requires Inv(s) && t < |s.tasks| && x < |s.w| && s.locks[x] == Some(t)
    ensures var s' := s.(w := s.w[x := s.w[x].(edges := edges)], tasks := s.tasks[t := a']);
            Sizes(s') && Respects(s, s', t) && CollectorOk(s') && Limited(s'.w)
  {
    hide PhaseOk, NamesOk, InBalance;
    var s' := s.(w := s.w[x := s.w[x].(edges := edges)], tasks := s.tasks[t := a']);
    forall u, e | 0 <= u < |s.tasks| && u != t && e in s.tasks[u].refs && e < |s.w| ensures !s'.w[e].done {
      assert TaskOk(s.w, s.locks, u, s.tasks[u]);
    }
  }

  lemma CommitKeeps(s: State, t: Tid, edges: seq<Id>, s': State)
    requires Inv(s) && t < |s.tasks| && Commit(s, t, edges, s')
    ensures Inv(s')
  {
    hide Inv, TaskOk, Limited, Balanced, LedgerOf, NamesOk, CollectorOk, GraphOf, ParentsAt, Respects, Committed,
      Attachable;
    InvParts(s);
    InvShaped(s);
    TaskAt(s, t);
    NamesParents(s.w, s.peers);
    AttachingFacts(s, t);
    var x := s.tasks[t].chain[0];
    CommittedTask(s.w, s.locks, t, s.tasks[t], edges);
    RewiredNames(s.w, x, edges, s.peers);
    CommitRest(s, t, x, edges, s'.tasks[t]);
    forall k: Kind ensures Balanced(GraphOf(s'.w, k), LedgerOf(s'.base, s'.tasks, k)) {
      CommitBalance(s, t, edges, s', k);
    }
    StepKeeps(s, s', t);
  }

  // ---------------------------------------------------------------- runs

  datatype Event =
    | ReserveStarts(x: Id, req: Request) | ReserveClimbs(o: Id) | ReserveCharges | RootSettles | SpanSettles
    | ReleaseStarts(x: Id, d: Stat) | ReleaseClimbs(o: Id) | ReleaseArrives(e: Id) | GivesBack(e: Id) | Unlocks
    | Closes(x: Id) | Spans(o: Id) | Opens(name: Name, limit: Limit, edges: seq<Id>)
    | TakesRef(e: Id) | Shares(name: Name, limit: Limit) | PutsDown(e: Id) | Drops(e: Id)
    | AttachStarts(x: Id) | JoinsParent(e: Id) | Commits(edges: seq<Id>)
    | GcStarts | GcChooses(x: Id) | GcCloses | GcClosesPart(x: Id) | GcEnds

  /** Thread `t` takes one step. */
  ghost predicate Next(s: State, t: Tid, ev: Event, s': State)
    requires Sizes(s)
  {
    t < |s.tasks| &&
    match ev
    case ReserveStarts(x, req) => StartReserve(s, t, x, req, s')
    case ReserveClimbs(o) => ReserveOwner(s, t, o, s')
    case ReserveCharges => ReserveEdge(s, t, s')
    case RootSettles => SettleRoot(s, t, s')
    case SpanSettles => SettleSpan(s, t, s')
    case ReleaseStarts(x, d) => StartRelease(s, t, x, d, s')
    case ReleaseClimbs(o) => ReleaseOwner(s, t, o, s')
    case ReleaseArrives(e) => ReleaseEdge(s, t, e, s')
    case GivesBack(e) => GiveBack(s, t, e, s')
    case Unlocks => UnlockLast(s, t, s')
    case Closes(x) => StartDone(s, t, x, s')
    case Spans(o) => BeginSpan(s, t, o, s')
    case Opens(name, limit, edges) => OpenScope(s, t, name, limit, edges, s')
    case TakesRef(e) => Take(s, t, e, s')
    case Shares(name, limit) => NewShared(s, t, name, limit, s')
    case PutsDown(e) => PutDown(s, t, e, s')
    case Drops(e) => Drop(s, t, e, s')
    case AttachStarts(x) => StartAttach(s, t, x, s')
    case JoinsParent(e) => Join(s, t, e, s')
    case Commits(edges) => Commit(s, t, edges, s')
    case GcStarts => StartGc(s, t, s')
    case GcChooses(x) => Choose(s, t, x, s')
    case GcCloses => CloseChosen(s, t, s')
    case GcClosesPart(x) => ClosePart(s, t, x, s')
    case GcEnds => EndGc(s, t, s')
  }

  /** Every step of every thread keeps the invariant. */
  lemma NextKeeps(s: State, t: Tid, ev: Event, s': State)
    requires Inv(s) && Next(s, t, ev, s')
    ensures Inv(s')
  {
    hide Inv, StartReserve, ReserveOwner, ReserveEdge, SettleRoot, SettleSpan, StartRelease, ReleaseOwner,
      ReleaseEdge, GiveBack;
    match ev
    case ReserveStarts(x, req) => StartReserveKeeps(s, t, x, req, s');
    case ReserveClimbs(o) => ReserveOwnerKeeps(s, t, o, s');
    case ReserveCharges => ReserveEdgeKeeps(s, t, s');
    case RootSettles => SettleRootKeeps(s, t, s');
    case SpanSettles => SettleSpanKeeps(s, t, s');
    case ReleaseStarts(x, d) => StartReleaseKeeps(s, t, x, d, s');
    case ReleaseClimbs(o) => ReleaseOwnerKeeps(s, t, o, s');
    case ReleaseArrives(e) => GiveBackKeeps(s, t, e, s');
    case GivesBack(e) => GiveBackKeeps(s, t, e, s');
    case Unlocks => UnlockKeeps(s, t, s');
    case Closes(x) => StartDoneKeeps(s, t, x, s');
    case Spans(o) => BeginSpanKeeps(s, t, o, s');
    case Opens(name, limit, edges) => OpenScopeKeeps(s, t, name, limit, edges, s');
    case TakesRef(e) => TakeKeeps(s, t, e, s');
    case Shares(name, limit) => NewSharedKeeps(s, t, name, limit, s');
    case PutsDown(e) => PutDownKeeps(s, t, e, s');
    case Drops(e) => DropKeeps(s, t, e, s');
    case AttachStarts(x) => StartAttachKeeps(s, t, x, s');
    case JoinsParent(e) => JoinKeeps(s, t, e, s');
    case Commits(edges) => CommitKeeps(s, t, edges, s');
    case GcStarts => StartGcKeeps(s, t, s');
    case GcChooses(x) => ChooseKeeps(s, t, x, s');
    case GcCloses => CloseChosenKeeps(s, t, s');
    case GcClosesPart(x) => ClosePartKeeps(s, t, x, s');
    case GcEnds => StartGcKeeps(s, t, s');
  }

  const IDLE := Task(Free, [], ZERO, [], None, multiset{}, multiset{})

  /** A new manager with any number of threads that have not done anything yet. */
  ghost predicate Initial(s: State) {
    && (exists system: Limit, transient: Limit, allowedSystem: Limit, allowedTransient: Limit ::
          && system.Valid() && transient.Valid() && allowedSystem.Valid() && allowedTransient.Valid()
          && s.w == Start(system, transient, allowedSystem, allowedTransient))
    && s.base == Pins(4) && s.locks == [None, None, None, None]
    && (forall u :: 0 <= u < |s.tasks| ==> s.tasks[u] == IDLE)
    && s.peers == map[] && s.gc == None && s.chosen == None && s.dead == {}
  }

  lemma InitialInv(s: State)
    requires Initial(s)
    ensures Inv(s)
  {
    hide Start, Sound, Good, Balanced, GraphOf, LedgerOf, Limited;
    var system: Limit, transient: Limit, allowedSystem: Limit, allowedTransient: Limit :|
      && system.Valid() && transient.Valid() && allowedSystem.Valid() && allowedTransient.Valid()
      && s.w == Start(system, transient, allowedSystem, allowedTransient);
    StartIsGood(system, transient, allowedSystem, allowedTransient);
    StartLength(system, transient, allowedSystem, allowedTransient);
    InitialParts(s);
  }

  lemma StartLength(system: Limit, transient: Limit, allowedSystem: Limit, allowedTransient: Limit)
    ensures |Start(system, transient, allowedSystem, allowedTransient)| == 4
  {
    hide Opened;
    var w1 := Opened([], System, system, []);
    var w2 := Opened(w1, Transient, transient, [SYSTEM]);
    var w3 := Opened(w2, AllowedSystem, allowedSystem, []);
    OpenedScopes([], System, system, []);
    OpenedScopes(w1, Transient, transient, [SYSTEM]);
    OpenedScopes(w2, AllowedSystem, allowedSystem, []);
    OpenedScopes(w3, AllowedTransient, allowedTransient, [ALLOWED_SYSTEM]);
  }

  lemma InitialParts(s: State)
    requires |s.w| == 4 && Good(s.w, Registry(map[], map[]))
    requires s.base == Pins(4) && s.locks == [None, None, None, None] && s.peers == map[]
    requires forall u :: 0 <= u < |s.tasks| ==> s.tasks[u] == IDLE
    requires s.gc == None && s.chosen == None && s.dead == {}
    ensures Inv(s)
  {
    hide Balanced, GraphOf, LedgerOf, Parents, Filed, PeersFiled;
    GoodParts(s.w, Registry(map[], map[]));
    forall k: Kind ensures Balanced(GraphOf(s.w, k), LedgerOf(s.base, s.tasks, k)) {
      IdleLedger(s.base, s.tasks, k);
      SoundBalance(s.w, s.base, k);
    }
    InitialNames(s.w);
  }

  lemma SoundBalance(w: World, pins: seq<int>, k: Kind)
    requires Sound(w, pins)
    ensures Balanced(GraphOf(w, k), Idle(pins))
  {
  }

  lemma InitialNames(w: World)
    requires |w| == 4 && Tidy(w, Registry(map[], map[]))
    ensures NamesOk(w, map[])
  {
    forall i | 0 <= i < |w|
      ensures (w[i].name.Span? <==> w[i].owner.Some?) && (w[i].name.PerPeer? ==> w[i].edges == []) && !w[i].name.Peer?
    {
      assert i == SYSTEM || i == TRANSIENT || i == ALLOWED_SYSTEM || i == ALLOWED_TRANSIENT;
    }
  }

  /** Threads that have nothing under way leave only the manager's references on the ledger. */
  lemma IdleLedger(base: seq<int>, tasks: seq<Task>, k: Kind)
    requires forall u :: 0 <= u < |tasks| ==> Quiet(tasks[u])
    ensures LedgerOf(base, tasks, k) == Idle(base)
  {
    forall i | 0 <= i < |base| ensures LedgerOf(base, tasks, k)[i] == Idle(base)[i] {
      forall u | 0 <= u < |tasks| ensures Load(tasks[u], i, k) == NOTHING {}
      LoadsOfStranger(tasks, |tasks|, i, k);
    }
  }

  /** Nothing under way, and no references held. */
  predicate Quiet(a: Task) { a.held == [] && a.owed == None && a.refs == multiset{} && a.drops == multiset{} }

  /** A run: an initial state, and one step of one thread after the other. */
  ghost predicate Run(states: seq<State>, tids: seq<Tid>, events: seq<Event>) {
    && |states| == |tids| + 1 == |events| + 1 && Initial(states[0])
    && forall i :: 0 <= i < |tids| ==> Sizes(states[i]) && Next(states[i], tids[i], events[i], states[i + 1])
  }

  /** The invariant holds in every state of every run, however the threads take turns. */
  lemma {:induction false} RunKeeps(states: seq<State>, tids: seq<Tid>, events: seq<Event>, n: nat)
    requires Run(states, tids, events) && n < |states|
    ensures Inv(states[n])
  {
    hide Inv, Initial, Next, Sizes;
    if n == 0 {
      InitialInv(states[0]);
    } else {
      RunKeeps(states, tids, events, n - 1);
      NextKeeps(states[n - 1], tids[n - 1], events[n - 1], states[n]);
    }
  }

  /** In every reachable state, open scopes are within their limits and have open parents. */
  lemma RunIsSafe(states: seq<State>, tids: seq<Tid>, events: seq<Event>, n: nat, i: Id)
    requires Run(states, tids, events) && n < |states| && i < |states[n].w| && !states[n].w[i].done
    ensures Within(states[n].w[i].limit, states[n].w[i].rc)
    ensures forall e :: e in states[n].w[i].edges ==> e < |states[n].w| && !states[n].w[e].done
  {
    hide Run, TasksOk, NamesOk, CollectorOk, Within;
    RunKeeps(states, tids, events, n);
    var s := states[n];
    var g := Links(s.w);
    assert Balanced(g, LedgerOf(s.base, s.tasks, MemoryKind));
    assert ShapeAt(g, i) && !g[i].done && g[i].edges == s.w[i].edges;
  }

  /** When nothing is under way in a reachable state, the books balance exactly. */
  lemma QuietRunIsSound(states: seq<State>, tids: seq<Tid>, events: seq<Event>, n: nat)
    requires Run(states, tids, events) && n < |states|
    requires forall u :: 0 <= u < |states[n].tasks| ==> Quiet(states[n].tasks[u])
    ensures Sound(states[n].w, states[n].base)
  {
    hide Run, TasksOk, NamesOk, CollectorOk, LedgerOf, GraphOf, Balanced, Limited;
    RunKeeps(states, tids, events, n);
    var s := states[n];
    forall k: Kind ensures Balanced(GraphOf(s.w, k), Idle(s.base)) { IdleLedger(s.base, s.tasks, k); }
  }

  /** The release takes this amount from this scope: where it starts, or at an owner or an edge it comes to. */
  predicate TakesFrom(ev: Event, e: Id, a: Task, d: Stat) {
    ev == ReleaseStarts(e, d) || ((ev == ReleaseArrives(e) || ev == GivesBack(e) || ev == ReleaseClimbs(e)) && d == a.d)
  }

  /** In no reachable state does a release find less on an open scope than it takes away. */
  lemma RunNeverClamps(states: seq<State>, tids: seq<Tid>, events: seq<Event>, n: nat, e: Id, d: Stat)
    requires Run(states, tids, events) && n < |tids| && e < |states[n].w| && !states[n].w[e].done
    requires tids[n] < |states[n].tasks| ==> TakesFrom(events[n], e, states[n].tasks[tids[n]], d)
    ensures tids[n] < |states[n].tasks|
    ensures Leq(d, states[n].w[e].rc) && Remove(states[n].w[e].rc, d) == Minus(states[n].w[e].rc, d)
  {
    hide Run, Inv, Next, Sizes, TakesFrom, Remove, Minus, Leq;
    RunStep(states, tids, events, n);
    RunSizes(states, tids, events, n);
    NextNeverClamps(states[n], tids[n], events[n], states[n + 1], e, d);
  }

  lemma NextNeverClamps(s: State, t: Tid, ev: Event, s': State, e: Id, d: Stat)
    requires Inv(s) && Sizes(s) && Next(s, t, ev, s') && e < |s.w| && !s.w[e].done
    requires t < |s.tasks| ==> TakesFrom(ev, e, s.tasks[t], d)
    ensures t < |s.tasks|
    ensures Leq(d, s.w[e].rc) && Remove(s.w[e].rc, d) == Minus(s.w[e].rc, d)
  {
    hide Inv, Remove, Minus, Leq, Uncounted, Disowned, Unlocked, UserHolds;
    if ev.ReleaseStarts? {
      UserHoldsOwn(s, e, d);
      UserHoldsAmount(s, e, d);
      CoveredByOwn(s, e, d);
    } else if ev == ReleaseClimbs(e) {
      OwedIsOwn(s, t, e);
      TaskAt(s, t);
      CoveredByOwn(s, e, s.tasks[t].d);
    } else {
      HeldIsCounted(s, t, e);
    }
  }

  lemma UserHoldsAmount(s: State, x: Id, d: Stat)
    requires Sizes(s) && x < |s.w| && UserHolds(s, x, d)
    ensures Amount(d)
  {
    UserHoldsAt(s, x, d, MemoryKind);
  }

  lemma RunStep(states: seq<State>, tids: seq<Tid>, events: seq<Event>, n: nat)
    requires Run(states, tids, events) && n < |tids|
    ensures Inv(states[n]) && Next(states[n], tids[n], events[n], states[n + 1])
  {
    hide Inv, Next;
    RunKeeps(states, tids, events, n);
  }

  /** In no run does the collector close a scope that is a parent of an open one, looked at or not. */
  lemma RunCollectsSafely(states: seq<State>, tids: seq<Tid>, events: seq<Event>, n: nat, i: Id)
    requires Run(states, tids, events) && n < |tids| && i < |states[n].w| && !states[n].w[i].done
    requires events[n] == GcCloses || events[n].GcClosesPart?
    ensures forall e :: e in states[n].w[i].edges ==> e < |states[n + 1].w| && !states[n + 1].w[e].done
    ensures i < |states[n + 1].w| && (states[n + 1].w[i].done ==> NoChildren(states[n].w, i))
  {
    hide Run, Inv, Initial, NoChildren, Next, Sizes;
    RunStep(states, tids, events, n);
    RunSizes(states, tids, events, n);
    var s, s' := states[n], states[n + 1];
    CollectEffect(s, tids[n], events[n], s');
    SafeAfter(s, s', if events[n] == GcCloses then s.chosen.value else events[n].x, i);
  }

  lemma RunSizes(states: seq<State>, tids: seq<Tid>, events: seq<Event>, n: nat)
    requires Run(states, tids, events) && n < |tids|
    ensures |states| == |tids| + 1 == |events| + 1 && Sizes(states[n])
  {
    hide Next, Sizes, Initial;
  }

  lemma CollectEffect(s: State, t: Tid, ev: Event, s': State)
    requires Inv(s) && Sizes(s) && Next(s, t, ev, s') && (ev == GcCloses || ev.GcClosesPart?)
    ensures ev == GcCloses ==> s.chosen.Some?
    ensures var x := if ev == GcCloses then s.chosen.value else ev.x;
            && x < |s.w| && NoChildren(s.w, x)
            && (s'.w == s.w || s'.w == s.w[x := Ended(s.w[x])])
  {
    hide Inv, NoChildren, Closing, Ended;
    if ev == GcCloses {
      CloseChosenKeeps(s, t, s');
    } else {
      ClosePartKeeps(s, t, ev.x, s');
    }
  }

  lemma SafeAfter(s: State, s': State, x: Id, i: Id)
    requires Inv(s) && x < |s.w| && NoChildren(s.w, x) && i < |s.w| && !s.w[i].done
    requires s'.w == s.w || s'.w == s.w[x := Ended(s.w[x])]
    ensures forall e :: e in s.w[i].edges ==> e < |s'.w| && !s'.w[e].done
    ensures i < |s'.w| && (s'.w[i].done ==> NoChildren(s.w, i))
  {
    hide TasksOk, NamesOk, CollectorOk, Limited;
    var g := Links(s.w);
    assert Balanced(g, LedgerOf(s.base, s.tasks, MemoryKind));
    assert ShapeAt(g, i) && !g[i].done && g[i].edges == s.w[i].edges;
    forall e | e in s.w[i].edges ensures e < |s'.w| && !s'.w[e].done { assert !g[e].done; }
  }
}
