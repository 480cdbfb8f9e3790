/**
 * Every reservation is all or nothing, however the threads take turns: what the steps of one reservation add to the
 * counters and own charges of all scopes is, when it has ended, the amount on its whole path, or nothing.
 */
module Effects {
  import opened Common
  import opened Resources
  import opened Ledgers
  import opened Accounts
  import opened Registry
  import opened Interleaving

  // ---------------------------------------------------------------- what the other threads leave alone

  /** Another thread's step changes neither what this one has under way nor the scopes it has locked. */
  lemma OthersRespect(s: State, u: Tid, ev: Event, s': State, t: Tid)
    requires Inv(s) && Next(s, u, ev, s') && t != u && t < |s.tasks|
    ensures |s'.tasks| == |s.tasks| && s'.tasks[t] == s.tasks[t]
  {
    hide Inv, Verdict, CanTake, Unlocked, MayUse, UserHolds, AddedOn, RemovedOn, Limited, AttachesFor, Committed;
    hide Opened, SpanOpened, Disowned, Owned, Attachable, ParentsAt;
  }

  lemma OthersSpareLocked(s: State, u: Tid, ev: Event, s': State, t: Tid, l: Id)
    requires Inv(s) && Next(s, u, ev, s') && t != u && l < |s.w| && s.locks[l] == Some(t)
    ensures |s.w| <= |s'.w| && s'.w[l] == s.w[l]
  {
    hide Inv, Next;
    if Charging(ev) {
      ChargingSparesLocked(s, u, ev, s', t, l);
    } else {
      RestSparesLocked(s, u, ev, s', t, l);
    }
  }

  /** The steps of reservations and releases. */
  predicate Charging(ev: Event) {
    ev.ReserveStarts? || ev.ReserveClimbs? || ev.ReserveCharges? || ev.RootSettles? || ev.SpanSettles?
    || ev.ReleaseStarts? || ev.ReleaseClimbs? || ev.ReleaseArrives? || ev.GivesBack? || ev.Unlocks?
  }

  lemma ChargingSparesLocked(s: State, u: Tid, ev: Event, s': State, t: Tid, l: Id)
    requires Inv(s) && Next(s, u, ev, s') && t != u && l < |s.w| && s.locks[l] == Some(t) && Charging(ev)
    ensures |s.w| <= |s'.w| && s'.w[l] == s.w[l]
  {
    hide Inv, Verdict, CanTake, MayUse, UserHolds, AddedOn, RemovedOn, Disowned, Owned;
    hide StartDone, BeginSpan, OpenScope, Take, NewShared, PutDown, Drop, StartAttach, Join, Commit, CloseChosen;
    hide ClosePart, Choose, StartGc, EndGc;
    ChainIsMine(s, u);
    CountersElsewhere(s.w, l);
  }

  lemma RestSparesLocked(s: State, u: Tid, ev: Event, s': State, t: Tid, l: Id)
    requires Inv(s) && Next(s, u, ev, s') && t != u && l < |s.w| && s.locks[l] == Some(t) && !Charging(ev)
    ensures |s.w| <= |s'.w| && s'.w[l] == s.w[l]
  {
    hide Inv, Verdict, CanTake, MayUse, AttachesFor, Committed, Closing, Unused, Attachable, ParentsAt, Opened;
    hide SpanOpened, AddedOn, Referenced, StartReserve, ReserveOwner, ReserveEdge, SettleRoot, SettleSpan;
    hide StartRelease, ReleaseOwner, ReleaseEdge, GiveBack, UnlockLast;
    ChainIsMine(s, u);
    CountersElsewhere(s.w, l);
    if ev.Shares? {
      OpenedElsewhere(s.w, ev.name, ev.limit, l);
    } else if ev.Spans? {
      SpanElsewhere(s.w, ev.o, l);
    }
  }

  /** A change to the counters or references of one scope leaves the others alone. */
  lemma CountersElsewhere(w: World, l: Id)
    requires l < |w|
    ensures forall e: Id, d | e != l :: AddedOn(w, [e], [], d)[l] == w[l] && RemovedOn(w, [e], [], d)[l] == w[l]
    ensures forall e: Id, n | e != l :: Referenced(w, [e], n)[l] == w[l]
    ensures forall e: Id, d | e != l && e < |w| :: Disowned(w, e, d)[l] == w[l] && |Disowned(w, e, d)| == |w|
    ensures forall e: Id, d | e != l && e < |w| :: Owned(w, e, d)[l] == w[l] && |Owned(w, e, d)| == |w|
  {
    hide Add, Remove, Plus, Minus;
  }

  /** What a thread has locked, it has locked alone. */
  lemma ChainIsMine(s: State, u: Tid)
    requires Inv(s) && u < |s.tasks|
    ensures var chain := s.tasks[u].chain;
      && (forall l :: l in chain ==> l < |s.w| && s.locks[l] == Some(u))
      && (chain != [] ==> chain[0] in chain && Last(chain) in chain)
      && (s.tasks[u].phase.Granted? ==> forall e :: e in s.tasks[u].held ==> e in chain)
  {
    assert TaskOk(s.w, s.locks, u, s.tasks[u]);
    if s.tasks[u].phase.Granted? {
      GrantedHeld(s.w, s.tasks[u]);
    }
  }

  lemma OpenedElsewhere(w: World, name: Name, limit: Limit, l: Id)
    requires l < |w| && l != SYSTEM
    ensures |w| <= |OpenedShared(w, name, limit)| && OpenedShared(w, name, limit)[l] == w[l]
  {
  }

  lemma SpanElsewhere(w: World, o: Id, l: Id)
    requires l < |w| && o < |w| && l != o
    ensures |w| <= |SpanOpened(w, o)| && SpanOpened(w, o)[l] == w[l]
  {
  }

  // ---------------------------------------------------------------- what one step adds

  /** What a scope counts, and what is its own; nothing before it exists. */
  function UseAt(w: World, i: Id, k: Kind): int {
    if i < |w| then At(w[i].rc, k) else 0
  }

  function OwnAt(w: World, i: Id, k: Kind): int {
    if i < |w| then At(w[i].own, k) else 0
  }

  /** So much more, or nothing. */
  function Share(some: bool, d: Stat, k: Kind): int {
    if some then At(d, k) else 0
  }

  lemma ChargeAdds(s: State, e: Id, req: Request, i: Id, k: Kind)
    requires Inv(s) && CanTake(s, e, req) && Amount(Delta(req))
    ensures var w' := AddedOn(s.w, [e], [], Delta(req));
      UseAt(w', i, k) == UseAt(s.w, i, k) + Share(i == e, Delta(req), k) && OwnAt(w', i, k) == OwnAt(s.w, i, k)
  {
    hide Inv, CanTake, Add, Delta, Amount;
    ChargeIsExact(s, e, req);
  }

  lemma ChargeIsExact(s: State, e: Id, req: Request)
    requires Inv(s) && CanTake(s, e, req) && Amount(Delta(req))
    ensures e < |s.w| && Add(s.w[e].rc, Delta(req)) == Plus(s.w[e].rc, Delta(req))
  {
    InvParts(s);
    hide Inv, Check, Add, Delta, Plus, Amount;
    LimitedAt(s.w, e);
    GrantKeepsLimits(s.w[e].limit, s.w[e].rc, req);
  }

  lemma ReturnTakes(s: State, t: Tid, e: Id, i: Id, k: Kind)
    requires Inv(s) && t < |s.tasks| && e in s.tasks[t].held && e < |s.w| && !s.w[e].done
    ensures var d := s.tasks[t].d; var w' := RemovedOn(s.w, [e], [], d);
      UseAt(w', i, k) == UseAt(s.w, i, k) - Share(i == e, d, k) && OwnAt(w', i, k) == OwnAt(s.w, i, k)
  {
    hide Inv, Remove;
    HeldIsCounted(s, t, e);
  }

  lemma SettlingOwns(w: World, x: Id, d: Stat, i: Id, k: Kind)
    requires x < |w|
    ensures var w' := Owned(w, x, d);
      UseAt(w', i, k) == UseAt(w, i, k) && OwnAt(w', i, k) == OwnAt(w, i, k) + Share(i == x, d, k)
  {
  }

  // ---------------------------------------------------------------- a reservation under way

  /** The owner chain that was charged, and the edges of the last owner. */
  datatype Taken = Taken(chain: seq<Id>, edges: seq<Id>)

  function TakenBy(s: State, t: Tid): Taken
    requires t < |s.tasks|
  {
    var chain := s.tasks[t].chain;
    Taken(chain, if chain != [] && Last(chain) < |s.w| then s.w[Last(chain)].edges else [])
  }

  /**
   * How far the thread's reservation of `d` on `x` is with the scope `i`: what its steps have added to the counter and
   * to the own charge, and, once everything has been granted, what was charged.
   */
  ghost predicate Midst(s: State, t: Tid, x: Id, d: Stat, i: Id, k: Kind, use: int, own: int, taken: Option<Taken>)
    requires t < |s.tasks|
  {
    var a := s.tasks[t];
    match a.phase
    case Reserving(req) =>
      && a.d == d && taken == None && a.chain != [] && a.chain[0] == x && use == Share(i in a.held, d, k) && own == 0
    case Refused =>
      && a.d == d && taken == None && a.chain != [] && use == Share(i in a.held, d, k) && own == 0
      && (forall l :: l in a.chain ==> l < |s.w| && !s.w[l].done) && Last(a.chain) < |s.w|
      && (forall e :: e in a.held ==> e in a.chain || e in s.w[Last(a.chain)].edges)
    case Granted =>
      && a.d == d && taken.Some? && Charged(taken.value, x, d, i, k, use)
      && var chain := taken.value.chain;
      && |a.held| <= |a.chain| <= |a.held| + 1 && |a.chain| <= |chain|
      && a.chain == chain[..|a.chain|] && a.held == chain[..|a.held|] && own == Share(i in chain[|a.held|..], d, k)
    case Free => Ended(x, d, i, k, use, own, taken)
    case _ => false
  }

  predicate Charged(taken: Taken, x: Id, d: Stat, i: Id, k: Kind, use: int) {
    && taken.chain != [] && taken.chain[0] == x && Distinct(taken.chain)
    && use == Share(i in taken.chain || i in taken.edges, d, k)
  }

  /** All, or nothing. */
  predicate Ended(x: Id, d: Stat, i: Id, k: Kind, use: int, own: int, taken: Option<Taken>) {
    if taken.Some? then Charged(taken.value, x, d, i, k, use) && own == Share(i in taken.value.chain, d, k)
    else use == 0 && own == 0
  }

  lemma StartsMidst(s: State, t: Tid, x: Id, req: Request, s': State, i: Id, k: Kind)
    requires Inv(s) && t < |s.tasks| && StartReserve(s, t, x, req, s')
    ensures |s'.tasks| == |s.tasks|
    ensures Midst(s', t, x, Delta(req), i, k, UseAt(s'.w, i, k) - UseAt(s.w, i, k),
                  OwnAt(s'.w, i, k) - OwnAt(s.w, i, k), None)
  {
    hide Inv, Check, Delta, CanTake, UseAt, OwnAt, AddedOn;
    if Verdict(s.w[x], req).None? {
      GrantedAmount(s, x, req);
      ChargeAdds(s, x, req, i, k);
    }
  }

  lemma GrantedAmount(s: State, x: Id, req: Request)
    requires x < |s.w| && Verdict(s.w[x], req).None? && !req.Bulk?
    ensures Amount(Delta(req))
  {
  }

  /** The next scope is asked. */
  lemma AsksMidst(s: State, t: Tid, e: Id, s': State, x: Id, d: Stat, i: Id, k: Kind, use: int, own: int, keep: bool)
    requires Inv(s) && t < |s.tasks| && s.tasks[t].phase.Reserving? && Midst(s, t, x, d, i, k, use, own, None)
    requires e < |s.w| && (Verdict(s.w[e], s.tasks[t].phase.req).None? ==> e !in s.tasks[t].held)
    requires var a := s.tasks[t];
      if Verdict(s.w[e], a.phase.req).Some? then s' == s.(tasks := s.tasks[t := a.(phase := Refused)])
      else
        && CanTake(s, e, a.phase.req)
        && s' == Counted(s, t, e, a.(chain := if keep then a.chain + [e] else a.chain, held := a.held + [e]), keep)
    ensures |s'.tasks| == |s.tasks|
    ensures Midst(s', t, x, d, i, k, use + UseAt(s'.w, i, k) - UseAt(s.w, i, k),
                  own + OwnAt(s'.w, i, k) - OwnAt(s.w, i, k), None)
  {
    hide Inv, Verdict, Delta, CanTake, UseAt, OwnAt, AddedOn, Amount;
    ReservingFacts(s, t);
    if Verdict(s.w[e], s.tasks[t].phase.req).None? {
      ChargeAdds(s, e, s.tasks[t].phase.req, i, k);
    }
  }

  lemma ReservingFacts(s: State, t: Tid)
    requires Inv(s) && t < |s.tasks| && s.tasks[t].phase.Reserving?
    ensures var a := s.tasks[t];
      && a.d == Delta(a.phase.req) && Amount(a.d) && a.chain != [] && Last(a.chain) < |s.w|
      && Distinct(a.held) && Distinct(a.chain) && Linked(s.w, a.chain)
      && (forall l :: l in a.chain ==> l < |s.w| && !s.w[l].done)
      && |a.chain| <= |a.held| && a.held[..|a.chain|] == a.chain
      && var edges := s.w[Last(a.chain)].edges;
      && |a.held| <= |a.chain| + |edges| && a.held == a.chain + edges[..|a.held| - |a.chain|]
  {
    assert TaskOk(s.w, s.locks, t, s.tasks[t]);
  }

  lemma RootMidst(s: State, t: Tid, s': State, x: Id, d: Stat, i: Id, k: Kind, use: int, own: int)
    requires Inv(s) && t < |s.tasks| && SettleRoot(s, t, s') && Midst(s, t, x, d, i, k, use, own, None)
    ensures |s'.tasks| == |s.tasks|
    ensures Midst(s', t, x, d, i, k, use + UseAt(s'.w, i, k) - UseAt(s.w, i, k),
                  own + OwnAt(s'.w, i, k) - OwnAt(s.w, i, k), Some(TakenBy(s, t)))
  {
    hide Inv, UseAt, OwnAt, Owned, Amount, Delta;
    ReservingFacts(s, t);
    var a := s.tasks[t];
    SettlingOwns(s.w, Last(a.chain), d, i, k);
    assert a.held == a.chain + s.w[Last(a.chain)].edges;
    assert a.chain[|a.chain| - 1..] == [Last(a.chain)];
    assert a.chain[..|a.chain|] == a.chain;
  }

  lemma SpanMidst(s: State, t: Tid, s': State, x: Id, d: Stat, i: Id, k: Kind, use: int, own: int, taken: Option<Taken>)
    requires Inv(s) && t < |s.tasks| && SettleSpan(s, t, s') && Midst(s, t, x, d, i, k, use, own, taken)
    ensures |s'.tasks| == |s.tasks|
    ensures Midst(s', t, x, d, i, k, use + UseAt(s'.w, i, k) - UseAt(s.w, i, k),
                  own + OwnAt(s'.w, i, k) - OwnAt(s.w, i, k), taken)
  {
    hide Inv, UseAt, OwnAt, Owned, Charged, Distinct;
    var a, chain := s.tasks[t], taken.value.chain;
    var n := |a.held|;
    SettlingOwns(s.w, Last(a.held), d, i, k);
    assert Last(a.held) == chain[n - 1];
    assert chain[n - 1..] == [chain[n - 1]] + chain[n..];
    ChargedOnce(taken.value, x, d, i, k, use, n - 1);
  }

  lemma ChargedOnce(taken: Taken, x: Id, d: Stat, i: Id, k: Kind, use: int, n: nat)
    requires Charged(taken, x, d, i, k, use) && n < |taken.chain|
    ensures taken.chain[n] !in taken.chain[n + 1..]
  {
  }

  lemma ReturnMidst(s: State, t: Tid, e: Id, s': State, x: Id, d: Stat, i: Id, k: Kind, use: int, own: int,
                    taken: Option<Taken>)
    requires Inv(s) && t < |s.tasks| && GiveBack(s, t, e, s') && Midst(s, t, x, d, i, k, use, own, taken)
    ensures |s'.tasks| == |s.tasks|
    ensures Midst(s', t, x, d, i, k, use + UseAt(s'.w, i, k) - UseAt(s.w, i, k),
                  own + OwnAt(s'.w, i, k) - OwnAt(s.w, i, k), taken)
  {
    hide Inv, UseAt, OwnAt, RemovedOn;
    var a := s.tasks[t];
    HeldOnce(s, t);
    WithoutIs(a.held, e);
    LastIsIn(a.chain);
    if e !in a.chain {
      OpenEdge(s, Last(a.chain), e);
    }
    ReturnTakes(s, t, e, i, k);
    RemovedLinks(s.w, e, d);
  }

  lemma RemovedLinks(w: World, e: Id, d: Stat)
    ensures var w' := RemovedOn(w, [e], [], d);
      |w'| == |w| && forall i :: 0 <= i < |w| ==> w'[i].done == w[i].done && w'[i].edges == w[i].edges
  {
    hide Remove;
  }

  lemma HeldOnce(s: State, t: Tid)
    requires Inv(s) && t < |s.tasks|
    ensures Distinct(s.tasks[t].held)
  {
    assert TaskOk(s.w, s.locks, t, s.tasks[t]);
  }

  lemma OpenEdge(s: State, r: Id, e: Id)
    requires Inv(s) && r < |s.w| && !s.w[r].done && e in s.w[r].edges
    ensures e < |s.w| && !s.w[e].done
  {
    hide TasksOk, NamesOk, CollectorOk, Limited;
    var g := Links(s.w);
    assert Balanced(g, LedgerOf(s.base, s.tasks, MemoryKind));
    assert !g[r].done && g[r].edges == s.w[r].edges;
    assert ShapeAt(g, r);
  }

  lemma UnlockMidst(s: State, t: Tid, s': State, x: Id, d: Stat, i: Id, k: Kind, use: int, own: int,
                    taken: Option<Taken>)
    requires Inv(s) && t < |s.tasks| && UnlockLast(s, t, s') && Midst(s, t, x, d, i, k, use, own, taken)
    ensures |s'.tasks| == |s.tasks|
    ensures Midst(s', t, x, d, i, k, use + UseAt(s'.w, i, k) - UseAt(s.w, i, k),
                  own + OwnAt(s'.w, i, k) - OwnAt(s.w, i, k), taken)
  {
    hide Inv, UseAt, OwnAt, Charged;
    var a := s.tasks[t];
    if a.phase.Refused? {
      if |a.chain| == 1 {
        OnlyLast(a.held, a.chain);
      } else {
        FewerLocked(a.held, a.chain);
      }
    } else {
      SettledBefore(a.held, a.chain, taken.value.chain);
    }
  }

  lemma FewerLocked(held: seq<Id>, chain: seq<Id>)
    requires |chain| > 1 && Last(chain) !in held && forall e :: e in held ==> e in chain
    ensures forall l :: l in AllButLast(chain) ==> l in chain
    ensures forall e :: e in held ==> e in AllButLast(chain)
    ensures Last(AllButLast(chain)) in chain
  {
    LastIsIn(AllButLast(chain));
    assert chain == AllButLast(chain) + [Last(chain)];
  }

  /** A scope is unlocked once its charge has been settled. */
  lemma SettledBefore(held: seq<Id>, chain: seq<Id>, whole: seq<Id>)
    requires |held| <= |chain| <= |held| + 1 && 0 < |chain| <= |whole| && Last(chain) !in held
    requires chain == whole[..|chain|] && held == whole[..|held|]
    ensures |held| == |chain| - 1 && AllButLast(chain) == whole[..|held|]
    ensures |chain| == 1 ==> whole[|held|..] == whole
  {
    LastIsIn(chain);
    assert whole[..|chain|][..|chain| - 1] == whole[..|chain| - 1];
  }

  lemma DropMidst(s: State, t: Tid, e: Id, s': State, x: Id, d: Stat, i: Id, k: Kind, use: int, own: int,
                  taken: Option<Taken>)
    requires Sizes(s) && t < |s.tasks| && Drop(s, t, e, s') && Midst(s, t, x, d, i, k, use, own, taken)
    requires !s.tasks[t].phase.Free?
    ensures |s'.tasks| == |s.tasks|
    ensures Midst(s', t, x, d, i, k, use + UseAt(s'.w, i, k) - UseAt(s.w, i, k),
                  own + OwnAt(s'.w, i, k) - OwnAt(s.w, i, k), taken)
  {
    hide Charged;
  }

  /** What is settled, once this step has been taken. */
  function TakenAfter(s: State, t: Tid, ev: Event, taken: Option<Taken>): Option<Taken>
    requires t < |s.tasks|
  {
    if ev.RootSettles? then Some(TakenBy(s, t)) else taken
  }

  lemma ClimbMidst(s: State, t: Tid, o: Id, s': State, x: Id, d: Stat, i: Id, k: Kind, use: int, own: int)
    requires Inv(s) && t < |s.tasks| && ReserveOwner(s, t, o, s') && Midst(s, t, x, d, i, k, use, own, None)
    ensures |s'.tasks| == |s.tasks|
    ensures Midst(s', t, x, d, i, k, use + UseAt(s'.w, i, k) - UseAt(s.w, i, k),
                  own + OwnAt(s'.w, i, k) - OwnAt(s.w, i, k), None)
  {
    hide Inv, Midst, UseAt, OwnAt, Verdict, CanTake, AddedOn;
    if Verdict(s.w[o], s.tasks[t].phase.req).None? {
      FirstCharged(s, t, ReserveClimbs(o), s', o);
    }
    AsksMidst(s, t, o, s', x, d, i, k, use, own, true);
  }

  lemma ChargeMidst(s: State, t: Tid, s': State, x: Id, d: Stat, i: Id, k: Kind, use: int, own: int)
    requires Inv(s) && t < |s.tasks| && ReserveEdge(s, t, s') && Midst(s, t, x, d, i, k, use, own, None)
    ensures |s'.tasks| == |s.tasks|
    ensures Midst(s', t, x, d, i, k, use + UseAt(s'.w, i, k) - UseAt(s.w, i, k),
                  own + OwnAt(s'.w, i, k) - OwnAt(s.w, i, k), None)
  {
    hide Inv, Midst, UseAt, OwnAt, Verdict, CanTake, AddedOn;
    var a := s.tasks[t];
    var e := s.w[Last(a.chain)].edges[|a.held| - |a.chain|];
    if Verdict(s.w[e], a.phase.req).None? {
      FirstCharged(s, t, ReserveCharges, s', e);
    }
    AsksMidst(s, t, e, s', x, d, i, k, use, own, false);
  }

  /** No scope is charged twice. */
  lemma FirstCharged(s: State, t: Tid, ev: Event, s': State, e: Id)
    requires Inv(s) && Next(s, t, ev, s') && t < |s.tasks| && t < |s'.tasks|
    requires s'.tasks[t].held == s.tasks[t].held + [e]
    ensures e !in s.tasks[t].held
  {
    hide Inv, Next;
    NextKeeps(s, t, ev, s');
    HeldOnce(s', t);
    NotTwice(s.tasks[t].held, e);
  }

  lemma NotTwice(ids: seq<Id>, e: Id)
    requires Distinct(ids + [e])
    ensures e !in ids
  {
    forall j | 0 <= j < |ids| ensures ids[j] != e {
      assert (ids + [e])[j] != (ids + [e])[|ids|];
    }
  }

  /** The steps that a thread can take in the middle of a reservation. */
  lemma StepsInTheMidst(s: State, t: Tid, ev: Event, s': State)
    requires Sizes(s) && Next(s, t, ev, s') && !s.tasks[t].phase.Free?
    requires !s.tasks[t].phase.Attaching? && !s.tasks[t].phase.Releasing?
    ensures ev.ReserveClimbs? || ev.ReserveCharges? || ev.RootSettles? || ev.SpanSettles? || ev.GivesBack?
      || ev.Unlocks? || ev.Drops?
    ensures ev.ReserveClimbs? || ev.ReserveCharges? || ev.RootSettles? ==> s.tasks[t].phase.Reserving?
  {
    hide Verdict, CanTake, Unlocked, UserHolds, MayUse, Attachable, Sizes;
  }

  lemma MidstPhase(s: State, t: Tid, x: Id, d: Stat, i: Id, k: Kind, use: int, own: int, taken: Option<Taken>)
    requires t < |s.tasks| && Midst(s, t, x, d, i, k, use, own, taken)
    ensures !s.tasks[t].phase.Attaching? && !s.tasks[t].phase.Releasing?
    ensures s.tasks[t].phase.Reserving? ==> taken == None
  {
  }

  /** A step of the thread leads it on, or to the end. */
  lemma OwnStepMidst(s: State, t: Tid, ev: Event, s': State, x: Id, d: Stat, i: Id, k: Kind, use: int, own: int,
                     taken: Option<Taken>)
    requires Inv(s) && Sizes(s) && Next(s, t, ev, s') && Midst(s, t, x, d, i, k, use, own, taken)
    requires !s.tasks[t].phase.Free?
    ensures |s'.tasks| == |s.tasks|
    ensures Midst(s', t, x, d, i, k, use + UseAt(s'.w, i, k) - UseAt(s.w, i, k),
                  own + OwnAt(s'.w, i, k) - OwnAt(s.w, i, k), TakenAfter(s, t, ev, taken))
  {
    hide Inv, Midst, UseAt, OwnAt, Sizes, ReserveOwner, ReserveEdge, SettleRoot, SettleSpan, GiveBack, UnlockLast;
    hide Drop, StartReserve, StartRelease, ReleaseOwner, ReleaseEdge, StartDone, BeginSpan, OpenScope, Take, TakenBy;
    hide NewShared, PutDown, StartAttach, Join, Commit, CloseChosen, ClosePart, Choose, StartGc, EndGc;
    MidstPhase(s, t, x, d, i, k, use, own, taken);
    StepsInTheMidst(s, t, ev, s');
    match ev
    case ReserveClimbs(o) => ClimbMidst(s, t, o, s', x, d, i, k, use, own);
    case ReserveCharges => ChargeMidst(s, t, s', x, d, i, k, use, own);
    case RootSettles => RootMidst(s, t, s', x, d, i, k, use, own);
    case SpanSettles => SpanMidst(s, t, s', x, d, i, k, use, own, taken);
    case GivesBack(e) => ReturnMidst(s, t, e, s', x, d, i, k, use, own, taken);
    case Unlocks => UnlockMidst(s, t, s', x, d, i, k, use, own, taken);
    case Drops(e) => DropMidst(s, t, e, s', x, d, i, k, use, own, taken);
    case _ =>
  }

  lemma OthersMidst(s: State, u: Tid, ev: Event, s': State, t: Tid, x: Id, d: Stat, i: Id, k: Kind, use: int, own: int,
                    taken: Option<Taken>)
    requires Inv(s) && Sizes(s) && Next(s, u, ev, s') && t != u && t < |s.tasks|
    requires Midst(s, t, x, d, i, k, use, own, taken)
    ensures |s'.tasks| == |s.tasks| && Midst(s', t, x, d, i, k, use, own, taken)
  {
    hide Inv, Next, Charged;
    OthersRespect(s, u, ev, s', t);
    ChainIsMine(s, t);
    forall l | l in s.tasks[t].chain ensures |s.w| <= |s'.w| && s'.w[l] == s.w[l] {
      OthersSpareLocked(s, u, ev, s', t, l);
    }
  }

  // ---------------------------------------------------------------- the run

  /** What the steps of thread `t` from the m-th to the n-th have added to the counter of a scope. */
  function UseGain(states: seq<State>, tids: seq<Tid>, t: Tid, i: Id, k: Kind, m: nat, n: nat): int
    requires m <= n <= |tids| && |states| == |tids| + 1
  {
    if n == m then 0
    else
      UseGain(states, tids, t, i, k, m, n - 1)
      + if tids[n - 1] == t then UseAt(states[n].w, i, k) - UseAt(states[n - 1].w, i, k) else 0
  }

  /** And to its own charge. */
  function OwnGain(states: seq<State>, tids: seq<Tid>, t: Tid, i: Id, k: Kind, m: nat, n: nat): int
    requires m <= n <= |tids| && |states| == |tids| + 1
  {
    if n == m then 0
    else
      OwnGain(states, tids, t, i, k, m, n - 1)
      + if tids[n - 1] == t then OwnAt(states[n].w, i, k) - OwnAt(states[n - 1].w, i, k) else 0
  }

  /** The step in which everything has been granted. */
  function SettlesAt(tids: seq<Tid>, events: seq<Event>, t: Tid, m: nat, n: nat): Option<nat>
    requires m <= n <= |tids| && |events| == |tids|
  {
    if n == m then None
    else if tids[n - 1] == t && events[n - 1].RootSettles? then Some(n - 1)
    else SettlesAt(tids, events, t, m, n - 1)
  }

  function TakenIn(states: seq<State>, tids: seq<Tid>, events: seq<Event>, t: Tid, m: nat, n: nat): Option<Taken>
    requires m <= n <= |tids| && |events| == |tids| && |states| == |tids| + 1
  {
    var r := SettlesAt(tids, events, t, m, n);
    if r.Some? && r.value < |states| && t < |states[r.value].tasks| then Some(TakenBy(states[r.value], t)) else None
  }

  /** In this run thread `t` starts to reserve at the m-th step, and before the n-th it has not ended. */
  ghost predicate Reserves(states: seq<State>, tids: seq<Tid>, events: seq<Event>, t: Tid, x: Id, req: Request, m: nat,
                           n: nat)
  {
    && Run(states, tids, events) && m < n <= |tids| == |events| && |states| == |tids| + 1
    && tids[m] == t && events[m] == ReserveStarts(x, req)
    && forall j :: m < j < n ==> t < |states[j].tasks| && !states[j].tasks[t].phase.Free?
  }

  lemma ReservesBefore(states: seq<State>, tids: seq<Tid>, events: seq<Event>, t: Tid, x: Id, req: Request, m: nat,
                       n: nat)
    requires Reserves(states, tids, events, t, x, req, m, n)
    ensures m < n <= |tids| == |events| && |states| == |tids| + 1
    ensures Inv(states[n - 1]) && Sizes(states[n - 1])
    ensures Next(states[n - 1], tids[n - 1], events[n - 1], states[n]) && t < |states[n - 1].tasks|
    ensures if n == m + 1 then tids[n - 1] == t && events[n - 1] == ReserveStarts(x, req)
      else
        && Reserves(states, tids, events, t, x, req, m, n - 1)
        && !states[n - 1].tasks[t].phase.Free?
  {
    hide Run, Inv, Next, Sizes;
    RunStep(states, tids, events, n - 1);
    RunSizes(states, tids, events, n - 1);
    ThreadExists(states[n - 1], tids[n - 1], events[n - 1], states[n]);
  }

  lemma ThreadExists(s: State, t: Tid, ev: Event, s': State)
    requires Sizes(s) && Next(s, t, ev, s')
    ensures t < |s.tasks|
  {
  }

  lemma FirstMidst(s: State, t: Tid, x: Id, req: Request, s': State, i: Id, k: Kind)
    requires Inv(s) && Sizes(s) && Next(s, t, ReserveStarts(x, req), s')
    ensures t < |s'.tasks|
    ensures Midst(s', t, x, Delta(req), i, k, UseAt(s'.w, i, k) - UseAt(s.w, i, k),
                  OwnAt(s'.w, i, k) - OwnAt(s.w, i, k), None)
  {
    hide Inv, Midst, StartReserve;
    StartsMidst(s, t, x, req, s', i, k);
  }

  lemma StepMidst(s: State, u: Tid, ev: Event, s': State, t: Tid, x: Id, d: Stat, i: Id, k: Kind, use: int, own: int,
                  taken: Option<Taken>)
    requires Inv(s) && Sizes(s) && Next(s, u, ev, s') && t < |s.tasks| && !s.tasks[t].phase.Free?
    requires Midst(s, t, x, d, i, k, use, own, taken)
    ensures t < |s'.tasks|
    ensures u == t ==>
      Midst(s', t, x, d, i, k, use + UseAt(s'.w, i, k) - UseAt(s.w, i, k),
            own + OwnAt(s'.w, i, k) - OwnAt(s.w, i, k), TakenAfter(s, t, ev, taken))
    ensures u != t ==> Midst(s', t, x, d, i, k, use, own, taken)
  {
    hide Inv, Midst, Next, UseAt, OwnAt, Sizes, TakenAfter;
    if u == t {
      OwnStepMidst(s, t, ev, s', x, d, i, k, use, own, taken);
    } else {
      OthersMidst(s, u, ev, s', t, x, d, i, k, use, own, taken);
    }
  }

  lemma TakenStep(states: seq<State>, tids: seq<Tid>, events: seq<Event>, t: Tid, m: nat, n: nat)
    requires m < n <= |tids| == |events| && |states| == |tids| + 1 && t < |states[n - 1].tasks|
    ensures TakenIn(states, tids, events, t, m, n)
      == var taken := TakenIn(states, tids, events, t, m, n - 1);
         if tids[n - 1] == t then TakenAfter(states[n - 1], t, events[n - 1], taken) else taken
  {
    hide TakenBy;
  }

  lemma NothingYet(states: seq<State>, tids: seq<Tid>, events: seq<Event>, t: Tid, i: Id, k: Kind, m: nat)
    requires m <= |tids| == |events| && |states| == |tids| + 1
    ensures UseGain(states, tids, t, i, k, m, m) == 0 && OwnGain(states, tids, t, i, k, m, m) == 0
    ensures TakenIn(states, tids, events, t, m, m) == None
  {
  }

  lemma {:induction false} UnderWay(states: seq<State>, tids: seq<Tid>, events: seq<Event>, t: Tid, x: Id, req: Request,
                                    i: Id, k: Kind, m: nat, n: nat)
    requires Reserves(states, tids, events, t, x, req, m, n)
    ensures n < |states| && m <= n <= |tids| == |events| && |states| == |tids| + 1 && t < |states[n].tasks|
    ensures Midst(states[n], t, x, Delta(req), i, k, UseGain(states, tids, t, i, k, m, n),
                  OwnGain(states, tids, t, i, k, m, n), TakenIn(states, tids, events, t, m, n))
    decreases n
  {
    hide Reserves, Inv, Next, Sizes, Midst, Delta, UseAt, OwnAt, TakenBy;
    hide TakenIn;
    ReservesBefore(states, tids, events, t, x, req, m, n);
    TakenStep(states, tids, events, t, m, n);
    if n == m + 1 {
      NothingYet(states, tids, events, t, i, k, m);
      FirstMidst(states[m], t, x, req, states[n], i, k);
    } else {
      UnderWay(states, tids, events, t, x, req, i, k, m, n - 1);
      StepMidst(states[n - 1], tids[n - 1], events[n - 1], states[n], t, x, Delta(req), i, k,
                UseGain(states, tids, t, i, k, m, n - 1), OwnGain(states, tids, t, i, k, m, n - 1),
                TakenIn(states, tids, events, t, m, n - 1));
    }
  }

  lemma {:induction false} SettlesThere(tids: seq<Tid>, events: seq<Event>, t: Tid, m: nat, n: nat)
    requires m <= n <= |tids| == |events|
    ensures var r := SettlesAt(tids, events, t, m, n);
      && (r.Some? ==> m <= r.value < n && tids[r.value] == t && events[r.value].RootSettles?)
      && forall j :: m <= j < n && tids[j] == t && events[j].RootSettles? ==> r.Some? && j <= r.value
  {
    if m < n {
      SettlesThere(tids, events, t, m, n - 1);
    }
  }

  /** What a reservation of thread `t` is charged to when it settles: an owner chain, and the edges above it. */
  ghost predicate WholePath(s: State, t: Tid, x: Id, taken: Taken)
    requires t < |s.tasks|
  {
    && taken.chain != [] && taken.chain[0] == x && Distinct(taken.chain) && Linked(s.w, taken.chain)
    && s.w[Last(taken.chain)].owner.None? && taken.edges == s.w[Last(taken.chain)].edges
  }

  lemma SettlesWhole(s: State, t: Tid, s': State, x: Id, d: Stat, i: Id, k: Kind, use: int, own: int)
    requires Inv(s) && t < |s.tasks| && SettleRoot(s, t, s') && Midst(s, t, x, d, i, k, use, own, None)
    ensures WholePath(s, t, x, TakenBy(s, t))
  {
    hide Inv, Amount, Delta, UseAt, OwnAt;
    ReservingFacts(s, t);
  }

  /**
   * All or nothing, whatever the others do meanwhile. Thread `t` starts to reserve on `x` at the m-th step and has
   * ended before the n-th. Either it settles nowhere, and its steps have added nothing to any scope; or it settles
   * once, at the r-th step, and they have added the amount to the counters of just the owner chain of `x` and the edges
   * of the last owner as they were then, and to the own charges of just the chain.
   */
  lemma ReservationIsAllOrNothing(states: seq<State>, tids: seq<Tid>, events: seq<Event>, t: Tid, x: Id, req: Request,
                                  m: nat, n: nat)
    requires Reserves(states, tids, events, t, x, req, m, n)
    requires t < |states[n].tasks| ==> states[n].tasks[t].phase.Free?
    ensures m < n <= |tids| == |events| && |states| == |tids| + 1
    ensures var r := SettlesAt(tids, events, t, m, n);
      if r.None? then
        forall i, k :: UseGain(states, tids, t, i, k, m, n) == 0 && OwnGain(states, tids, t, i, k, m, n) == 0
      else
        && m < r.value < n && tids[r.value] == t && events[r.value] == RootSettles
        && (forall j :: m <= j < n && tids[j] == t && events[j].RootSettles? ==> j == r.value)
        && t < |states[r.value].tasks| && WholePath(states[r.value], t, x, TakenBy(states[r.value], t))
        && var taken := TakenBy(states[r.value], t);
        && (forall i, k ::
          UseGain(states, tids, t, i, k, m, n) == Share(i in taken.chain || i in taken.edges, Delta(req), k))
        && (forall i, k :: OwnGain(states, tids, t, i, k, m, n) == Share(i in taken.chain, Delta(req), k))
  {
    hide Reserves, Inv, Next, Sizes, Delta, UseAt, OwnAt, TakenBy, UseGain, OwnGain, SettlesAt, WholePath, Share;
    ReservesBefore(states, tids, events, t, x, req, m, n);
    SettlesThere(tids, events, t, m, n);
    var r := SettlesAt(tids, events, t, m, n);
    if r.Some? {
      SettlesOnTheWay(states, tids, events, t, x, req, m, n, r.value);
    }
    forall i, k
      ensures Ended(x, Delta(req), i, k, UseGain(states, tids, t, i, k, m, n), OwnGain(states, tids, t, i, k, m, n),
                    TakenIn(states, tids, events, t, m, n))
    {
      UnderWay(states, tids, events, t, x, req, i, k, m, n);
    }
  }

  lemma ReservesUpTo(states: seq<State>, tids: seq<Tid>, events: seq<Event>, t: Tid, x: Id, req: Request, m: nat,
                     n: nat, r: nat)
    requires Reserves(states, tids, events, t, x, req, m, n) && m < r <= n
    ensures Reserves(states, tids, events, t, x, req, m, r)
  {
    hide Run;
  }

  lemma ThreadThere(states: seq<State>, tids: seq<Tid>, events: seq<Event>, t: Tid, x: Id, req: Request, m: nat, n: nat,
                    j: nat)
    requires Reserves(states, tids, events, t, x, req, m, n) && m <= j < n
    ensures j < |states| && t < |states[j].tasks|
  {
    hide Run, Inv, Next, Sizes;
    ReservesUpTo(states, tids, events, t, x, req, m, n, j + 1);
    ReservesBefore(states, tids, events, t, x, req, m, j + 1);
  }

  lemma NextSettles(s: State, t: Tid, s': State)
    requires Sizes(s) && Next(s, t, RootSettles, s')
    ensures t < |s.tasks| && SettleRoot(s, t, s') && s.tasks[t].phase.Reserving?
  {
  }

  lemma StartedByAsking(states: seq<State>, tids: seq<Tid>, events: seq<Event>, t: Tid, x: Id, req: Request, m: nat,
                        n: nat)
    requires Reserves(states, tids, events, t, x, req, m, n)
    ensures m < n <= |tids| == |events| && |states| == |tids| + 1 && events[m] == ReserveStarts(x, req)
  {
    hide Run;
  }

  lemma SettlesOnTheWay(states: seq<State>, tids: seq<Tid>, events: seq<Event>, t: Tid, x: Id, req: Request, m: nat,
                        n: nat, r: nat)
    requires Reserves(states, tids, events, t, x, req, m, n) && m <= r < n <= |tids| == |events| && |states| > r
    requires tids[r] == t && events[r].RootSettles?
    ensures m < r && t < |states[r].tasks| && WholePath(states[r], t, x, TakenBy(states[r], t))
    ensures forall j :: m <= j < r && tids[j] == t ==> !events[j].RootSettles?
  {
    hide Reserves, Next, Inv, Sizes, Delta, Midst, SettleRoot, WholePath, TakenBy, TakenIn, UseGain, OwnGain;
    StartedByAsking(states, tids, events, t, x, req, m, n);
    ReservesUpTo(states, tids, events, t, x, req, m, n, r);
    UnderWay(states, tids, events, t, x, req, x, MemoryKind, m, r);
    ReservesUpTo(states, tids, events, t, x, req, m, n, r + 1);
    ReservesBefore(states, tids, events, t, x, req, m, r + 1);
    NextSettles(states[r], t, states[r + 1]);
    var use, own := UseGain(states, tids, t, x, MemoryKind, m, r), OwnGain(states, tids, t, x, MemoryKind, m, r);
    MidstPhase(states[r], t, x, Delta(req), x, MemoryKind, use, own, TakenIn(states, tids, events, t, m, r));
    SettlesWhole(states[r], t, states[r + 1], x, Delta(req), x, MemoryKind, use, own);
    SettlesOnce(states, tids, events, t, x, req, m, n, r);
  }

  lemma SettlesOnce(states: seq<State>, tids: seq<Tid>, events: seq<Event>, t: Tid, x: Id, req: Request, m: nat, n: nat,
                    r: nat)
    requires Reserves(states, tids, events, t, x, req, m, n) && m <= r < n <= |tids| == |events|
    requires |states| == |tids| + 1 && TakenIn(states, tids, events, t, m, r) == None
    ensures forall j :: m <= j < r && tids[j] == t ==> !events[j].RootSettles?
  {
    hide Reserves, TakenBy, SettlesAt;
    SettlesThere(tids, events, t, m, r);
    var before := SettlesAt(tids, events, t, m, r);
    if before.Some? {
      ThreadThere(states, tids, events, t, x, req, m, n, before.value);
    }
  }
}
