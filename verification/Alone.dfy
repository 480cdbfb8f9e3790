/**
 * The two levels of the resource manager agree: a reservation that one thread carries through step by step, locking one
 * scope at a time, has the effect that the sequential code has, whenever nobody comes in between.
 */
module Alone {
  import opened Common
  import opened Resources
  import opened Ledgers
  import opened Accounts
  import opened Registry
  import opened Scopes
  import opened Interleaving

  /** The steps of a reservation after its first. */
  predicate Continues(ev: Event) {
    ev.ReserveClimbs? || ev.ReserveCharges? || ev.RootSettles? || ev.SpanSettles? || ev.GivesBack? || ev.Unlocks?
  }

  // ---------------------------------------------------------------- the path as spine and edges

  lemma {:induction false} PathIsSpineAndEdges(g: Graph, s: Id)
    requires Shape(g) && s < |g|
    ensures var spine := Spine(g, s);
      && spine != [] && spine[0] == s && (forall j :: 0 <= j < |spine| ==> spine[j] < |g|)
      && (forall j :: 0 <= j < |spine| - 1 ==> g[spine[j]].owner == Some(spine[j + 1]))
      && g[Last(spine)].owner.None?
      && Path(g, s) == spine + g[Last(spine)].edges
  {
    assert ShapeAt(g, s);
    if g[s].owner.Some? {
      PathIsSpineAndEdges(g, g[s].owner.value);
    }
  }

  lemma {:induction false} PathIsDistinct(g: Graph, s: Id)
    requires Shape(g) && s < |g|
    ensures Distinct(Path(g, s))
  {
    assert ShapeAt(g, s);
    if g[s].owner.Some? {
      PathIsDistinct(g, g[s].owner.value);
      PathFacts(g, g[s].owner.value);
    }
  }

  /** What stays the same while the reservation is under way: the path, and that it lists no scope twice. */
  ghost predicate Way(w0: World, x: Id, spine: seq<Id>, path: seq<Id>) {
    && spine != [] && spine[0] == x && Distinct(path) && Known(w0, path)
    && |spine| <= |path| && spine == path[..|spine|]
    && (forall j :: 0 <= j < |spine| - 1 ==> w0[path[j]].owner == Some(path[j + 1]))
    && w0[path[|spine| - 1]].owner.None?
    && path[|spine|..] == w0[path[|spine| - 1]].edges
  }

  lemma TheWay(w0: World, x: Id)
    requires Shaped(w0) && x < |w0|
    ensures Way(w0, x, Spine(Links(w0), x), Path(Links(w0), x))
  {
    var g := Links(w0);
    var spine, path := Spine(g, x), Path(g, x);
    PathIsSpineAndEdges(g, x);
    PathFacts(g, x);
    PathIsDistinct(g, x);
    forall j | 0 <= j < |path| ensures path[j] < |w0| {
      assert path[j] in path;
    }
    forall j | 0 <= j < |spine|
      ensures g[spine[j]].owner == w0[spine[j]].owner && g[spine[j]].edges == w0[spine[j]].edges
    {
    }
    assert path[..|spine|] == spine && path[|spine|..] == g[Last(spine)].edges;
    assert path[|spine| - 1] == Last(spine) == spine[|spine| - 1];
  }

  // ---------------------------------------------------------------- how far the reservation is

  /** How far it is with the scopes as they were at the start, what it asked, and those it has asked already. */
  ghost predicate Midway(w0: World, spine: seq<Id>, path: seq<Id>, req: Request, w: World, a: Task)
    requires Known(w0, path)
  {
    && SameNames(w0, w) && a.d == Delta(req) && a.chain != [] && |a.chain| <= |spine| && a.chain == spine[..|a.chain|]
    && match a.phase
       case Reserving(r) =>
         && r == req && |a.chain| <= |a.held| <= |path| && a.held == path[..|a.held|]
         && (|a.chain| < |a.held| ==> |a.chain| == |spine|)
         && w == AddedOn(w0, a.held, [], a.d)
         && forall j :: 0 <= j < |a.held| ==> Verdict(w0[path[j]], req) == None
       case Granted =>
         && |a.held| <= |a.chain| <= |a.held| + 1 && a.held == spine[..|a.held|]
         && w == AddedOn(w0, path, spine[|a.held|..], a.d)
         && FirstRefusal(w0, path, req) == None
       case Refused =>
         && Distinct(a.held) && (forall e :: e in a.held ==> e < |w0| && !w0[e].done && Sane(w0[e].rc))
         && w == AddedOn(w0, a.held, [], a.d)
         && FirstRefusal(w0, path, req).Some?
       case _ => false
  }

  /** What the sequential code makes of the request. */
  ghost function Outcome(w0: World, spine: seq<Id>, path: seq<Id>, req: Request): World
    requires Known(w0, path)
  {
    if FirstRefusal(w0, path, req).None? then AddedOn(w0, path, spine, Delta(req)) else w0
  }

  // ---------------------------------------------------------------- worlds, pointwise

  lemma AddedSnoc(w: World, ids: seq<Id>, e: Id, d: Stat)
    requires e !in ids && e < |w|
    ensures AddedOn(AddedOn(w, ids, [], d), [e], [], d) == AddedOn(w, ids + [e], [], d)
    ensures AddedOn(w, ids, [], d)[e] == w[e]
  {
    hide Add;
  }

  lemma AddedWithout(w: World, ids: seq<Id>, e: Id, d: Stat)
    requires Distinct(ids) && e in ids && e < |w| && !w[e].done && Sane(w[e].rc) && Amount(d)
    ensures RemovedOn(AddedOn(w, ids, [], d), [e], [], d) == AddedOn(w, Without(ids, e), [], d)
  {
    hide Add, Remove;
    WithoutIs(ids, e);
    RemoveUndoesAdd(w[e].rc, d);
  }

  lemma SettledNext(w: World, path: seq<Id>, spine: seq<Id>, m: nat, d: Stat)
    requires 0 < m <= |spine| && Distinct(spine) && spine[m - 1] in path && spine[m - 1] < |w|
    ensures Owned(AddedOn(w, path, spine[m..], d), spine[m - 1], d) == AddedOn(w, path, spine[m - 1..], d)
  {
    hide Add, Plus;
    assert spine[m - 1..] == [spine[m - 1]] + spine[m..];
    forall j | m <= j < |spine| ensures spine[j] != spine[m - 1] {
    }
  }

  lemma AddedNames(w: World, ids: seq<Id>, spine: seq<Id>, d: Stat)
    ensures SameNames(w, AddedOn(w, ids, spine, d)) && AddedOn(w, [], [], d) == w
  {
  }

  // ---------------------------------------------------------------- steps

  lemma NotYetAsked(path: seq<Id>, n: nat)
    requires Distinct(path) && n < |path|
    ensures path[n] !in path[..n] && path[..n + 1] == path[..n] + [path[n]]
  {
  }

  /** The reservation asks the first scope. */
  lemma Starts(s: State, t: Tid, x: Id, req: Request, s': State, spine: seq<Id>, path: seq<Id>)
    requires Sizes(s) && t < |s.tasks| && StartReserve(s, t, x, req, s') && Way(s.w, x, spine, path)
    ensures s'.tasks[t].phase.Free? ==> s'.w == Outcome(s.w, spine, path, req)
    ensures !s'.tasks[t].phase.Free? ==> Midway(s.w, spine, path, req, s'.w, s'.tasks[t])
  {
    hide Add, Check, AddedOn;
    assert path[0] == x && path[..1] == [x] && spine[..1] == [x];
    if Verdict(s.w[x], req).Some? {
      RefusalAt(s.w, path, 0, req);
    } else {
      AddedNames(s.w, [x], [], Delta(req));
    }
  }

  /** The next scope of the path is asked, an owner or an edge. */
  lemma AsksNext(w0: World, spine: seq<Id>, path: seq<Id>, req: Request, s: State, t: Tid, e: Id, s': State, keep: bool)
    requires Sizes(s) && t < |s.tasks| && s.tasks[t].phase.Reserving?
    requires Limited(w0) && Distinct(path) && Known(w0, path) && Midway(w0, spine, path, req, s.w, s.tasks[t])
    requires |s.tasks[t].held| < |path| && e == path[|s.tasks[t].held|] && e < |s.w|
    requires var a := s.tasks[t]; var n := |a.held|;
      if keep then |a.chain| == n < |spine| && spine[..n + 1] == path[..n + 1]
      else |a.chain| == |spine|
    requires var a := s.tasks[t];
      if Verdict(s.w[e], req).Some? then s' == s.(tasks := s.tasks[t := a.(phase := Refused)])
      else s' == Counted(s, t, e, a.(chain := if keep then a.chain + [e] else a.chain, held := a.held + [e]), keep)
    ensures Midway(w0, spine, path, req, s'.w, s'.tasks[t])
  {
    hide Add, Check, AddedOn, Sane;
    var a := s.tasks[t];
    NotYetAsked(path, |a.held|);
    AddedSnoc(w0, a.held, e, a.d);
    if Verdict(s.w[e], req).Some? {
      RefusalAt(w0, path, |a.held|, req);
      forall i | i in a.held ensures i < |w0| && !w0[i].done && Sane(w0[i].rc) {
        var j :| 0 <= j < |a.held| && a.held[j] == i;
        assert Verdict(w0[path[j]], req) == None;
        SaneAt(w0, i);
      }
      assert forall i, j :: 0 <= i < j < |a.held| ==> a.held[i] == path[i] && a.held[j] == path[j];
    } else {
      AddedNames(w0, a.held + [e], [], a.d);
    }
  }

  lemma SaneAt(w: World, i: Id)
    requires Limited(w) && i < |w|
    ensures Sane(w[i].rc)
  {
  }

  /** Everything has been granted. */
  lemma Settles(w0: World, spine: seq<Id>, path: seq<Id>, req: Request, s: State, t: Tid, owed: Option<Id>, s': State)
    requires Sizes(s) && t < |s.tasks| && Known(w0, path) && Midway(w0, spine, path, req, s.w, s.tasks[t])
    requires spine != [] && |spine| <= |path| && spine == path[..|spine|] && Distinct(path)
    requires var a := s.tasks[t]; var m := if a.phase.Reserving? then |spine| else |a.held|;
      && 0 < m <= |spine| && spine[m - 1] < |s.w|
      && (a.phase.Reserving? ==> a.held == path && a.chain == spine) && (a.phase.Granted? ==> a.held == a.chain)
      && (a.phase.Reserving? || a.phase.Granted?)
      && s' == s.(w := Owned(s.w, spine[m - 1], a.d),
                  tasks := s.tasks[t := a.(phase := Granted, held := spine[..m - 1], owed := owed)])
    ensures Midway(w0, spine, path, req, s'.w, s'.tasks[t])
  {
    hide Add, Plus, Check, AddedOn, Sane;
    var a := s.tasks[t];
    var m := if a.phase.Reserving? then |spine| else |a.held|;
    assert spine[m - 1] == path[m - 1];
    assert Distinct(spine) && spine[m - 1] in path;
    SettledNext(w0, path, spine, m, a.d);
    AddedNames(w0, path, spine[m - 1..], a.d);
    if a.phase.Reserving? {
      RefusalAt(w0, path, |path|, req);
      assert spine[m..] == [] && path[..|path|] == path;
    } else {
      assert spine[..m][..m - 1] == spine[..m - 1];
    }
  }

  /** One who was refused gives a charge back. */
  lemma GivesOneBack(w0: World, spine: seq<Id>, path: seq<Id>, req: Request, s: State, t: Tid, e: Id, s': State)
    requires Sizes(s) && t < |s.tasks| && Known(w0, path) && Midway(w0, spine, path, req, s.w, s.tasks[t])
    requires GiveBack(s, t, e, s') && Amount(Delta(req))
    ensures Midway(w0, spine, path, req, s'.w, s'.tasks[t])
  {
    hide Add, Remove, Check, AddedOn, RemovedOn, Sane;
    var a := s.tasks[t];
    AddedWithout(w0, a.held, e, a.d);
    WithoutIs(a.held, e);
    AddedNames(w0, Without(a.held, e), [], a.d);
  }

  /** Locks are given up from the root down, and with the last one the reservation has ended. */
  lemma UnlocksOne(w0: World, spine: seq<Id>, path: seq<Id>, req: Request, s: State, t: Tid, s': State)
    requires Sizes(s) && t < |s.tasks| && Known(w0, path) && Midway(w0, spine, path, req, s.w, s.tasks[t])
    requires UnlockLast(s, t, s') && Distinct(spine)
    ensures s'.tasks[t].phase.Free? ==> s'.w == Outcome(w0, spine, path, req)
    ensures !s'.tasks[t].phase.Free? ==> Midway(w0, spine, path, req, s'.w, s'.tasks[t])
  {
    hide Check, AddedOn, Sane;
    var a := s.tasks[t];
    var c := |a.chain|;
    assert Last(a.chain) == spine[c - 1];
    assert spine[..c][..c - 1] == spine[..c - 1];
    if a.phase.Granted? {
      LastIsIn(a.chain);
      assert |a.held| == c - 1;
      assert spine[0..] == spine;
    } else if c == 1 {
      NothingHeld(a.held, a.chain);
      AddedNames(w0, [], [], a.d);
    }
  }

  lemma NothingHeld(held: seq<Id>, chain: seq<Id>)
    requires |chain| == 1 && chain[0] !in held && forall e :: e in held ==> e in chain
    ensures held == []
  {
    if held != [] { LastIsIn(held); }
  }

  // ---------------------------------------------------------------- the run

  /** Where the last scope locked is on the path. */
  lemma LastOnWay(w0: World, x: Id, spine: seq<Id>, path: seq<Id>, chain: seq<Id>)
    requires Way(w0, x, spine, path) && chain != [] && |chain| <= |spine| && chain == spine[..|chain|]
    ensures Distinct(spine) && Last(chain) == spine[|chain| - 1] == path[|chain| - 1]
    ensures w0[Last(chain)].owner.Some? <==> |chain| < |spine|
    ensures |chain| < |spine| ==>
      w0[Last(chain)].owner == Some(path[|chain|]) && spine[..|chain| + 1] == path[..|chain| + 1]
    ensures |chain| == |spine| ==> chain == spine && path == spine + w0[Last(chain)].edges
  {
    assert forall i, j :: 0 <= i < j < |spine| ==> spine[i] == path[i] && spine[j] == path[j];
    assert path == path[..|spine|] + path[|spine|..];
    assert chain[|chain| - 1] == path[|chain| - 1];
    if |chain| < |spine| {
      assert path[..|spine|][..|chain| + 1] == path[..|chain| + 1];
      assert w0[path[|chain| - 1]].owner == Some(path[|chain| - 1 + 1]);
    }
  }

  lemma SameScope(w: World, w': World, i: Id)
    requires SameNames(w, w') && i < |w|
    ensures w'[i].owner == w[i].owner && w'[i].edges == w[i].edges && |w'| == |w|
  {
  }

  lemma MidwayParts(w0: World, spine: seq<Id>, path: seq<Id>, req: Request, w: World, a: Task)
    requires Known(w0, path) && Midway(w0, spine, path, req, w, a)
    ensures SameNames(w0, w) && a.d == Delta(req)
    ensures a.chain != [] && |a.chain| <= |spine| && a.chain == spine[..|a.chain|]
    ensures a.phase.Reserving? ==>
      && a.phase.req == req && |a.chain| <= |a.held| <= |path| && a.held == path[..|a.held|]
      && (|a.chain| < |a.held| ==> |a.chain| == |spine|)
    ensures a.phase.Granted? ==> a.held == spine[..|a.held|] && |a.held| <= |spine|
  {
  }

  lemma Climbs(w0: World, spine: seq<Id>, path: seq<Id>, req: Request, s: State, t: Tid, o: Id, s': State, x: Id)
    requires Way(w0, x, spine, path) && Limited(w0)
    requires Sizes(s) && t < |s.tasks| && ReserveOwner(s, t, o, s') && Midway(w0, spine, path, req, s.w, s.tasks[t])
    ensures t < |s'.tasks| && s'.tasks[t].phase != Free && Midway(w0, spine, path, req, s'.w, s'.tasks[t])
  {
    var a := s.tasks[t];
    MidwayParts(w0, spine, path, req, s.w, a);
    LastOnWay(w0, x, spine, path, a.chain);
    SameScope(w0, s.w, Last(a.chain));
    hide Midway, Verdict, Limited, SameNames, CanTake;
    AsksNext(w0, spine, path, req, s, t, o, s', true);
  }

  lemma Charges(w0: World, spine: seq<Id>, path: seq<Id>, req: Request, s: State, t: Tid, s': State, x: Id)
    requires Way(w0, x, spine, path) && Limited(w0)
    requires Sizes(s) && t < |s.tasks| && ReserveEdge(s, t, s') && Midway(w0, spine, path, req, s.w, s.tasks[t])
    ensures t < |s'.tasks| && s'.tasks[t].phase != Free && Midway(w0, spine, path, req, s'.w, s'.tasks[t])
  {
    var a := s.tasks[t];
    MidwayParts(w0, spine, path, req, s.w, a);
    LastOnWay(w0, x, spine, path, a.chain);
    SameScope(w0, s.w, Last(a.chain));
    hide Midway, Verdict, Limited, SameNames, CanTake;
    AsksNext(w0, spine, path, req, s, t, path[|a.held|], s', false);
  }

  lemma RootOwns(w0: World, spine: seq<Id>, path: seq<Id>, req: Request, s: State, t: Tid, s': State, x: Id)
    requires Way(w0, x, spine, path)
    requires Sizes(s) && t < |s.tasks| && SettleRoot(s, t, s') && Midway(w0, spine, path, req, s.w, s.tasks[t])
    ensures t < |s'.tasks| && s'.tasks[t].phase != Free && Midway(w0, spine, path, req, s'.w, s'.tasks[t])
  {
    hide Midway, SameNames, Owned;
    var a := s.tasks[t];
    MidwayParts(w0, spine, path, req, s.w, a);
    LastOnWay(w0, x, spine, path, a.chain);
    SameScope(w0, s.w, Last(a.chain));
    assert path[..|path|] == path;
    Settles(w0, spine, path, req, s, t, s'.tasks[t].owed, s');
  }

  lemma SpanOwns(w0: World, spine: seq<Id>, path: seq<Id>, req: Request, s: State, t: Tid, s': State, x: Id)
    requires Way(w0, x, spine, path)
    requires Sizes(s) && t < |s.tasks| && SettleSpan(s, t, s') && Midway(w0, spine, path, req, s.w, s.tasks[t])
    ensures t < |s'.tasks| && s'.tasks[t].phase != Free && Midway(w0, spine, path, req, s'.w, s'.tasks[t])
  {
    hide Midway, SameNames, Owned;
    var a := s.tasks[t];
    MidwayParts(w0, spine, path, req, s.w, a);
    assert spine[..|a.held|][..|a.held| - 1] == spine[..|a.held| - 1];
    Settles(w0, spine, path, req, s, t, s'.tasks[t].owed, s');
  }

  /** One step of the reservation leads to its end or further on the way. */
  lemma Steps(w0: World, spine: seq<Id>, path: seq<Id>, req: Request, s: State, t: Tid, ev: Event, s': State, x: Id)
    requires Way(w0, x, spine, path) && Limited(w0) && Amount(Delta(req))
    requires Sizes(s) && Next(s, t, ev, s') && Continues(ev) && Midway(w0, spine, path, req, s.w, s.tasks[t])
    ensures t < |s'.tasks|
    ensures s'.tasks[t].phase.Free? ==> s'.w == Outcome(w0, spine, path, req)
    ensures !s'.tasks[t].phase.Free? ==> Midway(w0, spine, path, req, s'.w, s'.tasks[t])
  {
    var a := s.tasks[t];
    MidwayParts(w0, spine, path, req, s.w, a);
    LastOnWay(w0, x, spine, path, a.chain);
    hide Way, Midway, Limited, SameNames, ReserveOwner, ReserveEdge, SettleRoot, SettleSpan, Outcome, GiveBack;
    hide UnlockLast, StartReserve, StartRelease, ReleaseOwner, ReleaseEdge, StartDone, BeginSpan, OpenScope, Take;
    hide NewShared, PutDown, Drop, StartAttach, Join, Commit, CloseChosen, ClosePart, Choose, Amount, Delta, Sizes;
    match ev
    case ReserveClimbs(o) => Climbs(w0, spine, path, req, s, t, o, s', x);
    case ReserveCharges => Charges(w0, spine, path, req, s, t, s', x);
    case RootSettles => RootOwns(w0, spine, path, req, s, t, s', x);
    case SpanSettles => SpanOwns(w0, spine, path, req, s, t, s', x);
    case GivesBack(e) => GivesOneBack(w0, spine, path, req, s, t, e, s');
    case Unlocks => UnlocksOne(w0, spine, path, req, s, t, s');
  }

  /** A reservation of a request on `x` that thread `t` carries through while nobody else takes a step. */
  ghost predicate Uninterrupted(states: seq<State>, events: seq<Event>, t: Tid, x: Id, req: Request) {
    && |states| == |events| + 1 && events != [] && events[0] == ReserveStarts(x, req)
    && (forall i :: 0 < i < |events| ==> Continues(events[i]))
    && (forall i :: 0 <= i < |events| ==> Sizes(states[i]) && Next(states[i], t, events[i], states[i + 1]))
    && t < |states[|events|].tasks| && states[|events|].tasks[t].phase.Free?
  }

  lemma {:induction false} OnTheWay(states: seq<State>, events: seq<Event>, t: Tid, x: Id, req: Request, n: nat,
                                    spine: seq<Id>, path: seq<Id>)
    requires Uninterrupted(states, events, t, x, req) && 0 < n < |states|
    requires Way(states[0].w, x, spine, path) && Limited(states[0].w)
    ensures t < |states[n].tasks|
    ensures states[n].tasks[t].phase.Free? ==> states[n].w == Outcome(states[0].w, spine, path, req)
    ensures !states[n].tasks[t].phase.Free? ==>
      Amount(Delta(req)) && Midway(states[0].w, spine, path, req, states[n].w, states[n].tasks[t])
  {
    hide Way, Midway, Limited, Outcome, Sizes;
    if n == 1 {
      FirstStep(states[0], t, x, req, states[1], spine, path);
    } else {
      OnTheWay(states, events, t, x, req, n - 1, spine, path);
      assert Continues(events[n - 1]) && Next(states[n - 1], t, events[n - 1], states[n]);
      OnlyBusyContinue(states[n - 1], t, events[n - 1], states[n]);
      Steps(states[0].w, spine, path, req, states[n - 1], t, events[n - 1], states[n], x);
    }
  }

  lemma FirstStep(s: State, t: Tid, x: Id, req: Request, s': State, spine: seq<Id>, path: seq<Id>)
    requires Sizes(s) && Next(s, t, ReserveStarts(x, req), s') && Way(s.w, x, spine, path)
    ensures t < |s'.tasks|
    ensures s'.tasks[t].phase.Free? ==> s'.w == Outcome(s.w, spine, path, req)
    ensures !s'.tasks[t].phase.Free? ==> Amount(Delta(req)) && Midway(s.w, spine, path, req, s'.w, s'.tasks[t])
  {
    hide Way, Midway, Outcome, Check, Delta;
    Starts(s, t, x, req, s', spine, path);
    if Verdict(s.w[x], req).None? {
      GrantedAmountOf(s.w[x], req);
    }
  }

  lemma OnlyBusyContinue(s: State, t: Tid, ev: Event, s': State)
    requires Sizes(s) && Continues(ev) && Next(s, t, ev, s')
    ensures t < |s.tasks| && !s.tasks[t].phase.Free?
  {
  }

  /**
   * The step model refines the sequential code: a reservation that nobody interrupts ends with what the sequential
   * method ensures, the amount on the whole path when nobody on it refuses, and otherwise with every scope as it was.
   */
  lemma AloneIsSequential(states: seq<State>, events: seq<Event>, t: Tid, x: Id, req: Request)
    requires Uninterrupted(states, events, t, x, req) && Inv(states[0])
    ensures x < |states[0].w| && Shaped(states[0].w)
    ensures var w, w' := states[0].w, states[|events|].w; var path := Path(Links(w), x);
      && Known(w, path)
      && w' == if FirstRefusal(w, path, req).None? then Reserved(w, x, Delta(req)) else w
  {
    var w := states[0].w;
    InvParts(states[0]);
    InvShaped(states[0]);
    assert Next(states[0], t, events[0], states[1]);
    TheWay(w, x);
    hide Inv, Way, Midway, Limited, Next;
    OnTheWay(states, events, t, x, req, |events|, Spine(Links(w), x), Path(Links(w), x));
  }
}
