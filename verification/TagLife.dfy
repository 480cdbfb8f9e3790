/**
 * What becomes of a decaying tag once it has been closed: when it stays gone from all peers, and when a command that
 * was on its way brings it back.
 */
module TagLife {
  import opened Common
  import opened ConnTracker

  // ---------------------------------------------------------------- commands on the peers

  /** Everything that changes what is known of the peers. */
  datatype Command =
    | Tagging(p: PeerId, name: string, val: int, now: Time)
    | Untagging(p: PeerId, name: string)
    | Opening(c: Conn, now: Time)
    | Shutting(c: Conn)
    | Bumping(p: PeerId, t: DecayingTag, delta: int, now: Time)
    | Removing(p: PeerId, t: DecayingTag, now: Time)
    | Ticking(visit: set<DecayingTag>, now: Time)
    | ClosingTag(t: DecayingTag)
    | Forgetting(ps: set<PeerId>)

  function Do(v: View, c: Command): View {
    match c
    case Tagging(p, name, val, now) => Tagged(v, p, name, val, now)
    case Untagging(p, name) => Untagged(v, p, name)
    case Opening(conn, now) => WithConn(v, conn, now)
    case Shutting(conn) => WithoutConn(v, conn)
    case Bumping(p, t, delta, now) => Bumped(v, p, t, delta, now)
    case Removing(p, t, now) => Removed(v, p, t, now)
    case Ticking(visit, now) => Decayed(v, visit, now)
    case ClosingTag(t) => Unregistered(v, t)
    case Forgetting(ps) => v - ps
  }

  function After(v: View, commands: seq<Command>): View {
    if commands == [] then v else Do(After(v, commands[..|commands| - 1]), commands[|commands| - 1])
  }

  /** Some peer has the tag. */
  ghost predicate Has(v: View, t: DecayingTag) {
    exists p :: p in v && t in v[p].decaying
  }

  predicate Bumps(c: Command, t: DecayingTag) {
    c.Bumping? && c.t == t
  }

  lemma OnlyBumpsBring(v: View, c: Command, t: DecayingTag)
    requires !Has(v, t)
    ensures Has(Do(v, c), t) <==> Bumps(c, t)
  {
    var w := Do(v, c);
    if Bumps(c, t) {
      assert c.p in w && t in w[c.p].decaying;
    } else {
      forall p | p in w ensures t !in w[p].decaying {
        if p in v {
          assert t !in v[p].decaying;
        }
      }
    }
  }

  /** A tag that no peer has stays gone through a sequence of commands if and only if none of them bumps it. */
  lemma StaysGoneIff(v: View, commands: seq<Command>, t: DecayingTag)
    requires !Has(v, t)
    ensures (forall n: nat :: n <= |commands| ==> !Has(After(v, commands[..n]), t))
      <==> (forall i :: 0 <= i < |commands| ==> !Bumps(commands[i], t))
  {
    if forall n: nat :: n <= |commands| ==> !Has(After(v, commands[..n]), t) {
      forall i | 0 <= i < |commands| ensures !Bumps(commands[i], t) {
        AfterOneMore(v, commands, i);
        OnlyBumpsBring(After(v, commands[..i]), commands[i], t);
        assert !Has(After(v, commands[..i + 1]), t);
      }
    }
    if forall i :: 0 <= i < |commands| ==> !Bumps(commands[i], t) {
      forall n: nat | n <= |commands| ensures !Has(After(v, commands[..n]), t) {
        GoneAfter(v, commands, t, n);
      }
    }
  }

  lemma AfterOneMore(v: View, commands: seq<Command>, i: nat)
    requires i < |commands|
    ensures After(v, commands[..i + 1]) == Do(After(v, commands[..i]), commands[i])
  {
    assert commands[..i + 1][..i] == commands[..i];
  }

  lemma {:induction false} GoneAfter(v: View, commands: seq<Command>, t: DecayingTag, n: nat)
    requires !Has(v, t) && n <= |commands|
    requires forall i :: 0 <= i < |commands| ==> !Bumps(commands[i], t)
    ensures !Has(After(v, commands[..n]), t)
  {
    if n > 0 {
      GoneAfter(v, commands, t, n - 1);
      AfterOneMore(v, commands, n - 1);
      OnlyBumpsBring(After(v, commands[..n - 1]), commands[n - 1], t);
    }
  }

  /** The command leaves the tag of this peer alone; a tick does when it does not visit the tag. */
  predicate Spares(c: Command, p: PeerId, t: DecayingTag) {
    match c
    case Shutting(conn) => conn.remote != p
    case Bumping(q, u, _, _) => q != p || u != t
    case Removing(q, u, _) => q != p || u != t
    case Ticking(visit, _) => t !in visit
    case ClosingTag(u) => u != t
    case Forgetting(ps) => p !in ps
    case _ => true
  }

  /** A tag that ticks do not visit never decays, through any number of them and of other commands that spare it. */
  lemma {:induction false} NeverDecays(v: View, commands: seq<Command>, p: PeerId, t: DecayingTag)
    requires p in v && t in v[p].decaying
    requires forall i :: 0 <= i < |commands| ==> Spares(commands[i], p, t)
    ensures var after := After(v, commands);
      p in after && t in after[p].decaying && after[p].decaying[t] == v[p].decaying[t]
    decreases |commands|
  {
    if commands != [] {
      NeverDecays(v, commands[..|commands| - 1], p, t);
      SparedStays(After(v, commands[..|commands| - 1]), commands[|commands| - 1], p, t);
    }
  }

  lemma SparedStays(v: View, c: Command, p: PeerId, t: DecayingTag)
    requires p in v && t in v[p].decaying && Spares(c, p, t)
    ensures p in Do(v, c) && t in Do(v, c)[p].decaying && Do(v, c)[p].decaying[t] == v[p].decaying[t]
  {
  }

  // ---------------------------------------------------------------- bump commands on their way

  datatype BumpCmd = BumpCmd(peer: PeerId, tag: DecayingTag, delta: int)

  /** How many bump commands can wait. */
  const BUMP_QUEUE: nat := 128

  /**
   * The peers, the bump commands that wait, those of callers that have found the tag open and not yet sent, and the
   * tags that are closed.
   */
  datatype State = State(view: View, waiting: seq<BumpCmd>, inFlight: multiset<BumpCmd>, closed: set<DecayingTag>)

  /**
   * A caller bumps in two steps, the check of the closed flag and the send; the process loop takes the oldest command;
   * a tag is marked closed; or the peers change in any other way.
   */
  datatype Action = Checks(b: BumpCmd) | Sends(b: BumpCmd) | Takes(now: Time) | Marks(t: DecayingTag) | Does(c: Command)

  function Act(s: State, a: Action): State {
    match a
    case Checks(b) => if b.tag in s.closed then s else s.(inFlight := s.inFlight + multiset{b})
    case Sends(b) =>
      if b !in s.inFlight then s
      else s.(inFlight := s.inFlight - multiset{b},
              waiting := if |s.waiting| < BUMP_QUEUE then s.waiting + [b] else s.waiting)
    case Takes(now) =>
      if s.waiting == [] then s
      else
        var b := s.waiting[0];
        s.(view := Bumped(s.view, b.peer, b.tag, b.delta, now), waiting := s.waiting[1..])
    case Marks(t) => s.(closed := s.closed + {t})
    case Does(c) => if c.Bumping? then s else s.(view := Do(s.view, c))
  }

  function Run(s: State, actions: seq<Action>): State
    decreases |actions|
  {
    if actions == [] then s else Run(Act(s, actions[0]), actions[1..])
  }

  /** A bump of the tag waits, or is about to be sent. */
  ghost predicate OnItsWay(s: State, t: DecayingTag) {
    (exists b :: b in s.waiting && b.tag == t) || (exists b :: b in s.inFlight && b.tag == t)
  }

  lemma ActKeepsGone(s: State, a: Action, t: DecayingTag)
    requires t in s.closed && !Has(s.view, t) && !OnItsWay(s, t)
    ensures var s' := Act(s, a); t in s'.closed && !Has(s'.view, t) && !OnItsWay(s', t)
  {
    var s' := Act(s, a);
    match a
    case Checks(b) =>
    case Sends(b) =>
    case Takes(now) =>
      if s.waiting != [] {
        var b := s.waiting[0];
        assert b in s.waiting;
        OnlyBumpsBring(s.view, Bumping(b.peer, b.tag, b.delta, now), t);
        assert forall c :: c in s'.waiting ==> c in s.waiting;
      }
    case Marks(u) =>
    case Does(c) => OnlyBumpsBring(s.view, c, t);
  }

  lemma {:induction false} RunKeepsGone(s: State, actions: seq<Action>, t: DecayingTag)
    requires t in s.closed && !Has(s.view, t) && !OnItsWay(s, t)
    ensures !Has(Run(s, actions).view, t)
    decreases |actions|
  {
    if actions != [] {
      ActKeepsGone(s, actions[0], t);
      RunKeepsGone(Act(s, actions[0]), actions[1..], t);
    }
  }

  /** The oldest commands are taken, and then those that follow. */
  function TakingFirst(n: nat, last: seq<Action>): seq<Action> {
    if n == 0 then last else [Takes(0)] + TakingFirst(n - 1, last)
  }

  lemma {:induction false} AllTaken(s: State, n: nat, last: seq<Action>) returns (s': State)
    requires n <= |s.waiting|
    ensures Run(s, TakingFirst(n, last)) == Run(s', last)
    ensures s'.waiting == s.waiting[n..] && s'.inFlight == s.inFlight
    decreases n
  {
    if n == 0 {
      s' := s;
    } else {
      s' := AllTaken(Act(s, Takes(0)), n - 1, last);
      assert TakingFirst(n, last)[1..] == TakingFirst(n - 1, last);
    }
  }

  lemma TakingBrings(s: State, t: DecayingTag)
    requires s.waiting != [] && s.waiting[0].tag == t
    ensures Has(Run(s, [Takes(0)]).view, t)
  {
    var next := Act(s, Takes(0));
    var p := s.waiting[0].peer;
    assert p in next.view && t in next.view[p].decaying;
    assert Run(next, []) == next && [Takes(0)][1..] == [];
  }

  /** A bump that waits is taken in its turn, and brings the tag back. */
  lemma WaitingBrings(s: State, t: DecayingTag, i: nat)
    requires i < |s.waiting| && s.waiting[i].tag == t
    ensures Has(Run(s, TakingFirst(i, [Takes(0)])).view, t)
  {
    var s' := AllTaken(s, i, [Takes(0)]);
    TakingBrings(s', t);
  }

  /** So does one that is about to be sent, when there is room for it. */
  lemma InFlightBrings(s: State, t: DecayingTag, b: BumpCmd)
    requires b in s.inFlight && b.tag == t
    ensures Has(Run(s, TakingFirst(|s.waiting|, [Sends(b), Takes(0)])).view, t)
  {
    var s' := AllTaken(s, |s.waiting|, [Sends(b), Takes(0)]);
    assert [Sends(b), Takes(0)][1..] == [Takes(0)];
    TakingBrings(Act(s', Sends(b)), t);
  }

  /** After these actions some peer has the tag. */
  ghost predicate Brings(s: State, actions: seq<Action>, t: DecayingTag) {
    Has(Run(s, actions).view, t)
  }

  /**
   * A closed tag that no peer has stays gone whatever happens next if and only if no bump of it waits or is about to be
   * sent.
   */
  lemma ClosedStaysGoneIff(s: State, t: DecayingTag)
    requires t in s.closed && !Has(s.view, t)
    ensures (forall actions: seq<Action> :: !Brings(s, actions, t)) <==> !OnItsWay(s, t)
  {
    if OnItsWay(s, t) {
      if b :| b in s.waiting && b.tag == t {
        var i: nat :| i < |s.waiting| && s.waiting[i] == b;
        WaitingBrings(s, t, i);
        assert Brings(s, TakingFirst(i, [Takes(0)]), t);
      } else {
        var b :| b in s.inFlight && b.tag == t;
        InFlightBrings(s, t, b);
        assert Brings(s, TakingFirst(|s.waiting|, [Sends(b), Takes(0)]), t);
      }
    } else {
      forall actions: seq<Action> ensures !Brings(s, actions, t) {
        RunKeepsGone(s, actions, t);
      }
    }
  }
}
