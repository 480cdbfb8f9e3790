/**
 * The relays of the relay finder under every interleaving of the loop that connects to candidates, the background loop,
 * and the refreshes that the background loop runs in parallel and waits for.
 */
module Relays {
  type PeerId = nat

  /** Where the candidate loop is: waiting for a trigger, about to select, trying the rest, or asking one for a slot. */
  datatype Loop = Waiting | Selecting | Trying(rest: seq<PeerId>) | Asking(p: PeerId, others: seq<PeerId>)

  /** The background loop takes events one at a time; while it refreshes reservations it takes none. */
  datatype Background = Listening | Refreshing(pending: set<PeerId>)

  datatype State = State(relays: set<PeerId>, loop: Loop, background: Background)

  datatype Step =
    | Trigger
    | Select(candidates: seq<PeerId>)
    | GiveUp
    | TryNext
    | Refused
    | Granted
    | Disconnected(peer: PeerId)
    | StartRefresh(expiring: set<PeerId>)
    | Refreshed(peer: PeerId)
    | RefreshFailed(peer: PeerId)
    | EndRefresh

  predicate Enabled(s: State, step: Step) {
    match step
    case Trigger => s.loop.Waiting?
    case Select(_) => s.loop.Selecting?
    case GiveUp => s.loop.Selecting?
    case TryNext => s.loop.Trying?
    case Refused => s.loop.Asking?
    case Granted => s.loop.Asking?
    case Disconnected(_) => s.background.Listening?
    case StartRefresh(expiring) => s.background.Listening? && expiring <= s.relays
    case Refreshed(p) => s.background.Refreshing? && p in s.background.pending
    case RefreshFailed(p) => s.background.Refreshing? && p in s.background.pending
    case EndRefresh => s.background == Refreshing({})
  }

  /** Each step is what happens under one hold of the lock, or between two. */
  function Apply(s: State, step: Step, desired: nat): State {
    match step
    case Trigger => if |s.relays| == desired then s else s.(loop := Selecting)
    case Select(candidates) => s.(loop := Trying(candidates))
    case GiveUp => s.(loop := Waiting)
    case TryNext =>
      if !s.loop.Trying? then s
      else if s.loop.rest == [] then s.(loop := Waiting)
      else if s.loop.rest[0] in s.relays then s.(loop := Trying(s.loop.rest[1..]))
      else s.(loop := Asking(s.loop.rest[0], s.loop.rest[1..]))
    case Refused => if s.loop.Asking? then s.(loop := Trying(s.loop.others)) else s
    case Granted =>
      if !s.loop.Asking? then s
      else
        var relays := s.relays + {s.loop.p};
        s.(relays := relays, loop := if |relays| >= desired then Waiting else Trying(s.loop.others))
    case Disconnected(p) => s.(relays := s.relays - {p})
    case StartRefresh(expiring) => s.(background := Refreshing(expiring))
    case Refreshed(p) =>
      if s.background.Listening? then s
      else s.(relays := s.relays + {p}, background := Refreshing(s.background.pending - {p}))
    case RefreshFailed(p) =>
      if s.background.Listening? then s
      else s.(relays := s.relays - {p}, background := Refreshing(s.background.pending - {p}))
    case EndRefresh => s.(background := Listening)
  }

  const START: State := State({}, Waiting, Listening)

  /** A run: the states, one step apart. */
  ghost predicate IsRun(states: seq<State>, steps: seq<Step>, desired: nat) {
    && |states| == |steps| + 1 && states[0] == START
    && forall i :: 0 <= i < |steps| ==>
      Enabled(states[i], steps[i]) && states[i + 1] == Apply(states[i], steps[i], desired)
  }

  /** There is room while the candidate loop is at work, and what is being refreshed is still a relay. */
  ghost predicate Inv(s: State, desired: nat) {
    && |s.relays| <= desired
    && (!s.loop.Waiting? ==> |s.relays| < desired)
    && (s.background.Refreshing? ==> s.background.pending <= s.relays)
  }

  lemma FewerRelays(relays: set<PeerId>, p: PeerId)
    ensures |relays - {p}| <= |relays| <= |relays + {p}| <= |relays| + 1
    ensures p in relays ==> relays + {p} == relays
  {
    if p in relays {
      assert relays == relays - {p} + {p};
    } else {
      assert relays - {p} == relays;
    }
  }

  lemma ApplyKeeps(s: State, step: Step, desired: nat)
    requires Inv(s, desired) && Enabled(s, step)
    ensures Inv(Apply(s, step, desired), desired)
  {
    match step
    case Granted => FewerRelays(s.relays, s.loop.p);
    case Disconnected(p) => FewerRelays(s.relays, p);
    case Refreshed(p) => FewerRelays(s.relays, p);
    case RefreshFailed(p) => FewerRelays(s.relays, p);
    case _ =>
  }

  /** In no state of any run are there more relays than desired. */
  lemma {:induction false} NeverTooManyRelays(states: seq<State>, steps: seq<Step>, desired: nat, n: nat)
    requires IsRun(states, steps, desired) && n < |states|
    ensures Inv(states[n], desired) && |states[n].relays| <= desired
  {
    if n > 0 {
      NeverTooManyRelays(states, steps, desired, n - 1);
      ApplyKeeps(states[n - 1], steps[n - 1], desired);
    }
  }

  /** The step makes the peer a relay: it was asked and gave a slot, or its refresh succeeded. */
  predicate Gains(s: State, step: Step, p: PeerId) {
    (step == Granted && s.loop.Asking? && s.loop.p == p) || step == Refreshed(p)
  }

  /** The step ends that: it disconnected, or its refresh failed. */
  predicate Loses(step: Step, p: PeerId) {
    step == Disconnected(p) || step == RefreshFailed(p)
  }

  /** The last thing that has happened to the peer in the first n steps made it a relay. */
  ghost predicate GainedLast(states: seq<State>, steps: seq<Step>, n: nat, p: PeerId)
    requires n <= |steps| <= |states|
  {
    exists j :: 0 <= j < n && Gains(states[j], steps[j], p) && forall k :: j < k < n ==> !Loses(steps[k], p)
  }

  /** In every run, a peer is a relay exactly when the last that has happened to it made it one. */
  lemma {:induction false} RelayIffGainedLast(states: seq<State>, steps: seq<Step>, desired: nat, n: nat, p: PeerId)
    requires IsRun(states, steps, desired) && n < |states|
    ensures p in states[n].relays <==> GainedLast(states, steps, n, p)
  {
    if n > 0 {
      hide Apply, Gains, Loses, Enabled, GainedLast;
      RelayIffGainedLast(states, steps, desired, n - 1, p);
      assert Enabled(states[n - 1], steps[n - 1]) && states[n] == Apply(states[n - 1], steps[n - 1], desired);
      RelayAfter(states[n - 1], steps[n - 1], desired, p);
      GainedByNow(states, steps, n, p);
    } else {
      assert states[0] == START;
    }
  }

  lemma GainedByNow(states: seq<State>, steps: seq<Step>, n: nat, p: PeerId)
    requires 0 < n <= |steps| <= |states|
    ensures GainedLast(states, steps, n, p)
      <==> Gains(states[n - 1], steps[n - 1], p) || (GainedLast(states, steps, n - 1, p) && !Loses(steps[n - 1], p))
  {
    hide Gains, Loses;
    if GainedLast(states, steps, n - 1, p) && !Loses(steps[n - 1], p) {
      var j :| 0 <= j < n - 1 && Gains(states[j], steps[j], p) && forall k :: j < k < n - 1 ==> !Loses(steps[k], p);
      assert Gains(states[j], steps[j], p) && forall k :: j < k < n ==> !Loses(steps[k], p);
    }
  }

  lemma RelayAfter(s: State, step: Step, desired: nat, p: PeerId)
    requires Enabled(s, step)
    ensures p in Apply(s, step, desired).relays <==> Gains(s, step, p) || (p in s.relays && !Loses(step, p))
  {
  }

  /** The refreshes that the background loop waits for: those it started with, less those that have been answered. */
  ghost predicate Unanswered(steps: seq<Step>, n: nat, p: PeerId)
    requires n <= |steps|
  {
    exists j :: 0 <= j < n && steps[j].StartRefresh? && p in steps[j].expiring
      && forall k :: j < k < n ==> !Answers(steps[k], p)
  }

  predicate Answers(step: Step, p: PeerId) {
    step == Refreshed(p) || step == RefreshFailed(p)
  }

  predicate Waits(s: State, p: PeerId) {
    s.background.Refreshing? && p in s.background.pending
  }

  lemma WaitsAfter(s: State, step: Step, desired: nat, p: PeerId)
    requires Enabled(s, step)
    ensures Waits(Apply(s, step, desired), p)
      <==> (step.StartRefresh? && p in step.expiring) || (Waits(s, p) && !Answers(step, p))
  {
  }

  /** In every run, a refresh is waited for exactly when it has been started and not been answered. */
  lemma {:induction false} WaitsIffUnanswered(states: seq<State>, steps: seq<Step>, desired: nat, n: nat, p: PeerId)
    requires IsRun(states, steps, desired) && n < |states|
    ensures Waits(states[n], p) <==> Unanswered(steps, n, p)
  {
    if n > 0 {
      hide Apply, Waits, Answers, Enabled;
      WaitsIffUnanswered(states, steps, desired, n - 1, p);
      assert Enabled(states[n - 1], steps[n - 1]) && states[n] == Apply(states[n - 1], steps[n - 1], desired);
      WaitsAfter(states[n - 1], steps[n - 1], desired, p);
      var step := steps[n - 1];
      if step.StartRefresh? && p in step.expiring {
        assert Unanswered(steps, n, p);
      } else if Unanswered(steps, n - 1, p) && !Answers(step, p) {
        var j :| 0 <= j < n - 1 && steps[j].StartRefresh? && p in steps[j].expiring
          && forall k :: j < k < n - 1 ==> !Answers(steps[k], p);
        assert steps[j].StartRefresh? && p in steps[j].expiring;
        assert forall k :: j < k < n ==> !Answers(steps[k], p);
      }
    } else {
      assert states[0] == START;
    }
  }

  /**
   * What the bound rests on is that the background loop takes no disconnect while refreshes are running. Were one
   * taken, its relay could be replaced by a candidate, and then come back when its refresh succeeds.
   */
  lemma DisconnectDuringRefreshWouldExceed(p: PeerId, q: PeerId)
    requires p != q
    ensures var s := State({p}, Waiting, Refreshing({p}));
      var s1 := Apply(s, Disconnected(p), 1);
      var s2 := Apply(s1, Trigger, 1);
      var s3 := Apply(s2, Select([q]), 1);
      var s4 := Apply(s3, TryNext, 1);
      var s5 := Apply(s4, Granted, 1);
      var s6 := Apply(s5, Refreshed(p), 1);
      && Inv(s, 1) && !Enabled(s, Disconnected(p))
      && Enabled(s1, Trigger) && Enabled(s2, Select([q])) && Enabled(s3, TryNext) && Enabled(s4, Granted)
      && Enabled(s5, Refreshed(p)) && s6.relays == {p, q} && 1 < |s6.relays|
  {
    var s1 := Apply(State({p}, Waiting, Refreshing({p})), Disconnected(p), 1);
    assert s1.relays == {};
    var s4 := Apply(Apply(Apply(s1, Trigger, 1), Select([q]), 1), TryNext, 1);
    assert [q][1..] == [];
    var s5 := Apply(s4, Granted, 1);
    assert s5.relays == {q};
    var both := {p, q};
    assert |both| == 2;
    assert {q} + {p} == both;
  }
}
