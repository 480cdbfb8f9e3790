/** The decayer: it registers decaying tags, visits those that are due at each tick, and closes them. */
module Decay {
  import opened Common
  import opened ConnTracker
  import opened ConnManager
  import opened TagLife
  import Schedule = DecaySchedule

  /** How many close commands can wait. */
  const CLOSE_QUEUE: nat := 128

  /** The time of the n-th tick; before any, when the decayer started. */
  ghost function TickAt(started: Time, ticks: seq<Time>, n: nat): Time
    requires n <= |ticks|
  {
    if n == 0 then started else ticks[n - 1]
  }

  /** A tag registered after so many ticks has the visits, and the next visit, that its schedule says. */
  ghost predicate Pace(started: Time, ticks: seq<Time>, registered: Time, interval: nat, since: nat, nextTick: Time,
                       visits: nat)
  {
    && since <= |ticks| && registered == TickAt(started, ticks, since)
    && nextTick == Schedule.Due(registered, interval, visits)
    && visits == Schedule.Visits(registered, interval, ticks[since..])
  }

  lemma PaceStart(started: Time, ticks: seq<Time>, interval: nat)
    ensures var now := TickAt(started, ticks, |ticks|);
      Pace(started, ticks, now, interval, |ticks|, now + interval, 0)
  {
    assert ticks[|ticks|..] == [];
  }

  lemma PaceTick(started: Time, ticks: seq<Time>, registered: Time, interval: nat, since: nat, nextTick: Time,
                 visits: nat, now: Time)
    requires Pace(started, ticks, registered, interval, since, nextTick, visits)
    ensures var due := nextTick <= now;
      Pace(started, ticks + [now], registered, interval, since, if due then nextTick + interval else nextTick,
           if due then visits + 1 else visits)
  {
    assert (ticks + [now])[since..] == ticks[since..] + [now];
    Schedule.VisitsOfAppended(registered, interval, ticks[since..], now);
  }

  class Decayer {
    const mgr: BasicConnMgr
    const resolution: nat
    var knownTags: map<string, DecayingTag>
    var lastTick: Time
    var closeTagCh: seq<DecayingTag>
    var bumpTagCh: seq<BumpCmd>
    /** The bumps of callers between the check of the flag and the send, and the tags whose close has been processed. */
    ghost var inFlight: multiset<BumpCmd>
    ghost var gone: set<DecayingTag>
    /** Every tag ever registered, when the decayer started, and its ticks so far. */
    ghost var tags: set<DecayingTag>
    ghost const started: Time
    ghost var ticks: seq<Time>

    constructor (mgr: BasicConnMgr, resolution: nat, now: Time)
      requires mgr.Valid() && 0 < resolution
      ensures Valid() && fresh(this) && this.mgr == mgr && this.resolution == resolution
      ensures knownTags == map[] && lastTick == now && ticks == [] && tags == {}
      ensures closeTagCh == [] && bumpTagCh == [] && inFlight == multiset{} && gone == {}
    {
      this.mgr, this.resolution := mgr, resolution;
      knownTags, lastTick, closeTagCh, bumpTagCh := map[], now, [], [];
      tags, started, ticks, inFlight, gone := {}, now, [], multiset{}, {};
    }

    /** The tag has been visited as often as its schedule and the ticks since its registration say. */
    ghost predicate Paced(t: DecayingTag)
      reads this`ticks, t`nextTick, t`visits
    {
      resolution <= t.interval && Pace(started, ticks, t.registered, t.interval, t.since, t.nextTick, t.visits)
    }

    /** What decides whether a closed tag stays gone. */
    ghost function Now(): State
      reads this`tags, this`bumpTagCh, this`inFlight, tags`closed, mgr`view
    {
      State(mgr.view, bumpTagCh, inFlight, set t | t in tags && t.closed)
    }

    /** The name of a tag that is open, or waits to be closed, is its own; once its close is processed it has none. */
    ghost predicate Named()
      reads this`tags, this`knownTags, this`closeTagCh, this`gone, tags`closed
    {
      && (forall t :: t in gone ==> t in tags && t.closed && !(t.name in knownTags && knownTags[t.name] == t))
      && (forall t :: t in tags && !t.closed ==> t.name in knownTags && knownTags[t.name] == t)
      && (forall t :: t in closeTagCh ==> t in tags && t.closed && t.name in knownTags && knownTags[t.name] == t)
      && (forall i, j :: 0 <= i < j < |closeTagCh| ==> closeTagCh[i] != closeTagCh[j])
    }

    ghost predicate Known()
      reads this`knownTags, this`tags
    {
      forall name :: name in knownTags ==> knownTags[name] in tags && knownTags[name].name == name
    }

    ghost predicate OnSchedule()
      reads this`knownTags, this`tags, this`ticks, tags`nextTick, tags`visits
    {
      Known() && forall name :: name in knownTags ==> Paced(knownTags[name])
    }

    ghost predicate Valid()
      reads this, tags, mgr, mgr.entries
    {
      && mgr.Valid() && 0 < resolution && lastTick == TickAt(started, ticks, |ticks|)
      && OnSchedule() && Named()
    }

    /** Registers a tag under a new name; an interval below the resolution is raised to it. */
    method RegisterDecayingTag(name: string, interval: int, decayFn: DecayingValue -> Option<int>,
                               bumpFn: (DecayingValue, int) -> int) returns (tag: Option<DecayingTag>)
      requires Valid()
      modifies this`knownTags, this`tags
      ensures Valid() && fresh(tags - old(tags)) && Now() == old(Now())
      ensures tag.None? <==> name in old(knownTags)
      ensures tag.None? ==> knownTags == old(knownTags)
      ensures tag.Some? ==>
        && fresh(tag.value) && tags == old(tags) + {tag.value} && knownTags == old(knownTags)[name := tag.value]
        && tag.value.name == name && tag.value.decayFn == decayFn && tag.value.bumpFn == bumpFn && !tag.value.closed
        && tag.value.interval == (if interval < resolution then resolution else interval)
        && tag.value.registered == lastTick && tag.value.nextTick == lastTick + tag.value.interval
    {
      hide BasicConnMgr.Valid, Pace;
      if name in knownTags {
        return None;
      }
      var raised := if interval < resolution then resolution else interval;
      var t := new DecayingTag(name, raised, lastTick, decayFn, bumpFn, |ticks|);
      PaceStart(started, ticks, raised);
      knownTags := knownTags[name := t];
      tags := tags + {t};
      return Some(t);
    }

    /** The known tags whose time has come. */
    ghost function DueTags(now: Time): set<DecayingTag>
      reads this`knownTags, this`tags, tags`nextTick
      requires Known()
    {
      set name | name in knownTags && knownTags[name].nextTick <= now :: knownTags[name]
    }

    method CollectDue(now: Time) returns (visit: set<DecayingTag>)
      requires Known()
      ensures visit == DueTags(now)
    {
      visit := {};
      var todo := knownTags.Keys;
      while todo != {}
        invariant todo <= knownTags.Keys
        invariant visit == set name | name in knownTags.Keys - todo && knownTags[name].nextTick <= now ::
                                  knownTags[name]
        decreases todo
      {
        var name :| name in todo;
        todo := todo - {name};
        if !(now < knownTags[name].nextTick) {
          visit := visit + {knownTags[name]};
        }
      }
    }

    /** A tick: the due tags are visited at every peer, and their next visit moves one interval on. */
    method Tick(now: Time)
      requires Valid()
      modifies this`lastTick, this`ticks, tags`nextTick, tags`visits, mgr`view, mgr.entries
      ensures Valid()
      ensures lastTick == now && ticks == old(ticks) + [now]
      ensures mgr.view == Decayed(old(mgr.view), old(DueTags(now)), now)
      ensures Now() == Act(old(Now()), Does(Ticking(old(DueTags(now)), now)))
      ensures forall name :: name in knownTags ==>
        knownTags[name].visits == old(knownTags[name].visits) + (if knownTags[name] in old(DueTags(now)) then 1 else 0)
    {
      hide BasicConnMgr.Valid, Decayed, Named, OnSchedule, Act, DueTags;
      assert Known() by { KnownTags(); }
      TickActs(Now(), DueTags(now), now);
      lastTick := now;
      var visit := CollectDue(now);
      mgr.Tick(visit, now);
      Advance(visit, now);
    }

    lemma KnownTags()
      requires OnSchedule()
      ensures Known()
    {
    }

    /** The visited tags, those that were due, move on. */
    method Advance(visit: set<DecayingTag>, now: Time)
      requires OnSchedule() && Known() && visit == DueTags(now)
      modifies this`ticks, tags`nextTick, tags`visits
      ensures OnSchedule() && ticks == old(ticks) + [now]
      ensures forall name :: name in knownTags ==>
        knownTags[name].visits == old(knownTags[name].visits) + (if knownTags[name] in visit then 1 else 0)
    {
      hide Pace;
      Reset(visit);
      ticks := ticks + [now];
      forall name | name in knownTags ensures Paced(knownTags[name]) {
        var t := knownTags[name];
        assert old(Paced(t));
        PaceTick(started, old(ticks), t.registered, t.interval, t.since, old(t.nextTick), old(t.visits), now);
      }
    }

    /**
     * Decay keeps pace. However late the ticks, no tag is visited more often than its intervals have passed; and when
     * they come at least once per resolution, exactly as often, as the interval is never below the resolution.
     */
    lemma KeepsPace(name: string)
      requires Valid() && name in knownTags
      requires Schedule.Monotone(knownTags[name].registered, ticks[knownTags[name].since..])
      ensures var t := knownTags[name];
        && t.visits <= (lastTick - t.registered) / t.interval
        && (Schedule.OnTime(t.registered, ticks[t.since..], resolution) ==>
          t.visits == (lastTick - t.registered) / t.interval)
    {
      hide BasicConnMgr.Valid, Schedule.Visits, Schedule.Due, Schedule.Monotone, Schedule.OnTime;
      var t := knownTags[name];
      assert Paced(t);
      var since := ticks[t.since..];
      Schedule.NeverAhead(t.registered, t.interval, since);
      if Schedule.OnTime(t.registered, since, resolution) {
        Schedule.OnTimeKeepsPace(t.registered, t.interval, since, resolution);
      }
      assert 0 / t.interval == 0;
    }

    /** Closes a tag, once: its command waits in the queue, unless that is full. Later calls do nothing. */
    method Close(t: DecayingTag) returns (ok: bool)
      requires Valid() && t in tags
      modifies this`closeTagCh, t`closed
      ensures Valid() && t.closed && Now() == Act(old(Now()), Marks(t))
      ensures ok <==> old(t.closed) || |old(closeTagCh)| < CLOSE_QUEUE
      ensures closeTagCh == old(closeTagCh) + if ok && !old(t.closed) then [t] else []
    {
      hide BasicConnMgr.Valid, Pace;
      if t.closed {
        return true;
      }
      t.closed := true;
      if |closeTagCh| < CLOSE_QUEUE {
        closeTagCh := closeTagCh + [t];
        return true;
      }
      return false;
    }

    /** The process loop takes a close command: the tag, and no other, is unregistered and leaves all peers. */
    method ProcessClose() returns (t: DecayingTag)
      requires Valid() && closeTagCh != []
      modifies this`closeTagCh, this`knownTags, this`gone, mgr`view, mgr.entries
      ensures Valid() && Now() == Act(old(Now()), Does(ClosingTag(t)))
      ensures gone == old(gone) + {t} && t in tags && t.closed && !Has(mgr.view, t)
      ensures t == old(closeTagCh)[0] && closeTagCh == old(closeTagCh)[1..]
      ensures t.name in old(knownTags) && old(knownTags)[t.name] == t && knownTags == old(knownTags) - {t.name}
      ensures mgr.view == Unregistered(old(mgr.view), t)
    {
      hide BasicConnMgr.Valid, OnSchedule, Named, Unregistered;
      t := Unlist();
      mgr.CloseTag(t);
      UnregisteredIsGone(old(mgr.view), t);
    }

    method Unlist() returns (t: DecayingTag)
      requires OnSchedule() && Named() && closeTagCh != []
      modifies this`closeTagCh, this`knownTags, this`gone
      ensures OnSchedule() && Named()
      ensures t == old(closeTagCh)[0] && closeTagCh == old(closeTagCh)[1..]
      ensures t.name in old(knownTags) && old(knownTags)[t.name] == t && knownTags == old(knownTags) - {t.name}
      ensures gone == old(gone) + {t} && t in tags && t.closed
    {
      hide Pace;
      t := closeTagCh[0];
      closeTagCh := closeTagCh[1..];
      knownTags := knownTags - {t.name};
      gone := gone + {t};
    }

    /** A caller finds the tag open, or gives up. */
    method CheckBump(p: PeerId, t: DecayingTag, delta: int) returns (ok: bool)
      requires Valid() && t in tags
      modifies this`inFlight
      ensures Valid() && (ok <==> !t.closed) && Now() == Act(old(Now()), Checks(BumpCmd(p, t, delta)))
      ensures ok ==> BumpCmd(p, t, delta) in inFlight
    {
      hide BasicConnMgr.Valid, OnSchedule, Named;
      ok := !t.closed;
      if ok {
        inFlight := inFlight + multiset{BumpCmd(p, t, delta)};
      }
    }

    /** And then sends its command, unless the queue is full. */
    method SendBump(b: BumpCmd) returns (ok: bool)
      requires Valid() && b in inFlight
      modifies this`inFlight, this`bumpTagCh
      ensures Valid() && (ok <==> |old(bumpTagCh)| < BUMP_QUEUE) && Now() == Act(old(Now()), Sends(b))
    {
      hide BasicConnMgr.Valid, OnSchedule, Named;
      inFlight := inFlight - multiset{b};
      ok := |bumpTagCh| < BUMP_QUEUE;
      if ok {
        bumpTagCh := bumpTagCh + [b];
      }
    }

    /** A bump: refused when the tag is closed or the queue is full. */
    method Bump(p: PeerId, t: DecayingTag, delta: int) returns (ok: bool)
      requires Valid() && t in tags
      modifies this`inFlight, this`bumpTagCh
      ensures Valid() && (ok <==> !t.closed && |old(bumpTagCh)| < BUMP_QUEUE) && inFlight == old(inFlight)
      ensures bumpTagCh == old(bumpTagCh) + if ok then [BumpCmd(p, t, delta)] else []
    {
      hide BasicConnMgr.Valid, OnSchedule, Named;
      ok := CheckBump(p, t, delta);
      if ok {
        ok := SendBump(BumpCmd(p, t, delta));
      }
    }

    /** The process loop takes a bump command, whatever has become of the tag. */
    method ProcessBump(now: Time)
      requires Valid() && bumpTagCh != []
      modifies this`bumpTagCh, mgr`peers, mgr`view, mgr`entries, mgr.entries
      ensures Valid() && Now() == Act(old(Now()), Takes(now)) && bumpTagCh == old(bumpTagCh)[1..]
      ensures fresh(mgr.entries - old(mgr.entries))
    {
      hide BasicConnMgr.Valid, OnSchedule, Named, Bumped;
      var b := bumpTagCh[0];
      bumpTagCh := bumpTagCh[1..];
      mgr.Bump(b.peer, b.tag, b.delta, now);
    }

    /** No tick visits a tag whose close has been processed. */
    lemma GoneIsNotDue(t: DecayingTag, now: Time)
      requires Valid() && t in gone && Known()
      ensures t !in DueTags(now)
    {
      hide BasicConnMgr.Valid, Pace;
    }

    /**
     * Closing works exactly when nothing comes behind it: a closed tag that no peer has, as when its close has just
     * been processed, stays gone in every continuation if and only if no bump of it waits or is about to be sent.
     */
    lemma ClosedForGoodIff(t: DecayingTag)
      requires Valid() && t in tags && t.closed && !Has(mgr.view, t)
      ensures (forall actions: seq<Action> :: !Brings(Now(), actions, t))
        <==> (forall b :: b in bumpTagCh || b in inFlight ==> b.tag != t)
    {
      hide BasicConnMgr.Valid, OnSchedule, Named, Brings;
      ClosedStaysGoneIff(Now(), t);
    }
  }

  lemma TickActs(s: State, visit: set<DecayingTag>, now: Time)
    ensures Act(s, Does(Ticking(visit, now))) == s.(view := Decayed(s.view, visit, now))
  {
  }

  lemma UnregisteredIsGone(v: View, t: DecayingTag)
    ensures !Has(Unregistered(v, t), t)
  {
  }

  /** Decay functions that keep the value, and bump functions that add to it. */
  function KeepValue(v: DecayingValue): Option<int> {
    Some(v.value)
  }

  function AddDelta(v: DecayingValue, delta: int): int {
    v.value + delta
  }

  /** A tag that is bumped, and closed before the bump is processed. */
  method BumpThenClose(p: PeerId) returns (d: Decayer, t: DecayingTag)
    ensures d.Valid() && fresh(d) && fresh(d.mgr) && d.mgr.view == map[] && fresh(d.mgr.entries)
    ensures d.bumpTagCh == [BumpCmd(p, t, 1)] && d.closeTagCh == [t] && t.bumpFn == AddDelta
  {
    hide BasicConnMgr.Valid, Decayer.OnSchedule, Decayer.Named, Decayer.Now;
    var mgr := new BasicConnMgr(1, 1, 0);
    d := new Decayer(mgr, 1, 0);
    var tag := d.RegisterDecayingTag("tag", 1, KeepValue, AddDelta);
    t := tag.value;
    var bumped := d.Bump(p, t, 1);
    var closed := d.Close(t);
  }

  /**
   * A run that revives a closed tag: it is registered, bumped and closed, and the loop takes the close before the bump.
   * The peer then has a tag that is not known any more.
   */
  method Revive(p: PeerId) returns (d: Decayer, t: DecayingTag)
    ensures d.Valid() && t in d.gone && p in d.mgr.view && t in d.mgr.view[p].decaying
    ensures d.mgr.view[p].decaying[t].value == 1
  {
    hide BasicConnMgr.Valid, Decayer.OnSchedule, Decayer.Named;
    d, t := BumpThenClose(p);
    var processed := d.ProcessClose();
    assert processed == t;
    d.ProcessBump(0);
  }

  /** Moves the next visit of each visited tag one interval on. */
  method Reset(visit: set<DecayingTag>)
    modifies visit`nextTick, visit`visits
    ensures forall t :: t in visit ==>
      && t.nextTick == old(t.nextTick) + t.interval && t.visits == old(t.visits) + 1
  {
    var todo := visit;
    while todo != {}
      invariant todo <= visit
      invariant forall t :: t in todo ==> t.nextTick == old(t.nextTick) && t.visits == old(t.visits)
      invariant forall t :: t in visit - todo ==>
        t.nextTick == old(t.nextTick) + t.interval && t.visits == old(t.visits) + 1
      decreases todo
    {
      var t :| t in todo;
      todo := todo - {t};
      t.nextTick := t.nextTick + t.interval;
      t.visits := t.visits + 1;
    }
  }
}
