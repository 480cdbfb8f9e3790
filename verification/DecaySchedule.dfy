/**
 * When the decayer visits a tag. A tag registered at time t with interval d is due at t + d, t + 2d, ...; each tick of
 * the decayer visits it at most once and then moves its due time one interval on.
 */
module DecaySchedule {
  type Time = int

  /** The due time of a tag that has been visited this often. */
  function Due(registered: Time, interval: nat, visits: nat): Time {
    registered + (visits + 1) * interval
  }

  /** How often these ticks visit the tag: one tick, one visit, when it is due. */
  function Visits(registered: Time, interval: nat, ticks: seq<Time>): (v: nat)
    ensures v <= |ticks|
  {
    if ticks == [] then 0
    else
      var before := Visits(registered, interval, ticks[..|ticks| - 1]);
      if Due(registered, interval, before) <= ticks[|ticks| - 1] then before + 1 else before
  }

  /** One more tick: a visit if the tag is due, which moves the due time one interval on. */
  lemma VisitsOfAppended(registered: Time, interval: nat, ticks: seq<Time>, now: Time)
    ensures var v := Visits(registered, interval, ticks);
      Visits(registered, interval, ticks + [now]) == if Due(registered, interval, v) <= now then v + 1 else v
    ensures forall v: nat :: Due(registered, interval, v + 1) == Due(registered, interval, v) + interval
  {
    assert (ticks + [now])[..|ticks|] == ticks;
    forall v: nat ensures Due(registered, interval, v + 1) == Due(registered, interval, v) + interval {
      assert (v + 2) * interval == (v + 1) * interval + interval;
    }
  }

  /** How many whole intervals have passed by the n-th tick; none by the registration itself. */
  function Elapsed(registered: Time, interval: nat, ticks: seq<Time>, n: nat): int
    requires n <= |ticks| && 0 < interval
  {
    if n == 0 then 0 else (ticks[n - 1] - registered) / interval
  }

  /** The clock does not run backwards. */
  ghost predicate Monotone(registered: Time, ticks: seq<Time>) {
    && (ticks != [] ==> registered <= ticks[0])
    && forall i :: 0 < i < |ticks| ==> ticks[i - 1] <= ticks[i]
  }

  lemma Quotient(x: int, d: int, q: int)
    requires 0 < d
    ensures q * d <= x <==> q <= x / d
  {
    if q <= x / d {
      assert q * d <= (x / d) * d;
    } else {
      assert (x / d + 1) * d <= q * d;
    }
  }

  /** A tag is due exactly when more whole intervals have passed than it has been visited. */
  lemma DueIffBehind(registered: Time, interval: nat, visits: nat, now: Time)
    requires 0 < interval
    ensures Due(registered, interval, visits) <= now <==> visits < (now - registered) / interval
  {
    Quotient(now - registered, interval, visits + 1);
  }

  lemma {:induction false} ElapsedGrows(registered: Time, interval: nat, ticks: seq<Time>, j: nat, n: nat)
    requires 0 < interval && j <= n <= |ticks| && Monotone(registered, ticks)
    ensures 0 <= Elapsed(registered, interval, ticks, j) <= Elapsed(registered, interval, ticks, n)
  {
    if n == 0 {
    } else if j == n {
      ElapsedGrows(registered, interval, ticks, n - 1, n - 1);
      Later(registered, interval, ticks, n);
    } else {
      ElapsedGrows(registered, interval, ticks, j, n - 1);
      Later(registered, interval, ticks, n);
    }
  }

  lemma Later(registered: Time, interval: nat, ticks: seq<Time>, n: nat)
    requires 0 < interval && 0 < n <= |ticks| && Monotone(registered, ticks)
    ensures Elapsed(registered, interval, ticks, n - 1) <= Elapsed(registered, interval, ticks, n)
  {
    var was := if n == 1 then registered else ticks[n - 2];
    var q := (was - registered) / interval;
    assert q == Elapsed(registered, interval, ticks, n - 1) by {
      if n == 1 {
        assert 0 / interval == 0;
      }
    }
    Quotient(was - registered, interval, q);
    Quotient(ticks[n - 1] - registered, interval, q);
  }

  /** The ticks that follow the j-th bound the visits: what had elapsed then, and at most one visit a tick. */
  function Reach(registered: Time, interval: nat, ticks: seq<Time>, j: nat): int
    requires j <= |ticks| && 0 < interval
  {
    Elapsed(registered, interval, ticks, j) + (|ticks| - j)
  }

  lemma ReachOfOneMore(registered: Time, interval: nat, ticks: seq<Time>, j: nat)
    requires j < |ticks| && 0 < interval
    ensures Reach(registered, interval, ticks, j) == Reach(registered, interval, ticks[..|ticks| - 1], j) + 1
  {
  }

  /** A tick visits the tag unless it has already been visited once for every interval that has passed. */
  lemma VisitsOfOneMore(registered: Time, interval: nat, ticks: seq<Time>)
    requires ticks != [] && 0 < interval
    ensures var before := Visits(registered, interval, ticks[..|ticks| - 1]);
      Visits(registered, interval, ticks)
        == if before < Elapsed(registered, interval, ticks, |ticks|) then before + 1 else before
  {
    DueIffBehind(registered, interval, Visits(registered, interval, ticks[..|ticks| - 1]), ticks[|ticks| - 1]);
  }

  /**
   * Exactly how often a tag is visited, for every run of ticks, late or not: the least of what the ticks after some
   * moment can reach.
   */
  lemma {:induction false} VisitsAreLeastReach(registered: Time, interval: nat, ticks: seq<Time>)
    requires 0 < interval && Monotone(registered, ticks)
    ensures forall j: nat :: j <= |ticks| ==>
      Visits(registered, interval, ticks) <= Reach(registered, interval, ticks, j)
    ensures exists j: nat ::
      j <= |ticks| && Visits(registered, interval, ticks) == Reach(registered, interval, ticks, j)
  {
    if ticks == [] {
      assert Visits(registered, interval, ticks) == Reach(registered, interval, ticks, 0);
    } else {
      VisitsAreLeastReach(registered, interval, ticks[..|ticks| - 1]);
      LeastReachOfOneMore(registered, interval, ticks);
    }
  }

  lemma LeastReachOfOneMore(registered: Time, interval: nat, ticks: seq<Time>)
    requires 0 < interval && ticks != [] && Monotone(registered, ticks)
    requires var shorter := ticks[..|ticks| - 1];
      && (forall j: nat :: j < |ticks| ==>
            Visits(registered, interval, shorter) <= Reach(registered, interval, shorter, j))
      && (exists j: nat ::
            j < |ticks| && Visits(registered, interval, shorter) == Reach(registered, interval, shorter, j))
    ensures forall j: nat :: j <= |ticks| ==>
      Visits(registered, interval, ticks) <= Reach(registered, interval, ticks, j)
    ensures exists j: nat ::
      j <= |ticks| && Visits(registered, interval, ticks) == Reach(registered, interval, ticks, j)
  {
    hide Visits, Elapsed, Reach, Monotone;
    var n, shorter := |ticks|, ticks[..|ticks| - 1];
    var least: nat :| least < n && Visits(registered, interval, shorter) == Reach(registered, interval, shorter, least);
    VisitsOfOneMore(registered, interval, ticks);
    ReachAtTheEnd(registered, interval, ticks);
    ReachOfOneMore(registered, interval, ticks, least);
    ReachOfOneMore(registered, interval, ticks, n - 1);
    forall j: nat | j <= n ensures Visits(registered, interval, ticks) <= Reach(registered, interval, ticks, j) {
      if j < n {
        ReachOfOneMore(registered, interval, ticks, j);
      }
    }
    if Visits(registered, interval, ticks) == Visits(registered, interval, shorter) {
      assert Visits(registered, interval, ticks) == Reach(registered, interval, ticks, n);
    } else {
      assert Visits(registered, interval, ticks) == Reach(registered, interval, ticks, least);
    }
  }

  lemma ReachAtTheEnd(registered: Time, interval: nat, ticks: seq<Time>)
    requires 0 < interval && ticks != [] && Monotone(registered, ticks)
    ensures Reach(registered, interval, ticks, |ticks|) == Elapsed(registered, interval, ticks, |ticks|)
    ensures Reach(registered, interval, ticks, |ticks| - 1) <= Elapsed(registered, interval, ticks, |ticks|) + 1
  {
    Later(registered, interval, ticks, |ticks|);
  }

  /** Never visited more often than whole intervals have passed, however late the ticks. */
  lemma NeverAhead(registered: Time, interval: nat, ticks: seq<Time>)
    requires 0 < interval && Monotone(registered, ticks)
    ensures Visits(registered, interval, ticks) <= Elapsed(registered, interval, ticks, |ticks|)
  {
    VisitsAreLeastReach(registered, interval, ticks);
    assert Reach(registered, interval, ticks, |ticks|) == Elapsed(registered, interval, ticks, |ticks|);
  }

  /** The decay keeps pace exactly when no stretch of ticks has fewer ticks than intervals that passed during it. */
  lemma KeepsPaceIff(registered: Time, interval: nat, ticks: seq<Time>)
    requires 0 < interval && Monotone(registered, ticks)
    ensures Visits(registered, interval, ticks) == Elapsed(registered, interval, ticks, |ticks|)
      <==> forall j: nat :: j <= |ticks| ==>
        Elapsed(registered, interval, ticks, |ticks|) - Elapsed(registered, interval, ticks, j) <= |ticks| - j
  {
    VisitsAreLeastReach(registered, interval, ticks);
    var v, all := Visits(registered, interval, ticks), Elapsed(registered, interval, ticks, |ticks|);
    var least: nat :| least <= |ticks| && v == Reach(registered, interval, ticks, least);
    if v == all {
      forall j: nat | j <= |ticks| ensures all - Elapsed(registered, interval, ticks, j) <= |ticks| - j {
        assert v <= Reach(registered, interval, ticks, j);
      }
    } else {
      NeverAhead(registered, interval, ticks);
      assert all - Elapsed(registered, interval, ticks, least) > |ticks| - least;
    }
  }

  /** Consecutive ticks, and the registration and the first tick, are at most this far apart. */
  ghost predicate OnTime(registered: Time, ticks: seq<Time>, gap: nat) {
    && (ticks != [] ==> ticks[0] <= registered + gap)
    && forall i :: 0 < i < |ticks| ==> ticks[i] <= ticks[i - 1] + gap
  }

  /** When the ticks come at least once an interval, each whole interval that passes is one visit. */
  lemma {:induction false} OnTimeKeepsPace(registered: Time, interval: nat, ticks: seq<Time>, gap: nat)
    requires 0 < interval && Monotone(registered, ticks)
    requires OnTime(registered, ticks, gap) && gap <= interval
    ensures Visits(registered, interval, ticks) == Elapsed(registered, interval, ticks, |ticks|)
  {
    if ticks != [] {
      var n := |ticks|;
      var shorter := ticks[..n - 1];
      OnTimeKeepsPace(registered, interval, shorter, gap);
      var before := Visits(registered, interval, shorter);
      assert before == Elapsed(registered, interval, ticks, n - 1);
      Later(registered, interval, ticks, n);
      DueIffBehind(registered, interval, before, ticks[n - 1]);
      var was := if n == 1 then registered else ticks[n - 2];
      assert 0 / interval == 0;
      DueIffBehind(registered, interval, before, was);
      assert Due(registered, interval, before + 1) == Due(registered, interval, before) + interval;
      DueIffBehind(registered, interval, before + 1, ticks[n - 1]);
    }
  }
}
