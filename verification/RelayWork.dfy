/** The scheduled work of the relay finder: when it runs next, and what it clears. */
module RelayWork {
  type PeerId = nat
  type Time = int

  const SECOND: nat := 1_000_000_000
  const REFRESH_INTERVAL: nat := 60 * SECOND

  /** The entries that have not expired. */
  function Fresh(entries: map<PeerId, Time>, age: nat, now: Time): map<PeerId, Time> {
    map p | p in entries && now < entries[p] + age :: entries[p]
  }

  /** No entry is new, and none is lost that has not expired. */
  ghost predicate Unexpired(before: map<PeerId, Time>, after: map<PeerId, Time>, age: nat, now: Time) {
    && (forall p :: p in after ==> p in before && after[p] == before[p])
    && (forall p :: p in before && now < before[p] + age ==> p in after)
  }

  /** The deadline is not later than any entry's expiry, nor than that of an entry made from now on. */
  ghost predicate Covers(deadline: Time, entries: map<PeerId, Time>, age: nat, clock: Time) {
    && deadline <= clock + age
    && forall p :: p in entries ==> deadline <= entries[p] + age
  }

  /** The deadline is the least of the expiries and the time given. */
  ghost predicate Earliest(deadline: Time, entries: map<PeerId, Time>, age: nat, latest: Time) {
    && deadline <= latest
    && (forall p :: p in entries ==> deadline <= entries[p] + age)
    && (deadline == latest || exists p :: p in entries && deadline == entries[p] + age)
  }

  class RelayFinder {
    const minInterval: nat
    const backoffAge: nat
    const maxCandidateAge: nat
    /** When each candidate was added, and when the last attempt at each peer began. */
    var candidates: map<PeerId, Time>
    var backoff: map<PeerId, Time>
    var leastFrequentInterval: nat
    var nextRefresh: Time
    var nextBackoff: Time
    var nextOldCandidateCheck: Time
    var nextAllowedCallToPeerSource: Time
    /** What the clock shows; no time handed to the scheduled work is later. */
    ghost var clock: Time

    constructor (minInterval: nat, backoffAge: nat, maxCandidateAge: nat, now: Time)
      ensures Valid() && clock == now && candidates == map[] && backoff == map[]
      ensures this.minInterval == minInterval && this.backoffAge == backoffAge
        && this.maxCandidateAge == maxCandidateAge
    {
      this.minInterval, this.backoffAge, this.maxCandidateAge := minInterval, backoffAge, maxCandidateAge;
      candidates, backoff := map[], map[];
      var least := minInterval;
      if backoffAge > least || least == 0 {
        least := backoffAge;
      }
      if maxCandidateAge > least || least == 0 {
        least := maxCandidateAge;
      }
      if REFRESH_INTERVAL > least || least == 0 {
        least := REFRESH_INTERVAL;
      }
      leastFrequentInterval := least;
      nextRefresh, nextBackoff, nextOldCandidateCheck := now + REFRESH_INTERVAL, now + backoffAge,
        now + maxCandidateAge;
      nextAllowedCallToPeerSource := now - SECOND;
      clock := now;
    }

    /** No stored deadline is later than the expiry of any entry it is there for. */
    ghost predicate Valid()
      reads this
    {
      && Covers(nextBackoff, backoff, backoffAge, clock)
      && Covers(nextOldCandidateCheck, candidates, maxCandidateAge, clock)
    }

    ghost method Elapse(now: Time)
      requires Valid() && clock <= now
      modifies this`clock
      ensures Valid() && clock == now
    {
      clock := now;
    }

    /** A candidate is found, or found again. */
    method AddCandidate(p: PeerId, now: Time)
      requires Valid() && now == clock
      modifies this`candidates
      ensures Valid() && candidates == old(candidates)[p := now]
    {
      candidates := candidates[p := now];
    }

    method RemoveCandidate(p: PeerId)
      requires Valid()
      modifies this`candidates
      ensures Valid() && candidates == old(candidates) - {p}
    {
      candidates := candidates - {p};
    }

    /** An attempt at a peer begins. */
    method StartBackoff(p: PeerId, now: Time)
      requires Valid() && now == clock
      modifies this`backoff
      ensures Valid() && backoff == old(backoff)[p := now]
    {
      backoff := backoff[p := now];
    }

    method ClearBackoff(now: Time) returns (nextTime: Time)
      modifies this`backoff
      ensures backoff == Fresh(old(backoff), backoffAge, now)
      ensures Unexpired(old(backoff), backoff, backoffAge, now)
      ensures Earliest(nextTime, backoff, backoffAge, now + backoffAge) && now <= nextTime
    {
      backoff, nextTime := Clear(backoff, backoffAge, now);
    }

    method ClearOldCandidates(now: Time) returns (nextTime: Time)
      modifies this`candidates
      ensures candidates == Fresh(old(candidates), maxCandidateAge, now)
      ensures Unexpired(old(candidates), candidates, maxCandidateAge, now)
      ensures Earliest(nextTime, candidates, maxCandidateAge, now + maxCandidateAge) && now <= nextTime
    {
      candidates, nextTime := Clear(candidates, maxCandidateAge, now);
    }

    /** Clears what is due to be cleared. */
    method ClearDue(now: Time)
      requires Valid() && now <= clock
      modifies this`backoff, this`nextBackoff, this`candidates, this`nextOldCandidateCheck
      ensures Valid() && now <= nextBackoff && now <= nextOldCandidateCheck
      ensures Unexpired(old(backoff), backoff, backoffAge, now)
      ensures Unexpired(old(candidates), candidates, maxCandidateAge, now)
      ensures backoff == if old(nextBackoff) < now then Fresh(old(backoff), backoffAge, now) else old(backoff)
      ensures candidates
        == if old(nextOldCandidateCheck) < now then Fresh(old(candidates), maxCandidateAge, now) else old(candidates)
    {
      hide Fresh;
      if nextBackoff < now {
        var t := ClearBackoff(now);
        nextBackoff := t;
      }
      if nextOldCandidateCheck < now {
        var t := ClearOldCandidates(now);
        nextOldCandidateCheck := t;
      }
    }

    /**
     * Runs the work that is due and answers when to run again. The time given is that for which a timer was set, so it
     * may be earlier than the clock, and earlier than the time of a run before. Whatever it is, the next run is later,
     * no stored deadline has passed, and nothing is left whose time had run out.
     */
    method RunScheduledWork(now: Time, limiterHasRoom: bool) returns (nextTime: Time, refresh: bool)
      requires Valid() && now <= clock
      modifies this
      ensures Valid() && clock == old(clock) && leastFrequentInterval == old(leastFrequentInterval)
      ensures now < nextTime
      ensures nextTime <= nextBackoff || nextTime == now + 1
      ensures nextTime <= nextOldCandidateCheck || nextTime == now + 1
      ensures nextTime <= nextRefresh || nextTime == now + 1
      ensures nextTime <= now + leastFrequentInterval || nextTime == now + 1
      ensures now <= nextBackoff && now <= nextOldCandidateCheck && now <= nextRefresh
      ensures backoff == if old(nextBackoff) < now then Fresh(old(backoff), backoffAge, now) else old(backoff)
      ensures candidates
        == if old(nextOldCandidateCheck) < now then Fresh(old(candidates), maxCandidateAge, now) else old(candidates)
      ensures forall p :: p in old(backoff) && now < old(backoff)[p] + backoffAge ==>
        p in backoff && backoff[p] == old(backoff)[p]
      ensures forall p :: p in old(candidates) && now < old(candidates)[p] + maxCandidateAge ==>
        p in candidates && candidates[p] == old(candidates)[p]
      ensures backoff.Keys <= old(backoff).Keys && candidates.Keys <= old(candidates).Keys
      ensures forall p :: p in backoff ==> now <= backoff[p] + backoffAge
      ensures forall p :: p in candidates ==> now <= candidates[p] + maxCandidateAge
      ensures refresh <==> old(nextRefresh) < now
    {
      hide Fresh;
      nextTime := now + leastFrequentInterval;
      refresh := false;
      if nextRefresh < now {
        nextRefresh := now + REFRESH_INTERVAL;
        refresh := true;
      }
      ClearDue(now);
      if nextAllowedCallToPeerSource < now {
        if limiterHasRoom {
          nextAllowedCallToPeerSource := now + minInterval;
          if nextAllowedCallToPeerSource < nextTime {
            nextTime := nextAllowedCallToPeerSource;
          }
        }
      } else {
        if nextAllowedCallToPeerSource < nextTime {
          nextTime := nextAllowedCallToPeerSource;
        }
      }
      if nextRefresh < nextTime {
        nextTime := nextRefresh;
      }
      if nextBackoff < nextTime {
        nextTime := nextBackoff;
      }
      if nextOldCandidateCheck < nextTime {
        nextTime := nextOldCandidateCheck;
      }
      if nextTime == now {
        nextTime := nextTime + 1;
      }
    }
  }

  /** Deletes what has expired, and answers when the next of the others expires. */
  method Clear(entries: map<PeerId, Time>, age: nat, now: Time) returns (left: map<PeerId, Time>, nextTime: Time)
    ensures left == Fresh(entries, age, now)
    ensures forall p :: p in left <==> p in entries && now < entries[p] + age
    ensures forall p :: p in left ==> left[p] == entries[p]
    ensures Earliest(nextTime, left, age, now + age)
    ensures now <= nextTime
  {
    left, nextTime := entries, now + age;
    var todo := entries.Keys;
    while todo != {}
      invariant todo <= entries.Keys
      invariant left == map p | p in entries && (p in todo || now < entries[p] + age) :: entries[p]
      invariant now <= nextTime <= now + age
      invariant forall p :: p in left.Keys - todo ==> nextTime <= entries[p] + age
      invariant nextTime == now + age || exists p :: p in left.Keys - todo && nextTime == entries[p] + age
      decreases todo
    {
      var p :| p in todo;
      todo := todo - {p};
      var expiry := entries[p] + age;
      if now < expiry {
        if expiry < nextTime {
          nextTime := expiry;
        }
      } else {
        left := left - {p};
      }
    }
  }
}
