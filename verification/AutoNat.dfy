/** The confidence machine of AutoNAT: how observations of reachability become a status. */
module AutoNat {
  import opened Common

  datatype Reachability = Unknown | Public | Private

  const MAX_CONFIDENCE: nat := 3

  /** What a probe answered: no error, a dial error, or another error. */
  datatype DialResult = Dialed | DialError | OtherError

  /** What the background loop reacts to: a finished probe that was not refused, or an update of the local addresses. */
  datatype Event = Response(result: DialResult) | AddressesUpdated

  function Observation(result: DialResult): Reachability {
    match result
    case Dialed => Public
    case DialError => Private
    case OtherError => Unknown
  }

  /** The status, the confidence in it, whether a service runs if there is one, and the statuses emitted so far. */
  datatype State = State(status: Reachability, confidence: int, service: Option<bool>, emitted: seq<Reachability>)

  /**
   * The rule the observations follow. One that confirms a known status strengthens it; public displaces any other
   * status at once; any other weakens the status, and displaces it when there is no confidence left.
   */
  function Observed(s: State, observation: Reachability): State {
    if observation == s.status && s.status != Unknown then
      s.(confidence := if s.confidence < MAX_CONFIDENCE then s.confidence + 1 else s.confidence)
    else if observation == Public || s.confidence <= 0 then Displaced(s, observation)
    else s.(confidence := s.confidence - 1)
  }

  /** A change of status drops the confidence, switches the service and is emitted. */
  function Displaced(s: State, status: Reachability): State {
    if s.status == status then s
    else State(status, 0, if s.service.Some? then Some(status != Private) else None, s.emitted + [status])
  }

  /** A change of addresses takes the confidence from its maximum. */
  function Apply(s: State, e: Event): State {
    match e
    case Response(result) => Observed(s, Observation(result))
    case AddressesUpdated => if s.confidence == MAX_CONFIDENCE then s.(confidence := s.confidence - 1) else s
  }

  function Run(s: State, events: seq<Event>): State
    decreases |events|
  {
    if events == [] then s else Run(Apply(s, events[0]), events[1..])
  }

  /** Any start: unknown, and a service, if there is one, enabled. */
  ghost predicate Initial(s: State) {
    s.status == Unknown && s.confidence == 0 && s.service in {None, Some(true)} && s.emitted == []
  }

  /** The status a reader of the events has: the last one emitted. */
  function LastEmitted(emitted: seq<Reachability>): Reachability {
    if emitted == [] then Unknown else emitted[|emitted| - 1]
  }

  /** What holds in every run. */
  ghost predicate Inv(s: State) {
    && 0 <= s.confidence <= MAX_CONFIDENCE
    && (s.status == Unknown ==> s.confidence == 0)
    && (s.service.Some? ==> (s.service.value <==> s.status != Private))
    && LastEmitted(s.emitted) == s.status
    && (s.emitted != [] ==> s.emitted[0] != Unknown)
    && (forall i :: 0 < i < |s.emitted| ==> s.emitted[i] != s.emitted[i - 1])
  }

  // ---------------------------------------------------------------- the code

  class AmbientAutoNAT {
    var status: Reachability
    var confidence: int
    var service: Option<bool>
    ghost var emitted: seq<Reachability>

    constructor (withService: bool)
      ensures Initial(Now()) && Inv(Now()) && (service.Some? <==> withService)
    {
      status, confidence, emitted := Unknown, 0, [];
      service := if withService then Some(true) else None;
      new;
      InitialHolds(Now());
    }

    ghost function Now(): State
      reads this
    {
      State(status, confidence, service, emitted)
    }

    method Enable(on: bool)
      modifies this`service
      ensures service == if old(service).Some? then Some(on) else None
    {
      if service.Some? {
        service := Some(on);
      }
    }

    method EmitStatus()
      modifies this`emitted
      ensures emitted == old(emitted) + [status]
    {
      emitted := emitted + [status];
    }

    /** Updates status and confidence. */
    method RecordObservation(observation: Reachability)
      requires Inv(Now())
      modifies this
      ensures Now() == Observed(old(Now()), observation)
    {
      var currentStatus := status;
      if observation == Public {
        var changed := false;
        if currentStatus != Public {
          confidence := 0;
          Enable(true);
          changed := true;
        } else if confidence < MAX_CONFIDENCE {
          confidence := confidence + 1;
        }
        status := observation;
        if changed {
          EmitStatus();
        }
      } else if observation == Private {
        if currentStatus != Private {
          if confidence > 0 {
            confidence := confidence - 1;
          } else {
            confidence := 0;
            status := observation;
            Enable(false);
            EmitStatus();
          }
        } else if confidence < MAX_CONFIDENCE {
          confidence := confidence + 1;
          status := observation;
        }
      } else if confidence > 0 {
        confidence := confidence - 1;
      } else {
        status := observation;
        if currentStatus != Unknown {
          Enable(true);
          EmitStatus();
        }
      }
    }

    method HandleDialResponse(result: DialResult)
      requires Inv(Now())
      modifies this
      ensures Now() == Apply(old(Now()), Response(result))
    {
      var observation;
      match result {
        case Dialed => observation := Public;
        case DialError => observation := Private;
        case OtherError => observation := Unknown;
      }
      RecordObservation(observation);
    }

    method AddressesChanged()
      modifies this`confidence
      ensures Now() == Apply(old(Now()), AddressesUpdated)
    {
      if confidence == MAX_CONFIDENCE {
        confidence := confidence - 1;
      }
    }

    /** The background loop on the events that touch status and confidence. */
    method Background(events: seq<Event>)
      requires Inv(Now())
      modifies this
      ensures Now() == Run(old(Now()), events) && Inv(Now())
    {
      hide Apply, Inv;
      for i := 0 to |events|
        invariant Run(Now(), events[i..]) == Run(old(Now()), events) && Inv(Now())
      {
        assert events[i..][0] == events[i] && events[i..][1..] == events[i + 1..];
        ApplyKeeps(Now(), events[i]);
        match events[i] {
          case Response(result) => HandleDialResponse(result);
          case AddressesUpdated => AddressesChanged();
        }
      }
    }
  }

  // ---------------------------------------------------------------- runs

  lemma InitialHolds(s: State)
    requires Initial(s)
    ensures Inv(s)
  {
  }

  lemma ApplyKeeps(s: State, e: Event)
    requires Inv(s)
    ensures Inv(Apply(s, e))
  {
  }

  /**
   * In every run: the confidence stays in bounds and is none while unknown, a service runs exactly when the status is
   * not private, and the events emitted are exactly the changes of status.
   */
  lemma {:induction false} RunKeeps(s: State, events: seq<Event>)
    requires Inv(s)
    ensures Inv(Run(s, events))
    ensures Run(s, events).emitted == s.emitted + Changes(s, events)
    decreases |events|
  {
    hide Inv;
    if events != [] {
      ApplyKeeps(s, events[0]);
      EmitsTheChange(s, events[0]);
      RunKeeps(Apply(s, events[0]), events[1..]);
      var change := if Apply(s, events[0]).status != s.status then [Apply(s, events[0]).status] else [];
      assert s.emitted + change + Changes(Apply(s, events[0]), events[1..])
        == s.emitted + (change + Changes(Apply(s, events[0]), events[1..]));
    }
  }

  lemma EmitsTheChange(s: State, e: Event)
    requires Inv(s)
    ensures Apply(s, e).emitted == s.emitted + if Apply(s, e).status != s.status then [Apply(s, e).status] else []
  {
  }

  /** The changes of status during a run. */
  function Changes(s: State, events: seq<Event>): seq<Reachability>
    decreases |events|
  {
    if events == [] then []
    else
      var next := Apply(s, events[0]);
      (if next.status != s.status then [next.status] else []) + Changes(next, events[1..])
  }

  function Responses(events: seq<Event>): nat {
    if events == [] then 0 else (if events[0].Response? then 1 else 0) + Responses(events[1..])
  }

  /** All probes of these events observed this. */
  ghost predicate AllObserve(events: seq<Event>, observation: Reachability) {
    forall e :: e in events && e.Response? ==> Observation(e.result) == observation
  }

  /**
   * Equal observations win: one more of them than the confidence, so any four, bring any state to the status observed,
   * and keep it there, whatever updates of addresses come between them.
   */
  lemma {:induction false} EqualObservationsWin(s: State, events: seq<Event>, observation: Reachability)
    requires Inv(s) && AllObserve(events, observation)
    requires s.status == observation || s.confidence < Responses(events)
    ensures Run(s, events).status == observation
    decreases |events|
  {
    if events != [] {
      assert events[0] in events;
      ApplyKeeps(s, events[0]);
      EqualObservationsWin(Apply(s, events[0]), events[1..], observation);
    }
  }

  lemma FourWin(s: State, events: seq<Event>, observation: Reachability)
    requires Inv(s) && AllObserve(events, observation) && 4 <= Responses(events)
    ensures Run(s, events).status == observation
  {
    EqualObservationsWin(s, events, observation);
  }

  /** No probe of these events observed a public address. */
  ghost predicate NonePublic(events: seq<Event>) {
    forall e :: e in events && e.Response? ==> e.result != Dialed
  }

  /** The confidence once the update of addresses that comes before the first probe, if one does, has taken effect. */
  function Bound(s: State, events: seq<Event>): int {
    if s.confidence == MAX_CONFIDENCE && events != [] && events[0].AddressesUpdated? then MAX_CONFIDENCE - 1
    else s.confidence
  }

  /**
   * Observations other than public displace the public status exactly when there are more of them than the confidence,
   * whatever updates of addresses come between them: only one that comes first, at full confidence, counts, as one.
   */
  lemma {:induction false} PublicIsDisplacedIff(s: State, events: seq<Event>)
    requires Inv(s) && s.status == Public && NonePublic(events)
    ensures Run(s, events).status != Public <==> Bound(s, events) < Responses(events)
    decreases |events|
  {
    if events != [] {
      assert events[0] in events;
      ApplyKeeps(s, events[0]);
      if events[0].Response? && s.confidence == 0 {
        NeverPublic(Apply(s, events[0]), events[1..]);
      } else {
        PublicIsDisplacedIff(Apply(s, events[0]), events[1..]);
      }
    }
  }

  lemma {:induction false} NeverPublic(s: State, events: seq<Event>)
    requires Inv(s) && s.status != Public && NonePublic(events)
    ensures Run(s, events).status != Public
    decreases |events|
  {
    if events != [] {
      assert events[0] in events;
      ApplyKeeps(s, events[0]);
      NeverPublic(Apply(s, events[0]), events[1..]);
    }
  }

  /** All these events are probes with this result. */
  ghost predicate AllAnswer(events: seq<Event>, result: DialResult) {
    forall i :: 0 <= i < |events| ==> events[i] == Response(result)
  }

  /**
   * Confirmation strengthens: dials that succeed on a public status, or fail on a private one, leave the status and
   * raise the confidence by one each, up to three.
   */
  lemma {:induction false} ConfirmationsStrengthen(s: State, events: seq<Event>)
    requires Inv(s)
    requires (s.status == Public && AllAnswer(events, Dialed)) || (s.status == Private && AllAnswer(events, DialError))
    ensures var after := Run(s, events);
      && after.status == s.status && after.emitted == s.emitted && after.service == s.service
      && after.confidence == if s.confidence + |events| <= 3 then s.confidence + |events| else 3
    decreases |events|
  {
    if events != [] {
      ApplyKeeps(s, events[0]);
      ConfirmationsStrengthen(Apply(s, events[0]), events[1..]);
    }
  }

  /** One successful dial makes the status public, whatever it was, and a status that is new has no confidence yet. */
  lemma {:induction false} DialedIsPublic(s: State, events: seq<Event>)
    requires Inv(s)
    ensures var before, after := Run(s, events), Run(s, events + [Response(Dialed)]);
      after.status == Public && (before.status != Public ==> after.confidence == 0)
    decreases |events|
  {
    if events == [] {
      assert [Response(Dialed)][1..] == [];
      assert events + [Response(Dialed)] == [Response(Dialed)];
    } else {
      assert (events + [Response(Dialed)])[1..] == events[1..] + [Response(Dialed)];
      ApplyKeeps(s, events[0]);
      DialedIsPublic(Apply(s, events[0]), events[1..]);
    }
  }

  /** Without confidence the next probe decides: a dial means public, a dial error private, another error unknown. */
  lemma NoConfidenceFollows(s: State, result: DialResult)
    requires Inv(s) && s.confidence == 0
    ensures Run(s, [Response(result)]).status == match result case Dialed => Public case DialError => Private
      case OtherError => Unknown
  {
    assert [Response(result)][1..] == [];
  }

  lemma {:induction false} RunOfBoth(s: State, first: seq<Event>, second: seq<Event>)
    ensures Run(s, first + second) == Run(Run(s, first), second)
    decreases |first|
  {
    if first == [] {
      assert first + second == second;
    } else {
      assert (first + second)[1..] == first[1..] + second;
      RunOfBoth(Apply(s, first[0]), first[1..], second);
    }
  }

  /**
   * How much it takes: from the start, after n + 1 successful dials, probes that do not succeed displace the public
   * status if and only if there are more of them than n, or than three.
   */
  lemma PublicLastsAsConfirmed(s: State, dials: seq<Event>, others: seq<Event>)
    requires Initial(s) && dials != [] && AllAnswer(dials, Dialed)
    requires forall e :: e in others ==> e == Response(DialError) || e == Response(OtherError)
    ensures Run(s, dials + others).status != Public
      <==> (if |dials| - 1 <= 3 then |dials| - 1 else 3) < |others|
  {
    hide Apply, Inv, Bound;
    InitialHolds(s);
    AfterDials(s, dials);
    RunOfBoth(s, dials, others);
    RunKeeps(s, dials);
    AllProbes(others);
    PublicIsDisplacedIff(Run(s, dials), others);
    BoundOfProbes(Run(s, dials), others);
  }

  lemma AfterDials(s: State, dials: seq<Event>)
    requires Initial(s) && dials != [] && AllAnswer(dials, Dialed)
    ensures Run(s, dials).status == Public
    ensures Run(s, dials).confidence == if |dials| - 1 <= 3 then |dials| - 1 else 3
  {
    InitialHolds(s);
    ApplyKeeps(s, dials[0]);
    ConfirmationsStrengthen(Apply(s, dials[0]), dials[1..]);
  }

  lemma BoundOfProbes(s: State, events: seq<Event>)
    requires events != [] ==> events[0].Response?
    ensures Bound(s, events) == s.confidence
  {
  }

  lemma {:induction false} AllProbes(events: seq<Event>)
    requires forall e :: e in events ==> e.Response?
    ensures Responses(events) == |events| && (events != [] ==> events[0].Response?)
  {
    if events != [] {
      assert events[0] in events;
      AllProbes(events[1..]);
    }
  }

  /** Probes that say nothing weaken a private status in the same way, and displace it by an unknown one. */
  lemma {:induction false} PrivateIsDisplacedIff(s: State, events: seq<Event>)
    requires Inv(s) && s.status == Private && forall e :: e in events && e.Response? ==> e.result == OtherError
    ensures Run(s, events).status == if Bound(s, events) < Responses(events) then Unknown else Private
    decreases |events|
  {
    if events != [] {
      assert events[0] in events;
      ApplyKeeps(s, events[0]);
      if events[0].Response? && s.confidence == 0 {
        EqualObservationsWin(Apply(s, events[0]), events[1..], Unknown);
      } else {
        PrivateIsDisplacedIff(Apply(s, events[0]), events[1..]);
      }
    }
  }
}
