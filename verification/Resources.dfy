/**
 * The counters of one scope, its limits, and the checks that admit a reservation
 * (p2p/host/resource-manager/scope.go, type resources).
 */
module Resources {
  import opened Common
  import opened Int64

  type uint8 = x: int | 0 <= x < 256

  datatype Direction = Unknown | Inbound | Outbound

  /** A count for each direction. */
  datatype Flow = Flow(inbound: int, outbound: int)

  datatype Limit = Limit(memory: int64, streams: Flow, streamTotal: int, conns: Flow, connTotal: int, fd: int)
  {
    predicate Valid() {
      && 0 <= memory && 0 <= streams.inbound && 0 <= streams.outbound && 0 <= streamTotal
      && 0 <= conns.inbound && 0 <= conns.outbound && 0 <= connTotal && 0 <= fd
    }
  }

  /** A snapshot of the counters, and also an amount that is reserved or released in one go. */
  datatype Stat = Stat(memory: int, streams: Flow, conns: Flow, fd: int)

  const NO_FLOW := Flow(0, 0)
  const ZERO := Stat(0, NO_FLOW, NO_FLOW, 0)

  function Plus(a: Stat, b: Stat): Stat {
    Stat(a.memory + b.memory, PlusFlow(a.streams, b.streams), PlusFlow(a.conns, b.conns), a.fd + b.fd)
  }

  function PlusFlow(a: Flow, b: Flow): Flow { Flow(a.inbound + b.inbound, a.outbound + b.outbound) }

  function Minus(a: Stat, b: Stat): Stat {
    Stat(a.memory - b.memory, MinusFlow(a.streams, b.streams), MinusFlow(a.conns, b.conns), a.fd - b.fd)
  }

  function MinusFlow(a: Flow, b: Flow): Flow { Flow(a.inbound - b.inbound, a.outbound - b.outbound) }

  predicate NonNegative(a: Stat) {
    && 0 <= a.memory && 0 <= a.streams.inbound && 0 <= a.streams.outbound
    && 0 <= a.conns.inbound && 0 <= a.conns.outbound && 0 <= a.fd
  }

  predicate Leq(a: Stat, b: Stat) {
    && a.memory <= b.memory
    && a.streams.inbound <= b.streams.inbound && a.streams.outbound <= b.streams.outbound
    && a.conns.inbound <= b.conns.inbound && a.conns.outbound <= b.conns.outbound
    && a.fd <= b.fd
  }

  datatype Error =
    | ScopeClosed
    | NegativeReservation
    | MemoryLimitExceeded
    | StreamLimitExceeded
    | ConnLimitExceeded
    | FdLimitExceeded

  /** What a caller asks a scope for; `Bulk` is the whole snapshot that moves with a connection or stream. */
  datatype Request =
    | Memory(size: int64, prio: uint8)
    | AddStream(sdir: Direction)
    | AddConn(cdir: Direction, usefd: bool)
    | Bulk(stat: Stat)

  function StreamDelta(dir: Direction): Stat {
    ZERO.(streams := if dir.Inbound? then Flow(1, 0) else Flow(0, 1))
  }

  function ConnDelta(dir: Direction, usefd: bool): Stat {
    ZERO.(conns := if dir.Inbound? then Flow(1, 0) else Flow(0, 1), fd := if usefd then 1 else 0)
  }

  /** The amount a granted request adds to the counters. */
  function Delta(req: Request): Stat {
    match req
    case Memory(size, _) => ZERO.(memory := size)
    case AddStream(dir) => StreamDelta(dir)
    case AddConn(dir, usefd) => ConnDelta(dir, usefd)
    case Bulk(st) => st
  }

  // ---------------------------------------------------------------- the checks, as the code makes them

  /** The share of `limit` open to priority `prio`, by 64-bit arithmetic or, on overflow, by big integers. */
  function Threshold(limit: int64, prio: uint8): int64 {
    var (product, ok) := MulWithOverflow(1 + prio, limit);
    if ok then Div(product, 256) else Wrap((limit * (1 + prio)) / 256)
  }

  function CheckMemory(limit: Limit, rc: Stat, size: int64, prio: uint8): Option<Error> {
    if size < 0 then
      Some(NegativeReservation)
    else if limit.memory == MAX_INT64 then
      None
    else
      var (newmem, addOk) := AddWithOverflow(rc.memory, size);
      if !addOk || newmem > Threshold(limit.memory, prio) then Some(MemoryLimitExceeded) else None
  }

  function CheckStreams(limit: Limit, rc: Stat, incount: int, outcount: int): Option<Error> {
    if incount > 0 && rc.streams.inbound + incount > limit.streams.inbound then Some(StreamLimitExceeded)
    else if outcount > 0 && rc.streams.outbound + outcount > limit.streams.outbound then Some(StreamLimitExceeded)
    else if rc.streams.inbound + incount + rc.streams.outbound
      + outcount > limit.streamTotal then Some(StreamLimitExceeded)
    else None
  }

  function CheckConns(limit: Limit, rc: Stat, incount: int, outcount: int, fdcount: int): Option<Error> {
    if incount > 0 && rc.conns.inbound + incount > limit.conns.inbound then Some(ConnLimitExceeded)
    else if outcount > 0 && rc.conns.outbound + outcount > limit.conns.outbound then Some(ConnLimitExceeded)
    else if rc.conns.inbound + incount + rc.conns.outbound + outcount > limit.connTotal then Some(ConnLimitExceeded)
    else if fdcount > 0 && rc.fd + fdcount > limit.fd then Some(FdLimitExceeded)
    else None
  }

  /** ReservationPriorityAlways: a moving connection or stream may use the whole memory limit. */
  const PRIORITY_ALWAYS: uint8 := 255

  /** The error with which a request is refused, if it is. */
  function Check(limit: Limit, rc: Stat, req: Request): Option<Error> {
    match req
    case Memory(size, prio) => CheckMemory(limit, rc, size, prio)
    case AddStream(dir) => CheckStreams(limit, rc, StreamDelta(dir).streams.inbound, StreamDelta(dir).streams.outbound)
    case AddConn(dir, usefd) =>
      var d := ConnDelta(dir, usefd);
      CheckConns(limit, rc, d.conns.inbound, d.conns.outbound, d.fd)
    case Bulk(st) =>
      var mem := CheckMemory(limit, rc, Wrap(st.memory), PRIORITY_ALWAYS);
      if mem.Some? then mem
      else
        var streams := CheckStreams(limit, rc, st.streams.inbound, st.streams.outbound);
        if streams.Some? then streams else CheckConns(limit, rc, st.conns.inbound, st.conns.outbound, st.fd)
  }

  /** Adding an amount: plain additions, of which the one on memory is an int64 addition. */
  function Add(rc: Stat, d: Stat): Stat {
    var sum := Plus(rc, d);
    sum.(memory := Wrap(sum.memory))
  }

  function Clamp(x: int): nat { if x < 0 then 0 else x }

  function ClampFlow(x: Flow): Flow { Flow(Clamp(x.inbound), Clamp(x.outbound)) }

  /** Removing an amount: a counter that would turn negative is set to zero ("BUG: too much released"). */
  function Remove(rc: Stat, d: Stat): Stat {
    var left := Minus(rc, d);
    Stat(Clamp(Wrap(left.memory)), ClampFlow(left.streams), ClampFlow(left.conns), Clamp(left.fd))
  }

  // ---------------------------------------------------------------- what the checks mean

  /** Room for more memory, in plain mathematics: usage stays within the priority's share of the limit. */
  predicate MemoryRoom(limit: Limit, rc: Stat, size: int, prio: uint8) {
    0 <= size && (limit.memory == MAX_INT64 || rc.memory + size <= limit.memory * (1 + prio) / 256)
  }

  predicate StreamRoom(limit: Limit, rc: Stat, d: Stat) {
    && (d.streams.inbound > 0 ==> rc.streams.inbound + d.streams.inbound <= limit.streams.inbound)
    && (d.streams.outbound > 0 ==> rc.streams.outbound + d.streams.outbound <= limit.streams.outbound)
    && rc.streams.inbound + d.streams.inbound + rc.streams.outbound + d.streams.outbound <= limit.streamTotal
  }

  predicate ConnRoom(limit: Limit, rc: Stat, d: Stat) {
    && (d.conns.inbound > 0 ==> rc.conns.inbound + d.conns.inbound <= limit.conns.inbound)
    && (d.conns.outbound > 0 ==> rc.conns.outbound + d.conns.outbound <= limit.conns.outbound)
    && rc.conns.inbound + d.conns.inbound + rc.conns.outbound + d.conns.outbound <= limit.connTotal
    && (d.fd > 0 ==> rc.fd + d.fd <= limit.fd)
  }

  predicate Room(limit: Limit, rc: Stat, req: Request) {
    match req
    case Memory(size, prio) => MemoryRoom(limit, rc, size, prio)
    case AddStream(_) => StreamRoom(limit, rc, Delta(req))
    case AddConn(_, _) => ConnRoom(limit, rc, Delta(req))
    case Bulk(st) =>
      && MemoryRoom(limit, rc, st.memory, PRIORITY_ALWAYS)
      && StreamRoom(limit, rc, st) && ConnRoom(limit, rc, st)
  }

  /** Counters are never negative and fit their Go types. */
  predicate Sane(rc: Stat) { NonNegative(rc) && rc.memory <= MAX_INT64 }

  /** Every counter is within its limit: each direction, both totals, descriptors and memory. */
  predicate Within(limit: Limit, rc: Stat) {
    && NonNegative(rc)
    && rc.memory <= limit.memory
    && rc.streams.inbound <= limit.streams.inbound && rc.streams.outbound <= limit.streams.outbound
    && rc.streams.inbound + rc.streams.outbound <= limit.streamTotal
    && rc.conns.inbound <= limit.conns.inbound && rc.conns.outbound <= limit.conns.outbound
    && rc.conns.inbound + rc.conns.outbound <= limit.connTotal
    && rc.fd <= limit.fd
  }

  /** A memory limit of MaxInt64 switches the overflow check off; the sum must fit for other reasons. */
  predicate Fits(limit: Limit, rc: Stat, d: Stat) {
    limit.memory == MAX_INT64 ==> rc.memory + d.memory <= MAX_INT64
  }

  /** An amount a caller may ask for or hold. */
  predicate Amount(d: Stat) { NonNegative(d) && d.memory <= MAX_INT64 }

  lemma ShareOfLimit(limit: int64, prio: uint8)
    requires 0 <= limit
    ensures 0 <= limit * (1 + prio) / 256 <= limit
  {
    AtLeastOneTimes(limit + 1, 1 + prio);
    assert limit * (1 + prio) <= limit * 256 by { if limit > 0 { MulMonotone(limit, 1 + prio, 256); } }
    assert 0 <= limit * (1 + prio) by { if limit > 0 { MulMonotone(limit, 0, 1 + prio); } }
  }

  lemma MulMonotone(x: int, a: int, b: int)
    requires x > 0 && a <= b
    ensures x * a <= x * b
  {
    if a < b { AtLeastOneTimes(b - a, x); assert x * b - x * a == (b - a) * x; }
  }

  /** Both arithmetic paths compute the floor of limit * (1 + prio) / 256. */
  lemma ThresholdIsExact(limit: int64, prio: uint8)
    requires 0 <= limit
    ensures Threshold(limit, prio) == limit * (1 + prio) / 256
  {
    MulIsExact(1 + prio, limit);
    ShareOfLimit(limit, prio);
    var product: int := limit * (1 + prio);
    assert (1 + prio) * limit == product;
    if InRange(product) {
      assert Div(product, 256) == product / 256;
    }
  }

  /** For every limit that is not "unlimited" and every usage, memory is granted exactly when there is room. */
  lemma CheckMemoryIsExact(limit: Limit, rc: Stat, size: int64, prio: uint8)
    requires limit.Valid() && Sane(rc)
    ensures CheckMemory(limit, rc, size, prio) == None <==> MemoryRoom(limit, rc, size, prio)
  {
    ThresholdIsExact(limit.memory, prio);
    ShareOfLimit(limit.memory, prio);
    AddIsExact(rc.memory, size);
  }

  /** A request is granted exactly when there is room for it. */
  lemma CheckIsExact(limit: Limit, rc: Stat, req: Request)
    requires limit.Valid() && Sane(rc) && (req.Bulk? ==> Amount(req.stat))
    ensures Check(limit, rc, req) == None <==> Room(limit, rc, req)
  {
    match req
    case Memory(size, prio) => CheckMemoryIsExact(limit, rc, size, prio);
    case Bulk(st) => CheckMemoryIsExact(limit, rc, st.memory, PRIORITY_ALWAYS);
    case _ =>
  }

  /** Granting a request keeps every counter within its limit, and the sum is the exact one. */
  lemma GrantKeepsLimits(limit: Limit, rc: Stat, req: Request)
    requires limit.Valid() && Within(limit, rc) && Amount(Delta(req)) && Fits(limit, rc, Delta(req))
    requires Check(limit, rc, req) == None
    ensures Within(limit, Plus(rc, Delta(req))) && Add(rc, Delta(req)) == Plus(rc, Delta(req))
  {
    hide Check;
    CheckIsExact(limit, rc, req);
    match req
    case Memory(size, prio) => ShareOfLimit(limit.memory, prio);
    case Bulk(st) => ShareOfLimit(limit.memory, PRIORITY_ALWAYS);
    case _ =>
  }

  /**
   * When a granted request is counted exactly, and within the limit: just when it fits. Only a memory limit of
   * MaxInt64, with which the overflow check is skipped, lets through one that does not.
   */
  lemma GrantIsExactIff(limit: Limit, rc: Stat, req: Request)
    requires limit.Valid() && Within(limit, rc) && Amount(Delta(req)) && Check(limit, rc, req) == None
    ensures Add(rc, Delta(req)) == Plus(rc, Delta(req)) <==> Fits(limit, rc, Delta(req))
    ensures Within(limit, Add(rc, Delta(req))) <==> Fits(limit, rc, Delta(req))
  {
    if Fits(limit, rc, Delta(req)) {
      GrantKeepsLimits(limit, rc, req);
    } else {
      assert Add(rc, Delta(req)).memory < 0;
    }
  }

  // ---------------------------------------------------------------- what callers are promised, in plain inequalities

  /** An inbound stream is granted by the inbound limit and the total, any other by the outbound limit and the total. */
  lemma StreamAdmission(limit: Limit, rc: Stat, dir: Direction)
    ensures dir == Inbound ==>
      (Check(limit, rc, AddStream(dir)) == None <==>
        && rc.streams.inbound + 1 <= limit.streams.inbound
        && rc.streams.inbound + rc.streams.outbound + 1 <= limit.streamTotal)
    ensures dir != Inbound ==>
      (Check(limit, rc, AddStream(dir)) == None <==>
        && rc.streams.outbound + 1 <= limit.streams.outbound
        && rc.streams.inbound + rc.streams.outbound + 1 <= limit.streamTotal)
  {
  }

  /** It is counted in its direction, and nothing else is. */
  lemma StreamIsCounted(rc: Stat, dir: Direction)
    requires Sane(rc)
    ensures var after := Add(rc, Delta(AddStream(dir)));
      && after.streams.inbound == rc.streams.inbound + (if dir == Inbound then 1 else 0)
      && after.streams.outbound == rc.streams.outbound + (if dir == Inbound then 0 else 1)
      && after.memory == rc.memory && after.conns == rc.conns && after.fd == rc.fd
  {
  }

  /** The same for connections, which may need a descriptor as well. */
  lemma ConnAdmission(limit: Limit, rc: Stat, dir: Direction, usefd: bool)
    ensures dir == Inbound ==>
      (Check(limit, rc, AddConn(dir, usefd)) == None <==>
        && rc.conns.inbound + 1 <= limit.conns.inbound
        && rc.conns.inbound + rc.conns.outbound + 1 <= limit.connTotal
        && (usefd ==> rc.fd + 1 <= limit.fd))
    ensures dir != Inbound ==>
      (Check(limit, rc, AddConn(dir, usefd)) == None <==>
        && rc.conns.outbound + 1 <= limit.conns.outbound
        && rc.conns.inbound + rc.conns.outbound + 1 <= limit.connTotal
        && (usefd ==> rc.fd + 1 <= limit.fd))
  {
  }

  lemma ConnIsCounted(rc: Stat, dir: Direction, usefd: bool)
    requires Sane(rc)
    ensures var after := Add(rc, Delta(AddConn(dir, usefd)));
      && after.conns.inbound == rc.conns.inbound + (if dir == Inbound then 1 else 0)
      && after.conns.outbound == rc.conns.outbound + (if dir == Inbound then 0 else 1)
      && after.fd == rc.fd + (if usefd then 1 else 0)
      && after.memory == rc.memory && after.streams == rc.streams
  {
  }

  /** Memory is granted up to the priority's share of the limit: of its 256 parts, one more than the priority. */
  lemma MemoryAdmission(limit: Limit, rc: Stat, size: int64, prio: uint8)
    requires limit.Valid() && Sane(rc)
    ensures Check(limit, rc, Memory(size, prio)) == None <==>
      0 <= size && (limit.memory == MAX_INT64 || rc.memory + size <= limit.memory * (1 + prio) / 256)
  {
    CheckMemoryIsExact(limit, rc, size, prio);
  }

  lemma MemoryIsCounted(rc: Stat, size: int64, prio: uint8)
    requires Sane(rc) && 0 <= size && rc.memory + size <= MAX_INT64
    ensures Add(rc, Delta(Memory(size, prio))) == rc.(memory := rc.memory + size)
  {
  }

  /**
   * What moves with a connection or stream may use the whole memory limit, whatever priority it was reserved with, and
   * needs room in every direction in which it counts anything.
   */
  lemma MoveAdmission(limit: Limit, rc: Stat, st: Stat)
    requires limit.Valid() && Sane(rc) && Amount(st)
    ensures Check(limit, rc, Bulk(st)) == None <==>
      && (limit.memory == MAX_INT64 || rc.memory + st.memory <= limit.memory)
      && (0 < st.streams.inbound ==> rc.streams.inbound + st.streams.inbound <= limit.streams.inbound)
      && (0 < st.streams.outbound ==> rc.streams.outbound + st.streams.outbound <= limit.streams.outbound)
      && rc.streams.inbound + st.streams.inbound + rc.streams.outbound + st.streams.outbound <= limit.streamTotal
      && (0 < st.conns.inbound ==> rc.conns.inbound + st.conns.inbound <= limit.conns.inbound)
      && (0 < st.conns.outbound ==> rc.conns.outbound + st.conns.outbound <= limit.conns.outbound)
      && rc.conns.inbound + st.conns.inbound + rc.conns.outbound + st.conns.outbound <= limit.connTotal
      && (0 < st.fd ==> rc.fd + st.fd <= limit.fd)
  {
    hide Check, CheckMemory;
    CheckIsExact(limit, rc, Bulk(st));
    assert limit.memory * (1 + 255) / 256 == limit.memory;
  }

  lemma MoveIsCounted(rc: Stat, st: Stat)
    requires Sane(rc) && Amount(st) && rc.memory + st.memory <= MAX_INT64
    ensures var after := Add(rc, Delta(Bulk(st)));
      && after.memory == rc.memory + st.memory && after.fd == rc.fd + st.fd
      && after.streams.inbound == rc.streams.inbound + st.streams.inbound
      && after.streams.outbound == rc.streams.outbound + st.streams.outbound
      && after.conns.inbound == rc.conns.inbound + st.conns.inbound
      && after.conns.outbound == rc.conns.outbound + st.conns.outbound
  {
  }

  /** A refusal names what there is no room for. */
  lemma RefusalSaysWhy(limit: Limit, rc: Stat, req: Request, err: Error)
    requires Check(limit, rc, req) == Some(err)
    ensures req.Memory? ==> err == if req.size < 0 then NegativeReservation else MemoryLimitExceeded
    ensures req.AddStream? ==> err == StreamLimitExceeded
    ensures req.AddConn? ==>
      err == if Check(limit.(fd := rc.fd + 1), rc, req).None? then FdLimitExceeded else ConnLimitExceeded
  {
  }

  /** Of each counter, no more is taken than is there. */
  lemma RemoveTakesAtMost(rc: Stat, d: Stat)
    requires Sane(rc) && Amount(d)
    ensures var after := Remove(rc, d);
      && after.memory == (if d.memory <= rc.memory then rc.memory - d.memory else 0)
      && after.streams.inbound == (if d.streams.inbound <= rc.streams.inbound
                                   then rc.streams.inbound - d.streams.inbound else 0)
      && after.streams.outbound == (if d.streams.outbound <= rc.streams.outbound
                                    then rc.streams.outbound - d.streams.outbound else 0)
      && after.conns.inbound == (if d.conns.inbound <= rc.conns.inbound then rc.conns.inbound - d.conns.inbound else 0)
      && after.conns.outbound == (if d.conns.outbound <= rc.conns.outbound
                                  then rc.conns.outbound - d.conns.outbound else 0)
      && after.fd == (if d.fd <= rc.fd then rc.fd - d.fd else 0)
  {
  }

  /** What was added can be taken back, even when the int64 addition wrapped. */
  lemma RemoveUndoesAdd(rc: Stat, d: Stat)
    requires Sane(rc) && Amount(d)
    ensures Remove(Add(rc, d), d) == rc
  {
  }

  /** The clamps do not fire when no more is released than is there. */
  lemma RemoveIsExact(rc: Stat, d: Stat)
    requires Sane(rc) && NonNegative(d) && Leq(d, rc)
    ensures Remove(rc, d) == Minus(rc, d) && Sane(Minus(rc, d))
  {
  }

  /** With a limit of MaxInt64 the check is skipped, and a granted reservation can wrap the counter. */
  lemma UnlimitedMemoryCanWrap()
    ensures var limit := Limit(MAX_INT64, NO_FLOW, 0, NO_FLOW, 0, 0);
            var rc := ZERO.(memory := 1);
            && Check(limit, rc, Memory(MAX_INT64, 255)) == None
            && Add(rc, Delta(Memory(MAX_INT64, 255))).memory == MIN_INT64
  {
  }
}
