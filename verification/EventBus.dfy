/**
 * The event bus: one node per event type with emitters and sinks. Each method is what happens under one hold of the
 * locks, so any order of calls is an interleaving of the goroutines that use the bus.
 */
module EventBus {
  import opened Common

  type EventType = nat
  type SinkId = nat
  datatype Event = Event(typ: EventType, payload: int)

  /** A sink at a node: after how many events it joined, after how many it left, if it has, and what it was sent. */
  datatype Log = Log(joined: nat, start: nat, left: Option<nat>, sent: seq<Event>)

  /** The events sent are those from one position of the history to another, or to the end so far. */
  ghost predicate Contiguous(log: Log, history: seq<Event>) {
    var end := if log.left.Some? then log.left.value else |history|;
    log.start <= log.joined <= end <= |history| && log.sent == history[log.start..end]
  }

  /** The event before those it was there for comes first. */
  ghost predicate FromTheOneBefore(log: Log) {
    log.start == if log.joined == 0 then 0 else log.joined - 1
  }

  class Node {
    const typ: EventType
    var nEmitters: int
    var keepLast: bool
    var last: Option<Event>
    var sinks: seq<SinkId>
    /** All events emitted, how many of them before the node became stateful, and what each sink was sent. */
    ghost var history: seq<Event>
    ghost var keptSince: nat
    ghost var logs: map<SinkId, Log>

    constructor (typ: EventType)
      ensures Valid() && this.typ == typ && nEmitters == 0 && !keepLast && sinks == [] && history == []
      ensures logs == map[]
    {
      this.typ := typ;
      nEmitters, keepLast, last, sinks := 0, false, None, [];
      history, keptSince, logs := [], 0, map[];
    }

    /** The last event emitted since the node is stateful. */
    ghost predicate KeepsLast()
      reads this`keepLast, this`keptSince, this`history, this`last
    {
      if keepLast && keptSince < |history| then last == Some(history[|history| - 1])
      else last == None && (keepLast ==> keptSince == |history|)
    }

    /** Every sink has been sent a stretch of the history without gap or repetition; the present ones up to its end. */
    ghost predicate Valid()
      reads this`keepLast, this`keptSince, this`history, this`last, this`sinks, this`logs
    {
      && Distinct(sinks) && KeepsLast()
      && (forall ch :: ch in logs ==> Contiguous(logs[ch], history))
      && (forall ch :: ch in sinks <==> ch in logs && logs[ch].left.None?)
      && (keepLast && keptSince == 0 ==> forall ch :: ch in logs ==> FromTheOneBefore(logs[ch]))
    }

    /** Emits to every sink, in the order they are listed. */
    method Emit(evt: Event)
      requires Valid() && evt.typ == typ
      modifies this`last, this`history, this`logs
      ensures Valid() && history == old(history) + [evt]
      ensures logs.Keys == old(logs).Keys
      ensures forall ch :: ch in logs ==> logs[ch] == if ch in sinks then Sent(old(logs)[ch], evt) else old(logs)[ch]
    {
      hide Contiguous, FromTheOneBefore, Distinct, Sent;
      if keepLast {
        last := Some(evt);
      }
      SendAll(evt);
      history := history + [evt];
      forall ch | ch in logs ensures Contiguous(logs[ch], history) && logs[ch].left == old(logs)[ch].left {
        ContiguousOneMore(old(logs)[ch], old(history), evt);
      }
      forall ch | ch in logs && FromTheOneBefore(old(logs)[ch]) ensures FromTheOneBefore(logs[ch]) {
        ContiguousOneMore(old(logs)[ch], old(history), evt);
      }
    }

    /** The sends on the channels of the sinks, recorded in their logs. */
    method SendAll(evt: Event)
      requires Distinct(sinks) && forall ch :: ch in sinks ==> ch in logs
      modifies this`logs
      ensures logs.Keys == old(logs).Keys
      ensures forall ch :: ch in logs ==> logs[ch] == if ch in sinks then Sent(old(logs)[ch], evt) else old(logs)[ch]
    {
      hide Sent;
      for i := 0 to |sinks|
        invariant logs.Keys == old(logs).Keys
        invariant forall ch :: ch in logs ==>
          logs[ch] == if ch in sinks[..i] then Sent(old(logs)[ch], evt) else old(logs)[ch]
      {
        assert sinks[..i + 1] == sinks[..i] + [sinks[i]];
        assert sinks[i] !in sinks[..i];
        logs := logs[sinks[i] := Sent(logs[sinks[i]], evt)];
      }
      assert sinks[..|sinks|] == sinks;
    }

    /** A sink is added, and sent the event kept, if any. */
    method AddSink(ch: SinkId)
      requires Valid() && ch !in logs
      modifies this`sinks, this`logs
      ensures Valid() && sinks == old(sinks) + [ch]
      ensures var start := if keepLast && keptSince < |history| then |history| - 1 else |history|;
        logs == old(logs)[ch := Log(|history|, start, None, history[start..])]
    {
      hide FromTheOneBefore, Contiguous, Distinct;
      NewLog(history, last);
      AddDistinct(sinks, ch);
      sinks := sinks + [ch];
      assert forall c :: c in sinks <==> c in old(sinks) || c == ch;
      if keepLast && last.Some? {
        assert history[|history| - 1..] == [last.value];
        logs := logs[ch := Log(|history|, |history| - 1, None, [last.value])];
      } else {
        assert history[|history|..] == [];
        logs := logs[ch := Log(|history|, |history|, None, [])];
      }
    }

    /** A sink is taken out: the last one takes its place. */
    method RemoveSink(ch: SinkId)
      requires Valid()
      modifies this`sinks, this`logs
      ensures Valid() && ch !in sinks && forall c :: c in sinks <==> c in old(sinks) && c != ch
      ensures logs == if ch in old(sinks) then old(logs)[ch := old(logs)[ch].(left := Some(|history|))] else old(logs)
    {
      for i := 0 to |sinks|
        invariant ch !in sinks[..i]
      {
        if sinks[i] == ch {
          TakeOut(i);
          return;
        }
        assert sinks[..i + 1] == sinks[..i] + [sinks[i]];
      }
      assert sinks[..|sinks|] == sinks;
    }

    method TakeOut(i: nat)
      requires Valid() && i < |sinks|
      modifies this`sinks, this`logs
      ensures Valid() && forall c :: c in sinks <==> c in old(sinks) && c != old(sinks)[i]
      ensures var ch := old(sinks)[i];
        ch in old(logs) && logs == old(logs)[ch := old(logs)[ch].(left := Some(|history|))]
    {
      hide Contiguous, KeepsLast, Distinct;
      var ch, last := sinks[i], |sinks| - 1;
      SwapOut(sinks, i);
      LeftNow(logs[ch], history);
      sinks := sinks[i := sinks[last]][..last];
      logs := logs[ch := logs[ch].(left := Some(|history|))];
    }

    method MakeStateful()
      requires Valid()
      modifies this`keepLast, this`keptSince
      ensures Valid() && keepLast && keptSince == if old(keepLast) then old(keptSince) else |history|
    {
      if !keepLast {
        keptSince := |history|;
      }
      keepLast := true;
    }

    /**
     * Delivery. At a node that was stateful from its start, a sink that joined after k events has been sent exactly the
     * events from the one before on, to the last emitted while it was there: in order, without gap or repetition.
     */
    lemma DeliversFromTheOneBefore(ch: SinkId)
      requires Valid() && keepLast && keptSince == 0 && ch in logs
      ensures var k := logs[ch].joined;
        var first := if k == 0 then 0 else k - 1;
        var end := if logs[ch].left.Some? then logs[ch].left.value else |history|;
        first <= end <= |history| && logs[ch].sent == history[first..end]
    {
      assert Contiguous(logs[ch], history) && FromTheOneBefore(logs[ch]);
    }
  }

  class Emitter {
    const n: Node
    var closed: bool

    constructor (n: Node)
      ensures this.n == n && !closed
    {
      this.n, closed := n, false;
    }
  }

  /** The open emitters of a node. */
  ghost function OpenAt(emitters: set<Emitter>, n: Node): set<Emitter>
    reads emitters`closed
  {
    set e | e in emitters && e.n == n && !e.closed
  }

  lemma OpenAtMore(emitters: set<Emitter>, e: Emitter)
    requires e !in emitters && !e.closed
    ensures forall n :: |OpenAt(emitters + {e}, n)| == |OpenAt(emitters, n)| + if n == e.n then 1 else 0
  {
    forall n
      ensures |OpenAt(emitters + {e}, n)| == |OpenAt(emitters, n)| + if n == e.n then 1 else 0
    {
      assert OpenAt(emitters + {e}, n) == OpenAt(emitters, n) + if n == e.n then {e} else {};
    }
  }

  class Bus {
    var nodes: map<EventType, Node>
    /** Every node and every emitter there has been. */
    ghost var all: set<Node>
    ghost var emitters: set<Emitter>

    constructor ()
      ensures Valid() && nodes == map[] && all == {} && emitters == {}
    {
      nodes, all, emitters := map[], {}, {};
    }

    /** A node with an open emitter or a sink is the one registered for its type. */
    ghost predicate Attached(n: Node)
      reads this`nodes, this`emitters, n`nEmitters, n`sinks, emitters`closed
    {
      && n.nEmitters == |OpenAt(emitters, n)|
      && (n.nEmitters > 0 || n.sinks != [] ==> n.typ in nodes && nodes[n.typ] == n)
    }

    ghost predicate Valid()
      reads this, all, emitters
    {
      && (forall typ :: typ in nodes ==> nodes[typ] in all && nodes[typ].typ == typ)
      && (forall n :: n in all ==> n.Valid() && Attached(n))
      && (forall e :: e in emitters ==> e.n in all)
    }

    /** The node of a type, made when there is none. */
    method NodeFor(typ: EventType) returns (n: Node)
      requires Valid()
      modifies this`nodes, this`all
      ensures Valid() && typ in nodes && nodes[typ] == n && n in all
      ensures typ in old(nodes) ==> nodes == old(nodes) && all == old(all)
      ensures typ !in old(nodes) ==>
        && fresh(n) && nodes == old(nodes)[typ := n] && all == old(all) + {n}
        && n.history == [] && n.logs == map[] && n.sinks == [] && !n.keepLast
    {
      hide Node.Valid;
      if typ in nodes {
        n := nodes[typ];
      } else {
        n := new Node(typ);
        assert OpenAt(emitters, n) == {};
        nodes, all := nodes[typ := n], all + {n};
      }
    }

    method NewEmitter(typ: EventType, stateful: bool) returns (e: Emitter)
      requires Valid()
      modifies this, all`nEmitters, all`keepLast, all`keptSince
      ensures Valid() && fresh(e) && !e.closed && e.n.typ == typ && emitters == old(emitters) + {e}
      ensures all == old(all) + {e.n} && (e.n in old(all) || fresh(e.n))
      ensures e.n !in old(all) ==> e.n.keepLast == stateful && e.n.history == []
      ensures forall m :: m in old(all) ==>
        && m.keepLast == (old(m.keepLast) || (m == e.n && stateful))
        && m.nEmitters == old(m.nEmitters) + if m == e.n then 1 else 0
    {
      hide Node.Valid;
      var n := NodeFor(typ);
      if stateful {
        n.MakeStateful();
      }
      e := AddEmitter(n);
    }

    method AddEmitter(n: Node) returns (e: Emitter)
      requires Valid() && n in all && n.typ in nodes && nodes[n.typ] == n
      modifies this`emitters, n`nEmitters
      ensures Valid() && fresh(e) && !e.closed && e.n == n && emitters == old(emitters) + {e}
      ensures n.nEmitters == old(n.nEmitters) + 1
    {
      hide Node.Valid, OpenAt;
      n.nEmitters := n.nEmitters + 1;
      e := new Emitter(n);
      emitters := emitters + {e};
      OpenAtMore(old(emitters), e);
    }

    /** A subscription to one type; one to several takes them one after the other. */
    method Subscribe(typ: EventType, ch: SinkId) returns (n: Node)
      requires Valid() && forall m :: m in all ==> ch !in m.logs
      modifies this`nodes, this`all, all`sinks, all`logs
      ensures Valid() && typ in nodes && nodes[typ] == n && ch in n.sinks && ch in n.logs
      ensures all == old(all) + {n} && (n in old(all) || fresh(n))
      ensures n !in old(all) ==> n.sinks == [ch]
      ensures forall m :: m in old(all) ==> m.sinks == old(m.sinks) + if m == n then [ch] else []
      ensures var k := |n.history|;
        n.logs[ch] == if n.keepLast && n.keptSince < k then Log(k, k - 1, None, n.history[k - 1..])
          else Log(k, k, None, [])
    {
      hide Node.Valid;
      n := NodeFor(typ);
      n.AddSink(ch);
    }

    /** An emitter emits unless it is closed. */
    method Emit(e: Emitter, evt: Event) returns (ok: bool)
      requires Valid() && e in emitters && evt.typ == e.n.typ
      modifies e.n`last, e.n`history, e.n`logs
      ensures Valid() && (ok <==> !e.closed)
      ensures e.n.history == old(e.n.history) + if ok then [evt] else []
    {
      hide Node.Valid;
      if e.closed {
        return false;
      }
      e.n.Emit(evt);
      return true;
    }

    /** Closes an emitter, once; the answer is whether to try and drop the node. */
    method CloseEmitter(e: Emitter) returns (ok: bool, drop: bool)
      requires Valid() && e in emitters
      modifies e`closed, e.n`nEmitters
      ensures Valid() && e.closed && (ok <==> !old(e.closed))
      ensures drop <==> ok && e.n.nEmitters == 0
    {
      hide Node.Valid;
      if e.closed {
        return false, false;
      }
      e.closed := true;
      e.n.nEmitters := e.n.nEmitters - 1;
      forall m | m in all ensures OpenAt(emitters, m) == old(OpenAt(emitters, m)) - if m == e.n then {e} else {} {
      }
      return true, e.n.nEmitters == 0;
    }

    /** Takes a sink out of a node; the answer is whether to try and drop the node. */
    method CloseSink(n: Node, ch: SinkId) returns (drop: bool)
      requires Valid() && n in all
      modifies n`sinks, n`logs
      ensures Valid() && forall c :: c in n.sinks <==> c in old(n.sinks) && c != ch
      ensures drop <==> n.sinks == [] && n.nEmitters == 0
    {
      hide Node.Valid;
      n.RemoveSink(ch);
      if n.sinks != [] {
        assert n.sinks[0] in old(n.sinks);
      }
      return |n.sinks| == 0 && n.nEmitters == 0;
    }

    /** Unregisters the node of a type unless it is in use: whoever was to drop it may have been overtaken. */
    method TryDropNode(typ: EventType)
      requires Valid()
      modifies this`nodes
      ensures Valid()
      ensures nodes == if typ in old(nodes) && old(nodes[typ]).nEmitters <= 0 && old(nodes[typ]).sinks == []
        then old(nodes) - {typ} else old(nodes)
    {
      hide Node.Valid;
      if typ !in nodes {
        return;
      }
      var n := nodes[typ];
      if n.nEmitters > 0 || |n.sinks| > 0 {
        return;
      }
      nodes := nodes - {typ};
    }

    /**
     * No drop ever separates an emitter from a subscriber: an open emitter and a sink of the same type are at the same
     * node, so what the one emits the other is sent.
     */
    lemma NeverApart(e: Emitter, n: Node, ch: SinkId)
      requires Valid() && e in emitters && !e.closed && n in all && ch in n.sinks && n.typ == e.n.typ
      ensures e.n == n && n.typ in nodes && nodes[n.typ] == n
    {
      assert e in OpenAt(emitters, e.n);
      assert Attached(e.n) && Attached(n);
    }
  }

  function Sent(log: Log, evt: Event): Log {
    log.(sent := log.sent + [evt])
  }

  lemma ContiguousOneMore(log: Log, history: seq<Event>, evt: Event)
    requires Contiguous(log, history)
    ensures Contiguous(if log.left.None? then Sent(log, evt) else log, history + [evt])
    ensures FromTheOneBefore(log) ==> FromTheOneBefore(Sent(log, evt))
    ensures Sent(log, evt).left == log.left
  {
  }

  lemma AddDistinct(sinks: seq<SinkId>, ch: SinkId)
    requires Distinct(sinks) && ch !in sinks
    ensures Distinct(sinks + [ch])
  {
  }

  lemma NewLog(history: seq<Event>, last: Option<Event>)
    ensures Contiguous(Log(|history|, |history|, None, []), history)
    ensures history == [] ==> FromTheOneBefore(Log(0, 0, None, []))
    ensures history != [] && last == Some(history[|history| - 1]) ==>
      var log := Log(|history|, |history| - 1, None, [last.value]);
      Contiguous(log, history) && FromTheOneBefore(log)
  {
  }

  lemma LeftNow(log: Log, history: seq<Event>)
    requires Contiguous(log, history) && log.left.None?
    ensures Contiguous(log.(left := Some(|history|)), history)
  {
  }

  lemma SwapOut(sinks: seq<SinkId>, i: nat)
    requires i < |sinks| && Distinct(sinks)
    ensures var after := sinks[i := sinks[|sinks| - 1]][..|sinks| - 1];
      Distinct(after) && forall c :: c in after <==> c in sinks && c != sinks[i]
  {
    var last := |sinks| - 1;
    var after := sinks[i := sinks[last]][..last];
    forall c | c in sinks && c != sinks[i] ensures c in after {
      var j :| 0 <= j < |sinks| && sinks[j] == c;
      assert after[if j == last then i else j] == c;
    }
  }
}
