/**
 * Signed envelopes: the bytes that are signed, and what a signature on them binds. Libp2p RFC 0002 (Signed Envelopes),
 * section "Signature Production / Verification", with multiformats unsigned varints.
 */
module Envelope {
  import opened Common

  // ---------------------------------------------------------------- the signed bytes

  /**
   * The unsigned varint of a number: seven bits a byte, least significant first, the top bit set on all but the last.
   */
  function Uvarint(n: nat): (b: Bytes)
    ensures b != []
  {
    if n < 128 then [n] else [n % 128 + 128] + Uvarint(n / 128)
  }

  /** Varints are a prefix code: from where one starts, both the number and what follows it can be read off. */
  lemma {:induction false} UvarintIsPrefixCode(m: nat, n: nat, x: Bytes, y: Bytes)
    requires Uvarint(m) + x == Uvarint(n) + y
    ensures m == n && x == y
  {
    var a, b := Uvarint(m), Uvarint(n);
    assert (a + x)[0] == a[0] && (b + y)[0] == b[0];
    assert (a + x)[1..] == a[1..] + x && (b + y)[1..] == b[1..] + y;
    if m < 128 {
      assert n < 128;
      assert a[1..] == [] && b[1..] == [];
    } else {
      assert 128 <= n;
      assert a[1..] == Uvarint(m / 128) && b[1..] == Uvarint(n / 128);
      UvarintIsPrefixCode(m / 128, n / 128, x, y);
    }
  }

  /** A field with its length before it. */
  function Framed(field: Bytes): Bytes {
    Uvarint(|field|) + field
  }

  /** The bytes that are signed: domain, payload type and payload, each with its length before it. */
  function Unsigned(domain: Bytes, payloadType: Bytes, payload: Bytes): Bytes {
    Framed(domain) + Framed(payloadType) + Framed(payload)
  }

  lemma FramedIsPrefixCode(f: Bytes, g: Bytes, x: Bytes, y: Bytes)
    requires Framed(f) + x == Framed(g) + y
    ensures f == g && x == y
  {
    hide Uvarint;
    assert Framed(f) + x == Uvarint(|f|) + (f + x);
    assert Framed(g) + y == Uvarint(|g|) + (g + y);
    UvarintIsPrefixCode(|f|, |g|, f + x, g + y);
    assert f == (f + x)[..|f|] && g == (g + y)[..|g|];
    assert x == (f + x)[|f|..] && y == (g + y)[|g|..];
  }

  /** No two different triples have the same signed bytes: nothing can be moved from one field into the next. */
  lemma UnsignedIsInjective(domain: Bytes, payloadType: Bytes, payload: Bytes, domain': Bytes, payloadType': Bytes,
                            payload': Bytes)
    ensures Unsigned(domain, payloadType, payload) == Unsigned(domain', payloadType', payload')
      <==> domain == domain' && payloadType == payloadType' && payload == payload'
  {
    hide Framed;
    var u, u' := Unsigned(domain, payloadType, payload), Unsigned(domain', payloadType', payload');
    if u == u' {
      assert u == Framed(domain) + (Framed(payloadType) + Framed(payload));
      assert u' == Framed(domain') + (Framed(payloadType') + Framed(payload'));
      FramedIsPrefixCode(domain, domain', Framed(payloadType) + Framed(payload),
                         Framed(payloadType') + Framed(payload'));
      FramedIsPrefixCode(payloadType, payloadType', Framed(payload), Framed(payload'));
      assert Framed(payload) + [] == Framed(payload) && Framed(payload') + [] == Framed(payload');
      FramedIsPrefixCode(payload, payload', [], []);
    }
  }

  /** Writes a number as a varint: the loop of binary.PutUvarint. */
  method ToUvarint(n: nat) returns (b: Bytes)
    ensures b == Uvarint(n)
  {
    var x := n;
    b := [];
    while 128 <= x
      invariant b + Uvarint(x) == Uvarint(n)
      decreases x
    {
      assert b + ([x % 128 + 128] + Uvarint(x / 128)) == b + [x % 128 + 128] + Uvarint(x / 128);
      b := b + [x % 128 + 128];
      x := x / 128;
    }
    b := b + [x];
  }

  /** Copies as much as fits from the given position on, and answers how much that was. */
  method Copy(b: array<Byte>, at: nat, src: Bytes) returns (n: nat)
    requires at <= b.Length
    modifies b
    ensures n == if |src| <= b.Length - at then |src| else b.Length - at
    ensures b[..at] == old(b[..at]) && b[at..at + n] == src[..n] && b[at + n..] == old(b[at + n..])
  {
    n := if |src| <= b.Length - at then |src| else b.Length - at;
    forall i | 0 <= i < n {
      b[at + i] := src[i];
    }
  }

  /** The frames of the first fields, one after the other. */
  function Frames(fields: seq<Bytes>, n: nat): Bytes
    requires n <= |fields|
  {
    if n == 0 then [] else Frames(fields, n - 1) + Framed(fields[n - 1])
  }

  /**
   * Prepares the bytes to sign or verify. The buffer is taken at the size computed beforehand, and the copies, which
   * would silently cut off what does not fit, fill it to the last byte: the length returned is that of the buffer.
   */
  method MakeUnsigned(domain: Bytes, payloadType: Bytes, payload: Bytes) returns (b: array<Byte>, s: nat)
    ensures fresh(b) && s == b.Length
    ensures b[..s] == Unsigned(domain, payloadType, payload)
  {
    var fields := [domain, payloadType, payload];
    var flen, size := Lengths(fields);
    b := new Byte[size];
    s := Fill(b, fields, flen);
    FramesOfThree(domain, payloadType, payload);
  }

  /** The length of each field as a varint, and the size of all. */
  method Lengths(fields: seq<Bytes>) returns (flen: seq<Bytes>, size: nat)
    ensures |flen| == |fields| && forall i :: 0 <= i < |fields| ==> flen[i] == Uvarint(|fields[i]|)
    ensures size == |Frames(fields, |fields|)|
  {
    hide Uvarint;
    flen, size := [], 0;
    for i := 0 to |fields|
      invariant |flen| == i && forall j :: 0 <= j < i ==> flen[j] == Uvarint(|fields[j]|)
      invariant size == |Frames(fields, i)|
    {
      var l := ToUvarint(|fields[i]|);
      flen := flen + [l];
      size := size + |fields[i]| + |l|;
    }
  }

  /** Copies lengths and fields into the buffer. */
  method Fill(b: array<Byte>, fields: seq<Bytes>, flen: seq<Bytes>) returns (s: nat)
    requires |flen| == |fields| && forall i :: 0 <= i < |fields| ==> flen[i] == Uvarint(|fields[i]|)
    requires b.Length == |Frames(fields, |fields|)|
    modifies b
    ensures s == b.Length && b[..s] == Frames(fields, |fields|)
  {
    hide Frames, Uvarint, Framed;
    s := 0;
    FramesNone(fields);
    for i := 0 to |fields|
      invariant s == |Frames(fields, i)| <= b.Length
      invariant b[..s] == Frames(fields, i)
    {
      FramesOneMore(fields, i);
      FramesFit(fields, i + 1);
      var n := Copy(b, s, flen[i]);
      assert b[..s + n] == Frames(fields, i) + flen[i];
      s := s + n;
      n := Copy(b, s, fields[i]);
      assert b[..s + n] == Frames(fields, i) + flen[i] + fields[i];
      s := s + n;
    }
  }

  lemma FramesNone(fields: seq<Bytes>)
    ensures Frames(fields, 0) == []
  {
  }

  lemma FramesOneMore(fields: seq<Bytes>, i: nat)
    requires i < |fields|
    ensures Frames(fields, i + 1) == Frames(fields, i) + Uvarint(|fields[i]|) + fields[i]
  {
    assert Frames(fields, i) + (Uvarint(|fields[i]|) + fields[i]) == Frames(fields, i) + Uvarint(|fields[i]|)
      + fields[i];
  }

  lemma {:induction false} FramesFit(fields: seq<Bytes>, i: nat)
    requires i <= |fields|
    ensures |Frames(fields, i)| <= |Frames(fields, |fields|)|
    decreases |fields| - i
  {
    if i < |fields| {
      FramesFit(fields, i + 1);
    }
  }

  lemma FramesOfThree(domain: Bytes, payloadType: Bytes, payload: Bytes)
    ensures Frames([domain, payloadType, payload], 3) == Unsigned(domain, payloadType, payload)
  {
    hide Framed;
    var fields := [domain, payloadType, payload];
    assert Frames(fields, 0) + Framed(domain) == Framed(domain);
    assert Frames(fields, 1) == Framed(domain);
    assert Frames(fields, 2) == Framed(domain) + Framed(payloadType);
  }

  // ---------------------------------------------------------------- reading the bytes back

  function Power(i: nat): nat {
    if i == 0 then 1 else 128 * Power(i - 1)
  }

  /** The number that bytes stand for: the low seven bits of the i-th count 128 to the power of i. */
  function Read(b: Bytes): nat {
    if b == [] then 0 else Read(b[..|b| - 1]) + (b[|b| - 1] % 128) * Power(|b| - 1)
  }

  lemma {:induction false} ReadOfOneMore(x: Byte, b: Bytes)
    ensures Read([x] + b) == x % 128 + 128 * Read(b)
  {
    var all := [x] + b;
    if b == [] {
      assert all == [x] && all[..0] == [];
    } else {
      var front, last := b[..|b| - 1], b[|b| - 1];
      ReadOfOneMore(x, front);
      assert all[..|all| - 1] == [x] + front && all[|all| - 1] == last;
      assert Power(|b|) == 128 * Power(|b| - 1);
      Shifted(last % 128, Power(|b| - 1));
    }
  }

  lemma Shifted(digit: nat, power: nat)
    ensures digit * (128 * power) == 128 * (digit * power)
  {
  }

  /**
   * A multiformats unsigned varint: every byte but the last has its top bit set, and there are no more bytes than
   * needed.
   */
  ghost predicate IsVarint(b: Bytes) {
    && b != []
    && (forall i :: 0 <= i < |b| ==> (b[i] >= 128 <==> i < |b| - 1))
    && (|b| > 1 ==> b[|b| - 1] != 0)
  }

  /** The bytes of a number are a varint that reads as this number. */
  lemma {:induction false} UvarintReads(n: nat)
    ensures IsVarint(Uvarint(n)) && Read(Uvarint(n)) == n
    ensures |Uvarint(n)| == 1 <==> n < 128
  {
    if n < 128 {
      assert Uvarint(n)[..0] == [];
    } else {
      UvarintReads(n / 128);
      ReadOfOneMore(n % 128 + 128, Uvarint(n / 128));
      var rest, all := Uvarint(n / 128), Uvarint(n);
      assert all == [n % 128 + 128] + rest;
      forall i | 0 <= i < |all| ensures all[i] >= 128 <==> i < |all| - 1 {
        if 0 < i {
          assert all[i] == rest[i - 1];
        }
      }
      if |rest| == 1 {
        assert rest[0] != 0;
      }
    }
  }

  /** And the only one. */
  lemma {:induction false} OnlyVarint(b: Bytes)
    requires IsVarint(b)
    ensures b == Uvarint(Read(b)) && (b != [0] ==> 0 < Read(b))
  {
    var rest := b[1..];
    assert b == [b[0]] + rest;
    ReadOfOneMore(b[0], rest);
    if rest == [] {
    } else {
      forall i | 0 <= i < |rest| ensures rest[i] >= 128 <==> i < |rest| - 1 {
        assert rest[i] == b[i + 1];
      }
      assert rest[|rest| - 1] == b[|b| - 1];
      OnlyVarint(rest);
    }
  }

  /** The bytes of the varint at the start. */
  function Leading(b: Bytes): Bytes {
    if b == [] then [] else if b[0] < 128 then [b[0]] else [b[0]] + Leading(b[1..])
  }

  lemma {:induction false} LeadingIs(v: Bytes, x: Bytes)
    requires IsVarint(v)
    ensures Leading(v + x) == v
  {
    var all, rest := v + x, v[1..];
    assert all[0] == v[0] && v == [v[0]] + rest && all[1..] == rest + x;
    if rest != [] {
      forall i | 0 <= i < |rest| ensures rest[i] >= 128 <==> i < |rest| - 1 {
        assert rest[i] == v[i + 1];
      }
      assert rest[|rest| - 1] == v[|v| - 1];
      LeadingIs(rest, x);
    }
  }

  /** Reads one field: its length first, then as many bytes; and what follows it. */
  function ReadField(b: Bytes): Option<(Bytes, Bytes)> {
    var length := Leading(b);
    var start, end := |length|, |length| + Read(length);
    if b != [] && end <= |b| then Some((b[start..end], b[end..])) else None
  }

  lemma FieldReadsBack(field: Bytes, x: Bytes)
    ensures ReadField(Framed(field) + x) == Some((field, x))
  {
    hide Uvarint, Read, Leading, IsVarint;
    UvarintReads(|field|);
    var length := Uvarint(|field|);
    var all := Framed(field) + x;
    assert all == length + (field + x);
    LeadingIs(length, field + x);
    assert all[|length|..|length| + |field|] == field && all[|length| + |field|..] == x;
  }

  /** Whoever reads the signed bytes field by field finds the domain, then the payload type, then the payload. */
  lemma UnsignedReadsBack(domain: Bytes, payloadType: Bytes, payload: Bytes)
    ensures var first := ReadField(Unsigned(domain, payloadType, payload));
      && first.Some? && first.value.0 == domain
      && var second := ReadField(first.value.1);
      && second.Some? && second.value.0 == payloadType
      && ReadField(second.value.1) == Some((payload, []))
  {
    hide Framed, ReadField;
    assert Unsigned(domain, payloadType, payload) == Framed(domain) + (Framed(payloadType) + Framed(payload));
    FieldReadsBack(domain, Framed(payloadType) + Framed(payload));
    FieldReadsBack(payloadType, Framed(payload));
    assert Framed(payload) + [] == Framed(payload);
    FieldReadsBack(payload, []);
  }

  // ---------------------------------------------------------------- sealing and validating

  type Key = nat

  /** A signature scheme: what signing with a private key yields, the public key, and verification. */
  datatype Scheme = Scheme(sign: (Key, Bytes) -> Bytes, public: Key -> Key, verify: (Key, Bytes, Bytes) -> bool)

  /** What is signed verifies under the public key. */
  ghost predicate Correct(scheme: Scheme) {
    forall k, m :: scheme.verify(scheme.public(k), m, scheme.sign(k, m))
  }

  /** And a signature verifies for nothing but what was signed. */
  ghost predicate Binding(scheme: Scheme) {
    forall k, m, m' :: scheme.verify(scheme.public(k), m', scheme.sign(k, m)) ==> m' == m
  }

  datatype Envelope = Envelope(publicKey: Key, payloadType: Bytes, rawPayload: Bytes, signature: Bytes)
  datatype Error = MarshalFailed | EmptyDomain | EmptyPayloadType | InvalidSignature
  datatype Result<+T> = Ok(value: T) | Err(error: Error)

  /** Seals a record, given its domain, its codec and the payload it marshals to, if it does. */
  method Seal(scheme: Scheme, domain: Bytes, codec: Bytes, marshalled: Option<Bytes>, k: Key)
    returns (r: Result<Envelope>)
    ensures r.Ok? <==> marshalled.Some? && domain != [] && codec != []
    ensures r.Err? ==> r.error == if marshalled.None? then MarshalFailed else if domain == [] then EmptyDomain
      else EmptyPayloadType
    ensures r.Ok? ==> r.value == Sealed(scheme, domain, codec, marshalled.value, k)
  {
    if marshalled.None? {
      return Err(MarshalFailed);
    }
    if domain == [] {
      return Err(EmptyDomain);
    }
    if |codec| == 0 {
      return Err(EmptyPayloadType);
    }
    var b, s := MakeUnsigned(domain, codec, marshalled.value);
    return Ok(Envelope(scheme.public(k), codec, marshalled.value, scheme.sign(k, b[..s])));
  }

  function Sealed(scheme: Scheme, domain: Bytes, codec: Bytes, payload: Bytes, k: Key): Envelope {
    Envelope(scheme.public(k), codec, payload, scheme.sign(k, Unsigned(domain, codec, payload)))
  }

  /** Whether the signature is valid for the domain. */
  method Validate(scheme: Scheme, e: Envelope, domain: Bytes) returns (r: Result<()>)
    ensures r == if Valid(scheme, e, domain) then Ok(()) else Err(InvalidSignature)
  {
    var b, s := MakeUnsigned(domain, e.payloadType, e.rawPayload);
    if !scheme.verify(e.publicKey, b[..s], e.signature) {
      return Err(InvalidSignature);
    }
    return Ok(());
  }

  predicate Valid(scheme: Scheme, e: Envelope, domain: Bytes) {
    scheme.verify(e.publicKey, Unsigned(domain, e.payloadType, e.rawPayload), e.signature)
  }

  /**
   * What a seal binds. Take any envelope with the signature of a sealed one: it validates for a domain exactly when
   * domain, payload type and payload are those that were sealed.
   */
  lemma SealBinds(scheme: Scheme, domain: Bytes, codec: Bytes, payload: Bytes, k: Key, domain': Bytes, codec': Bytes,
                  payload': Bytes)
    requires Correct(scheme) && Binding(scheme)
    ensures var e := Sealed(scheme, domain, codec, payload, k);
      var other := e.(payloadType := codec', rawPayload := payload');
      Valid(scheme, other, domain') == (domain' == domain && codec' == codec && payload' == payload)
  {
    hide Unsigned;
    UnsignedIsInjective(domain', codec', payload', domain, codec, payload);
    var m, m' := Unsigned(domain, codec, payload), Unsigned(domain', codec', payload');
    assert scheme.verify(scheme.public(k), m, scheme.sign(k, m));
    assert scheme.verify(scheme.public(k), m', scheme.sign(k, m)) ==> m' == m;
  }

  /** Envelopes of one key that are equal were sealed in the same domain, as the equality check of envelopes claims. */
  lemma EqualMeansSameDomain(scheme: Scheme, domain: Bytes, codec: Bytes, payload: Bytes, k: Key, domain': Bytes,
                             codec': Bytes, payload': Bytes, k': Key)
    requires Correct(scheme) && Binding(scheme)
    requires Sealed(scheme, domain, codec, payload, k) == Sealed(scheme, domain', codec', payload', k')
    ensures domain == domain' && codec == codec' && payload == payload'
  {
    SealBinds(scheme, domain, codec, payload, k, domain', codec', payload');
    assert Valid(scheme, Sealed(scheme, domain', codec', payload', k'), domain');
  }
}
