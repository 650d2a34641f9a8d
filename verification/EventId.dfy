/** The bytes digested into an event id: every part is preceded by its length. */
module EventId {
  import opened Wrappers

  const TWO_64 := 0x1_0000_0000_0000_0000

  /** The n low-order bytes of x, most significant first. */
  function BigEndian(x: nat, n: nat): (b: Bytes)
    ensures |b| == n
  {
    if n == 0 then [] else BigEndian(x / 256, n - 1) + [x % 256]
  }

  function Value(b: Bytes): nat { if b == [] then 0 else 256 * Value(b[..|b| - 1]) + b[|b| - 1] }

  function Pow256(n: nat): nat { if n == 0 then 1 else 256 * Pow256(n - 1) }

  lemma {:induction false} BigEndianValue(x: nat, n: nat)
    requires x < Pow256(n)
    ensures Value(BigEndian(x, n)) == x
  {
    if n > 0 {
      BigEndianValue(x / 256, n - 1);
      assert BigEndian(x, n)[..n - 1] == BigEndian(x / 256, n - 1);
    }
  }

  /** `part.len() as u64`, big-endian, then the part. */
  function Frame(part: Bytes): Bytes { BigEndian(|part| % TWO_64, 8) + part }

  function Frames(parts: seq<Bytes>): Bytes { if parts == [] then [] else Frame(parts[0]) + Frames(parts[1..]) }

  predicate FitsU64(parts: seq<Bytes>) { forall i | 0 <= i < |parts| :: |parts[i]| < TWO_64 }

  /** The digest is fed part by part. */
  method DigestInput(sourceKind: Bytes, sourceEventId: Bytes, owner: Bytes) returns (input: Bytes)
    ensures input == Frames([sourceKind, sourceEventId, owner])
  {
    hide BigEndian;
    var parts := [sourceKind, sourceEventId, owner];
    input := [];
    for i := 0 to 3
      invariant input + Frames(parts[i..]) == Frames(parts)
    {
      assert parts[i..][0] == parts[i] && parts[i..][1..] == parts[i + 1..];
      ghost var done := input;
      input := input + BigEndian(|parts[i]| % TWO_64, 8);
      input := input + parts[i];
      assert input == done + Frame(parts[i]);
    }
    assert parts[3..] == [];
  }

  lemma SamePrefix(a: Bytes, b: Bytes, s: Bytes, t: Bytes)
    requires a + s == b + t && |a| == |b|
    ensures a == b && s == t
  {
    assert a == (a + s)[..|a|] && b == (b + t)[..|b|];
    assert s == (a + s)[|a|..] && t == (b + t)[|b|..];
  }

  lemma U64Width()
    ensures Pow256(8) == TWO_64
  {
    assert Pow256(4) == 0x1_0000_0000;
  }

  /** The length prefix tells the first parts of two equal inputs to be equal, and the rests too. */
  lemma FirstFrame(p: Bytes, q: Bytes, s: Bytes, t: Bytes)
    requires |p| < TWO_64 && |q| < TWO_64 && Frame(p) + s == Frame(q) + t
    ensures p == q && s == t
  {
    hide BigEndian, Value;
    var lp, lq := BigEndian(|p|, 8), BigEndian(|q|, 8);
    assert Frame(p) + s == lp + (p + s) && Frame(q) + t == lq + (q + t);
    SamePrefix(lp, lq, p + s, q + t);
    U64Width();
    BigEndianValue(|p|, 8);
    BigEndianValue(|q|, 8);
    SamePrefix(p, q, s, t);
  }

  /** The framing is injective: equal bytes come from equal parts, however many there are. */
  lemma {:induction false} FramesInjective(ps: seq<Bytes>, qs: seq<Bytes>)
    requires FitsU64(ps) && FitsU64(qs) && Frames(ps) == Frames(qs)
    ensures ps == qs
  {
    hide Frame;
    if ps == [] || qs == [] {
      if ps != [] { FrameNotEmpty(ps[0]); }
      if qs != [] { FrameNotEmpty(qs[0]); }
    } else {
      FirstFrame(ps[0], qs[0], Frames(ps[1..]), Frames(qs[1..]));
      FramesInjective(ps[1..], qs[1..]);
      assert ps == [ps[0]] + ps[1..] && qs == [qs[0]] + qs[1..];
    }
  }

  lemma FrameNotEmpty(part: Bytes)
    ensures |Frame(part)| >= 8
  {
  }

  /** Two triples give the same digest input only if they are equal. */
  lemma EventIdInputInjective(k1: Bytes, e1: Bytes, o1: Bytes, k2: Bytes, e2: Bytes, o2: Bytes)
    requires FitsU64([k1, e1, o1]) && FitsU64([k2, e2, o2])
    ensures Frames([k1, e1, o1]) == Frames([k2, e2, o2]) <==> k1 == k2 && e1 == e2 && o1 == o2
  {
    if Frames([k1, e1, o1]) == Frames([k2, e2, o2]) {
      FramesInjective([k1, e1, o1], [k2, e2, o2]);
      assert [k1, e1, o1][0] == k1 && [k1, e1, o1][1] == e1 && [k1, e1, o1][2] == o1;
      assert [k2, e2, o2][0] == k2 && [k2, e2, o2][1] == e2 && [k2, e2, o2][2] == o2;
    }
  }

  lemma FrameLayout(part: Bytes, rest: Bytes)
    requires |part| < TWO_64
    ensures var b := Frame(part) + rest;
      |b| == 8 + |part| + |rest| && Value(b[..8]) == |part| && b[8..8 + |part|] == part && b[8 + |part|..] == rest
  {
    hide BigEndian, Value;
    U64Width();
    BigEndianValue(|part|, 8);
    var b := Frame(part) + rest;
    assert b[..8] == BigEndian(|part|, 8);
  }

  /** The digest input is, for each part in turn, eight bytes whose value is its length and then the part. */
  lemma DigestLayout(kind: Bytes, event: Bytes, owner: Bytes)
    requires FitsU64([kind, event, owner])
    ensures var b := Frames([kind, event, owner]);
      && |b| == 24 + |kind| + |event| + |owner|
      && Value(b[..8]) == |kind| && b[8..8 + |kind|] == kind
      && var c := b[8 + |kind|..];
      && Value(c[..8]) == |event| && c[8..8 + |event|] == event
      && var d := c[8 + |event|..];
      && Value(d[..8]) == |owner| && d[8..] == owner
  {
    hide Frame, Value;
    var parts := [kind, event, owner];
    assert parts[0] == kind && parts[1] == event && parts[2] == owner;
    assert parts[1..] == [event, owner] && [event, owner][1..] == [owner] && [owner][1..] == [];
    FrameLayout(kind, Frames([event, owner]));
    FrameLayout(event, Frames([owner]));
    FrameLayout(owner, []);
    assert Frames([owner]) == Frame(owner) + [];
    var d := Frames([owner]);
    assert d[8..] == d[8..8 + |owner|];
  }
}
