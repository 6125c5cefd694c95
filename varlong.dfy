/**
 * Minecraft's VarLong: a 64-bit long written as seven-bit groups, least
 * significant first, each byte but the last carrying the continuation bit
 * 0x80 (unsigned LEB128, as in section 7.6 of the DWARF Debugging
 * Information Format, Version 4), at most ten bytes long.
 */
module VarLong {
  import opened Java
  import opened Buffers

  const MAX_VARLONG_SIZE: nat := 10
  const DATA_BITS_MASK: bv64 := 127
  const CONTINUATION_BIT_MASK: bv8 := 128
  const DATA_BITS_PER_BYTE: nat := 7
  /** The long `-1L`: every bit set. */
  const ALL_ONES: bv64 := !0

  /** The seven data bits of a byte, widened to a long. */
  function Low(b: bv8): bv64
  {
    (b & 127) as bv64
  }

  function HasContinuationBit(b: bv8): (r: bool)
    ensures r <==> b >= 128
  {
    b & CONTINUATION_BIT_MASK == CONTINUATION_BIT_MASK
  }

  // ---------------------------------------------------------------------
  // The encoding

  /** The bytes `Write` emits for `v`. */
  function Encode(v: bv64): seq<bv8>
    decreases v
  {
    if v & !127 == 0 then [v as bv8]
    else [((v & DATA_BITS_MASK) | 128) as bv8] + Encode(v >> 7)
  }

  /** The value of a group sequence read least significant group first. */
  function Dec(s: seq<bv8>): bv64
  {
    if |s| == 0 then 0 else Low(s[0]) | (Dec(s[1..]) << 7)
  }

  /**
   * The mask test of `getByteSize` for a Java `int` i: no bit of `v` at or
   * above position 7*i is set.
   */
  predicate FitsIn(v: bv64, i: bv32)
  {
    i >= 10 || (1 <= i && v & (ALL_ONES << (i * 7)) == 0)
  }

  // Java `int` counters are `bv32`; these relate small ones to sequence positions.

  lemma IntAtMostTen(k: bv32)
    requires k <= 10
    ensures k as int <= 10
  {
  }

  lemma IntBelowTen(k: bv32)
    requires k as int < 10
    ensures k < 10
  {
  }

  lemma IntPred(k: bv32)
    requires 1 <= k <= 10
    ensures 1 <= k as int && (k - 1) as int == k as int - 1
  {
  }

  lemma IntSucc(k: bv32)
    requires k <= 10
    ensures (k + 1) as int == k as int + 1
  {
  }

  lemma ContinuedGroup(v: bv64)
    requires v & !127 != 0
    ensures HasContinuationBit(((v & DATA_BITS_MASK) | 128) as bv8)
    ensures Low(((v & DATA_BITS_MASK) | 128) as bv8) == v & 127
  {
  }

  lemma FinalGroup(v: bv64)
    requires v & !127 == 0
    ensures !HasContinuationBit(v as bv8) && Low(v as bv8) == v
  {
  }

  /** Each byte but the last carries the continuation bit. */
  lemma {:induction false} EncodeShape(v: bv64)
    ensures 1 <= |Encode(v)|
    ensures forall j :: 0 <= j < |Encode(v)| ==>
      (HasContinuationBit(Encode(v)[j]) <==> j < |Encode(v)| - 1)
    decreases v
  {
    if v & !127 == 0 {
      FinalGroup(v);
    } else {
      var b := ((v & DATA_BITS_MASK) | 128) as bv8;
      ContinuedGroup(v);
      EncodeShape(v >> 7);
      var e := Encode(v >> 7);
      assert Encode(v) == [b] + e;
      forall j | 0 <= j < |Encode(v)|
        ensures HasContinuationBit(Encode(v)[j]) <==> j < |Encode(v)| - 1
      {
        if j > 0 {
          assert Encode(v)[j] == e[j - 1];
        }
      }
    }
  }

  /** The j-th seven-bit group of `v`, least significant first. */
  function Group(v: bv64, j: nat): bv64
  {
    if j == 0 then v & 127 else Group(v >> 7, j - 1)
  }

  /** Byte j of the encoding holds the j-th seven-bit group of `v`. */
  lemma {:induction false} EncodeGroup(v: bv64, j: nat)
    requires j < |Encode(v)|
    ensures Low(Encode(v)[j]) == Group(v, j)
    decreases v
  {
    if v & !127 == 0 {
      FinalGroup(v);
    } else {
      ContinuedGroup(v);
      if j > 0 {
        EncodeLengthStep(v);
        assert Encode(v)[j] == Encode(v >> 7)[j - 1];
        EncodeGroup(v >> 7, j - 1);
      }
    }
  }

  lemma GroupDecomposes(v: bv64)
    ensures (v & 127) | ((v >> 7) << 7) == v
  {
  }

  lemma FinalDecodes(v: bv64)
    requires v & !127 == 0
    ensures Low(v as bv8) | (0 << 7) == v
  {
  }

  lemma FinalRoundTrip(v: bv64)
    requires v & !127 == 0
    ensures Dec(Encode(v)) == v
  {
    var s := [v as bv8];
    assert Encode(v) == s;
    assert s[1..] == [];
    FinalDecodes(v);
  }

  lemma DecCons(b: bv8, e: seq<bv8>)
    ensures Dec([b] + e) == Low(b) | (Dec(e) << 7)
  {
    assert ([b] + e)[0] == b;
    assert ([b] + e)[1..] == e;
  }

  lemma DecEncodeStep(v: bv64)
    requires v & !127 != 0
    requires Dec(Encode(v >> 7)) == v >> 7
    ensures Dec(Encode(v)) == v
  {
    var b := ((v & DATA_BITS_MASK) | 128) as bv8;
    assert Encode(v) == [b] + Encode(v >> 7);
    DecCons(b, Encode(v >> 7));
    ContinuedGroup(v);
    GroupDecomposes(v);
  }

  /** Decoding the groups of `v` gives back `v`. */
  lemma {:induction false} DecEncode(v: bv64)
    ensures Dec(Encode(v)) == v
    decreases v
  {
    if v & !127 != 0 {
      DecEncode(v >> 7);
      DecEncodeStep(v);
    } else {
      FinalRoundTrip(v);
    }
  }

  // ---------------------------------------------------------------------
  // Length of the encoding

  lemma SmallFits(v: bv64, k: bv32)
    requires v & !127 == 0 && 1 <= k
    ensures FitsIn(v, k)
  {
  }

  lemma FitsStep(v: bv64, k: bv32)
    requires 2 <= k
    ensures FitsIn(v, k) <==> FitsIn(v >> 7, k - 1)
  {
  }

  lemma NotFitsOne(v: bv64)
    requires v & !127 != 0
    ensures !FitsIn(v, 1)
  {
  }

  lemma EncodeLengthStep(v: bv64)
    requires v & !127 != 0
    ensures |Encode(v)| == 1 + |Encode(v >> 7)|
  {
  }

  lemma EncodeFitsStep(v: bv64, k: bv32)
    requires v & !127 != 0 && 2 <= k <= 10
    requires |Encode(v >> 7)| <= (k - 1) as int <==> FitsIn(v >> 7, k - 1)
    ensures |Encode(v)| <= k as int <==> FitsIn(v, k)
  {
    IntPred(k);
    FitsStep(v, k);
    EncodeLengthStep(v);
  }

  lemma EncodeFitsFirst(v: bv64, k: bv32)
    requires 1 <= k <= 10
    ensures (v & !127 == 0 || k == 1) ==> (|Encode(v)| <= k as int <==> FitsIn(v, k))
  {
    if v & !127 == 0 {
      SmallFits(v, k);
      IntPred(k);
    } else if k == 1 {
      EncodeShape(v >> 7);
      EncodeLengthStep(v);
      NotFitsOne(v);
    }
  }

  /** The encoding has at most k bytes exactly when `v` passes the mask test for k. */
  lemma {:induction false} EncodeFits(v: bv64, k: bv32)
    requires 1 <= k <= 10
    ensures |Encode(v)| <= k as int <==> FitsIn(v, k)
    decreases v
  {
    if v & !127 == 0 || k == 1 {
      EncodeFitsFirst(v, k);
    } else {
      EncodeFits(v >> 7, k - 1);
      EncodeFitsStep(v, k);
    }
  }

  lemma EncodeBounds(v: bv64)
    ensures 1 <= |Encode(v)| <= MAX_VARLONG_SIZE
  {
    EncodeShape(v);
    EncodeFits(v, 10);
  }

  lemma FitsMeansBelow(v: bv64, i: bv32)
    requires 1 <= i < 10
    ensures FitsIn(v, i) <==> Below(v, i)
  {
  }

  /** `v`, read as an unsigned 64-bit number, is below 2^(7i). */
  predicate Below(v: bv64, i: bv32)
    requires i < 10
  {
    v < (1 as bv64) << (i * 7)
  }

  /**
   * The size `getByteSize` reports is the least i below ten such that `v`,
   * read as an unsigned 64-bit number, is below 2^(7i); otherwise ten.
   */
  lemma {:induction false} ByteSizeIsLeastBound(v: bv64, n: bv32)
    requires n as int == |Encode(v)|
    ensures 1 <= n <= 10
    ensures n < 10 ==> Below(v, n)
    ensures forall i: bv32 :: 1 <= i < n ==> !Below(v, i)
  {
    EncodeBounds(v);
    IntBelowTen(n - 1);
    if n < 10 {
      EncodeFits(v, n);
      FitsMeansBelow(v, n);
    }
    forall i: bv32 | 1 <= i < n
      ensures !Below(v, i)
    {
      EncodeFits(v, i);
      FitsMeansBelow(v, i);
    }
  }

  /** A negative long (sign bit set) always takes the full ten bytes. */
  lemma NegativeTakesTen(v: bv64)
    requires v & (1 << 63) != 0
    ensures |Encode(v)| == MAX_VARLONG_SIZE
  {
    EncodeBounds(v);
    EncodeFits(v, 9);
  }

  // ---------------------------------------------------------------------
  // getByteSize

  /** The first size that passes the mask test is the length of the encoding. */
  lemma ByteSizeAt(v: bv64, i: bv32)
    requires 1 <= i <= 10 && FitsIn(v, i)
    requires forall j: bv32 :: 1 <= j < i ==> !FitsIn(v, j)
    ensures i as int == |Encode(v)|
  {
    EncodeFits(v, i);
    IntPred(i);
    if i > 1 {
      EncodeFits(v, i - 1);
    } else {
      EncodeShape(v);
    }
  }

  /** No width below `i` holds `v`. */
  ghost predicate NoneFitBelow(v: bv64, i: bv32)
  {
    forall j: bv32 :: 1 <= j < i ==> !FitsIn(v, j)
  }

  lemma NoneFitBelowStep(v: bv64, i: bv32)
    requires 1 <= i < 10 && NoneFitBelow(v, i) && !FitsIn(v, i)
    ensures NoneFitBelow(v, i + 1)
  {
    forall j: bv32 | 1 <= j < i + 1
      ensures !FitsIn(v, j)
    {
      if j != i {
        assert j < i;
      }
    }
  }

  /** The mask test of `getByteSize` at a width below ten is `FitsIn`. */
  lemma MaskTest(v: bv64, i: bv32)
    requires 1 <= i < 10
    ensures (v & (ALL_ONES << (i * 7)) == 0) == FitsIn(v, i)
  {
  }

  /** `getByteSize`, with Java's 32-bit `int` as `bv32`. */
  method GetByteSize(v: bv64) returns (n: bv32)
    ensures 1 <= n <= 10
    ensures FitsIn(v, n) && forall j: bv32 :: 1 <= j < n ==> !FitsIn(v, j)
    ensures n as int == |Encode(v)|
  {
    var i: bv32 := 1;
    while i < 10
      invariant 1 <= i <= 10
      invariant NoneFitBelow(v, i)
    {
      MaskTest(v, i);
      if v & (ALL_ONES << (i * 7)) == 0 {
        ByteSizeAt(v, i);
        return i;
      }
      NoneFitBelowStep(v, i);
      i := i + 1;
    }
    ByteSizeAt(v, 10);
    return 10;
  }

  // ---------------------------------------------------------------------
  // write

  /** `write`: appends the encoding of `v` and returns the same buffer. */
  method Write(buf: ByteBuf, v: bv64) returns (r: ByteBuf)
    requires buf.Valid()
    modifies buf
    ensures r == buf && buf.Valid()
    ensures buf.bytes == old(buf.bytes) + Encode(v)
    ensures buf.readerIndex == old(buf.readerIndex)
  {
    var varLong := v;
    while varLong & !127 != 0
      invariant buf.Valid() && buf.readerIndex == old(buf.readerIndex)
      invariant buf.bytes + Encode(varLong) == old(buf.bytes) + Encode(v)
      decreases varLong
    {
      ghost var before := buf.bytes;
      var b := ((varLong & DATA_BITS_MASK) | 128) as bv8;
      assert Encode(varLong) == [b] + Encode(varLong >> 7);
      buf.WriteByte(b);
      assert buf.bytes + Encode(varLong >> 7) == before + ([b] + Encode(varLong >> 7));
      varLong := varLong >> 7;
    }
    buf.WriteByte(varLong as bv8);
    return buf;
  }

  // ---------------------------------------------------------------------
  // read

  /** The number of leading bytes of `s`, at most `cap`, that carry the continuation bit. */
  function ContinuedPrefix(s: seq<bv8>, cap: nat): (k: nat)
    ensures k <= cap && k <= |s|
    ensures forall j :: 0 <= j < k ==> HasContinuationBit(s[j])
    ensures k < cap && k < |s| ==> !HasContinuationBit(s[k])
  {
    if cap == 0 || |s| == 0 || !HasContinuationBit(s[0]) then 0
    else 1 + ContinuedPrefix(s[1..], cap - 1)
  }

  /**
   * What `read` does to a buffer whose readable bytes are `s`: the outcome and
   * the number of bytes it consumed. A byte without the continuation bit among
   * the first ten ends the value; an eleventh byte after ten continued ones is
   * "VarLong too big"; running out of bytes first is an index error.
   */
  function ReadSpec(s: seq<bv8>): (Except<bv64>, nat)
  {
    var k := ContinuedPrefix(s, MAX_VARLONG_SIZE);
    if k < |s| && k < MAX_VARLONG_SIZE then (Ok(Dec(s[..k + 1])), k + 1)
    else if k == MAX_VARLONG_SIZE && |s| > MAX_VARLONG_SIZE then
      (Throw(Runtime("VarLong too big")), MAX_VARLONG_SIZE + 1)
    else (Throw(IndexOutOfBounds), |s|)
  }

  lemma {:induction false} ContinuedPrefixIs(s: seq<bv8>, cap: nat, i: nat)
    requires i <= cap && i <= |s|
    requires forall j :: 0 <= j < i ==> HasContinuationBit(s[j])
    requires i == cap || i == |s| || !HasContinuationBit(s[i])
    ensures ContinuedPrefix(s, cap) == i
  {
    if i > 0 {
      assert HasContinuationBit(s[0]);
      ContinuedPrefixIs(s[1..], cap - 1, i - 1);
    }
  }

  /** `read` stops right after the first byte whose continuation bit is clear. */
  lemma ReadStopsAtFirstClear(s: seq<bv8>, k: nat)
    requires k < MAX_VARLONG_SIZE && k < |s| && !HasContinuationBit(s[k])
    requires forall j :: 0 <= j < k ==> HasContinuationBit(s[j])
    ensures ReadSpec(s) == (Ok(Dec(s[..k + 1])), k + 1)
  {
    ContinuedPrefixIs(s, MAX_VARLONG_SIZE, k);
  }

  /** Ten continued bytes followed by an eleventh make `read` throw. */
  lemma ReadTooBig(s: seq<bv8>)
    requires |s| > MAX_VARLONG_SIZE
    requires forall j :: 0 <= j < MAX_VARLONG_SIZE ==> HasContinuationBit(s[j])
    ensures ReadSpec(s) == (Throw(Runtime("VarLong too big")), MAX_VARLONG_SIZE + 1)
  {
    ContinuedPrefixIs(s, MAX_VARLONG_SIZE, MAX_VARLONG_SIZE);
  }

  lemma IntCounter(k: bv32)
    requires k as int <= 10
    ensures k <= 10 && (k + 1) as int == k as int + 1
    ensures k + 1 > 10 <==> k as int == 10
  {
  }

  /**
   * One step of `read`'s accumulation: the data bits of the i-th byte, shifted
   * by 7*i with Java's long shift, which uses only the low six bits of its count.
   */
  function Accumulate(l: bv64, b: bv8, i: bv32): bv64
  {
    l | (Low(b) << ((i * 7) & 63))
  }

  /** The value `read` has accumulated after the bytes `p`, with `i` counting them. */
  function Accumulated(p: seq<bv8>, i: bv32): bv64
  {
    if |p| == 0 then 0 else Accumulate(Accumulated(p[..|p| - 1], i - 1), p[|p| - 1], i - 1)
  }

  lemma MaskedShift(x: bv64, i: bv32)
    requires i < 10
    ensures x << ((i * 7) & 63) == x << (i * 7)
  {
  }

  lemma ReadStep(q: seq<bv8>, b: bv8, i: bv32)
    requires i < 10 && i as int == |q|
    ensures Accumulate(Dec(q), b, i) == Dec(q + [b])
  {
    DecAppend(q, b, i);
    MaskedShift(Low(b), i);
  }

  /** The loop's front accumulation and the group recursion agree. */
  lemma {:induction false} AccumulatedIsDec(p: seq<bv8>, i: bv32)
    requires i as int == |p| && |p| <= 10
    ensures Accumulated(p, i) == Dec(p)
  {
    if |p| > 0 {
      var q := p[..|p| - 1];
      IntPred(i);
      AccumulatedIsDec(q, i - 1);
      IntBelowTen(i - 1);
      ReadStep(q, p[|p| - 1], i - 1);
      assert q + [p[|p| - 1]] == p;
    }
  }

  /** Running out of bytes before a value ends is an index error. */
  lemma ReadRunsOut(s: seq<bv8>)
    requires |s| <= MAX_VARLONG_SIZE
    requires forall j :: 0 <= j < |s| ==> HasContinuationBit(s[j])
    ensures ReadSpec(s) == (Throw(IndexOutOfBounds), |s|)
  {
    ContinuedPrefixIs(s, MAX_VARLONG_SIZE, |s|);
  }

  /** One iteration of `read`'s loop on byte n. */
  lemma ReadAdvance(s: seq<bv8>, n: nat, i: bv32, l: bv64)
    requires n < |s| && n <= MAX_VARLONG_SIZE && i as int == n
    requires l == Accumulated(s[..n], i)
    ensures (i + 1) as int == n + 1
    ensures i + 1 > 10 <==> n == MAX_VARLONG_SIZE
    ensures Accumulate(l, s[n], i) == Accumulated(s[..n + 1], i + 1)
  {
    IntCounter(i);
    assert s[..n + 1][..n] == s[..n];
  }

  /** The value `read` returns when byte n-1 is the first without the continuation bit. */
  lemma ReadDone(s: seq<bv8>, n: nat, i: bv32)
    requires 1 <= n <= MAX_VARLONG_SIZE && n <= |s| && i as int == n
    requires forall j :: 0 <= j < n - 1 ==> HasContinuationBit(s[j])
    requires !HasContinuationBit(s[n - 1])
    ensures ReadSpec(s) == (Ok(Accumulated(s[..n], i)), n)
  {
    ReadStopsAtFirstClear(s, n - 1);
    AccumulatedIsDec(s[..n], i);
  }

  /** `read`, with Java's `int` counter as `bv32`. */
  method Read(buf: ByteBuf) returns (r: Except<bv64>)
    requires buf.Valid()
    modifies buf
    ensures buf.Valid() && buf.bytes == old(buf.bytes)
    ensures r == ReadSpec(old(buf.Unread())).0
    ensures buf.readerIndex == old(buf.readerIndex) + ReadSpec(old(buf.Unread())).1
  {
    ghost var s := buf.Unread();
    ghost var start := buf.readerIndex;
    var l: bv64 := 0;
    var i: bv32 := 0;
    ghost var n: nat := 0;
    while true
      invariant buf.Valid() && buf.bytes == old(buf.bytes)
      invariant n <= MAX_VARLONG_SIZE && n <= |s| && i as int == n
      invariant buf.readerIndex == start + n && buf.Unread() == s[n..]
      invariant forall j :: 0 <= j < n ==> HasContinuationBit(s[j])
      invariant l == Accumulated(s[..n], i)
      decreases MAX_VARLONG_SIZE - n
    {
      var rb := buf.ReadByte();
      if rb.Throw? {
        ReadRunsOut(s);
        return Throw(rb.error);
      }
      var b := rb.value;
      assert b == s[n];
      ReadAdvance(s, n, i, l);
      l := Accumulate(l, b, i);
      i := i + 1;
      n := n + 1;
      if i > 10 {
        ReadTooBig(s);
        return Throw(Runtime("VarLong too big"));
      }
      if !HasContinuationBit(b) {
        ReadDone(s, n, i);
        return Ok(l);
      }
    }
  }

  // ---------------------------------------------------------------------
  // Round trip

  lemma ShiftOrStep(z: bv64, x: bv64, y: bv64, m: bv32)
    requires m <= 8
    ensures z | ((x | (y << (m * 7))) << 7) == (z | (x << 7)) | (y << ((m + 1) * 7))
  {
  }

  lemma OneGroup(x: bv64)
    ensures x | (0 << 7) == 0 | (x << 0)
  {
  }

  /** Appending a byte to a group sequence adds its group at the next position. */
  lemma {:induction false} DecAppend(q: seq<bv8>, b: bv8, n: bv32)
    requires n <= 9 && n as int == |q|
    ensures Dec(q + [b]) == Dec(q) | (Low(b) << (n * 7))
  {
    if |q| == 0 {
      assert [] + [b] == [b];
      assert [b][1..] == [];
      OneGroup(Low(b));
    } else {
      assert (q + [b])[0] == q[0];
      assert (q + [b])[1..] == q[1..] + [b];
      DecAppend(q[1..], b, n - 1);
      ShiftOrStep(Low(q[0]), Dec(q[1..]), Low(b), n - 1);
    }
  }

  /**
   * Round trip: reading the bytes `write(v)` appended gives back `v` and
   * consumes exactly those bytes, whatever follows them.
   */
  lemma ReadWriteRoundTrip(v: bv64, rest: seq<bv8>)
    ensures ReadSpec(Encode(v) + rest) == (Ok(v), |Encode(v)|)
  {
    var e := Encode(v);
    var s := e + rest;
    EncodeShape(v);
    EncodeBounds(v);
    var n := |e|;
    forall j | 0 <= j < n - 1
      ensures HasContinuationBit(s[j])
    {
      assert s[j] == e[j];
    }
    assert s[n - 1] == e[n - 1];
    ReadStopsAtFirstClear(s, n - 1);
    assert s[..n] == e;
    DecEncode(v);
  }
}
