/** The byte bitmap of os-elephant, os-elephant/lib/kernel/bitmap.c. A bitmap is a window on
    memory; the memory goes on behind it, which is where the scan reads one bit too far. */
module Bitmaps {

  type Byte = bv8

  const BITMAP_MASK: Byte := 1

  /** struct bitmap: `len` bytes from `off` on. */
  datatype Bitmap = Bitmap(off: nat, len: nat)

  // ----- Bits -----

  /** BITMAP_MASK << k. */
  function Mask(k: nat): (m: Byte)
    requires k < 8
  {
    if k == 0 then 1 else if k == 1 then 2 else if k == 2 then 4 else if k == 3 then 8
    else if k == 4 then 16 else if k == 5 then 32 else if k == 6 then 64 else 128
  }

  lemma MaskShift(k: nat)
    requires k < 8
    ensures BITMAP_MASK << k == Mask(k)
  {
    assert k == 0 || k == 1 || k == 2 || k == 3 || k == 4 || k == 5 || k == 6 || k == 7;
  }

  /** Bit `k` of a byte, the lowest being bit 0. */
  predicate BitOf(x: Byte, k: nat) {
    if k == 0 then x & 1 != 0 else BitOf(x >> 1, k - 1)
  }

  lemma MaskedBits(x: Byte, k: nat, j: nat)
    requires k < 8 && j < 8
    ensures (x | Mask(k)) & Mask(j) != 0 <==> j == k || x & Mask(j) != 0
    ensures (x & !Mask(k)) & Mask(j) != 0 <==> j != k && x & Mask(j) != 0
  {
  }

  lemma HalfMask(x: Byte, k: nat)
    requires 0 < k < 8
    ensures (x >> 1) & Mask(k - 1) != 0 <==> x & Mask(k) != 0
  {
  }

  lemma {:induction false} TestBit(x: Byte, k: nat)
    requires k < 8
    ensures BitOf(x, k) <==> x & Mask(k) != 0
  {
    if k > 0 {
      TestBit(x >> 1, k - 1);
      HalfMask(x, k);
    }
  }

  /** The byte with bit `k` set or cleared. */
  function Put(x: Byte, k: nat, v: bool): Byte
    requires k < 8
  {
    if v then x | Mask(k) else x & !Mask(k)
  }

  lemma PutShift(x: Byte, k: nat)
    requires k < 8
    ensures x | (BITMAP_MASK << k) == Put(x, k, true) && x & !(BITMAP_MASK << k) == Put(x, k, false)
  {
    MaskShift(k);
  }

  lemma PutBit(x: Byte, k: nat, v: bool, j: nat)
    requires k < 8 && j < 8
    ensures BitOf(Put(x, k, v), j) == if j == k then v else BitOf(x, j)
  {
    TestBit(x, j);
    TestBit(Put(x, k, v), j);
    MaskedBits(x, k, j);
  }

  lemma FullByte(x: Byte)
    ensures x == 0xff <==> forall k :: 0 <= k < 8 ==> BitOf(x, k)
  {
    TestBit(x, 0); TestBit(x, 1); TestBit(x, 2); TestBit(x, 3);
    TestBit(x, 4); TestBit(x, 5); TestBit(x, 6); TestBit(x, 7);
    if x == 0xff {
      forall k | 0 <= k < 8
        ensures BitOf(x, k)
      {
        TestBit(x, k);
      }
    }
  }

  lemma ZeroByte(k: nat)
    requires k < 8
    ensures !BitOf(0, k)
  {
    TestBit(0, k);
  }

  /** Bit `i` of the memory from byte `off` on. */
  predicate Bit(m: seq<Byte>, off: nat, i: nat)
    requires off + i / 8 < |m|
  {
    BitOf(m[off + i / 8], i % 8)
  }

  /** The first `n` bits of the memory from byte `off` on. */
  function Bits(m: seq<Byte>, off: nat, n: nat): (s: seq<bool>)
    requires off + (n + 7) / 8 <= |m|
    ensures |s| == n && forall i :: 0 <= i < n ==> s[i] == Bit(m, off, i)
  {
    seq(n, i requires 0 <= i < n => Bit(m, off, i))
  }

  // ----- What a scan looks for -----

  /** `cnt` clear bits from `i` on. */
  predicate ClearRun(s: seq<bool>, i: int, cnt: nat) {
    0 <= i && i + cnt <= |s| && forall j :: i <= j < i + cnt ==> !s[j]
  }

  /** The leftmost such run. */
  ghost predicate FirstRun(s: seq<bool>, i: int, cnt: nat) {
    ClearRun(s, i, cnt) && forall j :: 0 <= j < i ==> !ClearRun(s, j, cnt)
  }

  ghost predicate NoRun(s: seq<bool>, cnt: nat) {
    forall j :: !ClearRun(s, j, cnt)
  }

  /** The result of bitmap_scan: the failed assertion, -1, or an index. */
  datatype Scan = Panic | NotFound | Found(i: nat)

  /** What bitmap_scan computes for a bitmap of `n` bits that `s` holds together with the bit
      behind it. */
  ghost predicate ScanSpec(s: seq<bool>, n: nat, cnt: nat, r: Scan)
    requires |s| == n + 1
  {
    match r
    case Panic => forall i :: 0 <= i < n ==> s[i]
    case NotFound =>
      (exists i :: 0 <= i < n && !s[i]) && cnt != 1 && (if cnt == 0 then AfterGap(s, 0) == NoGap else NoRun(s, cnt))
    case Found(i) =>
      (exists j :: 0 <= j < n && !s[j]) &&
      (if cnt == 0 then AfterGap(s, 0) == GapAt(i)
       else if cnt == 1 then i < n && FirstRun(s, i, 1)
       else FirstRun(s, i, cnt))
  }

  datatype Gap = NoGap | GapAt(i: nat)

  /** The index behind the first set bit that follows a clear one, from `i` on. */
  function AfterGap(s: seq<bool>, i: nat): Gap
    decreases |s| - i
  {
    if i + 1 >= |s| then NoGap
    else if !s[i] && s[i + 1] then GapAt(i + 2)
    else AfterGap(s, i + 1)
  }

  // ----- The operations -----

  /** memset(bits, 0, len). */
  method BitmapInit(mem: array<Byte>, b: Bitmap)
    requires b.off + b.len <= mem.Length
    modifies mem
    ensures Bits(mem[..], b.off, 8 * b.len) == seq(8 * b.len, _ => false)
    ensures forall k :: b.off <= k < b.off + b.len ==> mem[k] == 0
    ensures forall k :: 0 <= k < mem.Length && !(b.off <= k < b.off + b.len) ==> mem[k] == old(mem[k])
  {
    var i := 0;
    while i < b.len
      invariant i <= b.len
      invariant forall k :: b.off <= k < b.off + i ==> mem[k] == 0
      invariant forall k :: 0 <= k < mem.Length && !(b.off <= k < b.off + i) ==> mem[k] == old(mem[k])
    {
      mem[b.off + i] := 0;
      i := i + 1;
    }
    forall j | 0 <= j < 8 * b.len
      ensures !Bit(mem[..], b.off, j)
    {
      ZeroByte(j % 8);
    }
  }

  method ScanTest(mem: array<Byte>, b: Bitmap, i: nat) returns (r: bool)
    requires b.off + i / 8 < mem.Length
    ensures r == Bit(mem[..], b.off, i)
  {
    var byteIdx, bitOdd := i / 8, i % 8;
    MaskShift(bitOdd);
    TestBit(mem[b.off + byteIdx], bitOdd);
    r := mem[b.off + byteIdx] & (BITMAP_MASK << bitOdd) != 0;
  }

  /** A byte is full exactly when its eight bits are set. */
  lemma FullBits(m: seq<Byte>, off: nat, byte: nat)
    requires off + byte < |m|
    ensures m[off + byte] == 0xff <==>
            forall i {:trigger Bit(m, off, i)} :: 8 * byte <= i < 8 * byte + 8 ==> Bit(m, off, i)
  {
    var x := m[off + byte];
    FullByte(x);
    if x == 0xff {
      forall i | 8 * byte <= i < 8 * byte + 8
        ensures Bit(m, off, i)
      {
        TestBit(x, i % 8);
        assert i / 8 == byte;
      }
    } else {
      var k :| 0 <= k < 8 && !BitOf(x, k);
      assert (8 * byte + k) / 8 == byte && (8 * byte + k) % 8 == k;
      assert !Bit(m, off, 8 * byte + k);
    }
  }

  /** The loops of bitmap_scan up to the first clear bit; len when every byte is full. */
  method FirstFree(mem: array<Byte>, b: Bitmap) returns (idxByte: nat, idxBit: nat)
    requires b.off + b.len < mem.Length
    ensures idxByte <= b.len && idxBit < 8
    ensures forall i :: 0 <= i < 8 * idxByte ==> Bit(mem[..], b.off, i)
    ensures idxByte < b.len ==>
              !Bit(mem[..], b.off, 8 * idxByte + idxBit) &&
              forall i :: 0 <= i < 8 * idxByte + idxBit ==> Bit(mem[..], b.off, i)
  {
    idxByte, idxBit := 0, 0;
    // The byte is read before the bound is tested.
    while mem[b.off + idxByte] == 0xff && idxByte < b.len
      invariant idxByte <= b.len
      invariant forall i :: 0 <= i < 8 * idxByte ==> Bit(mem[..], b.off, i)
    {
      FullBits(mem[..], b.off, idxByte);
      idxByte := idxByte + 1;
    }
    if idxByte == b.len { return; }
    ghost var x := mem[b.off + idxByte];
    FullByte(x);
    MaskShift(0);
    while (BITMAP_MASK << idxBit) & mem[b.off + idxByte] != 0
      invariant idxBit < 8 && BITMAP_MASK << idxBit == Mask(idxBit)
      invariant forall k :: 0 <= k < idxBit ==> BitOf(x, k)
      decreases 8 - idxBit
    {
      TestBit(x, idxBit);
      assert idxBit < 7;
      MaskShift(idxBit + 1);
      idxBit := idxBit + 1;
    }
    TestBit(x, idxBit);
    assert !BitOf(mem[b.off + idxByte], idxBit);
    forall i | 0 <= i < 8 * idxByte + idxBit
      ensures Bit(mem[..], b.off, i)
    {
      if i >= 8 * idxByte { assert i / 8 == idxByte && i % 8 == i - 8 * idxByte; }
    }
    assert (8 * idxByte + idxBit) / 8 == idxByte && (8 * idxByte + idxBit) % 8 == idxBit;
  }

  lemma {:induction false} GapSkip(s: seq<bool>, i: nat, f: nat)
    requires i <= f < |s| && forall j :: i <= j < f ==> s[j]
    ensures AfterGap(s, i) == AfterGap(s, f)
    decreases f - i
  {
    if i < f { GapSkip(s, i + 1, f); }
  }

  /** The second loop of bitmap_scan before it tests bit `next`: `count` is the length of the
      clear run that ends there, and nothing was found to the left. */
  ghost predicate Counting(s: seq<bool>, next: nat, count: nat, cnt: nat) {
    && 0 < next <= |s| && count <= next
    && (forall j :: next - count <= j < next ==> !s[j])
    && (next > count ==> s[next - count - 1])
    && (if cnt == 0 then count > 0 && AfterGap(s, 0) == AfterGap(s, next - 1)
        else count < cnt && forall j :: j + cnt <= next ==> !ClearRun(s, j, cnt))
  }

  lemma CountFrom(s: seq<bool>, f: nat, cnt: nat)
    requires f < |s| && !s[f] && cnt != 1 && forall j :: 0 <= j < f ==> s[j]
    ensures Counting(s, f + 1, 1, cnt)
  {
    GapSkip(s, 0, f);
    forall j | j + cnt <= f + 1 && cnt > 1
      ensures !ClearRun(s, j, cnt)
    {
      assert 0 <= j ==> s[j];
    }
  }

  lemma CountOn(s: seq<bool>, next: nat, count: nat, cnt: nat)
    requires Counting(s, next, count, cnt) && next < |s|
    ensures var count' := if s[next] then 0 else count + 1;
            if count' != cnt then Counting(s, next + 1, count', cnt)
            else if cnt == 0 then AfterGap(s, 0) == GapAt(next + 1)
            else next + 1 >= cnt && FirstRun(s, next + 1 - cnt, cnt)
  {
    forall j | cnt > 0 && j + cnt <= next + 1 && (s[next] || count + 1 != cnt)
      ensures !ClearRun(s, j, cnt)
    {
      if j + cnt == next + 1 && 0 <= j {
        assert s[next] || s[next - count - 1];
      }
    }
  }

  /** What that loop comes to. */
  function ScanFrom(s: seq<bool>, next: nat, count: nat, cnt: nat): Scan
    requires count <= next
    decreases |s| - next
  {
    if next >= |s| then NotFound
    else
      var count' := if s[next] then 0 else count + 1;
      if count' == cnt then Found(next + 1 - cnt) else ScanFrom(s, next + 1, count', cnt)
  }

  lemma {:induction false} ScanFromMeets(s: seq<bool>, n: nat, f: nat, next: nat, count: nat, cnt: nat)
    requires |s| == n + 1 && f < n && !s[f] && cnt != 1 && Counting(s, next, count, cnt)
    ensures ScanSpec(s, n, cnt, ScanFrom(s, next, count, cnt))
    decreases |s| - next
  {
    if next <= n {
      CountOn(s, next, count, cnt);
      var count' := if s[next] then 0 else count + 1;
      if count' != cnt { ScanFromMeets(s, n, f, next + 1, count', cnt); }
    }
  }

  /** The second half of bitmap_scan: `f` is the first clear bit, and bits are tested up to and
      with the one behind the bitmap. */
  method ScanOn(mem: array<Byte>, b: Bitmap, f: nat, cnt: nat) returns (r: Scan)
    requires b.off + b.len < mem.Length && f < 8 * b.len
    ensures r == ScanFrom(Bits(mem[..], b.off, 8 * b.len + 1), f + 1, 1, cnt)
  {
    ghost var s := Bits(mem[..], b.off, 8 * b.len + 1);
    var bitLeft, nextBit, count: nat := 8 * b.len - f, f + 1, 1;
    while bitLeft > 0
      invariant nextBit + bitLeft == |s| && count <= nextBit
      invariant ScanFrom(s, nextBit, count, cnt) == ScanFrom(s, f + 1, 1, cnt)
    {
      bitLeft := bitLeft - 1;
      var taken := ScanTest(mem, b, nextBit);
      if !taken { count := count + 1; } else { count := 0; }
      if count == cnt { return Found(nextBit + 1 - cnt); }
      nextBit := nextBit + 1;
    }
    return NotFound;
  }

  /** With the first clear bit at `f` the scan comes to what it shall. */
  lemma ScanAnswers(s: seq<bool>, n: nat, f: nat, cnt: nat)
    requires |s| == n + 1 && f < n && !s[f] && forall j :: 0 <= j < f ==> s[j]
    ensures ScanSpec(s, n, cnt, if cnt == 1 then Found(f) else ScanFrom(s, f + 1, 1, cnt))
  {
    if cnt == 1 {
      forall j | 0 <= j < f
        ensures !ClearRun(s, j, 1)
      {
        assert s[j];
      }
    } else {
      CountFrom(s, f, cnt);
      ScanFromMeets(s, n, f, f + 1, 1, cnt);
    }
  }

  /** bitmap_scan. */
  method BitmapScan(mem: array<Byte>, b: Bitmap, cnt: nat) returns (r: Scan)
    requires b.off + b.len < mem.Length
    ensures ScanSpec(Bits(mem[..], b.off, 8 * b.len + 1), 8 * b.len, cnt, r)
  {
    var idxByte, idxBit := FirstFree(mem, b);
    if idxByte == b.len { return Panic; }
    var f := 8 * idxByte + idxBit;
    ScanAnswers(Bits(mem[..], b.off, 8 * b.len + 1), 8 * b.len, f, cnt);
    if cnt == 1 { return Found(f); }
    r := ScanOn(mem, b, f, cnt);
  }

  /** The memory with bit `i`, counted from byte 0, changed. */
  function SetBit(m: seq<Byte>, i: nat, v: bool): (m': seq<Byte>)
    requires i / 8 < |m|
    ensures |m'| == |m|
  {
    m[i / 8 := Put(m[i / 8], i % 8, v)]
  }

  /** One bit changes and no other, in whatever window it is looked at. */
  lemma SetBitBits(m: seq<Byte>, i: nat, v: bool, off: nat, j: nat)
    requires i / 8 < |m| && off + j / 8 < |m|
    ensures Bit(SetBit(m, i, v), off, j) == if 8 * off + j == i then v else Bit(m, off, j)
  {
    PutBit(m[i / 8], i % 8, v, j % 8);
    assert 8 * off + j == i <==> off + j / 8 == i / 8 && j % 8 == i % 8;
  }

  /** bitmap_set; false when the assertion on the value fails. */
  method BitmapSet(mem: array<Byte>, b: Bitmap, i: nat, value: int) returns (ok: bool)
    requires b.off + i / 8 < mem.Length
    modifies mem
    ensures ok <==> value == 0 || value == 1
    ensures mem[..] == if ok then SetBit(old(mem[..]), 8 * b.off + i, value == 1) else old(mem[..])
  {
    if value != 0 && value != 1 { return false; }
    ok := true;
    var byteIdx, bitOdd := i / 8, i % 8;
    PutShift(mem[b.off + byteIdx], bitOdd);
    assert (8 * b.off + i) / 8 == b.off + byteIdx && (8 * b.off + i) % 8 == bitOdd;
    if value != 0 {
      mem[b.off + byteIdx] := mem[b.off + byteIdx] | (BITMAP_MASK << bitOdd);
    } else {
      mem[b.off + byteIdx] := mem[b.off + byteIdx] & !(BITMAP_MASK << bitOdd);
    }
  }

  /** bitmap_set refines the update of a boolean sequence. */
  lemma SetRefines(m: seq<Byte>, b: Bitmap, i: nat, v: bool)
    requires b.off + b.len <= |m| && i < 8 * b.len
    ensures Bits(SetBit(m, 8 * b.off + i, v), b.off, 8 * b.len) == Bits(m, b.off, 8 * b.len)[i := v]
  {
    var m' := SetBit(m, 8 * b.off + i, v);
    var l, r := Bits(m', b.off, 8 * b.len), Bits(m, b.off, 8 * b.len)[i := v];
    forall j | 0 <= j < |l|
      ensures l[j] == r[j]
    {
      SetBitBits(m, 8 * b.off + i, v, b.off, j);
      assert l[j] == Bit(m', b.off, j);
    }
  }

  lemma SameRuns(s: seq<bool>, n: nat, j: int, cnt: nat)
    requires |s| == n + 1 && j + cnt <= n
    ensures ClearRun(s[..n], j, cnt) <==> ClearRun(s, j, cnt)
  {
    if ClearRun(s[..n], j, cnt) { assert forall k :: j <= k < j + cnt ==> !s[..n][k]; }
    if ClearRun(s, j, cnt) { assert forall k :: j <= k < j + cnt ==> !s[k]; }
  }

  /** The bitmap has a free bit but no run of `cnt`, and its last bits together with the one behind
      it make up one. */
  ghost predicate Overruns(s: seq<bool>, n: nat, cnt: nat)
    requires |s| == n + 1
  {
    && cnt > 1 && ClearRun(s, n + 1 - cnt, cnt) && NoRun(s[..n], cnt)
    && exists i :: 0 <= i < n && !s[i]
  }

  /** A run within the bitmap. */
  ghost predicate HasRun(s: seq<bool>, n: nat, cnt: nat) {
    exists j: int :: j + cnt <= n && ClearRun(s, j, cnt)
  }

  lemma RunsWithin(s: seq<bool>, n: nat, cnt: nat)
    requires |s| == n + 1
    ensures HasRun(s, n, cnt) <==> !NoRun(s[..n], cnt)
  {
    if j: int :| j + cnt <= n && ClearRun(s, j, cnt) { SameRuns(s, n, j, cnt); }
    if j: int :| ClearRun(s[..n], j, cnt) { SameRuns(s, n, j, cnt); }
  }

  /** The scan goes wrong in this one way, and then it returns just that run. */
  lemma OverrunExactly(s: seq<bool>, n: nat, cnt: nat, r: Scan)
    requires |s| == n + 1 && cnt > 0 && ScanSpec(s, n, cnt, r)
    ensures r.Found? && r.i + cnt > n <==> Overruns(s, n, cnt)
    ensures Overruns(s, n, cnt) ==> r == Found(n + 1 - cnt)
  {
    RunsWithin(s, n, cnt);
    if r.Found? && r.i + cnt > n {
      assert !HasRun(s, n, cnt);
    }
    if Overruns(s, n, cnt) {
      assert ClearRun(s, n + 1 - cnt, cnt);
      assert r.Found? && ClearRun(s, r.i, cnt);
    }
  }

  /** What exact first fit within the bitmap is. */
  ghost predicate FirstFit(s: seq<bool>, cnt: nat, r: Scan) {
    if r.Found? then FirstRun(s, r.i, cnt) else NoRun(s, cnt)
  }

  /** bitmap_scan is exact first fit within the bitmap if and only if the bits do not overrun. */
  lemma FirstFitExactly(s: seq<bool>, n: nat, cnt: nat, r: Scan)
    requires |s| == n + 1 && cnt > 0 && ScanSpec(s, n, cnt, r)
    ensures FirstFit(s[..n], cnt, r) <==> !Overruns(s, n, cnt)
  {
    OverrunExactly(s, n, cnt, r);
    RunsWithin(s, n, cnt);
    if r.Found? {
      forall j: int | 0 <= j <= r.i && j + cnt <= n
        ensures ClearRun(s[..n], j, cnt) <==> ClearRun(s, j, cnt)
      {
        SameRuns(s, n, j, cnt);
      }
    } else if r.Panic? {
      forall j: int
        ensures j + cnt <= n ==> !ClearRun(s, j, cnt)
      {
        assert 0 <= j < n ==> s[j];
      }
    }
  }

  /** So it is whenever the bit behind the bitmap is set, */
  lemma GuardedFirstFit(s: seq<bool>, n: nat, cnt: nat, r: Scan)
    requires |s| == n + 1 && s[n] && cnt > 0 && ScanSpec(s, n, cnt, r)
    ensures FirstFit(s[..n], cnt, r)
  {
    FirstFitExactly(s, n, cnt, r);
  }

  /** and may not be when it is clear: two bits of a bitmap whose last bit alone is free. */
  lemma UnguardedScanOverruns(s: seq<bool>, n: nat)
    requires |s| == n + 1 && n > 0 && !s[n] && !s[n - 1] && forall i :: 0 <= i < n - 1 ==> s[i]
    ensures Overruns(s, n, 2) && ScanSpec(s, n, 2, Found(n - 1))
  {
    forall j: int
      ensures j != n - 1 ==> !ClearRun(s, j, 2)
      ensures !ClearRun(s[..n], j, 2)
    {
      if 0 <= j < n - 1 { assert s[j] && s[..n][j]; }
    }
  }

  lemma FirstRunUnique(s: seq<bool>, i: nat, j: nat, cnt: nat)
    requires FirstRun(s, i, cnt) && FirstRun(s, j, cnt)
    ensures i == j
  {
  }

  /** The result of bitmap_scan is determined by the bits. */
  lemma ScanUnique(s: seq<bool>, n: nat, cnt: nat, r: Scan, q: Scan)
    requires |s| == n + 1 && ScanSpec(s, n, cnt, r) && ScanSpec(s, n, cnt, q)
    ensures r == q
  {
    if r.Found? && q.Found? && cnt > 0 { FirstRunUnique(s, r.i, q.i, cnt); }
  }

  // ----- Runs of bits and bitmaps filled from the left -----

  /** The memory with `n` bits set from bit `i` on. */
  function SetRun(m: seq<Byte>, i: nat, n: nat): (m': seq<Byte>)
    requires n > 0 ==> (i + n - 1) / 8 < |m|
    ensures |m'| == |m|
  {
    if n == 0 then m else SetBit(SetRun(m, i, n - 1), i + n - 1, true)
  }

  lemma {:induction false} SetRunBits(m: seq<Byte>, i: nat, n: nat, off: nat, j: nat)
    requires (n > 0 ==> (i + n - 1) / 8 < |m|) && off + j / 8 < |m|
    ensures Bit(SetRun(m, i, n), off, j) == (i <= 8 * off + j < i + n || Bit(m, off, j))
  {
    if n > 0 {
      SetRunBits(m, i, n - 1, off, j);
      SetBitBits(SetRun(m, i, n - 1), i + n - 1, true, off, j);
    }
  }

  /** The first `used` bits of the bitmap are set, the others are clear. */
  ghost predicate Filled(m: seq<Byte>, b: Bitmap, used: nat) {
    && used <= 8 * b.len && b.off + b.len <= |m|
    && forall i :: 0 <= i < 8 * b.len ==> Bit(m, b.off, i) == (i < used)
  }

  /** A scan of a bitmap that is filled from the left. */
  lemma FilledScan(m: seq<Byte>, b: Bitmap, used: nat, cnt: nat, r: Scan)
    requires Filled(m, b, used) && b.off + b.len < |m| && cnt > 0
    requires ScanSpec(Bits(m, b.off, 8 * b.len + 1), 8 * b.len, cnt, r)
    ensures r == if used == 8 * b.len then Panic
                 else if used + cnt <= 8 * b.len then Found(used)
                 else if used + cnt == 8 * b.len + 1 && cnt > 1 && !Bit(m, b.off, 8 * b.len) then Found(used)
                 else NotFound
  {
    var n, s := 8 * b.len, Bits(m, b.off, 8 * b.len + 1);
    assert forall i :: 0 <= i < n ==> s[i] == (i < used);
    if used < n {
      assert !s[used];
      forall j: int
        ensures ClearRun(s, j, cnt) <==> used <= j && j + cnt <= n + 1 && (j + cnt == n + 1 ==> !s[n])
      {
        if 0 <= j < used { assert s[j]; }
        if 0 <= j && j + cnt == n + 1 { assert j <= n < j + cnt; }
      }
      assert ClearRun(s, used, cnt) <==> used + cnt <= n || (used + cnt == n + 1 && !s[n]);
      if r.NotFound? { assert !ClearRun(s, used, cnt); }
    }
  }
}
