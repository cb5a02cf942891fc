/** The physical page allocator: a search for contiguous free pages over a packed bitmap. */
module PageAlloc {
  import opened Bits

  const PAGE_SIZE := 4096

  /** The page addresses handed out are non-negative 32-bit integers, so there are at most this many pages. */
  const MAX_PAGES := 0x80000

  // ---------------------------------------------------------------- reference: first fit on plain bits

  /** The bitmap as one boolean per page; true means taken. */
  function Used(s: seq<Byte>): (u: seq<bool>)
    ensures |u| == 8 * |s|
  {
    seq(8 * |s|, i requires 0 <= i < 8 * |s| => BitAt(s, i))
  }

  /** Pages `[p, p + n)` exist and are all free. */
  predicate Free(u: seq<bool>, p: nat, n: nat) {
    p + n <= |u| && forall i :: p <= i < p + n ==> !u[i]
  }

  /** Page-by-page first fit, starting the search at `from`; -1 when nothing fits. */
  function FirstFit(u: seq<bool>, n: nat, from: nat): (p: int)
    decreases |u| - from
  {
    if from + n > |u| then -1
    else if Free(u, from, n) then from
    else if from < |u| then FirstFit(u, n, from + 1)
    else -1
  }

  /** `FirstFit` is the least free run, and it fails exactly when there is none. */
  lemma {:induction false} FirstFitIsLeast(u: seq<bool>, n: nat, from: nat)
    ensures var p := FirstFit(u, n, from);
      && (p == -1 ==> forall q: nat :: from <= q ==> !Free(u, q, n))
      && (p != -1 ==> from <= p && Free(u, p, n) && forall q: nat :: from <= q < p ==> !Free(u, q, n))
    decreases |u| - from
  {
    if from + n > |u| || Free(u, from, n) || from >= |u| {
    } else {
      FirstFitIsLeast(u, n, from + 1);
    }
  }

  lemma FirstFitFits(u: seq<bool>, n: nat)
    ensures var p := FirstFit(u, n, 0); -1 <= p && (p != -1 ==> p + n <= |u|)
  {
    FirstFitIsLeast(u, n, 0);
  }

  lemma FirstFitUnique(u: seq<bool>, n: nat, p: int)
    requires p == -1 ==> forall q: nat :: !Free(u, q, n)
    requires p != -1 ==> 0 <= p && Free(u, p, n) && forall q: nat :: q < p ==> !Free(u, q, n)
    ensures FirstFit(u, n, 0) == p
  {
    FirstFitIsLeast(u, n, 0);
  }

  /** `u` with pages `[lo, hi)` set to `v` and every other page as before. */
  function Fill(u: seq<bool>, lo: int, hi: int, v: bool): (w: seq<bool>)
    ensures |w| == |u|
  {
    seq(|u|, i requires 0 <= i < |u| => if lo <= i < hi then v else u[i])
  }

  /** `u` with all the given ranges taken. */
  function Reserve(u: seq<bool>, ranges: seq<(nat, nat)>): (w: seq<bool>)
    ensures |w| == |u|
  {
    if ranges == [] then u
    else Fill(Reserve(u, ranges[..|ranges| - 1]), ranges[|ranges| - 1].0, ranges[|ranges| - 1].1, true)
  }

  /** A page is taken afterwards if it was, or if it lies in one of the ranges. */
  lemma {:induction false} ReserveIs(u: seq<bool>, ranges: seq<(nat, nat)>, i: nat)
    requires i < |u|
    ensures Reserve(u, ranges)[i] <==> u[i] || exists r :: r in ranges && r.0 <= i < r.1
  {
    if ranges == [] {
    } else {
      var init, last := ranges[..|ranges| - 1], ranges[|ranges| - 1];
      ReserveIs(u, init, i);
      assert last in ranges && forall r :: r in ranges <==> r in init || r == last;
    }
  }

  lemma {:induction false} ReserveCommutes(u: seq<bool>, ranges: seq<(nat, nat)>)
    ensures Fill(Reserve(u, ranges), 0, 256, true) == Reserve(Fill(u, 0, 256, true), ranges)
  {
    if ranges == [] {
    } else {
      ReserveCommutes(u, ranges[..|ranges| - 1]);
    }
  }

  /** What an allocation of `n` pages does to the bitmap, and the address it returns. */
  function Allocate(u: seq<bool>, n: nat): (r: (seq<bool>, nat)) {
    var p := FirstFit(u, n, 0);
    if p < 0 then (u, 0) else (Fill(u, p, p + n, true), PAGE_SIZE * p)
  }

  /** What giving back the `n` pages at address `addr` does to the bitmap. */
  function Release(u: seq<bool>, addr: nat, n: nat): (w: seq<bool>) {
    Fill(u, addr / PAGE_SIZE, addr / PAGE_SIZE + n, false)
  }

  // ---------------------------------------------------------------- what the byte helpers measure

  /** The number of free bits at the top of a byte. */
  function HighRun(c: Byte): (l: nat)
    ensures l <= 8 && (forall k :: 8 - l <= k < 8 ==> !c[k]) && (l < 8 ==> c[7 - l])
  {
    HighRunFrom(c, 0)
  }

  function HighRunFrom(c: Byte, j: nat): (l: nat)
    requires j <= 8 && forall k :: 8 - j <= k < 8 ==> !c[k]
    ensures j <= l <= 8 && (forall k :: 8 - l <= k < 8 ==> !c[k]) && (l < 8 ==> c[7 - l])
    decreases 8 - j
  {
    if j == 8 || c[7 - j] then j else HighRunFrom(c, j + 1)
  }

  /** The number of free bits at the bottom of a byte. */
  function LowRun(c: Byte): (r: nat)
    ensures r <= 8 && (forall k :: 0 <= k < r ==> !c[k]) && (r < 8 ==> c[r])
  {
    LowRunFrom(c, 0)
  }

  function LowRunFrom(c: Byte, j: nat): (r: nat)
    requires j <= 8 && forall k :: 0 <= k < j ==> !c[k]
    ensures j <= r <= 8 && (forall k :: 0 <= k < r ==> !c[k]) && (r < 8 ==> c[r])
    decreases 8 - j
  {
    if j == 8 || c[j] then j else LowRunFrom(c, j + 1)
  }

  /** Bits `[k, k + n)` of `c` are free. */
  predicate ByteFits(c: Byte, k: nat, n: nat) {
    k + n <= 8 && forall i :: k <= i < k + n ==> !c[i]
  }

  lemma UsedBit(s: seq<Byte>, b: nat, k: nat)
    requires b < |s| && k < 8
    ensures Used(s)[8 * b + k] == s[b][k]
  {
    assert (8 * b + k) / 8 == b && (8 * b + k) % 8 == k;
  }

  lemma ByteRun(s: seq<Byte>, b: nat, k: nat, n: nat)
    requires b < |s| && k + n <= 8
    ensures Free(Used(s), 8 * b + k, n) == ByteFits(s[b], k, n)
  {
    forall i: nat | k <= i < k + n
      ensures Used(s)[8 * b + i] == s[b][i]
    {
      UsedBit(s, b, i);
    }
    if ByteFits(s[b], k, n) {
      forall j | 8 * b + k <= j < 8 * b + k + n
        ensures !Used(s)[j]
      {
        assert j == 8 * b + (j - 8 * b);
      }
    }
  }

  /** The high end of byte `b`, `m` empty bytes and the low end of the byte after them make a free run. */
  lemma SpanIsFree(s: seq<Byte>, b: nat, m: nat, n: nat)
    requires b + m + 1 < |s|
    requires forall j :: b < j <= b + m ==> s[j] == ZERO
    requires n <= HighRun(s[b]) + 8 * m + LowRun(s[b + m + 1])
    ensures Free(Used(s), 8 * b + 8 - HighRun(s[b]), n)
  {
    var p := 8 * b + 8 - HighRun(s[b]);
    forall i | p <= i < p + n
      ensures !Used(s)[i]
    {
      UsedBit(s, i / 8, i % 8);
    }
  }

  /** A free run that starts in byte `b` and leaves it crosses `m` empty bytes. */
  lemma SpanOfFree(s: seq<Byte>, b: nat, p: nat, n: nat) returns (m: nat)
    requires 8 * b <= p < 8 * b + 8 < p + n && Free(Used(s), p, n)
    ensures m == (p + n - 8 * b - 9) / 8 && b + m + 1 < |s|
    ensures forall j :: b < j <= b + m ==> s[j] == ZERO
    ensures n <= HighRun(s[b]) + 8 * m + LowRun(s[b + m + 1])
  {
    m := (p + n - 8 * b - 9) / 8;
    var l := HighRun(s[b]);
    if 8 * b + 8 - l > p {
      UsedBit(s, b, 7 - l);
      assert false;
    }
    forall j | b < j <= b + m
      ensures s[j] == ZERO
    {
      forall k: nat | k < 8
        ensures !s[j][k]
      {
        UsedBit(s, j, k);
        assert p <= 8 * j + k < p + n;
      }
    }
    var r := LowRun(s[b + m + 1]);
    if r < 8 {
      UsedBit(s, b + m + 1, r);
      assert 8 * (b + m + 1) + r >= p + n;
    }
  }

  /** Byte `b` offers no start for at most eight pages when neither the one-byte nor the two-byte test does. */
  lemma NoShortStart(s: seq<Byte>, b: nat, n: nat)
    requires b < |s| && 1 <= n <= 8
    requires forall k: nat :: !ByteFits(s[b], k, n)
    requires b + 1 < |s| ==> HighRun(s[b]) + LowRun(s[b + 1]) < n
    ensures forall p: nat :: 8 * b <= p < 8 * b + 8 ==> !Free(Used(s), p, n)
  {
    forall p: nat | 8 * b <= p < 8 * b + 8
      ensures !Free(Used(s), p, n)
    {
      if p + n <= 8 * b + 8 {
        ByteRun(s, b, p - 8 * b, n);
      } else if Free(Used(s), p, n) {
        var m := SpanOfFree(s, b, p, n);
      }
    }
  }

  /** The same for more than eight pages: such a run ends `t - 1` or `t` bytes further on. */
  lemma NoLongStart(s: seq<Byte>, b: nat, n: nat, t: nat)
    requires b + t - 1 < |s| && t == (n + 7) / 8 && 2 <= t
    requires (exists j :: b < j < b + t - 1 && s[j] != ZERO)
      || (HighRun(s[b]) + LowRun(s[b + t - 1]) + 8 * (t - 2) < n
          && (b + t < |s| && s[b + t - 1] == ZERO ==> HighRun(s[b]) + LowRun(s[b + t]) + 8 * (t - 1) < n))
    ensures forall p: nat :: 8 * b <= p < 8 * b + 8 ==> !Free(Used(s), p, n)
  {
    forall p: nat | 8 * b <= p < 8 * b + 8
      ensures !Free(Used(s), p, n)
    {
      if Free(Used(s), p, n) {
        var m := SpanOfFree(s, b, p, n);
      }
    }
  }

  /** Why the general search cannot succeed for at most eight pages once the short one has failed. */
  lemma FallThroughFails(c: Byte, n: nat)
    requires 1 <= n <= 8
    requires forall k: nat :: !ByteFits(c, k, n)
    ensures HighRun(c) + LowRun(c) - 8 < n && c != ZERO
  {
    assert !ByteFits(c, 0, n);
  }

  lemma NoStartNearEnd(s: seq<Byte>, st: nat, n: nat)
    requires |s| <= st + (n + 7) / 8 - 1 && 1 <= n
    ensures forall p: nat :: 8 * st <= p ==> !Free(Used(s), p, n)
  {
  }

  /** Nothing starts before the first bit of the free high end of byte `b`, if nothing starts before `b`. */
  lemma SpanIsFirst(s: seq<Byte>, b: nat, m: nat, n: nat)
    requires b + m + 1 < |s| && 1 <= n
    requires forall j :: b < j <= b + m ==> s[j] == ZERO
    requires n <= HighRun(s[b]) + 8 * m + LowRun(s[b + m + 1])
    requires forall p: nat :: p < 8 * b ==> !Free(Used(s), p, n)
    requires HighRun(s[b]) < n && forall k: nat :: !ByteFits(s[b], k, n)
    ensures FirstFit(Used(s), n, 0) == 8 * b + 8 - HighRun(s[b])
  {
    var l := HighRun(s[b]);
    var first := 8 * b + 8 - l;
    SpanIsFree(s, b, m, n);
    forall q: nat | q < first
      ensures !Free(Used(s), q, n)
    {
      if 8 * b <= q {
        UsedBit(s, b, 7 - l);
        if q + n <= 8 * b + 7 - l {
          ByteRun(s, b, q - 8 * b, n);
        }
      }
    }
    FirstFitUnique(Used(s), n, first);
  }

  /** A run of more than eight pages never lies in one byte. */
  lemma LongIsFirst(s: seq<Byte>, b: nat, m: nat, n: nat)
    requires b + m + 1 < |s| && 8 < n
    requires forall j :: b < j <= b + m ==> s[j] == ZERO
    requires n <= HighRun(s[b]) + 8 * m + LowRun(s[b + m + 1])
    requires forall p: nat :: p < 8 * b ==> !Free(Used(s), p, n)
    ensures FirstFit(Used(s), n, 0) == 8 * b + 8 - HighRun(s[b])
  {
    hide Used, Free, FirstFit;
    SpanIsFirst(s, b, m, n);
  }

  /** What is known when both tests of the general search have failed, or a byte between is not empty. */
  lemma NoneAt(s: seq<Byte>, b: nat, n: nat, t: nat, flag: bool)
    requires b + t - 1 < |s| && 1 <= n && t == (n + 7) / 8
    requires flag ==> exists j :: b < j < b + t - 1 && s[j] != ZERO
    requires flag || (HighRun(s[b]) + LowRun(s[b + t - 1]) + 8 * (t - 2) < n
                      && (b + t < |s| && s[b + t - 1] == ZERO ==> HighRun(s[b]) + LowRun(s[b + t]) + 8 * (t - 1) < n))
    requires forall p: nat :: (t == 1 || p < 8 * b) ==> !Free(Used(s), p, n)
    ensures forall p: nat :: (t == 1 || p < 8 * (b + 1)) ==> !Free(Used(s), p, n)
  {
    hide Used, Free, HighRun, LowRun;
    if t != 1 {
      NoLongStart(s, b, n, t);
    }
  }

  /** When no run exists, the general search for at most eight pages sees a byte that is too short, and not empty. */
  lemma InVain(s: seq<Byte>, b: nat, n: nat)
    requires b < |s| && 1 <= n <= 8 && forall p: nat :: !Free(Used(s), p, n)
    ensures HighRun(s[b]) + LowRun(s[b]) - 8 < n && s[b] != ZERO
  {
    hide Used, Free, HighRun, LowRun;
    NothingInByte(s, b, n);
    FallThroughFails(s[b], n);
  }

  // ---------------------------------------------------------------- the allocator

  lemma FillRange(s: seq<Byte>, w: seq<Byte>, lo: nat, hi: nat, v: bool)
    requires |w| == |s| && lo <= hi <= 8 * |s|
    requires forall b: nat, k: nat :: b < |s| && k < 8 ==> w[b][k] == (if lo <= 8 * b + k < hi then v else s[b][k])
    ensures Used(w) == Fill(Used(s), lo, hi, v)
  {
    forall i | 0 <= i < 8 * |s|
      ensures Used(w)[i] == Fill(Used(s), lo, hi, v)[i]
    {
      assert i == 8 * (i / 8) + i % 8;
    }
  }

  /** Only bit `k` is set, if there is one of that number. */
  predicate Single(m: Byte, k: int) {
    forall i :: 0 <= i < 8 ==> m[i] == (i == k)
  }

  /** And-ing with a single bit tests it. */
  lemma OneBit(m: Byte, c: Byte, k: nat)
    requires k < 8 && Single(m, k)
    ensures And(m, c) == ZERO <==> !c[k]
  {
    assert And(m, c)[k] == c[k];
  }

  /** A power of two has one digit that is set. */
  lemma {:induction false} PowerDigits(k: nat, w: nat)
    requires k < w
    ensures forall i :: 0 <= i < w ==> Digits(Pow2(k), w)[i] == (i == k)
  {
    if k == 0 {
      ZeroDigits(w - 1);
    } else {
      PowerDigits(k - 1, w - 1);
    }
  }

  lemma {:induction false} ZeroDigits(w: nat)
    ensures forall i :: 0 <= i < w ==> !Digits(0, w)[i]
  {
    if w == 0 {
    } else {
      ZeroDigits(w - 1);
    }
  }

  /** The masks that the bit loops start with. */
  lemma EndBits(c: Byte, top: Byte, bottom: Byte)
    requires top == ByteOf(0x80) && bottom == ByteOf(0x01)
    ensures Single(top, 7) && Single(bottom, 0)
  {
    hide Digits;
    assert Pow2(7) == 0x80 && Pow2(0) == 0x01;
    hide Pow2;
    PowerDigits(7, |top|);
    PowerDigits(0, |bottom|);
  }

  /** A single bit moves down, or up, or out. */
  lemma Shifted(m: Byte, k: int)
    requires Single(m, k)
    ensures 0 <= k < 8 ==> Single(Shr(m, 1), k - 1) && Single(Shl(m, 1), k + 1)
  {
  }

  lemma HighRunIs(c: Byte, l: nat)
    requires l <= 8 && (forall k :: 8 - l <= k < 8 ==> !c[k]) && (l < 8 ==> c[7 - l])
    ensures HighRun(c) == l
  {
    hide HighRun;
  }

  lemma LowRunIs(c: Byte, r: nat)
    requires r <= 8 && (forall k :: 0 <= k < r ==> !c[k]) && (r < 8 ==> c[r])
    ensures LowRun(c) == r
  {
    hide LowRun;
  }

  class PageMap {
    /** `page_bitmap`: `size` bytes in use, and one more that the masked update at the very end touches. */
    const bytes: array<Byte>
    const size: nat

    ghost predicate Valid()
      reads bytes
    {
      && bytes.Length == size + 1
      && 8 * size <= MAX_PAGES
    }

    /** The taken pages. */
    ghost function Taken(): seq<bool>
      requires Valid()
      reads bytes
    {
      Used(bytes[..size])
    }

    /**
     * The bitmap as `page_init` leaves it: all free, then the given page ranges taken, then the first
     * megabyte.
     */
    constructor (size: nat, ranges: seq<(nat, nat)>)
      requires 256 <= 8 * size <= MAX_PAGES
      requires forall r :: r in ranges ==> r.0 <= r.1 <= 8 * size
      ensures Valid() && fresh(bytes) && this.size == size
      ensures Taken() == Reserve(Fill(seq(8 * size, i => false), 0, 256, true), ranges)
    {
      this.size := size;
      bytes := new Byte[size + 1];
      new;
      var i := 0;
      while i <= size
        modifies bytes
        invariant 0 <= i <= size + 1
        invariant forall j :: 0 <= j < i ==> bytes[j] == ZERO
      {
        bytes[i] := ZERO;
        i := i + 1;
      }
      ghost var none: seq<bool> := seq(8 * size, i => false);
      assert Taken() == none == Reserve(none, []);
      i := 0;
      while i < |ranges|
        modifies bytes
        invariant 0 <= i <= |ranges|
        invariant Taken() == Reserve(none, ranges[..i])
      {
        SetMultiple(ranges[i].0, ranges[i].1);
        assert ranges[..i + 1][..i] == ranges[..i];
        i := i + 1;
      }
      assert ranges[..i] == ranges;
      SetMultiple(0, 256);
      ReserveCommutes(none, ranges);
    }

    method LeftBit(c: Byte) returns (result: nat)
      ensures result == HighRun(c)
    {
      hide And, Single, HighRun, ByteOf, Shr;
      result := 0;
      var mask: Byte := ByteOf(0x80);
      EndBits(c, mask, ByteOf(0x01));
      OneBit(mask, c, 7);
      while And(mask, c) == ZERO && result < 8
        invariant result <= 8 && Single(mask, 7 - result)
        invariant forall k :: 8 - result <= k < 8 ==> !c[k]
        invariant result < 8 ==> (And(mask, c) == ZERO <==> !c[7 - result])
      {
        Shifted(mask, 7 - result);
        result := result + 1;
        mask := Shr(mask, 1);
        if result < 8 {
          OneBit(mask, c, 7 - result);
        }
      }
      HighRunIs(c, result);
    }

    method RightBit(c: Byte) returns (result: nat)
      ensures result == LowRun(c)
    {
      hide And, Single, LowRun, ByteOf, Shl;
      result := 0;
      var mask: Byte := ByteOf(0x01);
      EndBits(c, ByteOf(0x80), mask);
      OneBit(mask, c, 0);
      while And(mask, c) == ZERO && result < 8
        invariant result <= 8 && Single(mask, result)
        invariant forall k :: 0 <= k < result ==> !c[k]
        invariant result < 8 ==> (And(mask, c) == ZERO <==> !c[result])
      {
        Shifted(mask, result);
        mask := Shl(mask, 1);
        result := result + 1;
        if result < 8 {
          OneBit(mask, c, result);
        }
      }
      LowRunIs(c, result);
    }

    /** Allocates `n` bits inside one byte: the lowest place where they fit, or -1. */
    method BitIn(c: Byte, n: nat) returns (result: int)
      requires 1 <= n <= 8
      ensures result == -1 ==> forall k: nat :: !ByteFits(c, k, n)
      ensures result != -1 ==> 0 <= result && ByteFits(c, result, n) && forall k: nat :: k < result ==> !ByteFits(c, k, n)
    {
      result := 0;
      var masks := [0x1, 0x3, 0x7, 0xf, 0x1f, 0x3f, 0x7f, 0xff];
      var mask := ByteOf(masks[n - 1]);
      TableEntry(n);
      LowOnes(n, masks[n - 1], mask);
      while result <= 8 - n
        invariant 0 <= result <= 9 - n
        invariant forall i :: 0 <= i < 8 ==> mask[i] == (result <= i < result + n)
        invariant forall k: nat :: k < result ==> !ByteFits(c, k, n)
      {
        MaskedRun(c, mask, result, n);
        if mask == And(mask, Not(c)) {
          return;
        }
        mask := Shl(mask, 1);
        result := result + 1;
      }
      result := -1;
    }

    /** Marks pages `[start, end)` as taken. */
    method SetMultiple(start: nat, end: nat)
      requires Valid() && start <= end <= 8 * size
      modifies bytes
      ensures Taken() == Fill(old(Taken()), start, end, true)
      ensures bytes[size] == old(bytes[size])
    {
      var bytesSt, bytesEd := start / 8, end / 8;
      var maskSt := HighOnes(start % 8);
      var maskEd := Not(HighOnes(end % 8));
      var p := bytesSt;
      if bytesSt == bytesEd {
        bytes[p] := Or(bytes[p], And(maskEd, maskSt));
      } else {
        bytes[p] := Or(bytes[p], maskSt);
        p := p + 1;
        while p < bytesEd
          invariant bytesSt < p <= bytesEd
          invariant bytes[bytesSt] == Or(old(bytes[bytesSt]), maskSt)
          invariant forall j :: bytesSt < j < p ==> bytes[j] == ONES
          invariant forall j :: 0 <= j < bytes.Length && !(bytesSt <= j < p) ==> bytes[j] == old(bytes[j])
        {
          bytes[p] := ONES;
          p := p + 1;
        }
        bytes[p] := Or(bytes[p], maskEd);
      }
      assert bytes[..size] == bytes[..][..size] && old(bytes[..size]) == old(bytes[..])[..size];
      SetRange(old(bytes[..]), bytes[..], size, start, end);
    }

    /** Marks pages `[start, end)` as free. */
    method ClearMultiple(start: nat, end: nat)
      requires Valid() && start <= end <= 8 * size
      modifies bytes
      ensures Taken() == Fill(old(Taken()), start, end, false)
      ensures bytes[size] == old(bytes[size])
    {
      var bytesSt, bytesEd := start / 8, end / 8;
      var maskSt := Not(HighOnes(start % 8));
      var maskEd := HighOnes(end % 8);
      var p := bytesSt;
      if bytesSt == bytesEd {
        bytes[p] := And(bytes[p], Or(maskEd, maskSt));
      } else {
        bytes[p] := And(bytes[p], maskSt);
        p := p + 1;
        while p < bytesEd
          invariant bytesSt < p <= bytesEd
          invariant bytes[bytesSt] == And(old(bytes[bytesSt]), maskSt)
          invariant forall j :: bytesSt < j < p ==> bytes[j] == ZERO
          invariant forall j :: 0 <= j < bytes.Length && !(bytesSt <= j < p) ==> bytes[j] == old(bytes[j])
        {
          bytes[p] := ZERO;
          p := p + 1;
        }
        bytes[p] := And(bytes[p], maskEd);
      }
      assert bytes[..size] == bytes[..][..size] && old(bytes[..size]) == old(bytes[..])[..size];
      ClearRange(old(bytes[..]), bytes[..], size, start, end);
    }

    /** The search for at most eight pages: one byte at a time, also looking across into the next byte. */
    method FindShort(n: nat) returns (ok: bool, st: nat, t: nat)
      requires Valid() && 1 <= n <= 8
      ensures ok ==> st < size && (t == 1 || t == 2)
      ensures ok && t == 1 ==> var k := FirstFit(Taken(), n, 0) - 8 * st;
        0 <= k && ByteFits(bytes[st], k, n) && forall j: nat :: j < k ==> !ByteFits(bytes[st], j, n)
      ensures ok && t == 2 ==> FirstFit(Taken(), n, 0) == 8 * st + 8 - HighRun(bytes[st])
      ensures !ok ==> t == 1 && forall p: nat :: !Free(Taken(), p, n)
    {
      ghost var s := bytes[..size];
      st, t, ok := 0, 1, false;
      while st < size
        invariant 0 <= st <= size
        invariant forall p: nat :: p < 8 * st ==> !Free(Used(s), p, n)
      {
        assert bytes[st] == s[st] && (st + 1 < size ==> bytes[st + 1] == s[st + 1]);
        var k := BitIn(bytes[st], n);
        if k != -1 {
          ByteIsFirst(s, st, k, n);
          return true, st, t;
        }
        var left := LeftBit(bytes[st]);
        if st + 1 < size {
          var right := RightBit(bytes[st + 1]);
          if left + right >= n {
            HighTooShort(bytes[st], n);
            SpanIsFirst(s, st, 0, n);
            return true, st, t + 1;
          }
        }
        NoShortStart(s, st, n);
        st := st + 1;
      }
    }

    /** Whether a byte in `[from, to)` is not all free. */
    method AnyTaken(from: nat, to: nat) returns (flag: bool)
      requires Valid() && to <= size
      ensures flag <==> exists j :: from <= j < to && bytes[..size][j] != ZERO
    {
      flag := false;
      ghost var s := bytes[..size];
      var p := from;
      while p < to
        invariant from <= p && !flag
        invariant forall j :: from <= j < p && j < to ==> s[j] == ZERO
      {
        if bytes[p] != ZERO {
          assert s[p] != ZERO;
          flag := true;
          break;
        }
        p := p + 1;
      }
    }

    /** The test of one byte in the general search. */
    method LongAt(n: nat, t: nat, st: nat) returns (hit: bool)
      requires Valid() && 1 <= n && t == (n + 7) / 8 && st + t - 1 < size
      requires forall p: nat :: (t == 1 || p < 8 * st) ==> !Free(Taken(), p, n)
      ensures hit ==> t != 1 && FirstFit(Taken(), n, 0) == 8 * st + 8 - HighRun(bytes[st])
      ensures !hit ==> forall p: nat :: (t == 1 || p < 8 * (st + 1)) ==> !Free(Taken(), p, n)
    {
      ghost var s := bytes[..size];
      hide Used, Free, FirstFit, HighRun, LowRun, ByteFits;
      assert Taken() == Used(s);
      assert forall j :: st <= j < size ==> bytes[j] == s[j];
      hit := false;
      var flag := AnyTaken(st + 1, st + t - 1);
      if t == 1 {
        InVain(s, st, n);
      }
      if !flag {
        var left := LeftBit(bytes[st]);
        var right := RightBit(bytes[st + t - 1]);
        if left + right + 8 * (t - 2) >= n {
          LongIsFirst(s, st, t - 2, n);
          return true;
        } else if st + t < size && bytes[st + t - 1] == ZERO {
          right := RightBit(bytes[st + t]);
          if left + right + 8 * (t - 1) >= n {
            LongIsFirst(s, st, t - 1, n);
            return true;
          }
        }
      }
      NoneAt(s, st, n, t, flag);
    }

    /**
     * The general search: the free high end of one byte, empty bytes, and the free low end of the byte
     * `t - 1` or `t` places further on. It also runs, in vain, after a short search has failed.
     */
    method FindLong(n: nat, t: nat) returns (ok: bool, st: nat)
      requires Valid() && 1 <= n && t == (n + 7) / 8
      requires t == 1 ==> forall p: nat :: !Free(Taken(), p, n)
      ensures ok ==> t != 1 && st < size && FirstFit(Taken(), n, 0) == 8 * st + 8 - HighRun(bytes[st])
      ensures !ok ==> FirstFit(Taken(), n, 0) == -1
    {
      hide Used, Free, FirstFit, HighRun;
      st, ok := 0, false;
      while st + t - 1 < size
        invariant forall p: nat :: (t == 1 || p < 8 * st) ==> !Free(Taken(), p, n)
      {
        var hit := LongAt(n, t, st);
        if hit {
          return true, st;
        }
        st := st + 1;
      }
      NoStartNearEnd(bytes[..size], st, n);
      FirstFitUnique(Taken(), n, -1);
    }

    /**
     * Allocates `n` contiguous pages and returns the address of the first one, or 0 when there is no
     * free run of `n` pages: the same page that a page-by-page first fit finds.
     */
    method Palloc(n: nat) returns (addr: nat)
      requires Valid() && 1 <= n <= 0x7fff_fff8
      modifies bytes
      ensures bytes[size] == old(bytes[size])
      ensures (Taken(), addr) == Allocate(old(Taken()), n)
      ensures addr < 0x8000_0000
    {
      hide Used, Fill, Free, FirstFit, HighRun, ByteFits;
      FirstFitFits(Taken(), n);
      var t := (n + 7) / 8;
      var ok, st := false, 0;
      if t == 1 {
        ok, st, t := FindShort(n);
      }
      if ok {
        var k;
        if t == 1 {
          k := BitIn(bytes[st], n);
        } else {
          var left := LeftBit(bytes[st]);
          k := 8 - left;
        }
        var page := 8 * st + k;
        SetMultiple(page, page + n);
        return page * PAGE_SIZE;
      }
      ok, st := FindLong(n, t);
      if ok {
        var k := LeftBit(bytes[st]);
        var page := 8 * st + 8 - k;
        SetMultiple(page, page + n);
        return page * PAGE_SIZE;
      }
      addr := 0;
    }

    /** Frees the `n` pages that start at address `addr`. */
    method Pfree(addr: nat, n: nat)
      requires Valid() && addr / PAGE_SIZE + n <= 8 * size
      modifies bytes
      ensures Taken() == Release(old(Taken()), addr, n)
      ensures bytes[size] == old(bytes[size])
    {
      var start := addr / PAGE_SIZE;
      ClearMultiple(start, start + n);
    }
  }

  lemma ByteIsFirst(s: seq<Byte>, b: nat, k: nat, n: nat)
    requires b < |s| && 1 <= n && ByteFits(s[b], k, n)
    requires forall j: nat :: j < k ==> !ByteFits(s[b], j, n)
    requires forall p: nat :: p < 8 * b ==> !Free(Used(s), p, n)
    ensures FirstFit(Used(s), n, 0) == 8 * b + k
  {
    forall q: nat | q < 8 * b + k
      ensures !Free(Used(s), q, n)
    {
      if 8 * b <= q {
        ByteRun(s, b, q - 8 * b, n);
      }
    }
    ByteRun(s, b, k, n);
    FirstFitUnique(Used(s), n, 8 * b + k);
  }

  lemma HighTooShort(c: Byte, n: nat)
    requires n <= 8 && forall k: nat :: !ByteFits(c, k, n)
    ensures HighRun(c) < n
  {
    assert !ByteFits(c, 8 - n, n);
  }

  lemma NothingInByte(s: seq<Byte>, b: nat, n: nat)
    requires b < |s| && 1 <= n <= 8
    requires forall p: nat :: p < 8 * |s| ==> !Free(Used(s), p, n)
    ensures forall k: nat :: !ByteFits(s[b], k, n)
  {
    forall k: nat
      ensures !ByteFits(s[b], k, n)
    {
      if k + n <= 8 && ByteFits(s[b], k, n) {
        ByteRun(s, b, k, n);
      }
    }
  }

  /** The mask `0xff << k`. */
  function HighOnes(k: nat): (m: Byte)
    requires k < 8
    ensures forall i :: 0 <= i < 8 ==> m[i] == (k <= i)
  {
    Shl(ONES, k)
  }

  /** Bytes `was` became `now`: two masked bytes or-ed with ones, full bytes between, the others as before. */
  ghost predicate OnesWritten(was: seq<Byte>, now: seq<Byte>, start: nat, end: nat) {
    && |was| == |now| && start <= end < 8 * |was|
    && (forall b :: 0 <= b < |was| && !(start / 8 <= b <= end / 8) ==> now[b] == was[b])
    && (start / 8 == end / 8 ==> now[start / 8] == Or(was[start / 8], And(Not(HighOnes(end % 8)), HighOnes(start % 8))))
    && (start / 8 < end / 8 ==>
      && now[start / 8] == Or(was[start / 8], HighOnes(start % 8))
      && (forall b :: start / 8 < b < end / 8 ==> now[b] == ONES)
      && now[end / 8] == Or(was[end / 8], Not(HighOnes(end % 8))))
  }

  lemma SetRange(was: seq<Byte>, now: seq<Byte>, size: nat, start: nat, end: nat)
    requires OnesWritten(was, now, start, end) && |was| == size + 1 && end <= 8 * size
    ensures Used(now[..size]) == Fill(Used(was[..size]), start, end, true)
    ensures now[size] == was[size]
  {
    forall b: nat, k: nat | b <= size && k < 8
      ensures now[b][k] == (start <= 8 * b + k < end || was[b][k])
    {
      if start / 8 == end / 8 == b || start / 8 == b || b == end / 8 {}
    }
    assert forall k :: 0 <= k < 8 ==> now[size][k] == was[size][k];
    FillRange(was[..size], now[..size], start, end, true);
  }

  /** Bytes `was` became `now`: two masked bytes, zero bytes between, the others as before. */
  ghost predicate ZeroesWritten(was: seq<Byte>, now: seq<Byte>, start: nat, end: nat) {
    && |was| == |now| && start <= end < 8 * |was|
    && (forall b :: 0 <= b < |was| && !(start / 8 <= b <= end / 8) ==> now[b] == was[b])
    && (start / 8 == end / 8 ==> now[start / 8] == And(was[start / 8], Or(HighOnes(end % 8), Not(HighOnes(start % 8)))))
    && (start / 8 < end / 8 ==>
      && now[start / 8] == And(was[start / 8], Not(HighOnes(start % 8)))
      && (forall b :: start / 8 < b < end / 8 ==> now[b] == ZERO)
      && now[end / 8] == And(was[end / 8], HighOnes(end % 8)))
  }

  lemma ClearRange(was: seq<Byte>, now: seq<Byte>, size: nat, start: nat, end: nat)
    requires ZeroesWritten(was, now, start, end) && |was| == size + 1 && end <= 8 * size
    ensures Used(now[..size]) == Fill(Used(was[..size]), start, end, false)
    ensures now[size] == was[size]
  {
    forall b: nat, k: nat | b <= size && k < 8
      ensures now[b][k] == (!(start <= 8 * b + k < end) && was[b][k])
    {
      if start / 8 == end / 8 == b || start / 8 == b || b == end / 8 {}
    }
    assert forall k :: 0 <= k < 8 ==> now[size][k] == was[size][k];
    FillRange(was[..size], now[..size], start, end, false);
  }

  /** The bits of the shifted and-test in `BitIn`. */
  lemma MaskedRun(c: Byte, m: Byte, k: nat, n: nat)
    requires k + n <= 8
    requires forall i :: 0 <= i < 8 ==> m[i] == (k <= i < k + n)
    ensures (m == And(m, Not(c))) == ByteFits(c, k, n)
  {
    var masked := And(m, Not(c));
    assert forall i :: 0 <= i < 8 ==> masked[i] == (m[i] && !c[i]);
    if m == masked {
      assert forall i :: k <= i < k + n ==> m[i];
    }
  }

  /** The digits of `2^n - 1` are `n` ones. */
  lemma {:induction false} AllOnes(n: nat, w: nat, s: seq<bool>)
    requires n <= w && s == Digits(Pow2(n) - 1, w)
    ensures forall i :: 0 <= i < w ==> s[i] == (i < n)
  {
    if w == 0 {
    } else {
      var m := if n == 0 then 0 else n - 1;
      assert (Pow2(n) - 1) / 2 == Pow2(m) - 1;
      assert s[1..] == Digits(Pow2(m) - 1, w - 1);
      AllOnes(m, w - 1, s[1..]);
      assert forall i :: 0 < i < w ==> s[i] == s[1..][i - 1];
    }
  }

  /** Entry `n - 1` of the mask table is `n` ones. */
  lemma TableEntry(n: nat)
    requires 1 <= n <= 8
    ensures [0x1, 0x3, 0x7, 0xf, 0x1f, 0x3f, 0x7f, 0xff][n - 1] == Pow2(n) - 1 < 256
  {
    assert Pow2(3) == 8;
    assert Pow2(6) == 64;
    assert Pow2(8) == 256;
  }

  lemma LowOnes(n: nat, v: nat, m: Byte)
    requires 1 <= n <= 8 && v == Pow2(n) - 1 < 256 && m == ByteOf(v)
    ensures forall i :: 0 <= i < 8 ==> m[i] == (i < n)
  {
    hide Digits, Pow2;
    assert v % 256 == v;
    AllOnes(n, |m|, m);
  }
}
