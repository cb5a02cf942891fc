/** Numbers as text: `itoa` with its scratch buffer of sixteen characters, and `atoi`. */
module Stdlib {

  type u32 = x: int | 0 <= x < 0x1_0000_0000

  /** What remains of a number in a signed 32-bit `int`. */
  function Wrap32(x: int): (r: int)
    ensures -0x8000_0000 <= r < 0x8000_0000
  {
    (x + 0x8000_0000) % 0x1_0000_0000 - 0x8000_0000
  }

  /** What remains of it in a `char`, which is signed. */
  function AsChar(x: int): (r: int)
    ensures -128 <= r < 128
  {
    (x + 128) % 256 - 128
  }

  const NUL := 0
  const ZERO := 48 // '0'
  const UPPER_A := 65
  const UPPER_Z := 90
  const LOWER_A := 97
  const LOWER_Z := 122
  const TMP_SIZE := 16

  function DigitCode(t: nat): int {
    AsChar(if t >= 10 then t - 10 + UPPER_A else t + ZERO)
  }

  /** The digits of a number, most significant first; none for zero. */
  function Numeral(n: nat, b: nat): (s: seq<int>)
    requires b >= 2
    decreases n
  {
    if n == 0 then [] else Numeral(n / b, b) + [DigitCode(n % b)]
  }

  function Text(n: nat, b: nat): (s: seq<int>)
    requires b >= 2
  {
    if n == 0 then [ZERO] else Numeral(n, b)
  }

  /** What a character stands for. */
  function DigitValue(c: int): int {
    if UPPER_A <= c <= UPPER_Z then c - UPPER_A + 10
    else if LOWER_A <= c <= LOWER_Z then c - LOWER_A + 10
    else c - ZERO
  }

  /** The number a text stands for. */
  function Parse(s: seq<int>, b: int): int {
    if s == [] then 0 else Wrap32(Parse(s[..|s| - 1], b) * b + DigitValue(s[|s| - 1]))
  }

  function Pow(b: nat, k: nat): nat {
    if k == 0 then 1 else b * Pow(b, k - 1)
  }

  // ---------------------------------------------------------------- how long a numeral is

  lemma DivBelow(n: nat, b: nat, p: nat)
    requires b > 0
    ensures n / b < p <==> n < b * p
  {
    var q, r := n / b, n % b;
    assert n == b * q + r;
    if q < p {
      assert b * (q + 1) <= b * p;
    } else {
      assert b * p <= b * q;
    }
  }

  /** A number has at most `k` digits exactly if it is below the `k`-th power of the base. */
  lemma {:induction false} NumeralLength(n: nat, b: nat, k: nat)
    requires b >= 2
    ensures |Numeral(n, b)| <= k <==> n < Pow(b, k)
    decreases k
  {
    if k == 0 {
    } else {
      DivBelow(n, b, Pow(b, k - 1));
      if n != 0 {
        NumeralLength(n / b, b, k - 1);
      } else {
        PowPositive(b, k);
      }
    }
  }

  lemma {:induction false} PowPositive(b: nat, k: nat)
    requires b >= 1
    ensures Pow(b, k) >= 1
  {
    if k == 0 {
    } else {
      PowPositive(b, k - 1);
    }
  }

  lemma {:induction false} PowGrows(a: nat, b: nat, k: nat)
    requires a <= b
    ensures Pow(a, k) <= Pow(b, k)
  {
    if k == 0 {
    } else {
      PowGrows(a, b, k - 1);
      MulGrows(a, b, Pow(a, k - 1), Pow(b, k - 1));
    }
  }

  lemma MulGrows(a: nat, b: nat, c: nat, d: nat)
    requires a <= b && c <= d
    ensures a * c <= b * d
  {
    assert b * d == a * c + (b - a) * c + b * (d - c);
  }

  lemma Powers()
    ensures Pow(4, TMP_SIZE) == 0x1_0000_0000 && Pow(3, TMP_SIZE) == 43046721
  {
    assert Pow(4, 4) == 256 && Pow(3, 4) == 81;
    assert Pow(4, 8) == 0x1_0000 && Pow(3, 8) == 6561;
    assert Pow(4, 12) == 0x100_0000 && Pow(3, 12) == 531441;
  }

  /** The scratch buffer is long enough for every 32-bit number exactly for bases from four on. */
  lemma EveryNumberFits(b: nat)
    requires b >= 2
    ensures (forall n: u32 :: |Numeral(n, b)| <= TMP_SIZE) <==> b >= 4
  {
    if b >= 4 {
      PowGrows(4, b, TMP_SIZE);
      Powers();
      forall n: u32
        ensures |Numeral(n, b)| <= TMP_SIZE
      {
        NumeralLength(n, b, TMP_SIZE);
      }
    } else {
      PowGrows(b, 3, TMP_SIZE);
      Powers();
      NumeralLength(Pow(b, TMP_SIZE), b, TMP_SIZE);
    }
  }

  // ---------------------------------------------------------------- there and back

  lemma WrapSame(x: int, m: int)
    ensures Wrap32(x + m * 0x1_0000_0000) == Wrap32(x)
  {
    var y := x + 0x8000_0000;
    assert (y + m * 0x1_0000_0000) % 0x1_0000_0000 == y % 0x1_0000_0000;
  }

  /** Wrapping on the way makes no difference to what is left at the end. */
  lemma WrapStep(x: int, b: int, k: int)
    ensures Wrap32(Wrap32(x) * b + k) == Wrap32(x * b + k)
  {
    var q := (x + 0x8000_0000) / 0x1_0000_0000;
    assert Wrap32(x) == x - q * 0x1_0000_0000;
    assert Wrap32(x) * b + k == x * b + k + (-(q * b)) * 0x1_0000_0000;
    WrapSame(x * b + k, -(q * b));
  }

  lemma DigitRoundTrip(t: nat)
    requires t < 36
    ensures DigitValue(DigitCode(t)) == t && DigitCode(t) != NUL
  {
  }

  lemma {:induction false} ParseNumeral(n: nat, b: nat)
    requires 2 <= b <= 36
    ensures Parse(Numeral(n, b), b) == Wrap32(n)
    decreases n
  {
    hide Wrap32, DigitCode, DigitValue, Numeral;
    NumeralStep(n, b);
    if n != 0 {
      var s, q, t := Numeral(n, b), n / b, n % b;
      assert s[..|s| - 1] == Numeral(q, b);
      ParseNumeral(q, b);
      DigitRoundTrip(t);
      WrapStep(q, b, t);
    } else {
      WrapZero();
    }
  }

  lemma WrapZero()
    ensures Wrap32(0) == 0
  {
  }

  lemma NumeralStep(n: nat, b: nat)
    requires b >= 2
    ensures n == 0 ==> Numeral(n, b) == []
    ensures n != 0 ==> Numeral(n, b) == Numeral(n / b, b) + [DigitCode(n % b)] && n / b < n
    ensures n / b * b + n % b == n && n % b < b
  {
    DivMod(n, b);
  }

  lemma DivMod(n: nat, b: nat)
    requires b >= 2
    ensures n / b * b + n % b == n && n % b < b && (n > 0 ==> n / b < n)
  {
    var q := n / b;
    assert n == b * q + n % b;
    assert b * q >= 2 * q;
  }

  /** Reading what was printed gives what fits in an `int` of it: the number itself exactly if it is below 2 to the 31st. */
  lemma RoundTrip(n: u32, b: nat)
    requires 2 <= b <= 36
    ensures Parse(Text(n, b), b) == Wrap32(n)
    ensures Parse(Text(n, b), b) == n <==> n < 0x8000_0000
  {
    if n == 0 {
      assert Text(n, b)[..0] == [];
    } else {
      ParseNumeral(n, b);
    }
  }

  /** It gives every number below 2 to the 31st back exactly if the base has digits enough: ten and the letters. */
  lemma RoundTripBases(b: nat)
    requires b >= 2
    ensures (forall n: u32 :: n < 0x8000_0000 ==> Parse(Text(n, b), b) == n) <==> b <= 36
  {
    if b <= 36 {
      forall n: u32 | n < 0x8000_0000
        ensures Parse(Text(n, b), b) == n
      {
        RoundTrip(n, b);
      }
    } else {
      OneDigit(36, b);
      assert DigitCode(36) == 91 && DigitValue(91) == 43;
    }
  }

  /** A number below the base has one digit. */
  lemma OneDigit(n: nat, b: nat)
    requires 0 < n < b && n < 0x8000_0000
    ensures Text(n, b) == [DigitCode(n)] && Parse(Text(n, b), b) == Wrap32(DigitValue(DigitCode(n)))
  {
    hide Wrap32, DigitCode, DigitValue, Numeral;
    NumeralStep(n, b);
    NumeralStep(0, b);
    assert n / b == 0 && n % b == n by {
      DivBelow(n, b, 1);
    }
    var s := [DigitCode(n)];
    assert s[..0] == [] && 0 * b == 0;
    assert Parse(s, b) == Wrap32(Parse(s[..0], b) * b + DigitValue(s[0]));
  }

  // ---------------------------------------------------------------- the characters

  const DIGITS := "0123456789ABCDEFGHIJKLMNOPQRSTUVWXYZ"
  const SMALL_DIGITS := "0123456789abcdefghijklmnopqrstuvwxyz"

  /** A digit is printed as its character, and read from it, and from a small letter as well. */
  lemma DigitsAre(t: nat)
    requires t < 36
    ensures DigitCode(t) == DIGITS[t] as int
    ensures DigitValue(DIGITS[t] as int) == t && DigitValue(SMALL_DIGITS[t] as int) == t
  {
    Capitals(t);
    Smalls(t);
    Characters(t, DIGITS[t] as int, SMALL_DIGITS[t] as int);
  }

  lemma Characters(t: nat, capital: int, small: int)
    requires t < 36
    requires capital == if t < 10 then 48 + t else 55 + t
    requires small == if t < 10 then 48 + t else 87 + t
    ensures DigitCode(t) == capital && DigitValue(capital) == t && DigitValue(small) == t
  {
  }

  lemma Capitals(t: nat)
    requires t < 36
    ensures DIGITS[t] as int == if t < 10 then 48 + t else 55 + t
  {
  }

  lemma Smalls(t: nat)
    requires t < 36
    ensures SMALL_DIGITS[t] as int == if t < 10 then 48 + t else 87 + t
  {
  }

  /** The number whose digits to the base `b` are `ds`, most significant first. */
  function Weigh(ds: seq<nat>, b: nat): nat {
    if ds == [] then 0 else Weigh(ds[..|ds| - 1], b) * b + ds[|ds| - 1]
  }

  /** The text `s` spells the digits `ds`, in characters that can be read. */
  predicate Spells(s: seq<int>, ds: seq<nat>) {
    |s| == |ds| && forall i :: 0 <= i < |s| ==> ds[i] < 36 && (s[i] == DIGITS[ds[i]] as int || s[i] == SMALL_DIGITS[ds[i]] as int)
  }

  /** It does so in capitals. */
  predicate SpellsInCapitals(s: seq<int>, ds: seq<nat>) {
    |s| == |ds| && forall i :: 0 <= i < |s| ==> ds[i] < 36 && s[i] == DIGITS[ds[i]] as int
  }

  lemma {:induction false} NumeralSpells(n: nat, b: nat) returns (ds: seq<nat>)
    requires 2 <= b <= 36
    ensures SpellsInCapitals(Numeral(n, b), ds) && Weigh(ds, b) == n && (forall i :: 0 <= i < |ds| ==> ds[i] < b)
    ensures if n == 0 then ds == [] else ds != [] && ds[0] != 0
    decreases n
  {
    hide DigitCode, DigitValue, Numeral;
    NumeralStep(n, b);
    if n == 0 {
      ds := [];
    } else {
      var es := NumeralSpells(n / b, b);
      DigitsAre(n % b);
      ds := es + [n % b];
      assert ds[..|ds| - 1] == es;
    }
  }

  /**
   * What a number is printed as: zero as "0", any other in capitals as the digits to its base that weigh just as much,
   * the first of which is not zero.
   */
  lemma TextSpells(n: u32, b: nat) returns (ds: seq<nat>)
    requires 2 <= b <= 36
    ensures SpellsInCapitals(Text(n, b), ds) && Weigh(ds, b) == n && forall i :: 0 <= i < |ds| ==> ds[i] < b
    ensures if n == 0 then Text(n, b) == ["0"[0] as int] else ds != [] && ds[0] != 0
  {
    if n == 0 {
      ds := [0];
      assert ds[..0] == [];
      DigitsAre(0);
    } else {
      ds := NumeralSpells(n, b);
    }
  }

  /** What a text is read as: what its digits weigh, in an `int`. */
  lemma {:induction false} ParseWeighs(s: seq<int>, ds: seq<nat>, b: nat)
    requires Spells(s, ds)
    ensures Parse(s, b) == Wrap32(Weigh(ds, b))
  {
    hide Wrap32, DigitCode, DigitValue;
    if s == [] {
      WrapZero();
    } else {
      var n := |s| - 1;
      ParseWeighs(s[..n], ds[..n], b);
      DigitsAre(ds[n]);
      WrapStep(Weigh(ds[..n], b), b, ds[n]);
    }
  }

  // ---------------------------------------------------------------- the functions

  function Reversed(s: seq<int>): (r: seq<int>)
    ensures |r| == |s|
  {
    if s == [] then [] else [s[|s| - 1]] + Reversed(s[..|s| - 1])
  }

  /** `itoa`, where the text of the number fits both the scratch buffer and the caller's. */
  method Itoa(buffer: array<int>, num: u32, scale: nat)
    requires scale >= 2 && |Numeral(num, scale)| <= TMP_SIZE && |Text(num, scale)| < buffer.Length
    modifies buffer
    ensures buffer[..|Text(num, scale)|] == Text(num, scale) && buffer[|Text(num, scale)|] == 0
    ensures buffer[|Text(num, scale)| + 1..] == old(buffer[|Text(num, scale)| + 1..])
  {
    if num == 0 {
      buffer[0] := ZERO;
      buffer[1] := NUL;
      return;
    }
    hide Numeral;
    var tmp := new int[TMP_SIZE];
    var p := TakeDigits(tmp, num, scale);
    CopyBack(buffer, tmp, p);
  }

  lemma ReversedStep(s: seq<int>, n: nat)
    requires 0 < n <= |s|
    ensures Reversed(s[..n]) == [s[n - 1]] + Reversed(s[..n - 1])
  {
    assert s[..n][..n - 1] == s[..n - 1];
  }

  lemma ReversedNone(s: seq<int>)
    requires s == []
    ensures Reversed(s) == []
  {
  }

  /** Copies the digits in the order in which they are read, and ends the text. */
  method CopyBack(buffer: array<int>, tmp: array<int>, p: nat)
    requires p <= tmp.Length && p < buffer.Length && buffer != tmp
    modifies buffer
    ensures buffer[..p] == Reversed(tmp[..p]) && buffer[p] == NUL && buffer[p + 1..] == old(buffer[p + 1..])
  {
    hide Reversed;
    ReversedNone(tmp[..0]);
    var n, q := p, 0;
    while n != 0
      invariant 0 <= n <= p && q + n == p && buffer[..q] + Reversed(tmp[..n]) == Reversed(tmp[..p])
      invariant buffer[p + 1..] == old(buffer[p + 1..])
    {
      ghost var done := buffer[..q];
      ReversedStep(tmp[..], n);
      n := n - 1;
      buffer[q] := tmp[n];
      q := q + 1;
      assert buffer[..q] == done + [tmp[n]];
      assert done + ([tmp[n]] + Reversed(tmp[..n])) == done + [tmp[n]] + Reversed(tmp[..n]);
    }
    buffer[q] := NUL;
  }

  /** The digits, least significant first. */
  method TakeDigits(tmp: array<int>, num: u32, scale: nat) returns (p: nat)
    requires scale >= 2 && tmp.Length == TMP_SIZE && |Numeral(num, scale)| <= TMP_SIZE
    modifies tmp
    ensures p == |Numeral(num, scale)| && Reversed(tmp[..p]) == Numeral(num, scale)
  {
    hide Numeral, DigitCode;
    p := 0;
    var n: nat := num;
    while n != 0
      invariant 0 <= p <= TMP_SIZE && Numeral(n, scale) + Reversed(tmp[..p]) == Numeral(num, scale)
      decreases n
    {
      NumeralStep(n, scale);
      var t := n % scale;
      ghost var done := tmp[..p];
      tmp[p] := DigitCode(t);
      assert tmp[..p + 1][..p] == done;
      assert Reversed(tmp[..p + 1]) == [DigitCode(t)] + Reversed(done);
      p := p + 1;
      n := n / scale;
    }
    NumeralStep(0, scale);
  }

  /** Where a text ends. */
  ghost predicate EndsAt(s: seq<int>, n: nat) {
    n < |s| && s[n] == 0 && forall i :: 0 <= i < n ==> s[i] != 0
  }

  /** `atoi` */
  method Atoi(str: array<int>, base: int, ghost n: nat) returns (ans: int)
    requires EndsAt(str[..], n)
    ensures ans == Parse(str[..n], base)
  {
    ans := 0;
    var i := 0;
    while str[i] != NUL
      invariant 0 <= i <= n && ans == Parse(str[..i], base)
      decreases n - i
    {
      assert str[..][i] == str[i];
      assert i != n;
      var k := DigitValue(str[i]);
      assert str[..i + 1][..i] == str[..i];
      ans := Wrap32(ans * base + k);
      i := i + 1;
    }
    assert str[..][i] == NUL;
  }

  lemma {:induction false} NumeralHasNoNul(n: nat, b: nat)
    requires 2 <= b <= 36
    ensures forall i :: 0 <= i < |Numeral(n, b)| ==> Numeral(n, b)[i] != NUL
    decreases n
  {
    if n == 0 {
    } else {
      NumeralHasNoNul(n / b, b);
      DigitRoundTrip(n % b);
    }
  }

  /** Printing a number and reading it again. */
  method ThereAndBack(buffer: array<int>, num: u32, b: nat) returns (ans: int)
    requires 4 <= b <= 36 && buffer.Length > TMP_SIZE
    modifies buffer
    ensures ans == Wrap32(num)
  {
    EveryNumberFits(b);
    NumeralHasNoNul(num, b);
    RoundTrip(num, b);
    Itoa(buffer, num, b);
    ghost var n := |Text(num, b)|;
    assert forall i :: 0 <= i < n ==> buffer[..][i] == buffer[..n][i] == Text(num, b)[i];
    ans := Atoi(buffer, b, n);
  }
}
