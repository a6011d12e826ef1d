/** JavaScript number-to-text primitives (`Number.prototype.toString`,
    `String.prototype.padStart`, `Math.floor(a / b)`, `%`) on whole numbers,
    and a parser for the `M:SS` clock format they are combined into. */
module Text {

  import opened Common

  predicate IsDigit(c: char) {
    '0' <= c <= '9'
  }

  function DigitChar(d: nat): (c: char)
    requires d < 10
    ensures IsDigit(c)
  {
    ('0' as int + d) as char
  }

  function DigitValue(c: char): (d: nat)
    requires IsDigit(c)
    ensures d < 10
  {
    c as int - '0' as int
  }

  predicate AllDigits(s: string) {
    forall i :: 0 <= i < |s| ==> IsDigit(s[i])
  }

  /** The shape `toString` gives a non-negative integer: at least one digit,
      no leading zero unless the number is zero. */
  predicate IsDecimal(s: string) {
    |s| >= 1 && AllDigits(s) && (|s| > 1 ==> s[0] != '0')
  }

  /** The value of a string of decimal digits, most significant first. */
  function DigitsValue(s: string): nat
    requires AllDigits(s)
  {
    if s == [] then 0 else DigitsValue(s[..|s| - 1]) * 10 + DigitValue(s[|s| - 1])
  }

  /** `n.toString()` for a non-negative integer. */
  function NatToString(n: nat): (s: string)
    ensures IsDecimal(s)
  {
    if n < 10 then [DigitChar(n)] else NatToString(n / 10) + [DigitChar(n % 10)]
  }

  /** Reading back the digits `toString` wrote gives the number. */
  lemma {:induction false} NatToStringValue(n: nat)
    ensures DigitsValue(NatToString(n)) == n
  {
    var s := NatToString(n);
    if n >= 10 {
      NatToStringValue(n / 10);
      assert s[..|s| - 1] == NatToString(n / 10);
    }
  }

  /** `i.toString()` for any integer: a minus sign before the magnitude. */
  function IntToString(i: int): (s: string)
    ensures i >= 0 ==> IsDecimal(s)
    ensures i < 0 ==> |s| >= 2 && s[0] == '-' && IsDecimal(s[1..])
  {
    if i < 0 then "-" + NatToString(-i) else NatToString(i)
  }

  /** `s.padStart(2, '0')`. */
  function PadStart2(s: string): (r: string)
    ensures |s| >= 2 ==> r == s
    ensures |s| < 2 ==> |r| == 2 && r[2 - |s|..] == s
    ensures forall i :: 0 <= i < 2 - |s| ==> r[i] == '0'
  {
    if |s| >= 2 then s else if |s| == 1 then "0" + s else "00"
  }

  /** `Math.floor(a / b)` for a positive divisor. */
  function FloorDiv(a: int, b: int): (q: int)
    requires b > 0
    ensures b * q <= a < b * q + b
  {
    a / b
  }

  /** JavaScript's `a % b`: the remainder takes the sign of the dividend. */
  function TruncRem(a: int, b: int): (r: int)
    requires b > 0
    ensures -b < r < b
    ensures a >= 0 ==> 0 <= r && a == b * FloorDiv(a, b) + r
    ensures a < 0 ==> r <= 0 && -a == b * FloorDiv(-a, b) - r
  {
    if a >= 0 then a % b else -((-a) % b)
  }

  /** Two digits for a number of seconds below a minute. */
  lemma TwoDigitValue(k: nat)
    requires k < 60
    ensures |PadStart2(NatToString(k))| == 2
    ensures AllDigits(PadStart2(NatToString(k)))
    ensures DigitsValue(PadStart2(NatToString(k))) == k
  {
    NatToStringValue(k);
    var s := NatToString(k);
    var p := PadStart2(s);
    if k < 10 {
      assert s == [DigitChar(k)];
      assert p == "0" + s;
      assert p[..1] == "0";
      assert DigitsValue(p[..1]) == 0 by {
        assert p[..1][..0] == [];
      }
    } else {
      assert |s| == 2 by {
        assert s == NatToString(k / 10) + [DigitChar(k % 10)];
        assert k / 10 < 10;
      }
    }
  }

  /** The `M:SS` clock: decimal minutes, a colon, two digits of seconds below 60.
      Gives the total number of seconds, or None when `s` is not of that shape. */
  function ParseClock(s: string): (r: Option<nat>)
    ensures r.Some? ==> |s| >= 4 && s[|s| - 3] == ':'
  {
    if |s| >= 4 && s[|s| - 3] == ':' && IsDecimal(s[..|s| - 3]) && AllDigits(s[|s| - 2..])
       && DigitsValue(s[|s| - 2..]) < 60
    then Some(DigitsValue(s[..|s| - 3]) * 60 + DigitsValue(s[|s| - 2..]))
    else None
  }

  /** Minutes and zero-padded seconds read back as the seconds they stand
      for; the two fields hold the minutes and the seconds. */
  lemma ClockParts(mins: nat, secs: nat)
    requires secs < 60
    ensures var s := NatToString(mins) + ":" + PadStart2(NatToString(secs));
            && ParseClock(s) == Some(mins * 60 + secs)
            && IsDecimal(s[..|s| - 3]) && DigitsValue(s[..|s| - 3]) == mins
            && AllDigits(s[|s| - 2..]) && DigitsValue(s[|s| - 2..]) == secs
  {
    var m := NatToString(mins);
    var ss := PadStart2(NatToString(secs));
    var s := m + ":" + ss;
    TwoDigitValue(secs);
    NatToStringValue(mins);
    ClockPieces(m, ss);
    assert s[..|s| - 3] == m && s[|s| - 2..] == ss;
    assert ParseClock(s) == Some(DigitsValue(m) * 60 + DigitsValue(ss));
  }

  /** Minutes and zero-padded seconds of a non-negative duration read back
      as that duration. */
  lemma ClockRoundTrip(n: nat)
    ensures var s := NatToString(n / 60) + ":" + PadStart2(NatToString(n % 60));
            && ParseClock(s) == Some(n)
            && IsDecimal(s[..|s| - 3]) && DigitsValue(s[..|s| - 3]) == n / 60
            && AllDigits(s[|s| - 2..]) && DigitsValue(s[|s| - 2..]) == n % 60
  {
    var q, r := n / 60, n % 60;
    ClockParts(q, r);
    assert q * 60 + r == n;
  }

  lemma ClockPieces(m: string, ss: string)
    requires |ss| == 2
    ensures var s := m + ":" + ss;
            |s| == |m| + 3 && s[..|s| - 3] == m && s[|s| - 3] == ':' && s[|s| - 2..] == ss
  {
    var s := m + ":" + ss;
    assert s[..|m|] == m;
    assert s[|m| + 1..] == ss;
  }

  /** `sep` occurs in `s` starting at index `i`. */
  predicate OccursAt(s: string, sep: string, i: nat) {
    i + |sep| <= |s| && s[i..i + |sep|] == sep
  }

  /** `s.includes(sep)`. */
  predicate Contains(s: string, sep: string) {
    exists i: nat :: i <= |s| && OccursAt(s, sep, i)
  }

  /** The first occurrence of `sep` in `s` at or after `k`. */
  function FindFrom(s: string, sep: string, k: nat): (r: Option<nat>)
    requires |sep| > 0
    ensures r.Some? ==> k <= r.value && OccursAt(s, sep, r.value)
    ensures r.Some? ==> forall j: nat :: k <= j < r.value ==> !OccursAt(s, sep, j)
    ensures r.None? ==> forall j: nat :: k <= j ==> !OccursAt(s, sep, j)
    decreases |s| - k
  {
    if k + |sep| > |s| then None
    else if OccursAt(s, sep, k) then Some(k)
    else FindFrom(s, sep, k + 1)
  }

  /** `s.indexOf(sep)`, None for -1. */
  function IndexOf(s: string, sep: string): (r: Option<nat>)
    requires |sep| > 0
    ensures r.None? <==> !Contains(s, sep)
    ensures r.Some? ==> OccursAt(s, sep, r.value)
    ensures r.Some? ==> forall j: nat :: j < r.value ==> !OccursAt(s, sep, j)
  {
    FindFrom(s, sep, 0)
  }

  /** `s.split(sep)` for a non-empty separator. */
  function Split(s: string, sep: string): (parts: seq<string>)
    requires |sep| > 0
    ensures |parts| >= 1
    ensures IndexOf(s, sep).None? ==> parts == [s]
    decreases |s|, 1
  {
    var found := IndexOf(s, sep);
    if found.None? then [s]
    else SplitAt(s, sep, found.value)
  }

  /** The pieces of `s` when the first separator starts at `i`. */
  function SplitAt(s: string, sep: string, i: nat): (parts: seq<string>)
    requires |sep| > 0 && OccursAt(s, sep, i)
    decreases |s|, 0
  {
    [s[..i]] + Split(s[i + |sep|..], sep)
  }

  /** `parts.join(sep)`. */
  function Join(parts: seq<string>, sep: string): string
    requires |parts| >= 1
  {
    if |parts| == 1 then parts[0] else parts[0] + sep + Join(parts[1..], sep)
  }

  /** The text before the first occurrence of `sep` holds no occurrence. */
  lemma NoneBeforeFirst(s: string, sep: string, i: nat)
    requires |sep| > 0
    requires i <= |s|
    requires forall j: nat :: j < i ==> !OccursAt(s, sep, j)
    ensures !Contains(s[..i], sep)
  {
    forall j: nat | j <= i
      ensures !OccursAt(s[..i], sep, j)
    {
      if j + |sep| <= i {
        assert !OccursAt(s, sep, j);
        assert s[..i][j..j + |sep|] == s[j..j + |sep|];
      }
    }
  }

  /** Splitting loses nothing: joining the pieces back gives the string. */
  lemma {:induction false} SplitJoin(s: string, sep: string)
    requires |sep| > 0
    ensures Join(Split(s, sep), sep) == s
    decreases |s|
  {
    var found := IndexOf(s, sep);
    if found.Some? {
      var i := found.value;
      var rest := s[i + |sep|..];
      SplitJoin(rest, sep);
      var tail := Split(rest, sep);
      var pre := s[..i];
      SplitUnfold(s, sep, i);
      JoinCons(pre, tail, sep);
      SliceAround(s, i, |sep|);
    }
  }

  lemma SplitUnfold(s: string, sep: string, i: nat)
    requires |sep| > 0
    requires IndexOf(s, sep) == Some(i)
    ensures Split(s, sep) == [s[..i]] + Split(s[i + |sep|..], sep)
  {
  }

  lemma JoinCons(x: string, tail: seq<string>, sep: string)
    requires |tail| >= 1
    ensures Join([x] + tail, sep) == x + sep + Join(tail, sep)
  {
    assert ([x] + tail)[1..] == tail;
  }

  lemma SliceAround(s: string, i: nat, n: nat)
    requires i + n <= |s|
    ensures s[..i] + s[i..i + n] + s[i + n..] == s
  {
  }

  /** No piece of a split holds the separator. */
  lemma {:induction false} SplitPiecesFree(s: string, sep: string)
    requires |sep| > 0
    ensures forall k :: 0 <= k < |Split(s, sep)| ==> !Contains(Split(s, sep)[k], sep)
    decreases |s|
  {
    var found := IndexOf(s, sep);
    if found.Some? {
      var i := found.value;
      var rest := s[i + |sep|..];
      SplitPiecesFree(rest, sep);
      var tail := Split(rest, sep);
      var parts := Split(s, sep);
      SplitUnfold(s, sep, i);
      NoneBeforeFirst(s, sep, i);
      forall k | 0 <= k < |parts|
        ensures !Contains(parts[k], sep)
      {
        if k > 0 {
          assert parts[k] == tail[k - 1];
        }
      }
    }
  }

  /** A separator whose first character does not recur inside it cannot
      overlap itself, so the first occurrence in `a + sep + b` is the one
      placed after `a` whenever `a` holds none. */
  lemma IndexOfAfterPrefix(a: string, sep: string, b: string)
    requires |sep| > 0
    requires forall k :: 0 < k < |sep| ==> sep[k] != sep[0]
    requires !Contains(a, sep)
    ensures IndexOf(a + sep + b, sep) == Some(|a|)
  {
    var s := a + sep + b;
    assert OccursAt(s, sep, |a|) by {
      assert s[|a|..|a| + |sep|] == sep;
    }
    forall j: nat | j < |a|
      ensures !OccursAt(s, sep, j)
    {
      if j + |sep| <= |a| {
        assert s[j..j + |sep|] == a[j..j + |sep|];
        assert !OccursAt(a, sep, j);
      } else {
        var k := |a| - j;
        assert s[|a|] == sep[0];
        assert 0 < k < |sep|;
        if j + |sep| <= |s| {
          assert s[j..j + |sep|][k] == s[|a|];
        }
      }
    }
  }

  /** Splitting `a + sep + b`, where neither `a` nor `b` holds the
      separator, gives exactly the two pieces. */
  lemma SplitTwo(a: string, sep: string, b: string)
    requires |sep| > 0
    requires forall k :: 0 < k < |sep| ==> sep[k] != sep[0]
    requires !Contains(a, sep)
    requires !Contains(b, sep)
    ensures Split(a + sep + b, sep) == [a, b]
  {
    var s := a + sep + b;
    IndexOfAfterPrefix(a, sep, b);
    assert s[..|a|] == a;
    assert s[|a| + |sep|..] == b;
  }
}
