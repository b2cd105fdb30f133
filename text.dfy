/** The optional value used wherever the source has `null`, `undefined` or an early `return`. */
module Wrappers {
  datatype Option<+T> = None | Some(value: T)
}

/**
 * String helpers with the semantics of the JavaScript string methods the
 * application uses: `startsWith`, `includes`, `indexOf`, `split` with a
 * non-empty separator, and `Number.prototype.toString()` on naturals.
 * A string is a sequence of characters, so a length counts characters,
 * where JavaScript's `length` counts UTF-16 code units.
 */
module Text {
  import opened Wrappers

  /** `s.startsWith(p)` */
  predicate IsPrefix(p: string, s: string) {
    |p| <= |s| && s[..|p|] == p
  }

  /** `t` occurs in `s` starting at position `j`. */
  predicate OccursAt(s: string, t: string, j: nat) {
    j + |t| <= |s| && s[j..j + |t|] == t
  }

  /** `s.indexOf(t)`: the first position at which `t` occurs in `s`, if any. */
  function IndexOf(s: string, t: string): (r: Option<nat>)
    ensures r.Some? ==> OccursAt(s, t, r.value)
    ensures r.Some? ==> forall j: nat :: j < r.value ==> !OccursAt(s, t, j)
    ensures r.None? ==> forall j: nat :: !OccursAt(s, t, j)
    decreases |s|
  {
    if |s| < |t| then None
    else if s[..|t|] == t then Some(0)
    else
      match IndexOf(s[1..], t)
      case None =>
        ShiftOccurrence(s, t);
        None
      case Some(k) =>
        ShiftOccurrence(s, t);
        Some(k + 1)
  }

  /** An occurrence past the first character is an occurrence in the tail. */
  lemma ShiftOccurrence(s: string, t: string)
    requires |s| >= 1
    ensures OccursAt(s, t, 0) <==> |t| <= |s| && s[..|t|] == t
    ensures forall j: nat :: 1 <= j ==> (OccursAt(s, t, j) <==> OccursAt(s[1..], t, j - 1))
  {
    forall j: nat | 1 <= j
      ensures OccursAt(s, t, j) <==> OccursAt(s[1..], t, j - 1)
    {
      if j + |t| <= |s| {
        var a, b := s[j..j + |t|], s[1..][j - 1..j - 1 + |t|];
        assert |a| == |b|;
        assert forall k | 0 <= k < |a| :: a[k] == s[j + k] == b[k];
        assert a == b;
      }
    }
  }

  /** `s.includes(t)` */
  predicate Contains(s: string, t: string) {
    IndexOf(s, t).Some?
  }

  /** An occurrence of `t` at position `j` of `s` makes `s` contain `t`. */
  lemma OccurrenceContains(s: string, t: string, j: nat)
    requires OccursAt(s, t, j)
    ensures Contains(s, t)
  {
  }

  /** Whatever occurs in a piece of a string occurs in the string. */
  lemma ContainsInfix(a: string, m: string, b: string, t: string)
    requires Contains(m, t)
    ensures Contains(a + m + b, t)
  {
    var j := IndexOf(m, t).value;
    var s := a + m + b;
    assert s[|a| + j..|a| + j + |t|] == m[j..j + |t|];
    OccurrenceContains(s, t, |a| + j);
  }

  /** A prefix cut off before the first occurrence holds no occurrence. */
  lemma NoneBeforeFirst(s: string, t: string, i: nat)
    requires t != "" && IndexOf(s, t) == Some(i)
    ensures !Contains(s[..i], t)
  {
    forall j: nat | OccursAt(s[..i], t, j)
      ensures OccursAt(s, t, j)
    {
      assert s[..i][j..j + |t|] == s[j..j + |t|];
    }
  }

  /** `parts.join(sep)` */
  function Join(parts: seq<string>, sep: string): string
    requires |parts| >= 1
  {
    if |parts| == 1 then parts[0] else parts[0] + sep + Join(parts[1..], sep)
  }

  /**
   * `s.split(sep)` for a non-empty separator: the pieces between successive
   * leftmost non-overlapping occurrences of `sep`. There is always at least
   * one piece, no piece contains `sep`, and joining the pieces gives `s` back.
   */
  function Split(s: string, sep: string): (parts: seq<string>)
    requires sep != ""
    ensures |parts| >= 1
    ensures forall k :: 0 <= k < |parts| ==> !Contains(parts[k], sep)
    ensures Join(parts, sep) == s
    decreases |s|
  {
    match IndexOf(s, sep)
    case None => [s]
    case Some(i) =>
      NoneBeforeFirst(s, sep, i);
      var rest := Split(s[i + |sep|..], sep);
      assert s == s[..i] + sep + s[i + |sep|..];
      assert ([s[..i]] + rest)[1..] == rest;
      [s[..i]] + rest
  }

  /** Splitting a string that does not contain the separator yields it alone. */
  lemma SplitNoSeparator(s: string, sep: string)
    requires sep != "" && !Contains(s, sep)
    ensures Split(s, sep) == [s]
  {
  }

  /** `IndexOf` is fully determined by its contract: the first occurrence. */
  lemma IndexOfUnique(s: string, t: string, i: nat)
    requires OccursAt(s, t, i)
    requires forall j: nat :: j < i ==> !OccursAt(s, t, j)
    ensures IndexOf(s, t) == Some(i)
  {
  }

  /** Text appended after the first occurrence does not move it. */
  lemma IndexOfExtend(s: string, u: string, t: string, i: nat)
    requires IndexOf(s, t) == Some(i)
    ensures IndexOf(s + u, t) == Some(i)
  {
    assert (s + u)[i..i + |t|] == s[i..i + |t|];
    forall j: nat | j < i
      ensures !OccursAt(s + u, t, j)
    {
      assert !OccursAt(s, t, j);
      assert j + |t| <= |s|;
      assert (s + u)[j..j + |t|] == s[j..j + |t|];
    }
    IndexOfUnique(s + u, t, i);
  }

  /** The last element of a non-empty sequence: `parts.pop()`. */
  function Last(parts: seq<string>): string
    requires |parts| >= 1
  {
    parts[|parts| - 1]
  }

  /**
   * Splitting on a one-character separator: what follows the last separator
   * is the last piece, provided it holds no separator itself.
   */
  lemma {:induction false} SplitLastPiece(s: string, sep: string, t: string)
    requires |sep| == 1 && !Contains(t, sep)
    ensures Last(Split(s + sep + t, sep)) == t
    decreases |s|
  {
    var u := s + sep + t;
    assert OccursAt(u, sep, |s|) by {
      assert u[|s|..|s| + 1] == sep;
    }
    var i := FirstBefore(u, sep, |s|);
    SplitUnfold(u, sep, i);
    if i == |s| {
      assert u[i + 1..] == t;
      SplitNoSeparator(t, sep);
    } else {
      assert u[i + 1..] == s[i + 1..] + sep + t;
      SplitLastPiece(s[i + 1..], sep, t);
    }
  }

  /** An occurrence at `k` puts the first occurrence at or before `k`. */
  lemma FirstBefore(s: string, t: string, k: nat) returns (i: nat)
    requires OccursAt(s, t, k)
    ensures IndexOf(s, t) == Some(i) && i <= k
  {
    i := IndexOf(s, t).value;
  }

  /** One step of `Split`, on the last piece. */
  lemma SplitUnfold(s: string, sep: string, i: nat)
    requires sep != "" && IndexOf(s, sep) == Some(i)
    ensures i + |sep| <= |s|
    ensures Last(Split(s, sep)) == Last(Split(s[i + |sep|..], sep))
  {
    SplitStep(s, sep, i);
    LastAfterHead(s[..i], Split(s[i + |sep|..], sep));
  }

  lemma LastAfterHead(x: string, rest: seq<string>)
    requires |rest| >= 1
    ensures Last([x] + rest) == Last(rest)
  {
  }

  lemma SplitStep(s: string, sep: string, i: nat)
    requires sep != "" && IndexOf(s, sep) == Some(i)
    ensures i + |sep| <= |s|
    ensures Split(s, sep) == [s[..i]] + Split(s[i + |sep|..], sep)
  {
  }

  /** The last piece of a split never contains the separator and ends the string. */
  lemma LastPieceIsSuffix(s: string, sep: string)
    requires sep != ""
    ensures var last := Last(Split(s, sep));
      !Contains(last, sep) && |last| <= |s| && s[|s| - |last|..] == last
  {
    var parts := Split(s, sep);
    JoinEndsWithLast(parts, sep);
  }

  /** `name.split('.').pop()`: what follows the last dot, or the whole name without one. */
  function FileExtension(name: string): (ext: string)
    ensures !Contains(ext, ".")
    ensures |ext| <= |name| && name[|name| - |ext|..] == ext
  {
    LastPieceIsSuffix(name, ".");
    Last(Split(name, "."))
  }

  lemma NoDotExtension(name: string)
    requires !Contains(name, ".")
    ensures FileExtension(name) == name
  {
    SplitNoSeparator(name, ".");
  }

  /** The first piece of a split is the text before the first separator, or all of it. */
  lemma FirstPiece(s: string, sep: string)
    requires sep != ""
    ensures IndexOf(s, sep).None? ==> Split(s, sep)[0] == s
    ensures IndexOf(s, sep).Some? ==> Split(s, sep)[0] == s[..IndexOf(s, sep).value]
    ensures IsPrefix(Split(s, sep)[0], s) && !Contains(Split(s, sep)[0], sep)
  {
  }

  lemma {:induction false} JoinEndsWithLast(parts: seq<string>, sep: string)
    requires |parts| >= 1
    ensures var j := Join(parts, sep);
      |Last(parts)| <= |j| && j[|j| - |Last(parts)|..] == Last(parts)
    decreases |parts|
  {
    if |parts| > 1 {
      JoinEndsWithLast(parts[1..], sep);
      assert Last(parts[1..]) == Last(parts);
      var j, r := Join(parts, sep), Join(parts[1..], sep);
      assert j == parts[0] + sep + r;
      assert j[|j| - |r|..] == r;
    }
  }

  /** The character of a decimal digit. */
  function DigitChar(d: nat): (c: char)
    requires d < 10
    ensures '0' <= c <= '9'
  {
    "0123456789"[d]
  }

  predicate IsDigit(c: char) {
    '0' <= c <= '9'
  }

  predicate AllDigits(s: string) {
    forall k :: 0 <= k < |s| ==> IsDigit(s[k])
  }

  /** The value of a string of decimal digits. */
  function DecimalValue(s: string): nat
    requires AllDigits(s)
  {
    if s == [] then 0
    else DecimalValue(s[..|s| - 1]) * 10 + (s[|s| - 1] - '0') as nat
  }

  /** `n.toString()` for a natural number: its decimal digits, without leading zeros. */
  function NatToString(n: nat): (r: string)
    ensures |r| >= 1 && AllDigits(r)
    ensures |r| > 1 ==> r[0] != '0'
  {
    if n < 10 then [DigitChar(n)] else NatToString(n / 10) + [DigitChar(n % 10)]
  }

  /** Reading the decimal text of `n` back gives `n`. */
  lemma {:induction false} NatToStringRoundTrip(n: nat)
    ensures DecimalValue(NatToString(n)) == n
  {
    var r := NatToString(n);
    if n >= 10 {
      NatToStringRoundTrip(n / 10);
      assert r[..|r| - 1] == NatToString(n / 10);
    }
  }

  /** Exactly the numbers 100000..999999 have six decimal digits. */
  lemma {:induction false} NatToStringLength(n: nat)
    ensures |NatToString(n)| == 6 <==> 100000 <= n <= 999999
  {
    var k := |NatToString(n)|;
    DigitCountBounds(n);
    assert Pow10(5) == 100000 && Pow10(6) == 1000000;
    if 100000 <= n <= 999999 {
      if k <= 5 { Pow10Monotone(k, 5); }
      if k >= 7 { Pow10Monotone(6, k - 1); }
    }
  }

  lemma {:induction false} Pow10Monotone(i: nat, j: nat)
    requires i <= j
    ensures Pow10(i) <= Pow10(j)
  {
    if i < j { Pow10Monotone(i, j - 1); }
  }

  /** The digit count `k` of `n` satisfies 10^(k-1) <= n < 10^k (for n > 0). */
  lemma {:induction false} DigitCountBounds(n: nat)
    ensures n < Pow10(|NatToString(n)|)
    ensures n >= 10 ==> Pow10(|NatToString(n)| - 1) <= n
  {
    if n >= 10 {
      DigitCountBounds(n / 10);
    }
  }

  function Pow10(k: nat): nat {
    if k == 0 then 1 else 10 * Pow10(k - 1)
  }

  /**
   * `Math.floor(100000 + Math.random() * 900000).toString()`, with the
   * random draw given as the integer `draw = floor(Math.random() * 900000)`.
   */
  function SixDigitCode(draw: nat): (code: string)
    requires draw < 900000
    ensures |code| == 6 && AllDigits(code)
    ensures 100000 <= DecimalValue(code) <= 999999
  {
    NatToStringLength(100000 + draw);
    NatToStringRoundTrip(100000 + draw);
    NatToString(100000 + draw)
  }
}
