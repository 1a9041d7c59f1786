/**
 * The handful of JavaScript string operations the pages rely on, written over
 * `seq<char>`: `startsWith`, `endsWith`, `split` on one separator character,
 * `join`, `split(c).pop()`, ASCII `toLowerCase`/`toUpperCase`, `trim`, and the
 * decimal rendering of a non-negative integer.
 */
module Text {

  type String = seq<char>

  predicate StartsWith(s: String, prefix: String) {
    |prefix| <= |s| && s[..|prefix|] == prefix
  }

  predicate EndsWith(s: String, suffix: String) {
    |suffix| <= |s| && s[|s| - |suffix|..] == suffix
  }

  /** Position of the first `c` in `s`. */
  function IndexOf(s: String, c: char): (i: nat)
    requires c in s
    ensures i < |s| && s[i] == c
    ensures c !in s[..i]
  {
    if s[0] == c then 0
    else
      var j := IndexOf(s[1..], c);
      assert s[..j + 1] == [s[0]] + s[1..][..j];
      j + 1
  }

  /** The first `c` in `a + [c] + r` is the one after `a` when `a` holds none. */
  lemma IndexAfter(a: String, c: char, r: String)
    requires c !in a
    ensures IndexOf(a + [c] + r, c) == |a|
  {
    var s := a + [c] + r;
    assert s[..|a|] == a;
    assert s[|a|] == c;
  }

  /** The text before the first separator is determined by the whole. */
  lemma SameHead(a: String, b: String, c: char, ra: String, rb: String)
    requires c !in a && c !in b
    requires a + [c] + ra == b + [c] + rb
    ensures a == b
  {
    IndexAfter(a, c, ra);
    IndexAfter(b, c, rb);
    var s := a + [c] + ra;
    assert a == s[..|a|];
    assert b == s[..|b|];
  }

  // ---------------------------------------------------------------------------
  // split / join
  // ---------------------------------------------------------------------------

  /** `s.split(c)`: the pieces between the occurrences of `c`; `"".split(c)` is `[""]`. */
  function Split(s: String, c: char): (parts: seq<String>)
    ensures |parts| >= 1
    ensures forall k :: 0 <= k < |parts| ==> c !in parts[k]
    decreases |s|
  {
    if c !in s then [s]
    else
      var i := IndexOf(s, c);
      [s[..i]] + Split(s[i + 1..], c)
  }

  /** `parts.join(c)`; `[].join(c)` is `""`. */
  function Join(parts: seq<String>, c: char): String {
    if |parts| == 0 then []
    else if |parts| == 1 then parts[0]
    else parts[0] + [c] + Join(parts[1..], c)
  }

  /** Number of occurrences of `c` in `s`. */
  function Count(s: String, c: char): nat {
    if s == [] then 0 else (if s[0] == c then 1 else 0) + Count(s[1..], c)
  }

  /** Occurrences of `c` summed over all parts. */
  function CountAll(parts: seq<String>, c: char): nat {
    if parts == [] then 0 else Count(parts[0], c) + CountAll(parts[1..], c)
  }

  lemma {:induction false} CountAppend(a: String, b: String, c: char)
    ensures Count(a + b, c) == Count(a, c) + Count(b, c)
  {
    if a == [] {
      assert a + b == b;
    } else {
      assert (a + b)[1..] == a[1..] + b;
      CountAppend(a[1..], b, c);
    }
  }

  lemma {:induction false} CountAbsent(s: String, c: char)
    requires c !in s
    ensures Count(s, c) == 0
  {
    if s != [] {
      assert c !in s[1..];
      CountAbsent(s[1..], c);
    }
  }

  /** Splitting yields one more piece than there are separators. */
  lemma {:induction false} SplitLength(s: String, c: char)
    ensures |Split(s, c)| == Count(s, c) + 1
    decreases |s|
  {
    if c !in s {
      CountAbsent(s, c);
    } else {
      var i := IndexOf(s, c);
      assert s == s[..i] + ([c] + s[i + 1..]);
      CountAppend(s[..i], [c] + s[i + 1..], c);
      CountAppend([c], s[i + 1..], c);
      CountAbsent(s[..i], c);
      SplitLength(s[i + 1..], c);
    }
  }

  /** Joining adds one separator between neighbouring parts. */
  lemma {:induction false} JoinCount(parts: seq<String>, c: char)
    requires |parts| >= 1
    ensures Count(Join(parts, c), c) == CountAll(parts, c) + |parts| - 1
  {
    if |parts| == 1 {
      assert parts[1..] == [];
    } else {
      CountAppend(parts[0] + [c], Join(parts[1..], c), c);
      CountAppend(parts[0], [c], c);
      JoinCount(parts[1..], c);
    }
  }

  /** Splitting a joined line gives back its parts exactly when no part holds the separator. */
  lemma {:induction false} SplitJoin(parts: seq<String>, c: char)
    requires |parts| >= 1
    requires forall k :: 0 <= k < |parts| ==> c !in parts[k]
    ensures Split(Join(parts, c), c) == parts
  {
    if |parts| == 1 {
      assert c !in parts[0];
    } else {
      var rest := Join(parts[1..], c);
      assert c !in parts[0];
      SplitAt(parts[0], c, rest);
      assert forall k :: 0 <= k < |parts[1..]| ==> c !in parts[1..][k];
      SplitJoin(parts[1..], c);
      assert [parts[0]] + parts[1..] == parts;
    }
  }

  /** The first piece of `a + [c] + r` is `a` when `a` holds no `c`. */
  lemma SplitAt(a: String, c: char, r: String)
    requires c !in a
    ensures Split(a + [c] + r, c) == [a] + Split(r, c)
  {
    var s := a + [c] + r;
    IndexAfter(a, c, r);
    assert s[|a|] == c;
    assert s[..|a|] == a;
    assert s[|a| + 1..] == r;
  }

  /** A character that is neither the separator nor in any part is not in the joined text. */
  lemma {:induction false} JoinAbsent(parts: seq<String>, sep: char, c: char)
    requires c != sep
    requires forall k :: 0 <= k < |parts| ==> c !in parts[k]
    ensures c !in Join(parts, sep)
  {
    if |parts| > 1 {
      JoinAbsent(parts[1..], sep, c);
    }
  }

  lemma {:induction false} CountAllAbsent(parts: seq<String>, c: char)
    requires forall k :: 0 <= k < |parts| ==> c !in parts[k]
    ensures CountAll(parts, c) == 0
  {
    if parts != [] {
      CountAbsent(parts[0], c);
      CountAllAbsent(parts[1..], c);
    }
  }

  /** The number of pieces a joined line splits into grows with every separator inside a part. */
  lemma ColumnCount(parts: seq<String>, c: char)
    requires |parts| >= 1
    ensures |Split(Join(parts, c), c)| == |parts| + CountAll(parts, c)
  {
    SplitLength(Join(parts, c), c);
    JoinCount(parts, c);
  }

  // ---------------------------------------------------------------------------
  // split(c).pop(): the text after the last separator
  // ---------------------------------------------------------------------------

  /** `s.split(c).pop()`: the text after the last `c`, or all of `s` when there is none. */
  function AfterLast(s: String, c: char): String {
    var parts := Split(s, c);
    parts[|parts| - 1]
  }

  /** `r` is a suffix of `s` free of `c` and preceded by `c` (or is all of `s`). */
  predicate IsLastPart(s: String, c: char, r: String) {
    EndsWith(s, r) && c !in r && (|r| == |s| || s[|s| - |r| - 1] == c)
  }

  lemma {:induction false} AfterLastIsLastPart(s: String, c: char)
    ensures IsLastPart(s, c, AfterLast(s, c))
    decreases |s|
  {
    if c in s {
      var i := IndexOf(s, c);
      var rest := s[i + 1..];
      assert Split(s, c) == [s[..i]] + Split(rest, c);
      assert AfterLast(s, c) == AfterLast(rest, c);
      AfterLastIsLastPart(rest, c);
      var r := AfterLast(rest, c);
      assert s[|s| - |r|..] == rest[|rest| - |r|..];
      if |r| == |rest| {
        assert s[|s| - |r| - 1] == s[i];
      } else {
        assert s[|s| - |r| - 1] == rest[|rest| - |r| - 1];
      }
    }
  }

  /** The last part is determined by its three properties. */
  lemma LastPartUnique(s: String, c: char, r: String, t: String)
    requires IsLastPart(s, c, r) && IsLastPart(s, c, t)
    ensures r == t
  {
    assert |r| == |t|;
  }

  /** A prefix before text that already holds the separator does not change the last part. */
  lemma AfterLastAppend(a: String, b: String, c: char)
    requires c in b
    ensures AfterLast(a + b, c) == AfterLast(b, c)
  {
    var r := AfterLast(b, c);
    AfterLastIsLastPart(b, c);
    AfterLastIsLastPart(a + b, c);
    if |r| == |b| {
      assert false;
    }
    assert (a + b)[|a + b| - |r|..] == b[|b| - |r|..];
    assert (a + b)[|a + b| - |r| - 1] == b[|b| - |r| - 1];
    assert IsLastPart(a + b, c, r);
    LastPartUnique(a + b, c, r, AfterLast(a + b, c));
  }

  /**
   * `s` ends in the separator followed by `e` (which holds no separator)
   * exactly when `s` holds a separator and the text after the last one is `e`.
   */
  lemma EndsWithSeparated(s: String, c: char, e: String)
    requires c !in e
    ensures EndsWith(s, [c] + e) <==> (c in s && AfterLast(s, c) == e)
  {
    AfterLastIsLastPart(s, c);
    var r := AfterLast(s, c);
    if EndsWith(s, [c] + e) {
      assert s[|s| - |e| - 1] == c;
      assert s[|s| - |e|..] == ([c] + e)[1..];
      assert IsLastPart(s, c, e);
      LastPartUnique(s, c, e, r);
    }
    if c in s && r == e {
      assert r != s;
      assert s[|s| - |e| - 1..] == [s[|s| - |e| - 1]] + s[|s| - |e|..];
    }
  }

  // ---------------------------------------------------------------------------
  // Case mapping (ASCII letters only)
  // ---------------------------------------------------------------------------

  function LowerChar(ch: char): char {
    if 'A' <= ch <= 'Z' then (ch as int + 32) as char else ch
  }

  function UpperChar(ch: char): char {
    if 'a' <= ch <= 'z' then (ch as int - 32) as char else ch
  }

  function Lower(s: String): String {
    seq(|s|, i requires 0 <= i < |s| => LowerChar(s[i]))
  }

  function Upper(s: String): String {
    seq(|s|, i requires 0 <= i < |s| => UpperChar(s[i]))
  }

  lemma UpperTwice(s: String)
    ensures Upper(Upper(s)) == Upper(s)
  {
  }

  lemma LowerHasDot(s: String)
    ensures ('.' in Lower(s)) == ('.' in s)
  {
    var ls := Lower(s);
    if '.' in s {
      var k :| 0 <= k < |s| && s[k] == '.';
      assert ls[k] == '.';
    }
    if '.' in ls {
      var k :| 0 <= k < |ls| && ls[k] == '.';
      assert s[k] == '.';
    }
  }

  /** Lower-casing keeps every '.' where it is and creates none, so it commutes with `split('.').pop()`. */
  lemma LowerKeepsExtension(s: String)
    ensures AfterLast(Lower(s), '.') == Lower(AfterLast(s, '.'))
  {
    var ls := Lower(s);
    AfterLastIsLastPart(s, '.');
    var r := AfterLast(s, '.');
    var lr := Lower(r);
    assert ls[|ls| - |lr|..] == lr;
    LowerHasDot(r);
    assert IsLastPart(ls, '.', lr);
    AfterLastIsLastPart(ls, '.');
    LastPartUnique(ls, '.', lr, AfterLast(ls, '.'));
  }

  // ---------------------------------------------------------------------------
  // trim
  // ---------------------------------------------------------------------------

  /** The characters `String.prototype.trim` removes: white space and line terminators. */
  predicate IsSpace(ch: char) {
    var n := ch as int;
    n == 0x09 || n == 0x0A || n == 0x0B || n == 0x0C || n == 0x0D || n == 0x20 ||
    n == 0xA0 || n == 0x1680 || (0x2000 <= n <= 0x200A) || n == 0x2028 || n == 0x2029 ||
    n == 0x202F || n == 0x205F || n == 0x3000 || n == 0xFEFF
  }

  function TrimStart(s: String): (r: String)
    ensures EndsWith(s, r)
    ensures |r| > 0 ==> !IsSpace(r[0])
    ensures forall k :: 0 <= k < |s| - |r| ==> IsSpace(s[k])
  {
    if |s| > 0 && IsSpace(s[0]) then TrimStart(s[1..]) else s
  }

  function TrimEnd(s: String): (r: String)
    ensures StartsWith(s, r)
    ensures |r| > 0 ==> !IsSpace(r[|r| - 1])
    ensures forall k :: |r| <= k < |s| ==> IsSpace(s[k])
  {
    if |s| > 0 && IsSpace(s[|s| - 1]) then TrimEnd(s[..|s| - 1]) else s
  }

  /** `s.trim()`. */
  function Trim(s: String): (r: String)
    ensures |r| > 0 ==> !IsSpace(r[0]) && !IsSpace(r[|r| - 1])
  {
    TrimEnd(TrimStart(s))
  }

  lemma {:induction false} TrimTwice(s: String)
    ensures Trim(Trim(s)) == Trim(s)
  {
    var r := Trim(s);
    if |r| > 0 {
      assert TrimStart(r) == r;
      assert TrimEnd(r) == r;
    }
  }

  lemma {:induction false} UpperTrimStart(s: String)
    ensures Upper(TrimStart(s)) == TrimStart(Upper(s))
  {
    if |s| > 0 {
      var u := Upper(s);
      assert u[0] == UpperChar(s[0]);
      assert IsSpace(u[0]) == IsSpace(s[0]);
      if IsSpace(s[0]) {
        assert u[1..] == Upper(s[1..]);
        UpperTrimStart(s[1..]);
      }
    }
  }

  lemma {:induction false} UpperTrimEnd(s: String)
    ensures Upper(TrimEnd(s)) == TrimEnd(Upper(s))
  {
    if |s| > 0 {
      assert Upper(s)[..|s| - 1] == Upper(s[..|s| - 1]);
      UpperTrimEnd(s[..|s| - 1]);
    }
  }

  /** Upper-casing neither creates nor removes white space, so it commutes with `trim`. */
  lemma UpperTrim(s: String)
    ensures Upper(Trim(s)) == Trim(Upper(s))
  {
    UpperTrimStart(s);
    UpperTrimEnd(TrimStart(s));
  }

  // ---------------------------------------------------------------------------
  // Decimal rendering
  // ---------------------------------------------------------------------------

  predicate IsDigits(s: String) {
    forall k :: 0 <= k < |s| ==> '0' <= s[k] <= '9'
  }

  function DigitChar(d: nat): char
    requires d < 10
  {
    ('0' as int + d) as char
  }

  /** `String(n)` for a non-negative integer: its decimal digits, no leading zero. */
  function NatToString(n: nat): (r: String)
    ensures |r| >= 1 && IsDigits(r)
    ensures |r| > 1 ==> r[0] != '0'
  {
    if n < 10 then [DigitChar(n)] else NatToString(n / 10) + [DigitChar(n % 10)]
  }

  /** The value of a run of decimal digits, read most significant first. */
  function DigitsValue(s: String): nat
    requires IsDigits(s)
  {
    if s == [] then 0 else DigitsValue(s[..|s| - 1]) * 10 + (s[|s| - 1] as int - '0' as int)
  }

  /** Reading back the digits of `n` gives `n`. */
  lemma {:induction false} NatToStringValue(n: nat)
    ensures DigitsValue(NatToString(n)) == n
  {
    if n >= 10 {
      NatToStringValue(n / 10);
      var r := NatToString(n);
      assert r[..|r| - 1] == NatToString(n / 10);
    }
  }

  /** Two equal-length digit runs with the same value are the same text. */
  lemma {:induction false} DigitsInjective(a: String, b: String)
    requires IsDigits(a) && IsDigits(b) && |a| == |b|
    requires DigitsValue(a) == DigitsValue(b)
    ensures a == b
  {
    if a != [] {
      var n := |a|;
      DigitsInjective(a[..n - 1], b[..n - 1]);
      assert a == a[..n - 1] + [a[n - 1]];
      assert b == b[..n - 1] + [b[n - 1]];
    }
  }

  // ---------------------------------------------------------------------------
  // Lexicographic order
  // ---------------------------------------------------------------------------

  /** `s` and `t` agree before position `i`, and `s` has the smaller character there. */
  predicate LessAt(s: String, t: String, i: nat) {
    i < |s| && i < |t| && s[..i] == t[..i] && s[i] < t[i]
  }

  /** Character-by-character order, a proper prefix coming first. */
  predicate LexLess(s: String, t: String) {
    (exists i: nat | i < |s| :: LessAt(s, t, i)) || (|s| < |t| && t[..|s|] == s)
  }

  lemma LexLessIrreflexive(s: String)
    ensures !LexLess(s, s)
  {
  }

  lemma LexLessAsymmetric(s: String, t: String)
    requires LexLess(s, t)
    ensures !LexLess(t, s) && s != t
  {
    if i: nat :| LessAt(s, t, i) {
      forall j: nat
        ensures !LessAt(t, s, j)
      {
        if j < i {
          assert s[..i][j] == t[..i][j];
        } else if i < j <= |s| && j <= |t| {
          assert t[..j][i] == t[i] && s[..j][i] == s[i];
        }
      }
      if |t| < |s| {
        assert s[..|t|][i] == s[i];
      }
    } else {
      forall j: nat
        ensures !LessAt(t, s, j)
      {
        if j < |s| {
          assert t[..|s|][j] == t[j];
        }
      }
    }
  }

  /** A common prefix and arbitrary tails keep a difference found inside the middle parts. */
  lemma LessAtExtend(p: String, a: String, b: String, x: String, y: String, i: nat)
    requires LessAt(a, b, i)
    ensures LessAt(p + a + x, p + b + y, |p| + i)
  {
    var s, t := p + a + x, p + b + y;
    assert s[..|p| + i] == p + a[..i];
    assert t[..|p| + i] == p + b[..i];
  }

  /** Two strings that first differ inside a shared frame keep their order once framed. */
  lemma LexLessFramed(p: String, a: String, b: String, x: String, y: String, i: nat)
    requires LessAt(a, b, i)
    ensures LexLess(p + a + x, p + b + y)
  {
    LessAtExtend(p, a, b, x, y, i);
    assert |p| + i < |p + a + x|;
  }

  /** For digit runs of one length, the smaller value comes first. */
  lemma {:induction false} DigitsOrder(a: String, b: String)
    requires IsDigits(a) && IsDigits(b) && |a| == |b| >= 1
    requires DigitsValue(a) < DigitsValue(b)
    ensures exists i: nat :: LessAt(a, b, i)
  {
    var n := |a|;
    var a0, b0 := a[..n - 1], b[..n - 1];
    if n == 1 {
      assert LessAt(a, b, 0);
    } else if DigitsValue(a0) < DigitsValue(b0) {
      DigitsOrder(a0, b0);
      var i: nat :| LessAt(a0, b0, i);
      assert a[..i] == a0[..i] && b[..i] == b0[..i];
      assert LessAt(a, b, i);
    } else {
      assert DigitsValue(a0) <= DigitsValue(b0);
      DigitsInjective(a0, b0);
      assert a[..n - 1] == b[..n - 1];
      assert LessAt(a, b, n - 1);
    }
  }
}
