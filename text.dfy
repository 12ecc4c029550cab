/** The string operations of the JavaScript runtime that the engine and the
    assistant page rely on: `startsWith`, `includes`, `toLowerCase`, `trim`,
    `split`, `join` and the decimal rendering of a non-negative integer in a
    template literal. Strings are sequences of Unicode scalar values;
    JavaScript's UTF-16 code units give the same answers for every text the
    core inspects, since all its keywords and separators lie in the Basic
    Multilingual Plane. */
module Text {

  /** `s.startsWith(p)` */
  predicate StartsWith(s: string, p: string)
  {
    |p| <= |s| && s[..|p|] == p
  }

  /** `p` occurs in `s` starting at index `i`. */
  predicate OccursAt(s: string, p: string, i: int)
  {
    0 <= i && i + |p| <= |s| && s[i..i + |p|] == p
  }

  /** `s.includes(p)` */
  predicate Contains(s: string, p: string)
  {
    exists i | 0 <= i <= |s| - |p| :: OccursAt(s, p, i)
  }

  /** A pattern with a character that the text lacks does not occur in it. */
  lemma NotContainsByChar(s: string, p: string, c: char)
    requires c in p && c !in s
    ensures !Contains(s, p)
  {
    var k :| 0 <= k < |p| && p[k] == c;
    forall i | 0 <= i <= |s| - |p|
      ensures !OccursAt(s, p, i)
    {
      assert s[i..i + |p|][k] == s[i + k] != c;
    }
  }

  // ---------------------------------------------------------------------
  // Case mapping

  /** An upper-case letter that `LowerChar` maps: A..Z and the upper-case
      letters of the Latin-1 Supplement, À..Þ except ×. */
  predicate IsCapital(c: char)
  {
    'A' <= c <= 'Z' || ('À' <= c <= 'Þ' && c != '×')
  }

  /** `toLowerCase` on one character, for the ASCII letters and the upper-case
      letters of the Latin-1 Supplement (À..Þ except ×), the range that holds
      every accented keyword of the engine. */
  function LowerChar(c: char): (lc: char)
  {
    if 'A' <= c <= 'Z' then (c as int + 32) as char
    else if 'À' <= c <= 'Þ' && c != '×' then (c as int + 32) as char
    else c
  }

  /** `s.toLowerCase()` for the letters that `LowerChar` covers: no capital
      is left, every other character stays where it was, and each capital
      becomes a character that is not a capital. */
  function Lower(s: string): (r: string)
    ensures |r| == |s|
    ensures forall i | 0 <= i < |r| :: !IsCapital(r[i])
    ensures forall i | 0 <= i < |s| :: !IsCapital(s[i]) ==> r[i] == s[i]
    ensures forall i | 0 <= i < |s| :: r[i] == LowerChar(s[i])
  {
    seq(|s|, i requires 0 <= i < |s| => LowerChar(s[i]))
  }

  /** Lower-casing twice is lower-casing once. */
  lemma LowerIdempotent(s: string)
    ensures Lower(Lower(s)) == Lower(s)
  {
  }

  /** A text without capitals, such as every keyword of the engine, is its
      own lower-case form. */
  lemma LowerOfLowerCase(s: string)
    requires forall i | 0 <= i < |s| :: !IsCapital(s[i])
    ensures Lower(s) == s
  {
  }

  /** Lowering works character by character, so it distributes over
      concatenation. */
  lemma LowerAppend(a: string, b: string)
    ensures Lower(a + b) == Lower(a) + Lower(b)
  {
  }

  // ---------------------------------------------------------------------
  // Whitespace

  /** The characters that `String.prototype.trim` removes: white space
      (tab, vertical tab, form feed, space, no-break space, byte order mark
      and the space separators) and the line terminators. */
  predicate IsWhitespace(c: char)
  {
    c == '\t' || c == '\U{B}' || c == '\U{C}' || c == ' ' || c == '\U{A0}'
    || c == '\U{FEFF}' || c == '\U{1680}' || ('\U{2000}' <= c <= '\U{200A}')
    || c == '\U{202F}' || c == '\U{205F}' || c == '\U{3000}'
    || IsLineTerminator(c)
  }

  /** The line terminators, which the regular-expression `.` does not match. */
  predicate IsLineTerminator(c: char)
  {
    c == '\n' || c == '\r' || c == '\U{2028}' || c == '\U{2029}'
  }

  /** `s.trim() === ''`: the string is empty or white space only. */
  predicate IsBlank(s: string)
  {
    forall i | 0 <= i < |s| :: IsWhitespace(s[i])
  }

  // ---------------------------------------------------------------------
  // split and join

  /** The text before the first `c`, or all of `s` when there is none:
      `s.split(c)[0]`. */
  function TakeUntil(s: string, c: char): (t: string)
    ensures |t| <= |s| && t == s[..|t|]
    ensures c !in t
    ensures |t| < |s| ==> s[|t|] == c
  {
    if |s| == 0 || s[0] == c then "" else [s[0]] + TakeUntil(s[1..], c)
  }

  lemma TakeUntilAll(s: string, c: char)
    requires c !in s
    ensures TakeUntil(s, c) == s
  {
  }

  lemma TakeUntilAppend(a: string, c: char, b: string)
    requires c !in a
    ensures TakeUntil(a + [c] + b, c) == a
  {
    if |a| > 0 {
      assert (a + [c] + b)[1..] == a[1..] + [c] + b;
      TakeUntilAppend(a[1..], c, b);
    }
  }

  /** `xs.join(sep)` */
  function Join(xs: seq<string>, sep: string): (joined: string)
  {
    if |xs| == 0 then ""
    else if |xs| == 1 then xs[0]
    else xs[0] + sep + Join(xs[1..], sep)
  }

  /** `s.split(c)` for a one-character separator. */
  function Split(s: string, c: char): (r: seq<string>)
    ensures |r| > 0
    decreases |s|
  {
    var t := TakeUntil(s, c);
    if |t| == |s| then [s] else [t] + Split(s[|t| + 1..], c)
  }

  /** Splitting a joined list on its separator gives the list back, as long
      as no element holds the separator. */
  lemma {:induction false} SplitJoin(xs: seq<string>, c: char)
    requires |xs| > 0
    requires forall i | 0 <= i < |xs| :: c !in xs[i]
    ensures Split(Join(xs, [c]), c) == xs
  {
    if |xs| == 1 {
      TakeUntilAll(xs[0], c);
    } else {
      var rest := Join(xs[1..], [c]);
      var s := xs[0] + [c] + rest;
      assert Join(xs, [c]) == s;
      TakeUntilAppend(xs[0], c, rest);
      assert s[|xs[0]| + 1..] == rest;
      SplitJoin(xs[1..], c);
      assert xs == [xs[0]] + xs[1..];
    }
  }

  /** The number of occurrences of `c` in `s`. */
  function CountChar(s: string, c: char): (count: nat)
  {
    if |s| == 0 then 0 else (if s[0] == c then 1 else 0) + CountChar(s[1..], c)
  }

  lemma {:induction false} CountCharAppend(a: string, b: string, c: char)
    ensures CountChar(a + b, c) == CountChar(a, c) + CountChar(b, c)
  {
    if |a| > 0 {
      assert (a + b)[1..] == a[1..] + b;
      CountCharAppend(a[1..], b, c);
    } else {
      assert a + b == b;
    }
  }

  lemma {:induction false} CountCharAbsent(s: string, c: char)
    requires c !in s
    ensures CountChar(s, c) == 0
  {
    if |s| > 0 {
      CountCharAbsent(s[1..], c);
    }
  }

  /** A joined list holds one separator fewer than it has elements. */
  lemma {:induction false} JoinSeparators(xs: seq<string>, c: char)
    requires |xs| > 0
    requires forall i | 0 <= i < |xs| :: c !in xs[i]
    ensures CountChar(Join(xs, [c]), c) == |xs| - 1
  {
    if |xs| == 1 {
      CountCharAbsent(xs[0], c);
    } else {
      JoinSeparators(xs[1..], c);
      CountCharAbsent(xs[0], c);
      CountCharAppend(xs[0], [c], c);
      CountCharAppend(xs[0] + [c], Join(xs[1..], [c]), c);
      assert CountChar([c], c) == 1;
    }
  }

  // ---------------------------------------------------------------------
  // Decimal numbers

  function Digit(d: nat): (c: char)
    requires d < 10
    ensures '0' <= c <= '9'
  {
    ('0' as int + d) as char
  }

  predicate IsDigits(s: string)
  {
    forall i | 0 <= i < |s| :: '0' <= s[i] <= '9'
  }

  /** The decimal rendering `${n}` of a non-negative integer: no leading
      zero, no sign. */
  function NatToString(n: nat): (s: string)
    ensures |s| > 0 && IsDigits(s)
    ensures |s| > 1 ==> s[0] != '0'
  {
    if n < 10 then [Digit(n)] else NatToString(n / 10) + [Digit(n % 10)]
  }

  /** The value of a string of decimal digits. */
  function ParseNat(s: string): (n: nat)
    requires IsDigits(s)
  {
    if |s| == 0 then 0 else 10 * ParseNat(s[..|s| - 1]) + (s[|s| - 1] as int - '0' as int)
  }

  /** Reading back a rendered number gives the number. */
  lemma {:induction false} ParseNatToString(n: nat)
    ensures ParseNat(NatToString(n)) == n
  {
    if n >= 10 {
      var s := NatToString(n);
      assert s[..|s| - 1] == NatToString(n / 10);
      ParseNatToString(n / 10);
    }
  }
}
