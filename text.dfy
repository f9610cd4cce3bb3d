/**
 * String helpers shared by the claim encoder and the documentation tools.
 * Each one models the Python built-in it stands for (`str.strip`,
 * `str.split`, `str.join`, `str.replace`, `str.count`, `str(int)`,
 * `str.zfill`, `str.isupper`, `str.lower`), restricted to ASCII.
 */
module Text {

  datatype Option<T> = None | Some(value: T)

  /** Python's truthiness of an optional string: present and non-empty. */
  predicate Truthy(o: Option<string>) {
    o.Some? && o.value != ""
  }

  /** The ASCII characters for which Python's `str.isspace` holds. */
  predicate IsSpace(c: char) {
    c == ' ' || ('\t' <= c <= '\r') || ('\U{1c}' <= c <= '\U{1f}')
  }

  predicate IsDigit(c: char) { '0' <= c <= '9' }

  predicate IsAsciiUpper(c: char) { 'A' <= c <= 'Z' }

  predicate IsAsciiLower(c: char) { 'a' <= c <= 'z' }

  predicate AllSpace(s: string) {
    forall k :: 0 <= k < |s| ==> IsSpace(s[k])
  }

  predicate AllDigits(s: string) {
    forall k :: 0 <= k < |s| ==> IsDigit(s[k])
  }

  // ---------------------------------------------------------------------
  // subsequences

  /** `a` is `b` with some elements removed, order kept: each element of
      `b` is either kept as the next element of `a` or dropped. */
  predicate IsSubsequence<T(==)>(a: seq<T>, b: seq<T>)
    decreases |b|
  {
    if |b| == 0 then |a| == 0
    else (|a| > 0 && a[0] == b[0] && IsSubsequence(a[1..], b[1..])) || IsSubsequence(a, b[1..])
  }

  /** Extending `b` at the end by an element that `a` drops. */
  lemma {:induction false} SubsequenceDropLast<T>(a: seq<T>, b: seq<T>, x: T)
    requires IsSubsequence(a, b)
    ensures IsSubsequence(a, b + [x])
    decreases |b|
  {
    if |b| == 0 {
      assert a == [];
      assert (b + [x])[1..] == [];
    } else {
      assert (b + [x])[1..] == b[1..] + [x];
      if |a| > 0 && a[0] == b[0] && IsSubsequence(a[1..], b[1..]) {
        SubsequenceDropLast(a[1..], b[1..], x);
      } else {
        SubsequenceDropLast(a, b[1..], x);
      }
    }
  }

  /** Extending both at the end by the same element. */
  lemma {:induction false} SubsequenceKeepLast<T>(a: seq<T>, b: seq<T>, x: T)
    requires IsSubsequence(a, b)
    ensures IsSubsequence(a + [x], b + [x])
    decreases |b|
  {
    if |b| == 0 {
      assert a == [];
      assert (b + [x])[1..] == [] && (a + [x])[1..] == [];
    } else {
      assert (b + [x])[1..] == b[1..] + [x];
      if |a| > 0 && a[0] == b[0] && IsSubsequence(a[1..], b[1..]) {
        SubsequenceKeepLast(a[1..], b[1..], x);
        assert (a + [x])[1..] == a[1..] + [x];
      } else {
        SubsequenceKeepLast(a, b[1..], x);
      }
    }
  }

  // ---------------------------------------------------------------------
  // strip

  /** Number of whitespace characters at the start of `s`. */
  function LeadingSpaces(s: string): (n: nat)
    ensures n <= |s|
    ensures AllSpace(s[..n])
    ensures n == |s| || !IsSpace(s[n])
  {
    if |s| > 0 && IsSpace(s[0]) then
      var m := LeadingSpaces(s[1..]);
      assert s[..m + 1] == [s[0]] + s[1..][..m];
      m + 1
    else 0
  }

  /** Number of whitespace characters at the end of `s`. */
  function TrailingSpaces(s: string): (n: nat)
    ensures n <= |s|
    ensures AllSpace(s[|s| - n..])
    ensures n == |s| || !IsSpace(s[|s| - n - 1])
  {
    if |s| > 0 && IsSpace(s[|s| - 1]) then
      var t := s[..|s| - 1];
      var m := TrailingSpaces(t);
      assert s[|s| - (m + 1)..] == t[|t| - m..] + [s[|s| - 1]];
      m + 1
    else 0
  }

  /** Python's `str.strip()`: the part of `s` between the leading and the
      trailing whitespace. */
  function Strip(s: string): (r: string)
    ensures LeadingSpaces(s) + |r| <= |s|
    ensures r == s[LeadingSpaces(s)..LeadingSpaces(s) + |r|]
    ensures AllSpace(s[..LeadingSpaces(s)]) && AllSpace(s[LeadingSpaces(s) + |r|..])
    ensures r == [] || (!IsSpace(r[0]) && !IsSpace(r[|r| - 1]))
  {
    var a := LeadingSpaces(s);
    var t := s[a..];
    var b := TrailingSpaces(t);
    assert b < |t| ==> !IsSpace(t[0]);
    t[..|t| - b]
  }

  lemma {:induction false} StripOfClean(s: string)
    requires s == [] || (!IsSpace(s[0]) && !IsSpace(s[|s| - 1]))
    ensures Strip(s) == s
  {
    if s != [] {
      assert LeadingSpaces(s) == 0;
    }
  }

  // ---------------------------------------------------------------------
  // split and join

  /** Index of the first `c` in `s`, or `|s|` when there is none. */
  function IndexOf(s: string, c: char): (i: nat)
    ensures i <= |s|
    ensures c !in s[..i]
    ensures i < |s| ==> s[i] == c
  {
    if |s| == 0 then 0
    else if s[0] == c then 0
    else
      var j := IndexOf(s[1..], c);
      assert s[..j + 1] == [s[0]] + s[1..][..j];
      j + 1
  }

  /** Where the line holding position `j` ends: the first line break at or
      after `j`, or the end of the text. */
  function LineEnd(s: string, j: nat): (e: nat)
    requires j <= |s|
    ensures j <= e <= |s|
    ensures forall k :: j <= k < e ==> s[k] != '\n'
    ensures e == |s| || s[e] == '\n'
    decreases |s| - j
  {
    if j == |s| || s[j] == '\n' then j else LineEnd(s, j + 1)
  }

  /** Python's `s.split(sep)` for a one-character separator: always at
      least one piece, and no piece contains the separator. */
  function Split(s: string, sep: char): (r: seq<string>)
    ensures |r| >= 1
    ensures forall k :: 0 <= k < |r| ==> sep !in r[k]
    decreases |s|
  {
    var i := IndexOf(s, sep);
    if i == |s| then [s] else [s[..i]] + Split(s[i + 1..], sep)
  }

  /** Python's `sep.join(parts)`. */
  function Join(parts: seq<string>, sep: string): string
  {
    if |parts| == 0 then ""
    else if |parts| == 1 then parts[0]
    else parts[0] + sep + Join(parts[1..], sep)
  }

  /** Joining the pieces of a split with the separator gives back the
      original text. */
  lemma {:induction false} JoinSplit(s: string, sep: char)
    ensures Join(Split(s, sep), [sep]) == s
    decreases |s|
  {
    var i := IndexOf(s, sep);
    if i < |s| {
      var head, rest := s[..i], s[i + 1..];
      var pieces := Split(rest, sep);
      assert Split(s, sep) == [head] + pieces;
      JoinSplit(rest, sep);
      JoinCons(head, pieces, [sep]);
      assert s == head + [sep] + rest;
    }
  }

  lemma JoinCons(a: string, parts: seq<string>, sep: string)
    requires |parts| >= 1
    ensures Join([a] + parts, sep) == a + sep + Join(parts, sep)
  {
    assert ([a] + parts)[1..] == parts;
  }

  /** Number of occurrences of `c` in `s` (Python's `s.count(c)`). */
  function CountChar(s: string, c: char): nat
  {
    if |s| == 0 then 0 else (if s[0] == c then 1 else 0) + CountChar(s[1..], c)
  }

  lemma {:induction false} CountCharConcat(a: string, b: string, c: char)
    ensures CountChar(a + b, c) == CountChar(a, c) + CountChar(b, c)
  {
    if |a| > 0 {
      assert (a + b)[1..] == a[1..] + b;
      CountCharConcat(a[1..], b, c);
    } else {
      assert a + b == b;
    }
  }

  lemma {:induction false} CountCharAbsent(s: string, c: char)
    requires c !in s
    ensures CountChar(s, c) == 0
  {
    if |s| > 0 {
      assert c !in s[1..];
      CountCharAbsent(s[1..], c);
    }
  }

  /** A split produces one piece more than there are separators. */
  lemma {:induction false} SplitCount(s: string, sep: char)
    ensures |Split(s, sep)| == CountChar(s, sep) + 1
    decreases |s|
  {
    var i := IndexOf(s, sep);
    if i == |s| {
      CountCharAbsent(s, sep);
    } else {
      SplitCount(s[i + 1..], sep);
      assert s == s[..i] + ([sep] + s[i + 1..]);
      CountCharConcat(s[..i], [sep] + s[i + 1..], sep);
      CountCharConcat([sep], s[i + 1..], sep);
      CountCharAbsent(s[..i], sep);
    }
  }

  // ---------------------------------------------------------------------
  // replace

  /** `pat` starts at position `i` of `s`. */
  predicate OccursAt(s: string, pat: string, i: nat) {
    i + |pat| <= |s| && s[i..i + |pat|] == pat
  }

  /** Python's `s.replace(pat, rep)` for a non-empty pattern: every
      non-overlapping occurrence, scanning left to right, is replaced. */
  function ReplaceAll(s: string, pat: string, rep: string): string
    requires |pat| > 0
    decreases |s|
  {
    if |s| < |pat| then s
    else if s[..|pat|] == pat then rep + ReplaceAll(s[|pat|..], pat, rep)
    else [s[0]] + ReplaceAll(s[1..], pat, rep)
  }

  /** Dropping the first character shifts every occurrence left by one. */
  lemma OccursAtTail(t: string, pat: string, i: nat)
    requires |t| > 0
    ensures OccursAt(t[1..], pat, i) <==> OccursAt(t, pat, i + 1)
  {
    if i + 1 + |pat| <= |t| {
      assert t[1..][i..i + |pat|] == t[i + 1..i + 1 + |pat|];
    }
  }

  /** Text in which the pattern never occurs is left alone. */
  lemma {:induction false} ReplaceAllAbsent(s: string, pat: string, rep: string)
    requires |pat| > 0
    requires forall i :: 0 <= i < |s| ==> !OccursAt(s, pat, i)
    ensures ReplaceAll(s, pat, rep) == s
    decreases |s|
  {
    if |s| >= |pat| {
      assert !OccursAt(s, pat, 0);
      forall i | 0 <= i < |s| - 1 ensures !OccursAt(s[1..], pat, i) {
        OccursAtTail(s, pat, i);
      }
      ReplaceAllAbsent(s[1..], pat, rep);
    }
  }

  /** A character the pattern contains but the text does not rules out
      every occurrence. */
  lemma MissingCharNoOccurrence(s: string, pat: string, c: char)
    requires c in pat && c !in s
    ensures forall i :: 0 <= i < |s| ==> !OccursAt(s, pat, i)
  {
  }

  /** The first occurrence: when `pat` occurs at `k` and at no earlier
      position, `replace` passes `t[..k]` through and rewrites that
      occurrence. */
  lemma ReplaceAllFirst(t: string, pat: string, rep: string, k: nat)
    requires |pat| > 0 && OccursAt(t, pat, k)
    requires forall i :: 0 <= i < k ==> !OccursAt(t, pat, i)
    ensures ReplaceAll(t, pat, rep) == t[..k] + rep + ReplaceAll(t[k + |pat|..], pat, rep)
  {
    var u, v := t[..k], t[k..];
    assert t == u + v;
    forall i | 0 <= i < |u| ensures !OccursAt(u + v, pat, i) {
    }
    ReplaceAllPrefix(u, v, pat, rep);
    assert v[..|pat|] == pat;
    assert v[|pat|..] == t[k + |pat|..];
  }

  /** One occurrence, preceded by text where none starts and followed by
      text where none occurs: exactly that one is replaced. */
  lemma ReplaceOnce(l: string, pat: string, after: string, rep: string)
    requires |pat| > 0
    requires forall i :: 0 <= i < |l| ==> !OccursAt(l + (pat + after), pat, i)
    requires forall i :: 0 <= i < |after| ==> !OccursAt(after, pat, i)
    ensures ReplaceAll(l + (pat + after), pat, rep) == l + (rep + after)
  {
    var t := l + (pat + after);
    ThreeParts(l, pat, after);
    ReplaceAllFirst(t, pat, rep, |l|);
    ReplaceAllAbsent(after, pat, rep);
    ConcatAssoc(l, rep, after);
  }

  /** A prefix in which no occurrence starts is passed through unchanged. */
  lemma {:induction false} ReplaceAllPrefix(u: string, v: string, pat: string, rep: string)
    requires |pat| > 0
    requires forall i :: 0 <= i < |u| ==> !OccursAt(u + v, pat, i)
    ensures ReplaceAll(u + v, pat, rep) == u + ReplaceAll(v, pat, rep)
    decreases |u|
  {
    if |u| > 0 {
      var t := u + v;
      var u' := u[1..];
      assert t[1..] == u' + v;
      ReplaceAllStep(t, pat, rep);
      forall i | 0 <= i < |u'| ensures !OccursAt(u' + v, pat, i) {
        OccursAtTail(t, pat, i);
      }
      ReplaceAllPrefix(u', v, pat, rep);
      ConsAssoc(u[0], u', ReplaceAll(v, pat, rep));
      assert [u[0]] + u' == u;
    } else {
      assert u + v == v;
    }
  }

  lemma ConcatAssoc<T>(a: seq<T>, b: seq<T>, c: seq<T>)
    ensures (a + b) + c == a + (b + c)
  {
  }

  /** The three parts of `a + (b + c)`, by position. */
  lemma ThreeParts<T>(a: seq<T>, b: seq<T>, c: seq<T>)
    ensures (a + (b + c))[..|a|] == a
    ensures (a + (b + c))[|a|..|a| + |b|] == b
    ensures (a + (b + c))[|a| + |b|..] == c
  {
  }

  lemma ConsAssoc(x: char, a: string, b: string)
    ensures [x] + (a + b) == ([x] + a) + b
  {
  }

  lemma ReplaceAllStep(t: string, pat: string, rep: string)
    requires |pat| > 0 && |t| > 0 && !OccursAt(t, pat, 0)
    ensures ReplaceAll(t, pat, rep) == [t[0]] + ReplaceAll(t[1..], pat, rep)
  {
  }

  // ---------------------------------------------------------------------
  // numbers as text

  function DigitChar(d: nat): (c: char)
    requires d < 10
    ensures IsDigit(c)
  {
    ('0' as int + d) as char
  }

  function DigitValue(c: char): nat
    requires IsDigit(c)
  {
    c as int - '0' as int
  }

  /** The value of a string of decimal digits. */
  function DecimalValue(s: string): nat
    requires AllDigits(s)
  {
    if |s| == 0 then 0 else 10 * DecimalValue(s[..|s| - 1]) + DigitValue(s[|s| - 1])
  }

  function Pow10(w: nat): (p: nat)
    ensures p >= 1
  {
    if w == 0 then 1 else 10 * Pow10(w - 1)
  }

  /** Python's `str(n)` for a non-negative integer: decimal digits, no
      leading zero, whose value is `n`. */
  function NatToString(n: nat): (r: string)
    ensures |r| >= 1 && AllDigits(r)
    ensures DecimalValue(r) == n
    ensures n >= 10 ==> r[0] != '0'
    decreases n
  {
    if n < 10 then [DigitChar(n)]
    else
      var p := NatToString(n / 10);
      var r := p + [DigitChar(n % 10)];
      assert r[..|r| - 1] == p;
      r
  }

  /** `str(n)` of a number below 10^w has at most w digits. */
  lemma {:induction false} NatToStringWidth(n: nat, w: nat)
    requires w >= 1 && n < Pow10(w)
    ensures |NatToString(n)| <= w
    decreases n
  {
    if n >= 10 {
      assert Pow10(1) == 10;
      assert w >= 2;
      NatToStringWidth(n / 10, w - 1);
    }
  }

  function Repeat(c: char, n: nat): (r: string)
    ensures |r| == n
    ensures forall k :: 0 <= k < n ==> r[k] == c
  {
    if n == 0 then "" else [c] + Repeat(c, n - 1)
  }

  /** Python's `s.zfill(w)` for an unsigned digit string: pads with '0'
      on the left up to width w, never shortens. */
  function ZFill(s: string, w: nat): (r: string)
    ensures |r| == if |s| < w then w else |s|
    ensures r[|r| - |s|..] == s
    ensures forall k :: 0 <= k < |r| - |s| ==> r[k] == '0'
  {
    if |s| < w then Repeat('0', w - |s|) + s else s
  }

  /** Leading zeros do not change the value of a digit string. */
  lemma {:induction false} LeadingZerosValue(z: nat, s: string)
    requires AllDigits(s)
    ensures AllDigits(Repeat('0', z) + s)
    ensures DecimalValue(Repeat('0', z) + s) == DecimalValue(s)
    decreases |s|, z
  {
    var t := Repeat('0', z) + s;
    assert AllDigits(t) by {
      forall k | 0 <= k < |t| ensures IsDigit(t[k]) {
        if k >= z { assert t[k] == s[k - z]; }
      }
    }
    if |s| > 0 {
      var s' := s[..|s| - 1];
      assert t[..|t| - 1] == Repeat('0', z) + s';
      LeadingZerosValue(z, s');
    } else if z > 0 {
      assert t[..|t| - 1] == Repeat('0', z - 1) + s;
      LeadingZerosValue(z - 1, s);
    }
  }

  // ---------------------------------------------------------------------
  // letters

  /** Python's `str.isupper()` on ASCII: at least one cased character and
      no lowercase one. */
  predicate IsUpper(s: string) {
    (exists k :: 0 <= k < |s| && IsAsciiUpper(s[k])) &&
    (forall k :: 0 <= k < |s| ==> !IsAsciiLower(s[k]))
  }

  function LowerChar(c: char): (d: char)
    ensures !IsAsciiUpper(d)
    ensures IsAsciiUpper(c) ==> IsAsciiLower(d)
    ensures !IsAsciiUpper(c) ==> d == c
  {
    if IsAsciiUpper(c) then (c as int + 32) as char else c
  }

  /** Python's `str.lower()` on ASCII. */
  function Lower(s: string): (r: string)
    ensures |r| == |s|
    ensures forall k :: 0 <= k < |s| ==> r[k] == LowerChar(s[k])
  {
    if |s| == 0 then "" else [LowerChar(s[0])] + Lower(s[1..])
  }
}
