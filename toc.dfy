/**
 * The table-of-contents builder (doc/toc.py). Fenced code is dropped
 * first, because a comment line in code can look like a heading; then the
 * headings are found, each is split into title, level and link, and the
 * entries are numbered level by level. Every step is a loop over a list;
 * each method is proved against the function that says what it builds.
 */
module DocToc {
  import opened Text

  // ---------------------------------------------------------------------
  // remove_code_blocks

  /** `x[:3] == "```"`. */
  predicate IsFence(x: string) {
    |x| >= 3 && x[..3] == "```"
  }

  /** The lines kept from `content` when the pass enters it with the code
      block flag `inBlock`: a fence flips the flag and is dropped, any
      other line is kept when outside a block. */
  function Clean(content: seq<string>, inBlock: bool): seq<string>
    decreases |content|
  {
    if |content| == 0 then []
    else if IsFence(content[0]) then Clean(content[1..], !inBlock)
    else if !inBlock then [content[0]] + Clean(content[1..], false)
    else Clean(content[1..], true)
  }

  /** The flag after the pass over `content`. */
  function After(content: seq<string>, inBlock: bool): bool
    decreases |content|
  {
    if |content| == 0 then inBlock
    else After(content[1..], if IsFence(content[0]) then !inBlock else inBlock)
  }

  lemma CleanStep(content: seq<string>, k: nat, inBlock: bool)
    requires k < |content|
    ensures Clean(content[k..], inBlock)
            == (if IsFence(content[k]) || inBlock then [] else [content[k]])
               + Clean(content[k + 1..], if IsFence(content[k]) then !inBlock else inBlock)
  {
    assert content[k..][1..] == content[k + 1..];
  }

  method RemoveCodeBlocks(content: seq<string>) returns (contentCleaned: seq<string>)
    ensures contentCleaned == Clean(content, false)
  {
    contentCleaned := [];
    var codeBlock := false;
    assert content[0..] == content;
    for k := 0 to |content|
      invariant contentCleaned + Clean(content[k..], codeBlock) == Clean(content, false)
    {
      var x := content[k];
      CleanStep(content, k, codeBlock);
      if |x| >= 3 && x[..3] == "```" {
        codeBlock := !codeBlock;
      } else if !codeBlock {
        ConcatAssoc(contentCleaned, [x], Clean(content[k + 1..], false));
        contentCleaned := contentCleaned + [x];
      }
    }
    assert contentCleaned + [] == contentCleaned;
  }

  /** The kept lines are lines of the input, in their order. */
  lemma {:induction false} CleanSubsequence(content: seq<string>, inBlock: bool)
    ensures IsSubsequence(Clean(content, inBlock), content)
    decreases |content|
  {
    if |content| > 0 {
      var next := if IsFence(content[0]) then !inBlock else inBlock;
      CleanSubsequence(content[1..], next);
      if !IsFence(content[0]) && !inBlock {
        assert ([content[0]] + Clean(content[1..], false))[1..] == Clean(content[1..], false);
      }
    }
  }

  /** No fence line is kept. */
  lemma {:induction false} CleanNoFence(content: seq<string>, inBlock: bool)
    ensures forall x :: x in Clean(content, inBlock) ==> !IsFence(x)
    decreases |content|
  {
    if |content| > 0 {
      CleanNoFence(content[1..], if IsFence(content[0]) then !inBlock else inBlock);
    }
  }

  /** Without fences, everything outside a block is kept and everything
      inside an unclosed block is dropped. */
  lemma {:induction false} CleanUnfenced(content: seq<string>)
    requires forall x :: x in content ==> !IsFence(x)
    ensures Clean(content, false) == content
    ensures Clean(content, true) == []
    ensures After(content, false) == false && After(content, true) == true
    decreases |content|
  {
    if |content| > 0 {
      assert content[0] in content;
      assert forall x :: x in content[1..] ==> x in content;
      CleanUnfenced(content[1..]);
      assert [content[0]] + content[1..] == content;
    }
  }

  /** The pass over two pieces is the pass over the first, then over the
      second with the flag the first left. */
  lemma {:induction false} CleanConcat(a: seq<string>, b: seq<string>, inBlock: bool)
    ensures Clean(a + b, inBlock) == Clean(a, inBlock) + Clean(b, After(a, inBlock))
    ensures After(a + b, inBlock) == After(b, After(a, inBlock))
    decreases |a|
  {
    if |a| > 0 {
      var next := if IsFence(a[0]) then !inBlock else inBlock;
      assert (a + b)[0] == a[0] && (a + b)[1..] == a[1..] + b;
      CleanConcat(a[1..], b, inBlock);
      CleanConcat(a[1..], b, next);
      if !IsFence(a[0]) && !inBlock {
        ConcatAssoc([a[0]], Clean(a[1..], false), Clean(b, After(a, inBlock)));
      }
    } else {
      assert a + b == b;
    }
  }

  /** A fenced block, entered outside a block, writes nothing and leaves
      the pass outside a block again. */
  lemma CleanBlock(open: string, body: seq<string>, close: string)
    requires IsFence(open) && IsFence(close)
    requires forall x :: x in body ==> !IsFence(x)
    ensures Clean([open] + body + [close], false) == []
    ensures After([open] + body + [close], false) == false
  {
    CleanUnfenced(body);
    CleanConcat([open] + body, [close], false);
    CleanConcat([open], body, false);
    assert Clean([close], true) == [] && After([close], true) == false;
  }

  // ---------------------------------------------------------------------
  // identify_headers

  /** How many `c` characters start at `i`. */
  function Leading(s: string, i: nat, c: char): (n: nat)
    requires i <= |s|
    ensures i + n <= |s|
    ensures forall k :: i <= k < i + n ==> s[k] == c
    ensures i + n == |s| || s[i + n] != c
    decreases |s| - i
  {
    if i == |s| || s[i] != c then 0 else 1 + Leading(s, i + 1, c)
  }

  /** `$` at `j`: the end of the text, or a line break that ends it. */
  predicate AtEnd(s: string, j: nat) {
    j == |s| || (j + 1 == |s| && s[j] == '\n')
  }

  /** `^#+\ .*$`: hashes, a space, then the rest of the line, which must be
      the rest of the text. Backtracking into the hashes cannot help, since
      a hash is not a space. */
  predicate HashHeader(line: string) {
    var n := Leading(line, 0, '#');
    n >= 1 && n < |line| && line[n] == ' ' && AtEnd(line, LineEnd(line, n + 1))
  }

  /** `^=+ *$` for `c == '='`, `^-+ *$` for `c == '-'`. */
  predicate Underline(line: string, c: char) {
    var m := Leading(line, 0, c);
    m >= 1 && AtEnd(line, m + Leading(line, m, ' '))
  }

  /** `lines[i - 1]`, which for `i == 0` is the last line. */
  function Prev(lines: seq<string>, i: nat): string
    requires i < |lines|
  {
    if i == 0 then lines[|lines| - 1] else lines[i - 1]
  }

  /** What line `i` contributes: itself as a hash heading, or the line
      before it as a level one or two heading when it is an underline. */
  function HeaderAt(lines: seq<string>, i: nat): Option<string>
    requires i < |lines|
  {
    if HashHeader(lines[i]) then Some(lines[i])
    else if Underline(lines[i], '=') then Some("# " + Prev(lines, i))
    else if Underline(lines[i], '-') then Some("## " + Prev(lines, i))
    else None
  }

  function Optional<T>(o: Option<T>): seq<T> {
    if o.Some? then [o.value] else []
  }

  /** The headings found in `lines[..k]`. */
  function Headers(lines: seq<string>, k: nat): seq<string>
    requires k <= |lines|
  {
    if k == 0 then [] else Headers(lines, k - 1) + Optional(HeaderAt(lines, k - 1))
  }

  method IdentifyHeaders(lines: seq<string>) returns (headers: seq<string>)
    ensures headers == Headers(lines, |lines|)
  {
    headers := [];
    for i := 0 to |lines|
      invariant headers == Headers(lines, i)
    {
      var line := lines[i];
      if HashHeader(line) {
        headers := headers + [line];
      } else if Underline(line, '=') {
        headers := headers + ["# " + Prev(lines, i)];
      } else if Underline(line, '-') {
        headers := headers + ["## " + Prev(lines, i)];
      }
    }
  }

  /** The lines below `k` that contribute a heading, in order. */
  function HeaderLines(lines: seq<string>, k: nat): seq<nat>
    requires k <= |lines|
  {
    if k == 0 then []
    else HeaderLines(lines, k - 1) + (if HeaderAt(lines, k - 1).Some? then [k - 1] else [])
  }

  /** The contributing lines are those below `k` with a heading, each
      once, in increasing order. */
  lemma {:induction false} HeaderLinesShape(lines: seq<string>, k: nat)
    requires k <= |lines|
    ensures forall j :: 0 <= j < |HeaderLines(lines, k)| ==> HeaderLines(lines, k)[j] < k
    ensures forall j, j' :: 0 <= j < j' < |HeaderLines(lines, k)| ==> HeaderLines(lines, k)[j] < HeaderLines(lines, k)[j']
  {
    if k > 0 {
      HeaderLinesShape(lines, k - 1);
    }
  }

  /** Every line below `k` with a heading is among them. */
  lemma {:induction false} HeaderLinesComplete(lines: seq<string>, k: nat)
    requires k <= |lines|
    ensures forall i :: 0 <= i < k && HeaderAt(lines, i).Some? ==> i in HeaderLines(lines, k)
  {
    if k > 0 {
      HeaderLinesComplete(lines, k - 1);
      var ls := HeaderLines(lines, k - 1);
      var next := if HeaderAt(lines, k - 1).Some? then [k - 1] else [];
      assert HeaderLines(lines, k) == ls + next;
      assert forall i :: i in ls ==> i in ls + next;
    }
  }

  /** The j-th heading comes from the j-th contributing line: at most one
      heading per line, in the order of the lines. */
  lemma {:induction false} HeadersOrigin(lines: seq<string>, k: nat)
    requires k <= |lines|
    ensures |HeaderLines(lines, k)| == |Headers(lines, k)|
    ensures forall j :: 0 <= j < |Headers(lines, k)| ==>
              HeaderLines(lines, k)[j] < |lines| && HeaderAt(lines, HeaderLines(lines, k)[j]) == Some(Headers(lines, k)[j])
  {
    if k > 0 {
      HeadersOrigin(lines, k - 1);
      var hs, ls := Headers(lines, k - 1), HeaderLines(lines, k - 1);
      if HeaderAt(lines, k - 1).Some? {
        assert Headers(lines, k) == hs + [HeaderAt(lines, k - 1).value];
        assert HeaderLines(lines, k) == ls + [k - 1];
      } else {
        assert Headers(lines, k) == hs;
        assert HeaderLines(lines, k) == ls;
      }
    }
  }

  /** Hashes, then a space: the form every found heading has. */
  predicate IsHeading(h: string) {
    var n := Leading(h, 0, '#');
    1 <= n < |h| && h[n] == ' '
  }

  lemma PrefixedHeading(p: string, rest: string)
    requires |p| >= 2 && p[|p| - 1] == ' ' && forall k :: 0 <= k < |p| - 1 ==> p[k] == '#'
    ensures IsHeading(p + rest) && Leading(p + rest, 0, '#') == |p| - 1
  {
    var h := p + rest;
    assert h[|p| - 1] == ' ';
    assert forall k :: 0 <= k < |p| - 1 ==> h[k] == '#';
  }

  /** Every found heading starts with hashes and a space. */
  lemma {:induction false} HeadersAreHeadings(lines: seq<string>, k: nat)
    requires k <= |lines|
    ensures forall j :: 0 <= j < |Headers(lines, k)| ==> IsHeading(Headers(lines, k)[j])
  {
    if k > 0 {
      HeadersAreHeadings(lines, k - 1);
      var i := k - 1;
      if !HashHeader(lines[i]) && Underline(lines[i], '=') {
        PrefixedHeading("# ", Prev(lines, i));
      } else if !HashHeader(lines[i]) && Underline(lines[i], '-') {
        PrefixedHeading("## ", Prev(lines, i));
      }
    }
  }

  // ---------------------------------------------------------------------
  // format_header

  /** The title, the level and the link of one table entry. */
  datatype Entry = Entry(title: string, level: int, link: string)

  /** `[a-zA-Z0-9 -]`. */
  predicate LinkChar(c: char) {
    IsAsciiUpper(c) || IsAsciiLower(c) || IsDigit(c) || c == ' ' || c == '-'
  }

  /** What a link may hold after the `#`: lower-case letters, digits and
      hyphens. */
  predicate SlugChar(c: char) {
    IsAsciiLower(c) || IsDigit(c) || c == '-'
  }

  predicate AllSlug(s: string) {
    forall k :: 0 <= k < |s| ==> SlugChar(s[k])
  }

  /** `re.sub(r"[^a-zA-Z0-9 -]", "", s)`. */
  function KeepLinkChars(s: string): (r: string)
    ensures forall k :: 0 <= k < |r| ==> LinkChar(r[k])
    ensures |r| <= |s|
  {
    if |s| == 0 then "" else (if LinkChar(s[0]) then [s[0]] else []) + KeepLinkChars(s[1..])
  }

  /** Only the characters outside the class are removed: each character
      keeps its number of occurrences exactly when it is in the class. */
  lemma {:induction false} KeepLinkCharsCounts(s: string)
    ensures forall c :: multiset(KeepLinkChars(s))[c] == if LinkChar(c) then multiset(s)[c] else 0
  {
    if |s| > 0 {
      KeepLinkCharsCounts(s[1..]);
      var rest := KeepLinkChars(s[1..]);
      assert s == [s[0]] + s[1..];
      assert multiset(s) == multiset([s[0]]) + multiset(s[1..]);
      if LinkChar(s[0]) {
        assert KeepLinkChars(s) == [s[0]] + rest;
        assert multiset(KeepLinkChars(s)) == multiset([s[0]]) + multiset(rest);
      } else {
        assert KeepLinkChars(s) == rest;
      }
    }
  }

  /** A text made of class characters only is kept whole. */
  lemma {:induction false} KeepLinkCharsWhole(s: string)
    requires forall k :: 0 <= k < |s| ==> LinkChar(s[k])
    ensures KeepLinkChars(s) == s
  {
    if |s| > 0 {
      assert forall k :: 0 <= k < |s[1..]| ==> LinkChar(s[1..][k]) by {
        forall k | 0 <= k < |s[1..]| ensures LinkChar(s[1..][k]) { assert s[1..][k] == s[k + 1]; }
      }
      KeepLinkCharsWhole(s[1..]);
      assert s == [s[0]] + s[1..];
    }
  }

  /** `s.replace(" ", "-")`. */
  function Hyphenate(s: string): (r: string)
    ensures |r| == |s|
    ensures forall k :: 0 <= k < |s| ==> r[k] == if s[k] == ' ' then '-' else s[k]
  {
    if |s| == 0 then "" else [if s[0] == ' ' then '-' else s[0]] + Hyphenate(s[1..])
  }

  /** `s.replace("--", "-")`: pairs of hyphens, left to right, become one. */
  function SingleDashes(s: string): string {
    if |s| >= 2 && s[0] == '-' && s[1] == '-' then "-" + SingleDashes(s[2..])
    else if |s| == 0 then ""
    else [s[0]] + SingleDashes(s[1..])
  }

  /** The link text after the `#`: kept characters, lower-cased,
      stripped, spaces made hyphens, then double hyphens made single. */
  function Slug(s: string): string {
    SingleDashes(Hyphenate(Strip(Lower(KeepLinkChars(s)))))
  }

  /** format_header, with `None` where the source raises IndexError: a
      header made only of hashes (or empty) runs off its end. */
  function HeaderEntry(header: string): Option<Entry> {
    var n := Leading(header, 0, '#');
    if n == |header| then None
    else
      var rest := header[n..];
      Some(Entry(Strip(rest), n, "#" + Slug(rest)))
  }

  method FormatHeader(header: string) returns (r: Option<Entry>)
    ensures r == HeaderEntry(header)
  {
    var level := 0;
    var h := header;
    while |h| > 0 && h[0] == '#'
      invariant level <= |header| && h == header[level..]
      invariant forall k :: 0 <= k < level ==> header[k] == '#'
      decreases |h|
    {
      level := level + 1;
      h := h[1..];
    }
    assert level == Leading(header, 0, '#');
    if |h| == 0 {
      return None;
    }
    var headerlink := "#" + SingleDashes(Hyphenate(Strip(Lower(KeepLinkChars(h)))));
    return Some(Entry(Strip(h), level, headerlink));
  }

  /** The level is the number of leading hashes and the title is the rest,
      stripped; a header of hashes only has no entry. */
  lemma HeaderParts(n: nat, rest: string)
    requires |rest| == 0 || rest[0] != '#'
    ensures HeaderEntry(Repeat('#', n) + rest)
            == if rest == "" then None else Some(Entry(Strip(rest), n, "#" + Slug(rest)))
  {
    var h := Repeat('#', n) + rest;
    assert forall k :: 0 <= k < n ==> h[k] == '#';
    assert |rest| > 0 ==> h[n] == rest[0];
    assert Leading(h, 0, '#') == n;
    assert h[n..] == rest;
  }

  lemma {:induction false} LowerLinkChars(s: string)
    requires forall k :: 0 <= k < |s| ==> LinkChar(s[k])
    ensures forall k :: 0 <= k < |Lower(s)| ==> SlugChar(Lower(s)[k]) || Lower(s)[k] == ' '
  {
  }

  /** The two passes are the general replacement with those patterns. */
  lemma {:induction false} HyphenateReplaces(s: string)
    ensures Hyphenate(s) == ReplaceAll(s, " ", "-")
    decreases |s|
  {
    if |s| > 0 {
      HyphenateReplaces(s[1..]);
      var pat := " ";
      if s[0] == ' ' {
        assert s[..|pat|] == pat;
      } else {
        assert s[..|pat|] != pat by { assert s[..|pat|][0] == s[0]; }
      }
    }
  }

  lemma {:induction false} SingleDashesReplaces(s: string)
    ensures SingleDashes(s) == ReplaceAll(s, "--", "-")
    decreases |s|
  {
    var pat := "--";
    if |s| >= 2 && s[0] == '-' && s[1] == '-' {
      SingleDashesReplaces(s[2..]);
      assert s[..|pat|] == pat;
    } else if |s| >= 2 {
      SingleDashesReplaces(s[1..]);
      assert s[..|pat|] != pat by { assert s[..|pat|][0] == s[0] && s[..|pat|][1] == s[1]; }
    } else if |s| == 1 {
      assert SingleDashes(s) == s && s[1..] == [];
    }
  }

  lemma {:induction false} DashesKeepSlug(s: string)
    requires AllSlug(s)
    ensures AllSlug(SingleDashes(s))
    decreases |s|
  {
    if |s| >= 2 && s[0] == '-' && s[1] == '-' {
      DashesKeepSlug(s[2..]);
    } else if |s| > 0 {
      DashesKeepSlug(s[1..]);
    }
  }

  /** A link is `#` followed by lower-case letters, digits and hyphens: no
      space and no other sign survives. */
  lemma LinkShape(s: string)
    ensures AllSlug(Slug(s))
  {
    var kept := KeepLinkChars(s);
    LowerLinkChars(kept);
    var lowered := Lower(kept);
    var stripped := Strip(lowered);
    assert forall k :: 0 <= k < |stripped| ==> stripped[k] == lowered[LeadingSpaces(lowered) + k];
    DashesKeepSlug(Hyphenate(stripped));
  }

  // ---------------------------------------------------------------------
  // create_toc

  const TocTitle: string := "# Table of Contents"

  /** How many entries of `entries[..k]` at level `level` come after the
      last one shallower than `level`: the counter of that level. */
  function Since(entries: seq<Entry>, k: nat, level: int): nat
    requires k <= |entries|
  {
    if k == 0 then 0
    else if entries[k - 1].level < level then 0
    else (if entries[k - 1].level == level then 1 else 0) + Since(entries, k - 1, level)
  }

  /** The number the entry at `i` is given. */
  function Number(entries: seq<Entry>, i: nat): nat
    requires i < |entries|
  {
    1 + Since(entries, i, entries[i].level)
  }

  /** One line of the table: a tab per level below the first, the number,
      and the title linked to its anchor. */
  function TocLine(e: Entry, number: nat): string {
    Repeat('\t', if e.level >= 1 then e.level - 1 else 0) + NatToString(number) + ". [" + e.title + "](" + e.link + ")"
  }

  /** The lines for `entries[..k]`: entries deeper than the limit get no
      line but still count. */
  function TocUpTo(entries: seq<Entry>, limit: int, k: nat): seq<string>
    requires k <= |entries|
  {
    if k == 0 then []
    else
      var e := entries[k - 1];
      TocUpTo(entries, limit, k - 1) + (if e.level <= limit then [TocLine(e, Number(entries, k - 1))] else [])
  }

  predicate Leveled(entries: seq<Entry>) {
    forall i :: 0 <= i < |entries| ==> entries[i].level >= 1
  }

  /** create_toc, with `None` where the source raises: `max` of no levels,
      or a level below one, which has no counter. */
  function Toc(entries: seq<Entry>, limit: int): Option<seq<string>> {
    if |entries| == 0 || !Leveled(entries) then None
    else Some([TocTitle] + TocUpTo(entries, limit, |entries|))
  }

  /** `max(levels)`. */
  function MaxLevel(entries: seq<Entry>): (m: int)
    requires |entries| > 0
    ensures forall i :: 0 <= i < |entries| ==> entries[i].level <= m
    ensures exists i :: 0 <= i < |entries| && entries[i].level == m
  {
    if |entries| == 1 then entries[0].level
    else
      var m := MaxLevel(entries[1..]);
      assert forall i :: 1 <= i < |entries| ==> entries[i] == entries[1..][i - 1];
      if entries[0].level >= m then entries[0].level else m
  }

  /** `dict.fromkeys(range(lo, hi), 1)`. */
  function Ones(lo: int, hi: int): (r: map<int, nat>)
    ensures forall x :: x in r <==> lo <= x < hi
    ensures forall x :: x in r ==> r[x] == 1
    decreases hi - lo
  {
    if lo >= hi then map[] else Ones(lo + 1, hi)[lo := 1]
  }

  /** Counters above the level of the latest entry are reset. */
  lemma SinceAbove(entries: seq<Entry>, k: nat, level: int)
    requires 0 < k <= |entries| && entries[k - 1].level < level
    ensures Since(entries, k, level) == 0
  {
  }

  /** The counters after `entries[..i]`: one more than [Since] for every
      level that has one. */
  predicate Counters(headerLevels: map<int, nat>, entries: seq<Entry>, i: nat, maxHeaderLevel: int)
    requires i <= |entries|
  {
    forall x :: 1 <= x < maxHeaderLevel ==> x in headerLevels && headerLevels[x] == 1 + Since(entries, i, x)
  }

  /** One turn of the loop keeps the counters right: after the reset the
      counter of the entry's level is its number, and after the increment
      the counters are those of one entry more. */
  lemma CountersStep(entries: seq<Entry>, i: nat, maxHeaderLevel: int, previousLevel: int,
                     before: map<int, nat>, reset: map<int, nat>)
    requires i < |entries| && 1 <= entries[i].level < maxHeaderLevel
    requires previousLevel == (if i == 0 then 1 else entries[i - 1].level) && previousLevel < maxHeaderLevel
    requires Counters(before, entries, i, maxHeaderLevel)
    requires forall x :: 1 <= x < maxHeaderLevel ==>
               x in reset && reset[x] == if entries[i].level < x <= previousLevel then 1 else before[x]
    ensures reset[entries[i].level] == Number(entries, i)
    ensures Counters(reset[entries[i].level := reset[entries[i].level] + 1], entries, i + 1, maxHeaderLevel)
  {
    var level := entries[i].level;
    var after := reset[level := reset[level] + 1];
    forall x | 1 <= x < maxHeaderLevel ensures x in after && after[x] == 1 + Since(entries, i + 1, x) {
      if x > level {
        SinceAbove(entries, i + 1, x);
        if x > previousLevel && i > 0 {
          SinceAbove(entries, i, x);
        }
      }
    }
  }

  method CreateToc(tocLevels: seq<Entry>, levelLimit: int) returns (r: Option<seq<string>>)
    ensures r == Toc(tocLevels, levelLimit)
  {
    if |tocLevels| == 0 {
      return None;
    }
    var toc := [TocTitle];
    var maxHeaderLevel := MaxLevel(tocLevels) + 1;
    var headerLevels := Ones(1, maxHeaderLevel);
    var previousLevel := 1;
    for i := 0 to |tocLevels|
      invariant toc == [TocTitle] + TocUpTo(tocLevels, levelLimit, i)
      invariant forall j :: 0 <= j < i ==> tocLevels[j].level >= 1
      invariant previousLevel == if i == 0 then 1 else tocLevels[i - 1].level
      invariant 1 <= previousLevel && (i > 0 ==> previousLevel < maxHeaderLevel)
      invariant Counters(headerLevels, tocLevels, i, maxHeaderLevel)
    {
      var e := tocLevels[i];
      var level := e.level;
      if level < 1 {
        return None;
      }
      ghost var before := headerLevels;
      headerLevels := ResetLevels(headerLevels, level, previousLevel, maxHeaderLevel);
      CountersStep(tocLevels, i, maxHeaderLevel, previousLevel, before, headerLevels);
      if level <= levelLimit {
        toc := toc + [Repeat('\t', level - 1) + NatToString(headerLevels[level]) + ". [" + e.title + "](" + e.link + ")"];
      }
      headerLevels := headerLevels[level := headerLevels[level] + 1];
      previousLevel := level;
    }
    assert Leveled(tocLevels);
    return Some(toc);
  }

  /** `for x in range(level + 1, previous_level + 1): headerlevels[x] = 1`. */
  method ResetLevels(headerLevels: map<int, nat>, level: int, previousLevel: int, maxHeaderLevel: int)
    returns (reset: map<int, nat>)
    requires forall x :: 1 <= x < maxHeaderLevel ==> x in headerLevels
    requires previousLevel < maxHeaderLevel
    ensures forall x :: 1 <= x < maxHeaderLevel ==> x in reset
    ensures forall x :: 1 <= x < maxHeaderLevel ==>
              reset[x] == if level < x <= previousLevel then 1 else headerLevels[x]
  {
    reset := headerLevels;
    if previousLevel > level {
      for x := level + 1 to previousLevel + 1
        invariant forall y :: 1 <= y < maxHeaderLevel ==> y in reset
        invariant forall y :: 1 <= y < maxHeaderLevel ==>
                    reset[y] == if level < y < x then 1 else headerLevels[y]
      {
        reset := reset[x := 1];
      }
    }
  }

  // ---------------------------------------------------------------------
  // What create_toc promises

  /** How many of `entries[..k]` are within the limit. */
  function Within(entries: seq<Entry>, limit: int, k: nat): nat
    requires k <= |entries|
  {
    if k == 0 then 0 else Within(entries, limit, k - 1) + (if entries[k - 1].level <= limit then 1 else 0)
  }

  /** The entries within the limit, by index. */
  function Shown(entries: seq<Entry>, limit: int, k: nat): seq<nat>
    requires k <= |entries|
  {
    if k == 0 then [] else Shown(entries, limit, k - 1) + (if entries[k - 1].level <= limit then [k - 1] else [])
  }

  /** The j-th line is the line of the j-th entry within the limit, with
      that entry's number: one line per shown entry, in order. */
  lemma {:induction false} TocLines(entries: seq<Entry>, limit: int, k: nat)
    requires k <= |entries|
    ensures |TocUpTo(entries, limit, k)| == |Shown(entries, limit, k)| == Within(entries, limit, k)
    ensures forall j :: 0 <= j < |Shown(entries, limit, k)| ==>
              Shown(entries, limit, k)[j] < k && entries[Shown(entries, limit, k)[j]].level <= limit &&
              TocUpTo(entries, limit, k)[j] == TocLine(entries[Shown(entries, limit, k)[j]], Number(entries, Shown(entries, limit, k)[j]))
  {
    if k > 0 {
      TocLines(entries, limit, k - 1);
    }
  }

  /** The table starts with its title and has one more line per entry
      within the limit. */
  lemma TocShape(entries: seq<Entry>, limit: int)
    requires Toc(entries, limit).Some?
    ensures Toc(entries, limit).value[0] == TocTitle
    ensures |Toc(entries, limit).value| == 1 + Within(entries, limit, |entries|)
  {
    TocLines(entries, limit, |entries|);
  }

  /** A line at level L starts with exactly L - 1 tabs. */
  lemma TocLineTabs(e: Entry, number: nat)
    requires e.level >= 1
    ensures |TocLine(e, number)| > e.level - 1
    ensures TocLine(e, number)[..e.level - 1] == Repeat('\t', e.level - 1)
    ensures IsDigit(TocLine(e, number)[e.level - 1])
  {
    var tabs := Repeat('\t', e.level - 1);
    var digits := NatToString(number);
    var line := TocLine(e, number);
    assert line == tabs + (digits + (". [" + e.title + "](" + e.link + ")"));
    assert line[e.level - 1] == digits[0];
  }

  /** Where the run of entries at `level` or deeper that ends at `k`
      starts: just after the last shallower entry, or at 0. */
  function RunStart(entries: seq<Entry>, k: nat, level: int): (r: nat)
    requires k <= |entries|
    ensures r <= k
    ensures forall j :: r <= j < k ==> entries[j].level >= level
    ensures r == 0 || entries[r - 1].level < level
  {
    if k == 0 then 0 else if entries[k - 1].level < level then k else RunStart(entries, k - 1, level)
  }

  /** How many entries of `s` are at `level`. */
  function CountLevel(s: seq<Entry>, level: int): nat {
    if |s| == 0 then 0
    else CountLevel(s[..|s| - 1], level) + (if s[|s| - 1].level == level then 1 else 0)
  }

  /** The counter of a level is the number of earlier entries at that
      level since the last shallower one, whatever the limit: deeper
      entries that are not shown still advance their counters. */
  lemma {:induction false} SinceCounts(entries: seq<Entry>, k: nat, level: int)
    requires k <= |entries|
    ensures Since(entries, k, level) == CountLevel(entries[RunStart(entries, k, level)..k], level)
  {
    if k > 0 && entries[k - 1].level >= level {
      SinceCounts(entries, k - 1, level);
      var a := RunStart(entries, k, level);
      assert entries[a..k][..k - 1 - a] == entries[a..k - 1];
    }
  }

  // ---------------------------------------------------------------------
  // getTOC

  /** `[format_header(h) for h in headers]`, each `None` where it raises. */
  function FormatAll(headers: seq<string>): (r: seq<Option<Entry>>)
    ensures |r| == |headers| && forall j :: 0 <= j < |headers| ==> r[j] == HeaderEntry(headers[j])
  {
    if |headers| == 0 then [] else [HeaderEntry(headers[0])] + FormatAll(headers[1..])
  }

  /** The values of `options[..k]`, or `None` as soon as one is missing:
      the comprehension stops at the first exception. */
  function Collect<T>(options: seq<Option<T>>, k: nat): Option<seq<T>>
    requires k <= |options|
  {
    if k == 0 then Some([])
    else
      var previous := Collect(options, k - 1);
      if previous.Some? && options[k - 1].Some? then Some(previous.value + [options[k - 1].value]) else None
  }

  lemma {:induction false} CollectStaysFailed<T>(options: seq<Option<T>>, j: nat, k: nat)
    requires j <= k <= |options| && Collect(options, j).None?
    ensures Collect(options, k).None?
    decreases k - j
  {
    if j < k {
      CollectStaysFailed(options, j + 1, k);
    }
  }

  /** With every value present, all are collected in order. */
  lemma {:induction false} CollectAll<T>(options: seq<Option<T>>, k: nat)
    requires k <= |options| && forall j :: 0 <= j < |options| ==> options[j].Some?
    ensures Collect(options, k).Some? && |Collect(options, k).value| == k
    ensures forall j :: 0 <= j < k ==> Collect(options, k).value[j] == options[j].value
  {
    if k > 0 {
      CollectAll(options, k - 1);
    }
  }

  /** The table of contents of a Markdown text. */
  function TocOf(data: string, depth: int): Option<seq<string>> {
    var content := Clean(Split(data, '\n'), false);
    var headers := Headers(content, |content|);
    var options := FormatAll(headers);
    match Collect(options, |options|)
    case None => None
    case Some(entries) => Toc(entries, depth)
  }

  method GetToc(data: string, depth: int) returns (r: Option<seq<string>>)
    ensures r == TocOf(data, depth)
  {
    var contentCleaned := RemoveCodeBlocks(Split(data, '\n'));
    var headers := IdentifyHeaders(contentCleaned);
    ghost var options := FormatAll(headers);
    var tocLevels: seq<Entry> := [];
    for j := 0 to |headers|
      invariant Collect(options, j) == Some(tocLevels)
    {
      var e := FormatHeader(headers[j]);
      assert e == options[j];
      if e.None? {
        CollectStaysFailed(options, j + 1, |options|);
        return None;
      }
      tocLevels := tocLevels + [e.value];
    }
    r := CreateToc(tocLevels, depth);
  }

  /** A heading always has an entry, at level one or deeper. */
  lemma HeadingEntry(h: string)
    requires IsHeading(h)
    ensures HeaderEntry(h).Some? && HeaderEntry(h).value.level >= 1
  {
  }

  /** getTOC fails exactly when the text has no heading outside fenced
      code: format_header never fails on a found heading, and create_toc
      only fails on an empty list. */
  lemma TocFailsWithoutHeadings(data: string, depth: int)
    ensures var content := Clean(Split(data, '\n'), false);
            TocOf(data, depth).None? <==> Headers(content, |content|) == []
  {
    var content := Clean(Split(data, '\n'), false);
    var headers := Headers(content, |content|);
    var options := FormatAll(headers);
    HeadersAreHeadings(content, |content|);
    forall j | 0 <= j < |options| ensures options[j].Some? && options[j].value.level >= 1 {
      HeadingEntry(headers[j]);
    }
    CollectAll(options, |options|);
    var entries := Collect(options, |options|).value;
    assert Leveled(entries);
  }
}
