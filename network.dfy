/**
 * The filename extractors of the documentation downloader
 * (doc/network.py). Each is one regular expression and a conditional
 * return; the model scans the text the way the pattern matches it. In
 * these patterns `.` is any character but a line break, and `$` matches
 * at the end of the text or just before a line break that ends it.
 */
module DocNetwork {
  import opened Text

  const FilenameKey: string := "filename="

  // ---------------------------------------------------------------------
  // getFileNameFromHeader: re.findall("filename=(.+)", header)

  /** `filename=(.+)` matches at `i`: the key, then at least one character
      of the same line. */
  predicate FilenameAt(h: string, i: nat) {
    OccursAt(h, FilenameKey, i) && i + |FilenameKey| < |h| && h[i + |FilenameKey|] != '\n'
  }

  /** The leftmost match at or after `i`. */
  function FirstFilename(h: string, i: nat): (r: Option<nat>)
    requires i <= |h|
    ensures r.Some? ==> i <= r.value < |h| && FilenameAt(h, r.value)
    ensures r.Some? ==> forall k :: i <= k < r.value ==> !FilenameAt(h, k)
    ensures r.None? ==> forall k :: i <= k < |h| ==> !FilenameAt(h, k)
    decreases |h| - i
  {
    if i == |h| then None
    else if FilenameAt(h, i) then Some(i)
    else FirstFilename(h, i + 1)
  }

  /** The group of the match at `i`: from after the key to the end of
      that line, never empty. */
  function Group(h: string, i: nat): (g: string)
    requires FilenameAt(h, i)
    ensures |g| >= 1 && '\n' !in g
  {
    var start := i + |FilenameKey|;
    h[start..LineEnd(h, start)]
  }

  /** getFileNameFromHeader: `""` for no header or an empty one and when
      nothing matches; otherwise the group of the leftmost match. */
  function FileNameFromHeader(header: Option<string>): (r: string)
    ensures !Truthy(header) ==> r == ""
    ensures Truthy(header) ==>
              (r == "" <==> forall i :: 0 <= i < |header.value| ==> !FilenameAt(header.value, i))
    ensures Truthy(header) ==>
              forall i :: 0 <= i < |header.value| && FilenameAt(header.value, i) &&
                          (forall k :: 0 <= k < i ==> !FilenameAt(header.value, k)) ==>
                r == Group(header.value, i)
  {
    if Truthy(header) then
      match FirstFilename(header.value, 0)
      case None => ""
      case Some(i) => Group(header.value, i)
    else ""
  }

  // ---------------------------------------------------------------------
  // getFileNameFromLink: re.findall(r"^.*\/(.+\..+)$", url)

  /** The part of the URL the pattern can span: `$` may stop before one
      final line break. */
  function Matchable(url: string): (u: string)
    ensures u == url || (|url| > 0 && url[|url| - 1] == '\n' && u == url[..|url| - 1])
  {
    if |url| > 0 && url[|url| - 1] == '\n' then url[..|url| - 1] else url
  }

  /** `.+\..+`: a dot with at least one character on each side. */
  predicate InnerDot(s: string) {
    exists d :: 1 <= d < |s| - 1 && s[d] == '.'
  }

  /** `\/(.+\..+)$` matches at the slash at `p`. */
  predicate LinkAt(u: string, p: nat) {
    p < |u| && u[p] == '/' && InnerDot(u[p + 1..])
  }

  /** The last slash below `n` at which the rest matches: the greedy `.*`
      takes the longest prefix it can. */
  function LastLink(u: string, n: nat): (r: Option<nat>)
    requires n <= |u|
    ensures r.Some? ==> r.value < n && LinkAt(u, r.value)
    ensures r.Some? ==> forall q :: r.value < q < n ==> !LinkAt(u, q)
    ensures r.None? ==> forall q :: 0 <= q < n ==> !LinkAt(u, q)
  {
    if n == 0 then None
    else if LinkAt(u, n - 1) then Some(n - 1)
    else LastLink(u, n - 1)
  }

  /** getFileNameFromLink: the text after the last qualifying slash, or
      `""` when there is none or the URL spans more than one line. */
  function FileNameFromLink(url: string): (r: string)
    ensures var u := Matchable(url);
            ('\n' in u || forall p :: 0 <= p < |u| ==> !LinkAt(u, p)) ==> r == ""
    ensures var u := Matchable(url);
            forall p :: 0 <= p < |u| && '\n' !in u && LinkAt(u, p) &&
                        (forall q :: p < q < |u| ==> !LinkAt(u, q)) ==>
              r == u[p + 1..]
  {
    var u := Matchable(url);
    if '\n' in u then ""
    else match LastLink(u, |u|)
      case None => ""
      case Some(p) => u[p + 1..]
  }

  /** A non-empty result is a suffix of the URL (less a final line break)
      that a slash precedes. */
  lemma LinkNameIsSuffix(url: string)
    requires FileNameFromLink(url) != ""
    ensures var r, u := FileNameFromLink(url), Matchable(url);
            |r| < |u| && u[|u| - |r| - 1] == '/' && u[|u| - |r|..] == r
  {
    var u := Matchable(url);
    var p := LastLink(u, |u|).value;
    assert FileNameFromLink(url) == u[p + 1..];
  }

  /** A non-empty result is a file name: a dot with text on both sides. */
  lemma LinkNameHasDot(url: string)
    requires FileNameFromLink(url) != ""
    ensures InnerDot(FileNameFromLink(url))
  {
    var u := Matchable(url);
    var p := LastLink(u, |u|).value;
    assert FileNameFromLink(url) == u[p + 1..];
  }

  /** With no slash there is nothing to match. */
  lemma LinkWithoutSlash(url: string)
    requires '/' !in url
    ensures FileNameFromLink(url) == ""
  {
    var u := Matchable(url);
    forall p | 0 <= p < |u| ensures !LinkAt(u, p) {
      assert u[p] in url;
    }
  }
}
