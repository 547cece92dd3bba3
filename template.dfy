/** The page shell handling of the SSR front server: the HTML template is
    split on the placeholder element the client app mounts into, and the
    first two sections are glued back together. Splitting follows
    JavaScript's `String.prototype.split` with a non-empty separator:
    occurrences are taken left to right, never overlapping. */
module HtmlTemplate {
  import opened Optional

  /** The placeholder element the template is split on. */
  const Anchor: string := "<div id=\"app\"></div>"

  /** What JavaScript's `+` appends for a missing array element. */
  const Undefined: string := "undefined"

  predicate OccursAt(s: string, sep: string, i: nat) {
    i + |sep| <= |s| && s[i..i + |sep|] == sep
  }

  /** The first occurrence of `sep` in `s` at or after `from`. */
  function IndexFrom(s: string, sep: string, from: nat): (r: Option<nat>)
    ensures r.Some? ==> from <= r.value && OccursAt(s, sep, r.value)
    ensures r.Some? ==> forall j: nat :: from <= j < r.value ==> !OccursAt(s, sep, j)
    ensures r.None? ==> forall j: nat :: from <= j ==> !OccursAt(s, sep, j)
    decreases |s| - from
  {
    if from + |sep| > |s| then None
    else if s[from..from + |sep|] == sep then Some(from)
    else IndexFrom(s, sep, from + 1)
  }

  /** The sections of `s` between the occurrences of `sep`, as `split`
      returns them. */
  function Split(s: string, sep: string): (parts: seq<string>)
    requires |sep| > 0
    ensures |parts| >= 1
    ensures Join(parts, sep) == s
    ensures forall k, j: nat :: 0 <= k < |parts| ==> !OccursAt(parts[k], sep, j)
    decreases |s|
  {
    match IndexFrom(s, sep, 0)
    case None => [s]
    case Some(i) =>
      var rest := Split(s[i + |sep|..], sep);
      var parts := [s[..i]] + rest;
      assert parts[1..] == rest;
      assert s == s[..i] + sep + s[i + |sep|..];
      forall k, j: nat | 0 <= k < |parts| ensures !OccursAt(parts[k], sep, j) {
        if k == 0 {
          OccursInPrefix(s, sep, i, j);
        }
      }
      parts
  }

  /** The inverse of `Split`: the sections with `sep` between each two. */
  function Join(parts: seq<string>, sep: string): string
    requires |parts| >= 1
  {
    if |parts| == 1 then parts[0] else parts[0] + sep + Join(parts[1..], sep)
  }

  /** `handleHtml`: section 0 followed by section 1 of the template.
      Without the anchor the template comes back followed by `undefined`;
      with it, at least the anchor is cut out. */
  function HandleHtml(html: string): (r: string)
    ensures IndexFrom(html, Anchor, 0).None? ==> r == html + Undefined
    ensures IndexFrom(html, Anchor, 0).Some? ==> |r| + |Anchor| <= |html|
  {
    SplitSections(html, Anchor);
    var parts := Split(html, Anchor);
    parts[0] + (if |parts| > 1 then parts[1] else Undefined)
  }

  /** The first section is never longer than the joined whole. */
  lemma JoinFirst(parts: seq<string>, sep: string)
    requires |parts| >= 1
    ensures |parts[0]| <= |Join(parts, sep)|
  {
  }

  /** No separator: one section, the whole string. A separator: at least
      two sections, and the first two fit around it inside the string. */
  lemma SplitSections(s: string, sep: string)
    requires |sep| > 0
    ensures IndexFrom(s, sep, 0).None? ==> Split(s, sep) == [s]
    ensures IndexFrom(s, sep, 0).Some? ==>
      |Split(s, sep)| > 1 && |Split(s, sep)[0]| + |sep| + |Split(s, sep)[1]| <= |s|
  {
    match IndexFrom(s, sep, 0)
    case None =>
    case Some(i) =>
      var rest := s[i + |sep|..];
      SplitFound(s, sep, i);
      JoinFirst(Split(rest, sep), sep);
  }

  /** Occurrences in a prefix are occurrences in the whole string. */
  lemma OccursInPrefix(s: string, sep: string, i: nat, j: nat)
    requires i <= |s|
    ensures OccursAt(s[..i], sep, j) ==> OccursAt(s, sep, j) && j + |sep| <= i
  {
    if OccursAt(s[..i], sep, j) {
      assert s[..i][j..j + |sep|] == s[j..j + |sep|];
    }
  }

  /** Occurrences in a suffix are occurrences in the whole string, shifted. */
  lemma OccursInSuffix(s: string, sep: string, d: nat, k: nat)
    requires d <= |s|
    ensures OccursAt(s[d..], sep, k) <==> OccursAt(s, sep, d + k)
  {
    if k + |sep| <= |s[d..]| {
      assert s[d..][k..k + |sep|] == s[d + k..d + k + |sep|];
    }
  }

  /** No proper suffix of the anchor is also a prefix of it. */
  lemma AnchorBorders()
    ensures forall d :: 0 < d < |Anchor| ==> Anchor[d..] != Anchor[..|Anchor| - d]
  {
    forall d | 0 < d < |Anchor| ensures Anchor[d..] != Anchor[..|Anchor| - d] {
      if d == 14 {
        assert Anchor[d..][1] != Anchor[..|Anchor| - d][1];
      } else {
        assert Anchor[d..][0] != Anchor[..|Anchor| - d][0];
      }
    }
  }

  /** The anchor cannot overlap itself: two occurrences are at least its
      length apart. */
  lemma AnchorApart(s: string, i: nat, j: nat)
    requires OccursAt(s, Anchor, i) && OccursAt(s, Anchor, j) && i < j
    ensures i + |Anchor| <= j
  {
    if j < i + |Anchor| {
      var d := j - i;
      assert s[j..i + |Anchor|] == s[i..i + |Anchor|][d..];
      assert s[j..i + |Anchor|] == s[j..j + |Anchor|][..|Anchor| - d];
      AnchorBorders();
      assert false;
    }
  }

  /** Splitting at the first occurrence `i`: the text before it, then the
      sections of the rest. */
  lemma SplitFound(s: string, sep: string, i: nat)
    requires |sep| > 0 && IndexFrom(s, sep, 0) == Some(i)
    ensures Split(s, sep) == [s[..i]] + Split(s[i + |sep|..], sep)
  {
  }

  lemma SplitNotFound(s: string, sep: string)
    requires |sep| > 0 && IndexFrom(s, sep, 0) == None
    ensures Split(s, sep) == [s]
  {
  }

  /** Without the anchor, the whole template comes back followed by the
      text `undefined`. */
  lemma HandleHtmlAbsent(html: string)
    requires forall i: nat :: !OccursAt(html, Anchor, i)
    ensures HandleHtml(html) == html + Undefined
  {
    assert IndexFrom(html, Anchor, 0).None?;
    SplitNotFound(html, Anchor);
  }

  /** With the anchor exactly once, at `p`, the template comes back with
      that anchor cut out and everything else in place. */
  lemma HandleHtmlOnce(html: string, p: nat)
    requires OccursAt(html, Anchor, p)
    requires forall i: nat :: OccursAt(html, Anchor, i) ==> i == p
    ensures HandleHtml(html) == html[..p] + html[p + |Anchor|..]
  {
    assert IndexFrom(html, Anchor, 0) == Some(p);
    SplitFound(html, Anchor, p);
    var tail := html[p + |Anchor|..];
    forall k: nat ensures !OccursAt(tail, Anchor, k) {
      OccursInSuffix(html, Anchor, p + |Anchor|, k);
    }
    assert IndexFrom(tail, Anchor, 0).None?;
    SplitNotFound(tail, Anchor);
  }

  /** With the anchor at `p` and next at `q`, only the text before `p` and
      the text between the two anchors survive; everything from `q` on is
      dropped. */
  lemma HandleHtmlRepeated(html: string, p: nat, q: nat)
    requires OccursAt(html, Anchor, p) && OccursAt(html, Anchor, q) && p < q
    requires forall i: nat :: OccursAt(html, Anchor, i) && i < q ==> i == p
    ensures p + |Anchor| <= q
    ensures HandleHtml(html) == html[..p] + html[p + |Anchor|..q]
  {
    AnchorApart(html, p, q);
    assert IndexFrom(html, Anchor, 0) == Some(p);
    SplitFound(html, Anchor, p);
    var d := p + |Anchor|;
    var tail := html[d..];
    OccursInSuffix(html, Anchor, d, q - d);
    forall k: nat | k < q - d ensures !OccursAt(tail, Anchor, k) {
      OccursInSuffix(html, Anchor, d, k);
    }
    assert IndexFrom(tail, Anchor, 0) == Some(q - d);
    SplitFound(tail, Anchor, q - d);
    assert tail[..q - d] == html[d..q];
  }
}
