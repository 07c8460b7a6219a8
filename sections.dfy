/** The heading paths `_parse_html_to_sections` (api/engine.py) gives its
    sections. A page is cut at its `h2` and `h3` headings: each heading
    with text starts a section, an `h2` starts a new path and an `h3` is
    nested under the latest `h2` with text, if there is one. A page
    without headings is one section titled by the page. Heading texts are
    taken as already extracted; the HTML parsing is not part of this model. */
module Sections {
  import opened Wrappers

  /** A heading of the page, `h2` or `h3`, with its stripped text. */
  datatype Heading = Heading(isH2: bool, text: string)

  /** The text of the latest `h2` with text among `hs`. */
  function LastH2(hs: seq<Heading>): (r: Option<string>)
    ensures r.Some? ==> r.value != ""
  {
    if hs == [] then None
    else
      var h := hs[|hs| - 1];
      if h.isH2 && h.text != "" then Some(h.text) else LastH2(hs[..|hs| - 1])
  }

  /** The path of a heading under the latest `h2` seen before it. */
  function PathUnder(current: Option<string>, h: Heading): seq<string> {
    if h.isH2 then [h.text]
    else if current.Some? then [current.value, h.text]
    else [h.text]
  }

  /** How many of `hs` have text: the number of sections they start. */
  function CountWithText(hs: seq<Heading>): (n: nat)
    ensures n <= |hs|
  {
    if hs == [] then 0
    else CountWithText(hs[..|hs| - 1]) + (if hs[|hs| - 1].text != "" then 1 else 0)
  }

  /** The heading path of every heading with text, in page order: a
      heading at position `i` gets its path under the latest `h2` of
      `hs[..i]`. */
  function HeadingPaths(hs: seq<Heading>): (paths: seq<seq<string>>)
    ensures |paths| == CountWithText(hs)
  {
    if hs == [] then []
    else
      var prefix := hs[..|hs| - 1];
      var h := hs[|hs| - 1];
      HeadingPaths(prefix) + (if h.text != "" then [PathUnder(LastH2(prefix), h)] else [])
  }

  /** The heading paths of a page's sections. Without headings the page is
      one section whose path is its title (the `<title>` text or the file's
      stem), or "Untitled" when that is empty. */
  function SectionPaths(hs: seq<Heading>, title: string): seq<seq<string>> {
    if hs == [] then [[if title == "" then "Untitled" else title]]
    else HeadingPaths(hs)
  }

  /** The loop of `_parse_html_to_sections`: walks the headings keeping the
      current `h2`, skips those without text, and emits one path per
      remaining heading. */
  method ParseHeadingPaths(hs: seq<Heading>, title: string) returns (paths: seq<seq<string>>)
    ensures paths == SectionPaths(hs, title)
  {
    if hs == [] {
      var t := if title == "" then "Untitled" else title;
      return [[t]];
    }
    paths := [];
    var current: Option<string> := None;
    for i := 0 to |hs|
      invariant current == LastH2(hs[..i])
      invariant paths == HeadingPaths(hs[..i])
    {
      assert hs[..i + 1][..i] == hs[..i];
      var h := hs[i];
      if h.text == "" {
        continue;
      }
      var path: seq<string>;
      if h.isH2 {
        current := Some(h.text);
        path := [h.text];
      } else {
        path := if current.Some? then [current.value, h.text] else [h.text];
      }
      paths := paths + [path];
    }
    assert hs[..|hs|] == hs;
  }

  // ---------------------------------------------------------------------

  /** The section started by the heading at position `i` (when it has
      text) is the `CountWithText(hs[..i])`-th, and its path is the
      heading's own text under the latest `h2` before it. */
  lemma {:induction false} HeadingPathAt(hs: seq<Heading>, i: nat)
    requires i < |hs| && hs[i].text != ""
    ensures CountWithText(hs[..i]) < |HeadingPaths(hs)|
    ensures HeadingPaths(hs)[CountWithText(hs[..i])] == PathUnder(LastH2(hs[..i]), hs[i])
    decreases |hs|
  {
    var prefix := hs[..|hs| - 1];
    if i == |hs| - 1 {
      assert hs[..i] == prefix;
    } else {
      assert prefix[..i] == hs[..i];
      HeadingPathAt(prefix, i);
      CountPrefix(prefix, i);
    }
  }

  /** Counting a prefix counts no more than the whole. */
  lemma {:induction false} CountPrefix(hs: seq<Heading>, i: nat)
    requires i <= |hs|
    ensures CountWithText(hs[..i]) <= CountWithText(hs)
    decreases |hs|
  {
    if i < |hs| {
      var prefix := hs[..|hs| - 1];
      assert prefix[..i] == hs[..i];
      CountPrefix(prefix, i);
    } else {
      assert hs[..i] == hs;
    }
  }

  /** A path of one or two non-empty texts, the last of them a heading's. */
  predicate WellShaped(p: seq<string>, hs: seq<Heading>) {
    && 1 <= |p| <= 2
    && (forall k :: 0 <= k < |p| ==> p[k] != "")
    && exists h :: h in hs && h.text == p[|p| - 1]
  }

  /** Every heading path is one or two non-empty texts, ending with the
      text of a heading of the page. So the filter of empty parts the
      source applies to a path removes nothing. */
  lemma {:induction false} HeadingPathsShape(hs: seq<Heading>)
    ensures forall p :: p in HeadingPaths(hs) ==> WellShaped(p, hs)
  {
    if hs != [] {
      var prefix := hs[..|hs| - 1];
      var h := hs[|hs| - 1];
      HeadingPathsShape(prefix);
      forall p | p in HeadingPaths(hs)
        ensures WellShaped(p, hs)
      {
        if p in HeadingPaths(prefix) {
          assert WellShaped(p, prefix);
          var g :| g in prefix && g.text == p[|p| - 1];
          assert g in hs;
        } else {
          assert p == PathUnder(LastH2(prefix), h) && h.text != "";
          assert h in hs;
        }
      }
    }
  }

  /** Sections follow the headings with text one for one; a page whose
      headings all lack text has no section at all (the title fallback is
      only for a page without headings). */
  lemma SectionCount(hs: seq<Heading>, title: string)
    ensures |SectionPaths(hs, title)| == if hs == [] then 1 else CountWithText(hs)
    ensures hs != [] && (forall k :: 0 <= k < |hs| ==> hs[k].text == "") ==> SectionPaths(hs, title) == []
  {
    if hs != [] && forall k :: 0 <= k < |hs| ==> hs[k].text == "" {
      NoTextNoPaths(hs);
    }
  }

  lemma {:induction false} NoTextNoPaths(hs: seq<Heading>)
    requires forall k :: 0 <= k < |hs| ==> hs[k].text == ""
    ensures HeadingPaths(hs) == []
  {
    if hs != [] {
      NoTextNoPaths(hs[..|hs| - 1]);
    }
  }

  /** An `h2` with text becomes the current `h2` for the headings after it,
      until the next `h2` with text. */
  lemma LastH2After(hs: seq<Heading>, i: nat, j: nat)
    requires i < j <= |hs| && hs[i].isH2 && hs[i].text != ""
    requires forall k :: i < k < j ==> !(hs[k].isH2 && hs[k].text != "")
    ensures LastH2(hs[..j]) == Some(hs[i].text)
    decreases j
  {
    if j - 1 != i {
      assert hs[..j][..j - 1] == hs[..j - 1];
      LastH2After(hs, i, j - 1);
    }
  }
}
