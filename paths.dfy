/** POSIX path handling of api/engine.py: `_resolve_assets`, which turns the
    `src` of a section's images into docset-relative paths, and
    `_safe_resolve_under_root`, which confines a requested asset path to
    its docset's root. Paths are strings split at `/`; `..` is resolved
    lexically, as `posixpath.normpath` does. Symbolic links, which
    `Path.resolve` would follow, are not part of this model. */
module Paths {
  import opened Wrappers
  import opened Text
  import opened Index

  /** `s.split(sep)`: the pieces between the occurrences of `sep`, which
      joined back with `sep` give `s`. */
  function SplitOn(s: string, sep: char): (r: seq<string>)
    ensures |r| >= 1
    ensures forall i :: 0 <= i < |r| ==> sep !in r[i]
    ensures Join(r, [sep]) == s
  {
    if s == [] then [""]
    else
      var rest := SplitOn(s[1..], sep);
      if s[0] == sep then
        assert Join([""] + rest, [sep]) == [sep] + Join(rest, [sep]) by {
          assert ([""] + rest)[1..] == rest;
        }
        [""] + rest
      else
        var r := [[s[0]] + rest[0]] + rest[1..];
        assert Join(r, [sep]) == s by {
          if |rest| > 1 {
            assert r[1..] == rest[1..];
          }
        }
        r
  }

  predicate StartsWith(s: string, p: string) {
    |p| <= |s| && s[..|p|] == p
  }

  // ----- posixpath.normpath ---------------------------------------------

  /** One component of `normpath`'s loop: `""` and `"."` are dropped, a
      name is pushed, and `".."` pops the last name; a `".."` that has no
      name to pop is kept in a relative path and dropped at the root of an
      absolute one. */
  function Step(stack: seq<string>, seg: string, absolute: bool): seq<string> {
    if seg == "" || seg == "." then stack
    else if seg != ".." || (!absolute && stack == []) || (stack != [] && stack[|stack| - 1] == "..") then stack + [seg]
    else if stack != [] then stack[..|stack| - 1]
    else stack
  }

  /** `normpath`'s loop over the components `segs`, from `stack`. */
  function Run(stack: seq<string>, segs: seq<string>, absolute: bool): seq<string>
    decreases |segs|
  {
    if segs == [] then stack else Run(Step(stack, segs[0], absolute), segs[1..], absolute)
  }

  function Slashes(n: nat): (r: string)
    ensures |r| == n && forall i :: 0 <= i < n ==> r[i] == '/'
  {
    if n == 0 then "" else Slashes(n - 1) + "/"
  }

  /** `posixpath.normpath(p)`: two leading slashes are kept, one or three
      and more become one; the empty result is `"."`. */
  function NormPath(p: string): string {
    var initial := if StartsWith(p, "/") then (if StartsWith(p, "//") && !StartsWith(p, "///") then 2 else 1) else 0;
    var comps := Run([], SplitOn(p, '/'), initial > 0);
    var r := Slashes(initial) + Join(comps, "/");
    if r == "" then "." else r
  }

  // ----- PurePosixPath ----------------------------------------------------

  /** The parts of a `PurePosixPath` after its anchor: the pieces between
      slashes, without the empty ones and `"."`. */
  function PosixParts(s: string): seq<string> {
    Names(SplitOn(s, '/'))
  }

  function Names(segs: seq<string>): (r: seq<string>)
    ensures forall x :: x in r <==> x in segs && x != "" && x != "."
  {
    if segs == [] then []
    else (if segs[0] != "" && segs[0] != "." then [segs[0]] else []) + Names(segs[1..])
  }

  /** The anchor of a `PurePosixPath`: `"//"` for exactly two leading
      slashes, `"/"` for one or more than two, `""` for a relative path. */
  function Anchor(s: string): string {
    if StartsWith(s, "//") && !StartsWith(s, "///") then "//"
    else if StartsWith(s, "/") then "/"
    else ""
  }

  /** `str(PurePosixPath(...))` of an anchor and parts. */
  function PosixStr(anchor: string, parts: seq<string>): string {
    if anchor == "" && parts == [] then "." else anchor + Join(parts, "/")
  }

  /** `str(PurePosixPath(file_path).parent / rel)` for a relative `rel`. */
  function JoinedPath(filePath: string, rel: string): string {
    var parts := PosixParts(filePath);
    var parent := if parts == [] then [] else parts[..|parts| - 1];
    PosixStr(Anchor(filePath), parent + PosixParts(rel))
  }

  // ----- _resolve_assets ----------------------------------------------------

  /** `src.split("#", 1)[0].split("?", 1)[0].strip()`. */
  function CleanSrc(src: string): string {
    Strip(SplitOn(SplitOn(src, '#')[0], '?')[0])
  }

  /** Sources kept without a path: empty, or an external URL. */
  predicate External(clean: string) {
    clean == "" || StartsWith(clean, "http://") || StartsWith(clean, "https://") || StartsWith(clean, "data:")
  }

  /** `clean.replace("\\", "/")`. */
  function Slashed(clean: string): (r: string)
    ensures |r| == |clean|
  {
    seq(|clean|, i requires 0 <= i < |clean| => if clean[i] == '\\' then '/' else clean[i])
  }

  /** The path of a non-external source before its leading characters are
      stripped: rooted at the docset when it starts with `/` (after
      backslashes become slashes), else normalised against the document's
      directory. */
  function Located(filePath: string, clean: string): string {
    var c := Slashed(clean);
    if StartsWith(c, "/") then LStripChars(c, {'/'}) else NormPath(JoinedPath(filePath, c))
  }

  /** The path before the final check: `rel.lstrip("./")`, which strips
      every leading `.` and `/` character. */
  function RelPath(filePath: string, clean: string): string {
    LStripChars(Located(filePath, clean), {'.', '/'})
  }

  /** The rejection test of `_resolve_assets`. */
  predicate Rejected(rel: string) {
    rel == "" || rel == "." || StartsWith(rel, "../") || rel == ".."
  }

  /** The path `_resolve_assets` gives an image source, or `None`. */
  function AssetPath(filePath: string, src: string): Option<string> {
    var clean := CleanSrc(src);
    if External(clean) then None
    else
      var rel := RelPath(filePath, clean);
      if Rejected(rel) then None else Some(rel)
  }

  /** `_resolve_assets` with only the slashes stripped from the front of
      the normalised path, so that the test for `..` can reject a path
      that climbs above the docset root. */
  function IntendedAssetPath(filePath: string, src: string): Option<string> {
    var clean := CleanSrc(src);
    if External(clean) then None
    else
      var rel := LStripChars(Located(filePath, clean), {'/'});
      if Rejected(rel) then None else Some(rel)
  }

  /** One asset as `_resolve_assets` returns it: unchanged when it gets no
      path, else a copy with the path. */
  function ResolveAsset(a: Asset, filePath: string): Asset {
    match AssetPath(filePath, a.src)
    case None => a
    case Some(p) => Asset(a.src, a.alt, a.caption, Some(p))
  }

  /** `_resolve_assets`: appends each asset, resolved, to a new list. */
  method ResolveAssets(assets: seq<Asset>, filePath: string) returns (resolved: seq<Asset>)
    ensures |resolved| == |assets|
    ensures forall i :: 0 <= i < |assets| ==> resolved[i] == ResolveAsset(assets[i], filePath)
  {
    ghost var want := seq(|assets|, j requires 0 <= j < |assets| => ResolveAsset(assets[j], filePath));
    resolved := [];
    for i := 0 to |assets|
      invariant resolved == want[..i]
    {
      var r := ResolveOne(assets[i], filePath);
      PrefixNext(want, i);
      resolved := resolved + [r];
    }
    assert want[..|assets|] == want;
  }

  lemma PrefixNext<T>(s: seq<T>, i: nat)
    requires i < |s|
    ensures s[..i + 1] == s[..i] + [s[i]]
  {
  }

  /** The body of `_resolve_assets`' loop for one asset. */
  method ResolveOne(a: Asset, filePath: string) returns (r: Asset)
    ensures r == ResolveAsset(a, filePath)
  {
    var clean := CleanSrc(a.src);
    if External(clean) {
      return a;
    }
    var rel := RelPath(filePath, clean);
    if Rejected(rel) {
      return a;
    }
    return Asset(a.src, a.alt, a.caption, Some(rel));
  }

  // ----- _safe_resolve_under_root -------------------------------------------

  datatype PathError = InvalidAssetPath | PathTraversal

  /** `Path(p).resolve()` without symbolic links: the absolute components
      of `p`, taken from the current directory `cwd` when `p` is relative. */
  function ResolvePath(cwd: seq<string>, p: string): seq<string> {
    Run([], (if StartsWith(p, "/") then [] else cwd) + SplitOn(p, '/'), true)
  }

  /** `_safe_resolve_under_root(root, relative_path)`: a path starting with
      `/` or `\` or holding `:` is invalid; otherwise the resolved target
      must be the resolved root or lie under it. */
  function SafeResolveUnderRoot(cwd: seq<string>, root: string, relativePath: string): Result<seq<string>, PathError> {
    if StartsWith(relativePath, "/") || StartsWith(relativePath, "\\") || ':' in relativePath then Err(InvalidAssetPath)
    else
      var base := (if StartsWith(root, "/") then [] else cwd) + SplitOn(root, '/');
      var target := Run([], base + SplitOn(relativePath, '/'), true);
      var resolvedRoot := Run([], base, true);
      if resolvedRoot != target && !(|resolvedRoot| < |target| && target[..|resolvedRoot|] == resolvedRoot) then Err(PathTraversal)
      else Ok(target)
  }

  // =========================================================================
  // Properties of _resolve_assets

  /** Empty and external sources get no path. */
  lemma ExternalKept(a: Asset, filePath: string)
    requires External(CleanSrc(a.src))
    ensures ResolveAsset(a, filePath) == a
  {
  }

  /** `_resolve_assets` keeps every asset's source, alt text and caption,
      and sets a path only when the source is neither empty nor external;
      a path it sets is non-empty and starts with neither `.` nor `/`. */
  lemma ResolveAssetShape(a: Asset, filePath: string)
    ensures var r := ResolveAsset(a, filePath);
      && r.src == a.src && r.alt == a.alt && r.caption == a.caption
      && (r.path != a.path ==> !External(CleanSrc(a.src)) && r.path.Some?)
      && (r.path != a.path ==> r.path.value != "" && r.path.value[0] != '.' && r.path.value[0] != '/')
    ensures var ap := AssetPath(filePath, a.src);
      && (ap.Some? ==> ap.value != "" && ap.value[0] != '.' && ap.value[0] != '/')
      && (ap.Some? ==> ResolveAsset(a, filePath).path == ap)
      && (ap.None? ==> ResolveAsset(a, filePath) == a)
  {
  }

  /** A string after `lstrip("./")` is never `"."` or `".."` and never
      starts with `"../"`: so of the rejection test only `rel == ""` can
      ever hold. */
  lemma StrippedNeverClimbs(s: string)
    ensures var rel := LStripChars(s, {'.', '/'});
      Rejected(rel) <==> rel == ""
  {
    var rel := LStripChars(s, {'.', '/'});
    if rel != "" {
      assert rel[0] != '.';
      assert !StartsWith(rel, "../") by {
        if |rel| >= 3 {
          assert rel[..3][0] == rel[0];
        }
      }
    }
  }

  /** `_resolve_assets` sets the path of every non-external source whose
      stripped path is non-empty. */
  lemma AssetPathSet(filePath: string, src: string)
    requires !External(CleanSrc(src)) && RelPath(filePath, CleanSrc(src)) != ""
    ensures AssetPath(filePath, src) == Some(RelPath(filePath, CleanSrc(src)))
  {
    StrippedNeverClimbs(Located(filePath, CleanSrc(src)));
  }

  // =========================================================================
  // posixpath.normpath

  /** Running over two lists of components runs over the first, then the second. */
  lemma {:induction false} RunAppend(stack: seq<string>, a: seq<string>, b: seq<string>, absolute: bool)
    ensures Run(stack, a + b, absolute) == Run(Run(stack, a, absolute), b, absolute)
    decreases |a|
  {
    if a == [] {
      assert a + b == b;
    } else {
      assert (a + b)[1..] == a[1..] + b;
      RunAppend(Step(stack, a[0], absolute), a[1..], b, absolute);
    }
  }

  /** In a normalised relative path the `..` components all lead. */
  predicate DotDotsLead(stack: seq<string>) {
    forall i, j :: 0 <= i < j < |stack| && stack[j] == ".." ==> stack[i] == ".."
  }

  lemma {:induction false} RunDotDotsLead(stack: seq<string>, segs: seq<string>)
    requires DotDotsLead(stack)
    ensures DotDotsLead(Run(stack, segs, false))
    decreases |segs|
  {
    if segs != [] {
      var next := Step(stack, segs[0], false);
      assert DotDotsLead(next) by {
        if segs[0] == ".." && next == stack + [".."] {
          forall i, j | 0 <= i < j < |next| && next[j] == ".."
            ensures next[i] == ".."
          {
            if j == |stack| && stack != [] {
              assert stack[|stack| - 1] == "..";
            }
          }
        }
      }
      RunDotDotsLead(next, segs[1..]);
    }
  }

  /** An absolute path never gains a `..` component. */
  lemma {:induction false} RunAbsoluteNoDotDot(stack: seq<string>, segs: seq<string>)
    requires ".." !in stack
    ensures ".." !in Run(stack, segs, true)
    decreases |segs|
  {
    if segs != [] {
      var next := Step(stack, segs[0], true);
      assert ".." !in next by {
        if stack != [] {
          assert stack[|stack| - 1] in stack;
        }
      }
      RunAbsoluteNoDotDot(next, segs[1..]);
    }
  }

  /** A normalised path holds only components of the input other than
      `""` and `"."`, or `..`. */
  lemma {:induction false} RunComponents(stack: seq<string>, segs: seq<string>, absolute: bool)
    ensures forall x :: x in Run(stack, segs, absolute) ==> x in stack || (x in segs && x != "" && x != ".")
    decreases |segs|
  {
    if segs != [] {
      var next := Step(stack, segs[0], absolute);
      assert forall x :: x in next ==> x in stack || (x == segs[0] && x != "" && x != ".");
      RunComponents(next, segs[1..], absolute);
    }
  }

  /** A relative path whose `..` components all cancel appends to any
      absolute base: resolving `base + segs` gives the base resolved,
      followed by `segs` normalised. */
  lemma {:induction false} RunUnder(base: seq<string>, segs: seq<string>)
    requires ".." !in Run([], segs, false)
    ensures Run(base, segs, true) == base + Run([], segs, false)
    decreases |segs|
  {
    if segs != [] {
      var k := |segs| - 1;
      var init := segs[..k];
      var last := segs[k];
      assert segs == init + [last];
      RunAppend([], init, [last], false);
      RunAppend(base, init, [last], true);
      var rel := Run([], init, false);
      assert ".." !in rel by {
        RunDotDotsLead([], init);
        DotDotKept(rel, [last]);
      }
      RunUnder(base, init);
      assert Run(rel, [last], false) == Step(rel, last, false);
      assert Run(base + rel, [last], true) == Step(base + rel, last, true);
      StepUnder(base, rel, last);
    }
  }

  /** One component after a relative stack without `..` that it does not
      climb out of steps the same under an absolute base. */
  lemma StepUnder(base: seq<string>, rel: seq<string>, seg: string)
    requires ".." !in rel && ".." !in Step(rel, seg, false)
    ensures Step(base + rel, seg, true) == base + Step(rel, seg, false)
  {
    if seg == ".." && rel != [] {
      assert rel[|rel| - 1] in rel;
      assert (base + rel)[..|base + rel| - 1] == base + rel[..|rel| - 1];
    } else if seg != "" && seg != "." {
      assert (base + rel) + [seg] == base + (rel + [seg]);
    }
  }

  /** Once a relative path has a `..` component, it keeps one. */
  lemma {:induction false} DotDotKept(stack: seq<string>, segs: seq<string>)
    requires DotDotsLead(stack)
    ensures ".." in stack ==> ".." in Run(stack, segs, false)
    decreases |segs|
  {
    if segs != [] {
      var next := Step(stack, segs[0], false);
      if ".." in stack {
        assert stack[0] == "..";
        assert next[0] == "..";
        assert next[0] in next;
      }
      RunDotDotsLead(stack, [segs[0]]);
      assert Run(stack, [segs[0]], false) == next;
      DotDotKept(next, segs[1..]);
    }
  }

  // =========================================================================
  // The `..` test of _resolve_assets

  /** As written, an image one directory above a top-level page is given
      the path of a file in the docset root: `"../" + name` in a page at
      the root (say `"../a.png"` in `guide.html`) resolves to `name`,
      where the test for `"../"` was meant to reject it. */
  lemma ParentReferenceDropped(filePath: string, name: string)
    requires filePath != "" && filePath != "." && '/' !in filePath
    requires PlainName(name)
    ensures AssetPath(filePath, "../" + name) == Some(name)
  {
    ParentPieces(filePath, name);
  }

  lemma ParentPieces(filePath: string, name: string)
    requires filePath != "" && filePath != "." && '/' !in filePath
    requires PlainName(name)
    ensures CleanSrc("../" + name) == "../" + name && !External("../" + name)
    ensures RelPath(filePath, "../" + name) == name && !Rejected(name)
  {
    ParentExampleClean(name);
    ParentRelPath(filePath, name);
  }

  /** With only the slashes stripped, the same source gets no path. */
  lemma IntendedRejectsParent(filePath: string, name: string)
    requires filePath != "" && filePath != "." && '/' !in filePath
    requires PlainName(name)
    ensures IntendedAssetPath(filePath, "../" + name) == None
  {
    var src := "../" + name;
    assert CleanSrc(src) == src by {
      ParentExampleClean(name);
    }
    assert !External(src) by {
      ParentExampleRelative(name);
    }
    assert Located(filePath, src) == src by {
      ParentExampleRelative(name);
      ParentExampleNormalised(filePath, name);
    }
    assert LStripChars(src, {'/'}) == src by {
      assert src[0] == '.';
    }
    assert Rejected(src) by {
      assert src[..3] == "../";
    }
  }

  lemma ParentRelPath(filePath: string, name: string)
    requires filePath != "" && filePath != "." && '/' !in filePath
    requires PlainName(name)
    ensures RelPath(filePath, "../" + name) == name
    ensures !External("../" + name) && !Rejected(name)
  {
    ParentExampleRelative(name);
    ParentExampleNormalised(filePath, name);
    LStripPrefix("../", name, {'.', '/'});
    assert LStripChars(name, {'.', '/'}) == name by {
      assert name[0] != '.' && name[0] != '/';
    }
  }

  /** A file name as an image source may give it: non-empty, without a
      separator, `#`, `?`, `:`, backslash or surrounding whitespace, and
      not starting with a dot. */
  predicate PlainName(name: string) {
    && name != []
    && name[0] != '.' && !IsSpace(name[0]) && !IsSpace(name[|name| - 1])
    && '/' !in name && '#' !in name && '?' !in name && '\\' !in name && ':' !in name
  }

  lemma ParentExampleClean(name: string)
    requires PlainName(name)
    ensures CleanSrc("../" + name) == "../" + name
  {
    var src := "../" + name;
    assert src[0] == '.' && src[|src| - 1] == name[|name| - 1];
    SplitNoSep(src, '#');
    var t := SplitOn(src, '#')[0];
    assert t == src;
    SplitNoSep(t, '?');
    var u := SplitOn(t, '?')[0];
    assert u == src;
    StripUnpadded(u);
  }

  lemma ParentExampleRelative(name: string)
    requires PlainName(name)
    ensures Slashed("../" + name) == "../" + name
    ensures !External("../" + name) && !StartsWith("../" + name, "/") && !Rejected(name)
  {
    assert name[0] != '.';
    var src := "../" + name;
    assert src[0] == '.';
    assert Slashed(src) == src;
  }

  lemma ParentExampleNormalised(filePath: string, name: string)
    requires filePath != "" && filePath != "." && '/' !in filePath
    requires PlainName(name)
    ensures NormPath(JoinedPath(filePath, "../" + name)) == "../" + name
  {
    var src := "../" + name;
    var parts := ["..", name];
    assert name != "" && name != "." && name != ".." by {
      assert name[0] != '.';
    }
    assert SplitOn(src, '/') == parts by {
      assert src == ".." + "/" + name;
      SplitNoSep(name, '/');
      SplitAt("..", name, '/');
    }
    assert PosixParts(filePath) == [filePath] by {
      SplitNoSep(filePath, '/');
      NamesPlain([filePath]);
    }
    assert PosixParts(src) == parts by {
      NamesPlain(parts);
    }
    assert Anchor(filePath) == "" by {
      assert filePath[0] != '/';
    }
    assert JoinedPath(filePath, src) == src by {
      assert [] + parts == parts;
      assert Join(parts, "/") == src by {
        assert parts[1..] == [name];
      }
    }
    assert Run([], parts, false) == parts by {
      RunCons([], "..", [name], false);
      RunOne([".."], name, false);
      assert Step([], "..", false) == [".."];
    }
  }

  /** Names drops nothing from a list of plain names. */
  lemma {:induction false} NamesPlain(xs: seq<string>)
    requires forall x :: x in xs ==> x != "" && x != "."
    ensures Names(xs) == xs
  {
    if xs != [] {
      assert xs[0] in xs;
      assert forall x :: x in xs[1..] ==> x in xs;
      NamesPlain(xs[1..]);
      assert [xs[0]] + xs[1..] == xs;
    }
  }

  lemma RunCons(stack: seq<string>, seg: string, rest: seq<string>, absolute: bool)
    ensures Run(stack, [seg] + rest, absolute) == Run(Step(stack, seg, absolute), rest, absolute)
  {
    assert ([seg] + rest)[1..] == rest;
  }

  lemma RunOne(stack: seq<string>, seg: string, absolute: bool)
    ensures Run(stack, [seg], absolute) == Step(stack, seg, absolute)
  {
    assert [seg][1..] == [];
  }

  /** A string without the separator splits into itself. */
  lemma {:induction false} SplitNoSep(s: string, sep: char)
    requires sep !in s
    ensures SplitOn(s, sep) == [s]
  {
    if s != [] {
      SplitNoSep(s[1..], sep);
    }
  }

  /** Splitting at the first separator. */
  lemma {:induction false} SplitAt(a: string, b: string, sep: char)
    requires sep !in a
    ensures SplitOn(a + [sep] + b, sep) == [a] + SplitOn(b, sep)
  {
    if a == [] {
      assert a + [sep] + b == [sep] + b;
      assert ([sep] + b)[1..] == b;
    } else {
      assert (a + [sep] + b)[1..] == a[1..] + [sep] + b;
      SplitAt(a[1..], b, sep);
      assert [a[0]] + a[1..] == a;
    }
  }

  /** With only slashes stripped, a path set for a relative source is made
      of plain names: it never climbs above the docset root and has no
      empty or `.` component. */
  lemma IntendedStaysInside(filePath: string, src: string)
    requires IntendedAssetPath(filePath, src).Some?
    requires !StartsWith(Slashed(CleanSrc(src)), "/")
    ensures exists parts: seq<string> ::
      && IntendedAssetPath(filePath, src).value == Join(parts, "/")
      && parts != []
      && forall x :: x in parts ==> x != "" && x != "." && x != ".." && '/' !in x
  {
    var p := JoinedPath(filePath, Slashed(CleanSrc(src)));
    assert Located(filePath, CleanSrc(src)) == NormPath(p);
    var parts := StrippedNormPath(p);
  }

  /** A normalised path with its leading slashes stripped is rejected by
      the `..` test unless it is the join of plain names. */
  lemma StrippedNormPath(p: string) returns (parts: seq<string>)
    ensures var s := LStripChars(NormPath(p), {'/'});
      !Rejected(s) ==>
        && s == Join(parts, "/")
        && parts != []
        && forall x :: x in parts ==> x != "" && x != "." && x != ".." && '/' !in x
  {
    var segs := SplitOn(p, '/');
    var absolute := StartsWith(p, "/");
    var comps := Run([], segs, absolute);
    RunComponents([], segs, absolute);
    assert forall x :: x in comps ==> x != "" && x != "." && '/' !in x;
    var n := if absolute then (if StartsWith(p, "//") && !StartsWith(p, "///") then 2 else 1) else 0;
    parts := comps;
    if comps == [] {
      SlashesOnlyRejected(n);
    } else {
      assert comps[0] in comps;
      StripSlashesJoin(n, comps);
      if absolute {
        RunAbsoluteNoDotDot([], segs);
      } else if comps[0] == ".." {
        JoinDotDot(comps);
      } else {
        RunDotDotsLead([], segs);
        LeadNotDotDot(comps);
      }
    }
  }

  /** `normpath` of a path that is only slashes, stripped of them, is rejected. */
  lemma SlashesOnlyRejected(n: nat)
    ensures var r := Slashes(n) + Join([], "/");
      Rejected(LStripChars(if r == "" then "." else r, {'/'}))
  {
    assert Slashes(n) + Join([], "/") == Slashes(n) + "";
    LStripPrefix(Slashes(n), "", {'/'});
  }

  /** Leading slashes before a join of names without slashes strip off. */
  lemma StripSlashesJoin(n: nat, comps: seq<string>)
    requires comps != [] && comps[0] != "" && '/' !in comps[0]
    ensures var r := Slashes(n) + Join(comps, "/");
      r != "" && LStripChars(r, {'/'}) == Join(comps, "/")
  {
    JoinHead(comps, "/");
    LStripPrefix(Slashes(n), Join(comps, "/"), {'/'});
  }

  /** When the `..` components lead and the first is not `..`, there is none. */
  lemma LeadNotDotDot(comps: seq<string>)
    requires DotDotsLead(comps) && comps != [] && comps[0] != ".."
    ensures ".." !in comps
  {
  }

  /** A joined path starts with the first character of its first part. */
  lemma JoinHead(parts: seq<string>, sep: string)
    requires parts != [] && parts[0] != ""
    ensures Join(parts, sep) != [] && Join(parts, sep)[0] == parts[0][0]
  {
  }

  /** A joined path whose first part is `..` is `..` or starts with `../`. */
  lemma JoinDotDot(parts: seq<string>)
    requires parts != [] && parts[0] == ".."
    ensures Join(parts, "/") == ".." || StartsWith(Join(parts, "/"), "../")
  {
    if |parts| > 1 {
      assert Join(parts, "/")[..3] == ".." + "/";
    }
  }

  // =========================================================================
  // Properties of _safe_resolve_under_root

  /** A path starting with `/` or `\`, or holding `:`, is refused as
      invalid, and no other is. */
  lemma SafeResolveInvalid(cwd: seq<string>, root: string, relativePath: string)
    ensures SafeResolveUnderRoot(cwd, root, relativePath) == Err(InvalidAssetPath) <==>
      StartsWith(relativePath, "/") || StartsWith(relativePath, "\\") || ':' in relativePath
  {
  }

  /** A resolved target is the resolved root or lies under it. */
  lemma SafeResolveConfined(cwd: seq<string>, root: string, relativePath: string)
    requires SafeResolveUnderRoot(cwd, root, relativePath).Ok?
    ensures var target := SafeResolveUnderRoot(cwd, root, relativePath).value;
      var r := ResolvePath(cwd, root);
      |r| <= |target| && target[..|r|] == r
  {
  }

  /** A valid relative path whose `..` components all cancel resolves to
      the resolved root followed by the path normalised. */
  lemma SafeResolveDescends(cwd: seq<string>, root: string, relativePath: string)
    requires !StartsWith(relativePath, "/") && !StartsWith(relativePath, "\\") && ':' !in relativePath
    requires ".." !in Run([], SplitOn(relativePath, '/'), false)
    ensures SafeResolveUnderRoot(cwd, root, relativePath) ==
      Ok(ResolvePath(cwd, root) + Run([], SplitOn(relativePath, '/'), false))
  {
    var base := (if StartsWith(root, "/") then [] else cwd) + SplitOn(root, '/');
    var segs := SplitOn(relativePath, '/');
    RunAppend([], base, segs, true);
    RunUnder(Run([], base, true), segs);
    var r := Run([], base, true);
    var target := r + Run([], segs, false);
    assert target[..|r|] == r;
  }

  /** A path that climbs out of the root is refused: `"../" + name`
      under the root `"/" + dir` names a sibling of the root. (With
      `name == dir` it names the root itself, which is accepted.) */
  lemma SafeResolveTraversal(cwd: seq<string>, dir: string, name: string)
    requires PlainName(dir) && PlainName(name) && name != dir
    ensures SafeResolveUnderRoot(cwd, "/" + dir, "../" + name) == Err(PathTraversal)
  {
    var root := "/" + dir;
    var rel := "../" + name;
    assert dir != "" && dir != "." && dir != ".." by {
      assert dir[0] != '.';
    }
    assert name != "" && name != "." && name != ".." by {
      assert name[0] != '.';
    }
    assert SplitOn(root, '/') == [""] + [dir] by {
      assert root == "" + "/" + dir;
      SplitNoSep(dir, '/');
      SplitAt("", dir, '/');
    }
    assert SplitOn(rel, '/') == [".."] + [name] by {
      assert rel == ".." + "/" + name;
      SplitNoSep(name, '/');
      SplitAt("..", name, '/');
    }
    assert StartsWith(root, "/");
    assert !StartsWith(rel, "/") && !StartsWith(rel, "\\") && ':' !in rel by {
      assert rel[0] == '.';
    }
    var base := [] + SplitOn(root, '/');
    assert Run([], base, true) == [dir] by {
      assert base == [""] + [dir];
      RunCons([], "", [dir], true);
      RunOne([], dir, true);
    }
    assert Run([], base + SplitOn(rel, '/'), true) == [name] by {
      RunAppend([], base, SplitOn(rel, '/'), true);
      RunCons([dir], "..", [name], true);
      assert Step([dir], "..", true) == [];
      RunOne([], name, true);
    }
  }
}
