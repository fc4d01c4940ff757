/** The path sandbox of `FileSystemManager._validate_path`: `pathlib`'s
    `(base / path).resolve()` computed lexically, followed by the string-prefix
    test the source performs on the results' `str()` forms.

    A resolved absolute path is the sequence of its segments: `/srv/data` is
    `["srv", "data"]` and `/` is `[]`. Symbolic links are not modelled, so
    resolution is purely lexical. */
module Paths {
  import opened Wrappers
  import opened Strings

  type Path = seq<string>

  /** A segment of a resolved path: non-empty, no separator, and not one of
      the two names resolution removes. */
  predicate ValidSegment(s: string) {
    s != "" && s != "." && s != ".." && '/' !in s
  }

  predicate ValidPath(p: Path) {
    forall k | 0 <= k < |p| :: ValidSegment(p[k])
  }

  /** `p` is `q` or one of `q`'s ancestors, compared segment by segment. */
  predicate IsPrefix(p: Path, q: Path) {
    |p| <= |q| && q[..|p|] == p
  }

  /** `"/" + "/".join(p)` for a non-empty `p`, and `""` for the root. */
  function Concat(p: Path): string {
    if p == [] then "" else "/" + p[0] + Concat(p[1..])
  }

  /** `str(path)` of a resolved absolute path. */
  function PathString(p: Path): string {
    if p == [] then "/" else Concat(p)
  }

  /** One segment of the right operand applied to a partly resolved path:
      empty and `.` segments vanish, `..` climbs (but never above `/`). */
  function Step(acc: Path, seg: string): Path {
    if seg == "" || seg == "." then acc
    else if seg == ".." then (if acc == [] then [] else acc[..|acc| - 1])
    else acc + [seg]
  }

  function Normalize(acc: Path, segs: seq<string>): (r: Path)
    requires ValidPath(acc)
    requires forall k | 0 <= k < |segs| :: '/' !in segs[k]
    ensures ValidPath(r)
    decreases |segs|
  {
    if segs == [] then acc else Normalize(Step(acc, segs[0]), segs[1..])
  }

  /** `(base / input).resolve()`: an absolute `input` replaces `base`. */
  function Resolve(base: Path, input: string): (r: Path)
    requires ValidPath(base)
    ensures ValidPath(r)
  {
    Normalize(if StartsWith(input, "/") then [] else base, Split(input, '/'))
  }

  /** The empty input, `list_directory`'s default, resolves to the base itself. */
  lemma ResolveEmpty(base: Path)
    requires ValidPath(base)
    ensures Resolve(base, "") == base
  {
    assert Split("", '/') == [""];
    assert !StartsWith("", "/");
    assert Step(base, "") == base && [""][1..] == [];
  }

  const AccessDenied: string := "Invalid path: Access denied"

  /** `_validate_path`: resolve, then accept only if the result's string
      starts with the base's string. */
  function ValidatePath(base: Path, input: string): (r: Result<Path>)
    requires ValidPath(base)
    ensures r.Ok? <==> StartsWith(PathString(Resolve(base, input)), PathString(base))
    ensures r.Ok? ==> r.value == Resolve(base, input) && ValidPath(r.value)
    ensures r.Err? ==> r.error == AccessDenied
  {
    var full := Resolve(base, input);
    if StartsWith(PathString(full), PathString(base)) then Ok(full) else Err(AccessDenied)
  }

  /** `full` is a sibling of `base` (or lies under such a sibling) whose last
      name merely begins with `base`'s last name, like `/srv/data2` for `/srv/data`. */
  predicate PrefixSibling(base: Path, full: Path) {
    && base != []
    && |full| >= |base|
    && full[..|base| - 1] == base[..|base| - 1]
    && full[|base| - 1] != base[|base| - 1]
    && StartsWith(full[|base| - 1], base[|base| - 1])
  }

  /** `relative_to`'s failure message (Python 3.12 wording). */
  function NotInSubpath(p: Path, base: Path): string {
    "'" + PathString(p) + "' is not in the subpath of '" + PathString(base) + "'"
  }

  /** `p.relative_to(base)`: the segments below `base`, or a ValueError. */
  function RelativeTo(p: Path, base: Path): (r: Result<Path>)
    ensures r.Ok? <==> IsPrefix(base, p)
    ensures r.Ok? ==> base + r.value == p
    ensures r.Err? ==> r.error == NotInSubpath(p, base)
  {
    if IsPrefix(base, p) then
      assert base + p[|base|..] == p;
      Ok(p[|base|..])
    else Err(NotInSubpath(p, base))
  }

  /** `str()` of a relative path. */
  function RelString(rel: Path): string {
    if rel == [] then "." else Join(rel, "/")
  }

  // ---------------------------------------------------------------------------
  // What the string-prefix test actually admits.

  lemma ConcatStartsWithSlash(p: Path)
    requires p != []
    ensures |Concat(p)| >= 1 && Concat(p)[0] == '/'
  {
  }

  /** The string test on non-empty paths: `Concat(full)` starts with
      `Concat(base)` exactly when `full` is under `base` or under a prefix sibling. */
  lemma {:induction false} ConcatPrefix(base: Path, full: Path)
    requires base != [] && full != []
    requires ValidPath(base) && ValidPath(full)
    ensures StartsWith(Concat(full), Concat(base)) <==> IsPrefix(base, full) || PrefixSibling(base, full)
    decreases |base|
  {
    var b, bs, f, fs := base[0], base[1..], full[0], full[1..];
    assert ValidPath(bs) && ValidPath(fs) by {
      assert forall k | 0 <= k < |bs| :: bs[k] == base[k + 1];
      assert forall k | 0 <= k < |fs| :: fs[k] == full[k + 1];
    }
    var cb, cf := Concat(bs), Concat(fs);
    assert StartsWith(Concat(full), Concat(base)) <==> StartsWith(f + cf, b + cb) by {
      StartsWithCancel("/", f + cf, b + cb);
      assert Concat(full) == "/" + (f + cf) && Concat(base) == "/" + (b + cb);
    }
    if b == f {
      assert StartsWith(f + cf, b + cb) <==> StartsWith(cf, cb) by {
        StartsWithCancel(f, cf, cb);
      }
      if bs == [] {
        assert full[..1] == [f];
      } else if fs == [] {
        ConcatStartsWithSlash(bs);
      } else {
        ConcatPrefix(bs, fs);
        SameHeadPrefix(base, full);
        SameHeadSibling(base, full);
      }
    } else {
      assert ValidSegment(b) && ValidSegment(f);
      DifferentHead(base, full);
      if bs == [] {
        HeadIsLastName(b, f, fs);
      } else {
        HeadsDiffer(b, bs, f, fs);
      }
    }
  }

  /** With equal first segments, being under `base` reduces to the tails. */
  lemma SameHeadPrefix(base: Path, full: Path)
    requires |base| > 1 && |full| > 1 && base[0] == full[0]
    ensures IsPrefix(base, full) <==> IsPrefix(base[1..], full[1..])
  {
    var f, bs, fs := full[0], base[1..], full[1..];
    if IsPrefix(bs, fs) {
      assert full[..|base|] == [f] + fs[..|bs|];
    }
    if IsPrefix(base, full) {
      assert fs[..|bs|] == full[..|base|][1..];
    }
  }

  /** With equal first segments, being under a prefix sibling reduces to the tails. */
  lemma SameHeadSibling(base: Path, full: Path)
    requires |base| > 1 && |full| > 1 && base[0] == full[0]
    ensures PrefixSibling(base, full) <==> PrefixSibling(base[1..], full[1..])
  {
    var b, f, bs, fs := base[0], full[0], base[1..], full[1..];
    if |fs| >= |bs| {
      assert full[|base| - 1] == fs[|bs| - 1] && base[|base| - 1] == bs[|bs| - 1];
      assert full[..|base| - 1] == [f] + fs[..|bs| - 1];
      assert base[..|base| - 1] == [b] + bs[..|bs| - 1];
    }
  }

  /** With different first segments, `full` is never under `base`, and it is a
      prefix sibling only when `base` has one segment that begins `full`'s first. */
  lemma DifferentHead(base: Path, full: Path)
    requires base != [] && full != [] && base[0] != full[0]
    ensures !IsPrefix(base, full)
    ensures PrefixSibling(base, full) <==> |base| == 1 && StartsWith(full[0], base[0])
  {
    if |base| <= |full| { assert full[..|base|][0] != base[0]; }
    if 1 < |base| <= |full| { assert full[..|base| - 1][0] != base[..|base| - 1][0]; }
    if |base| == 1 { assert full[..0] == base[..0]; }
  }

  /** A name without `/` begins `f + Concat(fs)` exactly when it begins `f`. */
  lemma HeadIsLastName(b: string, f: string, fs: Path)
    requires '/' !in b
    ensures StartsWith(f + Concat(fs), b) <==> StartsWith(f, b)
  {
    var cf := Concat(fs);
    if |b| <= |f| {
      assert (f + cf)[..|b|] == f[..|b|];
    } else if |f + cf| >= |b| {
      assert fs != [];
      ConcatStartsWithSlash(fs);
      assert b[|f|] in b;
      assert (f + cf)[|f|] != b[|f|];
    }
  }

  /** Two different slash-free names followed by `/`-led strings never prefix one another. */
  lemma HeadsDiffer(b: string, bs: Path, f: string, fs: Path)
    requires bs != [] && b != f && '/' !in b && '/' !in f
    ensures !StartsWith(f + Concat(fs), b + Concat(bs))
  {
    var cb, cf := Concat(bs), Concat(fs);
    ConcatStartsWithSlash(bs);
    if |b| < |f| {
      assert f[|b|] in f;
      assert (b + cb)[|b|] != (f + cf)[|b|];
    } else if |b| == |f| {
      assert (b + cb)[..|b|] == b && (f + cf)[..|b|] == f;
    } else if |f + cf| >= |b + cb| {
      assert fs != [];
      ConcatStartsWithSlash(fs);
      assert b[|f|] in b;
      assert (b + cb)[|f|] != (f + cf)[|f|];
    }
  }

  /** The sandbox check in segment terms: it accepts every path at or under the
      base, and also every path at or under a sibling whose name starts with the
      base's name; it rejects everything else. */
  lemma StringPrefixAdmits(base: Path, full: Path)
    requires ValidPath(base) && ValidPath(full)
    ensures StartsWith(PathString(full), PathString(base)) <==> IsPrefix(base, full) || PrefixSibling(base, full)
  {
    if base == [] {
      if full != [] { ConcatStartsWithSlash(full); }
    } else if full == [] {
      ConcatStartsWithSlash(base);
      assert |Concat(base)| >= 2;
    } else {
      ConcatPrefix(base, full);
    }
  }

  /** `_validate_path` accepts an input exactly when its resolution lies under
      the base or under a prefix sibling of it. */
  lemma ValidatePathAccepts(base: Path, input: string)
    requires ValidPath(base)
    ensures ValidatePath(base, input).Ok? <==>
      (IsPrefix(base, Resolve(base, input)) || PrefixSibling(base, Resolve(base, input)))
  {
    StringPrefixAdmits(base, Resolve(base, input));
  }

  /** What the check does guarantee: an accepted path never leaves the base's
      parent directory, and is at least as deep as the base. */
  lemma ValidatedStaysUnderParent(base: Path, input: string)
    requires ValidPath(base) && base != []
    requires ValidatePath(base, input).Ok?
    ensures IsPrefix(base[..|base| - 1], ValidatePath(base, input).value)
    ensures |ValidatePath(base, input).value| >= |base|
  {
    var full := Resolve(base, input);
    ValidatePathAccepts(base, input);
    if IsPrefix(base, full) {
      assert full[..|base| - 1] == full[..|base|][..|base| - 1];
    }
  }

  /** The gap in the check: with base `/srv/data`, the input `../data2/x`
      resolves to `/srv/data2/x`, outside the base, and is accepted. */
  lemma SiblingEscapes()
    ensures ValidatePath(["srv", "data"], "../data2/x") == Ok(["srv", "data2", "x"])
    ensures !IsPrefix(["srv", "data"], ["srv", "data2", "x"])
  {
    var base, full: Path := ["srv", "data"], ["srv", "data2", "x"];
    ResolveSiblingInput();
    SiblingAdmitted(base, full);
    assert full[..2][1] == "data2";
  }

  /** The sibling directory itself passes the check as well. */
  lemma SiblingDirAccepted()
    ensures ValidatePath(["srv", "data"], "../data2") == Ok(["srv", "data2"])
    ensures !IsPrefix(["srv", "data"], ["srv", "data2"])
  {
    var base, full: Path := ["srv", "data"], ["srv", "data2"];
    ResolveSiblingDirInput();
    StringPrefixAdmits(base, full);
    assert full[..1] == base[..1];
    assert "data2"[..4] == "data";
    assert full[..2][1] == "data2";
  }

  lemma ResolveSiblingDirInput()
    ensures Resolve(["srv", "data"], "../data2") == ["srv", "data2"]
  {
    SplitSiblingDirInput();
    assert "../data2"[..1] == ".";
    assert |".."| == 2 && ".."[1] == '.';
    assert Step(["srv", "data"], "..") == ["srv"];
    assert "data2"[0] == 'd' && |"data2"| == 5;
    assert Step(["srv"], "data2") == ["srv", "data2"];
    assert ["..", "data2"][1..] == ["data2"] && ["data2"][1..] == [];
    assert Normalize(["srv"], ["data2"]) == ["srv", "data2"];
  }

  lemma SplitSiblingDirInput()
    ensures Split("../data2", '/') == ["..", "data2"]
  {
    SplitJoin(["..", "data2"], '/');
    assert Join(["..", "data2"], "/") == "../data2";
  }

  /** The same gap with an absolute input: `/srv/data2/x` is accepted for base `/srv/data`. */
  lemma AbsoluteSiblingAccepted()
    ensures ValidatePath(["srv", "data"], "/srv/data2/x") == Ok(["srv", "data2", "x"])
  {
    ResolveAbsoluteSiblingInput();
    SiblingAdmitted(["srv", "data"], ["srv", "data2", "x"]);
  }

  lemma SiblingAdmitted(base: Path, full: Path)
    requires base == ["srv", "data"] && full == ["srv", "data2", "x"]
    ensures StartsWith(PathString(full), PathString(base))
  {
    StringPrefixAdmits(base, full);
    assert full[..1] == base[..1];
    assert "data2"[..4] == "data";
  }

  lemma ResolveSiblingInput()
    ensures Resolve(["srv", "data"], "../data2/x") == ["srv", "data2", "x"]
  {
    SplitSiblingInput();
    NormalizeSiblingInput();
    assert "../data2/x"[..1] == ".";
  }

  lemma SplitSiblingInput()
    ensures Split("../data2/x", '/') == ["..", "data2", "x"]
  {
    SplitJoin(["..", "data2", "x"], '/');
    assert Join(["..", "data2", "x"], "/") == "../data2/x";
  }

  lemma NormalizeSiblingInput()
    ensures Normalize(["srv", "data"], ["..", "data2", "x"]) == ["srv", "data2", "x"]
  {
    assert Normalize(["srv", "data2"], ["x"]) == ["srv", "data2", "x"];
    assert Normalize(["srv"], ["data2", "x"]) == ["srv", "data2", "x"];
  }

  lemma ResolveAbsoluteSiblingInput()
    ensures Resolve(["srv", "data"], "/srv/data2/x") == ["srv", "data2", "x"]
  {
    SplitAbsoluteSiblingInput();
    NormalizeAbsoluteSiblingInput();
    assert "/srv/data2/x"[..1] == "/";
  }

  lemma SplitAbsoluteSiblingInput()
    ensures Split("/srv/data2/x", '/') == ["", "srv", "data2", "x"]
  {
    SplitJoin(["", "srv", "data2", "x"], '/');
    assert Join(["", "srv", "data2", "x"], "/") == "/srv/data2/x";
  }

  lemma NormalizeAbsoluteSiblingInput()
    ensures Normalize([], ["", "srv", "data2", "x"]) == ["srv", "data2", "x"]
  {
    assert Normalize(["srv", "data2"], ["x"]) == ["srv", "data2", "x"];
    assert Normalize(["srv"], ["data2", "x"]) == ["srv", "data2", "x"];
    assert Normalize([], ["srv", "data2", "x"]) == ["srv", "data2", "x"];
  }

  /** Inputs that climb out with `..` are refused: base `/srv/data`, input `../etc`. */
  lemma ClimbingOutRejected()
    ensures ValidatePath(["srv", "data"], "../etc") == Err(AccessDenied)
  {
    var base, full: Path := ["srv", "data"], ["srv", "etc"];
    ResolveClimbingInput();
    assert !IsPrefix(base, full) by {
      assert full[..2][1] == "etc";
    }
    assert !PrefixSibling(base, full) by {
      assert full[1] == "etc" && base[1] == "data";
      assert !StartsWith("etc", "data");
    }
    StringPrefixAdmits(base, full);
  }

  lemma ResolveClimbingInput()
    ensures Resolve(["srv", "data"], "../etc") == ["srv", "etc"]
  {
    SplitClimbingInput();
    assert "../etc"[..1] == ".";
    assert |".."| == 2 && ".."[1] == '.';
    assert Step(["srv", "data"], "..") == ["srv"];
    assert "etc"[0] == 'e' && |"etc"| == 3;
    assert Step(["srv"], "etc") == ["srv", "etc"];
    assert ["..", "etc"][1..] == ["etc"] && ["etc"][1..] == [];
    assert Normalize(["srv"], ["etc"]) == ["srv", "etc"];
  }

  lemma SplitClimbingInput()
    ensures Split("../etc", '/') == ["..", "etc"]
  {
    SplitJoin(["..", "etc"], '/');
    assert Join(["..", "etc"], "/") == "../etc";
  }

  /** Normalising segments that hold no `..` only ever descends. */
  lemma {:induction false} NormalizeDescends(acc: Path, segs: seq<string>)
    requires ValidPath(acc)
    requires forall k | 0 <= k < |segs| :: '/' !in segs[k] && segs[k] != ".."
    ensures IsPrefix(acc, Normalize(acc, segs))
    decreases |segs|
  {
    if segs != [] {
      var next := Step(acc, segs[0]);
      NormalizeDescends(next, segs[1..]);
      assert IsPrefix(acc, next);
      var r := Normalize(next, segs[1..]);
      assert r[..|acc|] == r[..|next|][..|acc|];
    }
  }

  /** A relative input without `..` segments resolves under the base and is accepted. */
  lemma RelativeInputAccepted(base: Path, input: string)
    requires ValidPath(base)
    requires !StartsWith(input, "/")
    requires forall k | 0 <= k < |Split(input, '/')| :: Split(input, '/')[k] != ".."
    ensures ValidatePath(base, input) == Ok(Resolve(base, input))
    ensures IsPrefix(base, Resolve(base, input))
  {
    NormalizeDescends(base, Split(input, '/'));
    ValidatePathAccepts(base, input);
  }

  /** Valid segments are appended one by one. */
  lemma {:induction false} NormalizeAppends(acc: Path, segs: seq<string>)
    requires ValidPath(acc) && ValidPath(segs)
    ensures Normalize(acc, segs) == acc + segs
    decreases |segs|
  {
    if segs != [] {
      assert ValidPath(segs[1..]) by {
        assert forall k | 0 <= k < |segs[1..]| :: segs[1..][k] == segs[k + 1];
      }
      NormalizeAppends(acc + [segs[0]], segs[1..]);
      assert acc + [segs[0]] + segs[1..] == acc + segs;
    }
  }

  /** A relative path string built from valid segments resolves back to
      `base + rel`: the inverse of `relative_to` followed by `str()`. */
  lemma ResolveRelString(base: Path, rel: Path)
    requires ValidPath(base) && ValidPath(rel)
    ensures Resolve(base, RelString(rel)) == base + rel
  {
    if rel == [] {
      assert Split(".", '/') == ["."] by { SplitNoSep(".", '/'); }
      assert "."[..1] == ".";
      assert Normalize(base, ["."]) == Normalize(base, []) == base;
      assert base + rel == base;
    } else {
      SplitJoin(rel, '/');
      assert !StartsWith(RelString(rel), "/") by {
        JoinStartsWithFirst(rel, "/");
        assert ValidSegment(rel[0]);
        assert Join(rel, "/")[0] == rel[0][0];
      }
      NormalizeAppends(base, rel);
    }
  }

  lemma StartsWithCancel(x: string, s: string, t: string)
    ensures StartsWith(x + s, x + t) <==> StartsWith(s, t)
  {
    if StartsWith(s, t) {
      assert (x + s)[..|x + t|] == x + s[..|t|];
    }
    if StartsWith(x + s, x + t) {
      assert s[..|t|] == (x + s)[..|x + t|][|x|..];
    }
  }

  lemma {:induction false} JoinStartsWithFirst(parts: seq<string>, sep: string)
    requires parts != []
    ensures StartsWith(Join(parts, sep), parts[0])
  {
  }
}
