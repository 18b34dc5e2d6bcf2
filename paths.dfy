/** POSIX path arithmetic as the tools use it: `os.path.join`,
    `os.path.abspath` (join with the process cwd, then `normpath`), and the
    confinement test every tool runs first, written as in the source: a raw
    string-prefix comparison of the two absolute paths. */
module Paths {
  import opened Text

  /** A list of path components; the filesystem is keyed by these. */
  type Segments = seq<string>

  /** The process working directory, as `os.getcwd()` returns it: absolute. */
  type Cwd = s: string | |s| > 0 && s[0] == '/' witness "/"

  predicate IsAbs(p: string) {
    |p| > 0 && p[0] == '/'
  }

  /** The separator `os.path.join` puts after `a`: none when `a` is empty or
      already ends with '/'. */
  function Sep(a: string): string {
    if a != "" && a[|a| - 1] != '/' then "/" else ""
  }

  lemma SepConcat(x: string, y: string)
    requires y != ""
    ensures Sep(x + y) == Sep(y)
  {
    assert (x + y)[|x + y| - 1] == y[|y| - 1];
  }

  /** `os.path.join(a, b)`: an absolute right operand discards the left one. */
  function Join(a: string, b: string): (r: string)
    ensures IsAbs(a) || IsAbs(b) ==> IsAbs(r)
    ensures !IsAbs(b) ==> StartsWith(r, a)
  {
    if IsAbs(b) then b else a + Sep(a) + b
  }

  /** `s.split('/')`: the text between consecutive slashes, empty pieces kept. */
  function Split(s: string): (parts: seq<string>)
    ensures |parts| >= 1
    ensures forall k :: 0 <= k < |parts| ==> '/' !in parts[k]
  {
    SplitOn(s, '/')
  }

  lemma SplitConcat(x: string, y: string)
    ensures Split(x + "/" + y) == Split(x) + Split(y)
  {
    assert x + "/" + y == x + ['/'] + y;
    SplitOnConcat(x, y, '/');
  }

  /** One step of `normpath` on a rooted path: empty and "." components are
      skipped, ".." removes the last kept component (and is dropped at the
      root), anything else is kept. */
  function Step(stack: Segments, c: string): Segments {
    if c == "" || c == "." then stack
    else if c == ".." then (if stack == [] then [] else stack[..|stack| - 1])
    else stack + [c]
  }

  /** The components `normpath` keeps, processing `comps` left to right. */
  function Reduce(stack: Segments, comps: seq<string>): Segments
    decreases |comps|
  {
    if comps == [] then stack else Reduce(Step(stack, comps[0]), comps[1..])
  }

  /** A component `normpath` can produce. */
  predicate IsName(c: string) {
    c != "" && c != "." && c != ".." && '/' !in c
  }

  predicate AllNames(segs: Segments) {
    forall k :: 0 <= k < |segs| ==> IsName(segs[k])
  }

  lemma {:induction false} ReduceAppend(stack: Segments, a: seq<string>, b: seq<string>)
    ensures Reduce(stack, a + b) == Reduce(Reduce(stack, a), b)
    decreases |a|
  {
    if a == [] {
      assert a + b == b;
    } else {
      assert (a + b)[1..] == a[1..] + b;
      ReduceAppend(Step(stack, a[0]), a[1..], b);
    }
  }

  /** Without ".." components nothing already kept is ever removed. */
  lemma {:induction false} ReduceExtends(stack: Segments, comps: seq<string>)
    requires forall k :: 0 <= k < |comps| ==> comps[k] != ".."
    ensures stack <= Reduce(stack, comps)
    decreases |comps|
  {
    if comps != [] {
      ReduceExtends(Step(stack, comps[0]), comps[1..]);
    }
  }

  /** Every kept component is a plain name when the components have no slashes. */
  lemma {:induction false} ReduceNames(stack: Segments, comps: seq<string>)
    requires AllNames(stack)
    requires forall k :: 0 <= k < |comps| ==> '/' !in comps[k]
    ensures AllNames(Reduce(stack, comps))
    decreases |comps|
  {
    if comps != [] {
      ReduceNames(Step(stack, comps[0]), comps[1..]);
    }
  }

  /** The slashes `normpath` keeps in front of a rooted path: exactly two
      leading slashes are preserved (a POSIX rule), otherwise one. */
  function Lead(s: string): string {
    if |s| >= 2 && s[0] == '/' && s[1] == '/' && (|s| == 2 || s[2] != '/') then "//" else "/"
  }

  /** The normalised absolute components of `p`, the key of the file the OS
      opens for it. */
  function AbsKey(cwd: Cwd, p: string): (key: Segments)
    ensures AllNames(key)
  {
    var j := Join(cwd, p);
    ReduceNames([], Split(j));
    Reduce([], Split(j))
  }

  /** `os.path.abspath(p)` with the process working directory `cwd`. */
  function AbsPath(cwd: Cwd, p: string): (r: string)
    ensures IsAbs(r)
  {
    Lead(Join(cwd, p)) + JoinWith("/", AbsKey(cwd, p))
  }

  /** The test at the head of every tool:
      `abspath(join(wd, p)).startswith(abspath(wd))`. */
  predicate Confined(cwd: Cwd, wd: string, p: string) {
    StartsWith(AbsPath(cwd, Join(wd, p)), AbsPath(cwd, wd))
  }

  /** True containment by path components, which the string test only
      approximates. */
  predicate SegmentInside(cwd: Cwd, wd: string, p: string) {
    AbsKey(cwd, wd) <= AbsKey(cwd, Join(wd, p))
  }

  predicate NoParentRefs(p: string) {
    forall k :: 0 <= k < |Split(p)| ==> Split(p)[k] != ".."
  }

  lemma {:induction false} JoinWithSnoc(sep: string, c: seq<string>, x: string)
    ensures JoinWith(sep, c + [x]) == if c == [] then x else JoinWith(sep, c) + sep + x
    decreases |c|
  {
    if |c| == 1 {
      assert (c + [x])[1..] == [x];
    } else if |c| > 1 {
      assert (c + [x])[1..] == c[1..] + [x];
      JoinWithSnoc(sep, c[1..], x);
    }
  }

  /** `join` is associative when the last operand is relative. */
  lemma JoinAssoc(a: string, b: string, c: string)
    requires !IsAbs(c)
    ensures Join(a, Join(b, c)) == Join(Join(a, b), c)
  {
    if IsAbs(b) {
      assert Join(b, c) == b + Sep(b) + c;
      assert IsAbs(Join(b, c)) by { assert (b + Sep(b) + c)[0] == b[0]; }
    } else if b == "" {
      assert Join(b, c) == c;
      assert Join(a, b) == a + Sep(a);
      assert Sep(a + Sep(a)) == "";
      assert Join(Join(a, b), c) == a + Sep(a) + c;
    } else {
      JoinAssocRelative(a, b, c);
    }
  }

  lemma JoinAssocRelative(a: string, b: string, c: string)
    requires !IsAbs(b) && b != "" && !IsAbs(c)
    ensures Join(a, Join(b, c)) == Join(Join(a, b), c)
  {
    var bc := b + Sep(b) + c;
    assert !IsAbs(bc) by { assert bc[0] == b[0]; }
    var ab := a + Sep(a) + b;
    SepConcat(a + Sep(a), b);
    assert a + Sep(a) + bc == ab + Sep(b) + c;
  }

  /** Components of `b` joined with a relative `p`: those of `b`, then those
      of `p`, up to one empty component that `normpath` skips anyway. */
  lemma JoinedKey(b: string, p: string)
    requires IsAbs(b) && !IsAbs(p)
    ensures Reduce([], Split(Join(b, p))) == Reduce(Reduce([], Split(b)), Split(p))
  {
    if Sep(b) == "" {
      var b' := b[..|b| - 1];
      assert b == b' + "/" + "";
      assert Join(b, p) == b' + "/" + p;
      SplitConcat(b', "");
      SplitConcat(b', p);
      assert Split("") == [""];
      ReduceAppend([], Split(b'), [""]);
      ReduceAppend([], Split(b'), Split(p));
    } else {
      assert Join(b, p) == b + "/" + p;
      SplitConcat(b, p);
      ReduceAppend([], Split(b), Split(p));
    }
  }

  /** Appending a relative path keeps the leading slashes `normpath` preserves. */
  lemma JoinedLead(b: string, p: string)
    requires IsAbs(b) && !IsAbs(p)
    ensures Lead(Join(b, p)) == Lead(b)
  {
    var j := Join(b, p);
    assert j[..|b|] == b;
    if |b| >= 3 {
      assert j[0] == b[0] && j[1] == b[1] && j[2] == b[2];
    } else if |b| == 2 && b[1] != '/' {
      assert j[1] == b[1];
    } else if |b| == 2 {
      assert j == b + p;
    } else {
      assert j == b + p;
    }
  }

  /** A relative path that lies inside the working directory by components
      passes the string test: the check never rejects such a path, whatever
      ".." components it takes on the way. */
  lemma InsideIsConfined(cwd: Cwd, wd: string, p: string)
    requires !IsAbs(p) && SegmentInside(cwd, wd, p)
    ensures Confined(cwd, wd, p)
  {
    var b := Join(cwd, wd);
    JoinAssoc(cwd, wd, p);
    JoinedLead(b, p);
    var rootKey := AbsKey(cwd, wd);
    var key := AbsKey(cwd, Join(wd, p));
    assert key == rootKey + key[|rootKey|..];
    JoinWithPrefix("/", rootKey, key[|rootKey|..]);
  }

  /** A relative path without ".." components stays inside by components,
      and therefore passes the check. */
  lemma NoParentRefsInside(cwd: Cwd, wd: string, p: string)
    requires !IsAbs(p) && NoParentRefs(p)
    ensures SegmentInside(cwd, wd, p)
    ensures Confined(cwd, wd, p)
  {
    var b := Join(cwd, wd);
    JoinAssoc(cwd, wd, p);
    JoinedKey(b, p);
    ReduceExtends(Reduce([], Split(b)), Split(p));
    InsideIsConfined(cwd, wd, p);
  }

  /** The default argument "." names the working directory itself. */
  lemma DotIsRoot(cwd: Cwd, wd: string)
    ensures AbsKey(cwd, Join(wd, ".")) == AbsKey(cwd, wd)
    ensures AbsPath(cwd, Join(wd, ".")) == AbsPath(cwd, wd)
    ensures Confined(cwd, wd, ".")
  {
    var b := Join(cwd, wd);
    JoinAssoc(cwd, wd, ".");
    JoinedKey(b, ".");
    JoinedLead(b, ".");
    SplitName(".");
  }

  /** A slash-free string splits into itself. */
  lemma SplitName(s: string)
    requires '/' !in s
    ensures Split(s) == [s]
  {
    SplitOnNone(s, '/');
  }

  /** The key and leading slashes of a root written "./r". */
  lemma DotSlashKey(cwd: Cwd, r: string)
    requires IsName(r)
    ensures AbsKey(cwd, "./" + r) == Reduce([], Split(cwd)) + [r]
    ensures Lead(Join(cwd, "./" + r)) == Lead(cwd)
  {
    var wd := "./" + r;
    var c := Reduce([], Split(cwd));
    SplitName("."); SplitName(r);
    assert wd == "." + "/" + r;
    SplitConcat(".", r);
    calc {
      AbsKey(cwd, wd);
      == { JoinedKey(cwd, wd); }
      Reduce(c, [".", r]);
      == { assert [".", r][1..] == [r]; }
      Reduce(c, [r]);
      == { assert [r][1..] == []; }
      c + [r];
    }
    JoinedLead(cwd, wd);
  }

  /** The key and leading slashes of a sibling "../e" reached from "./r". */
  lemma SiblingKey(cwd: Cwd, r: string, e: string)
    requires IsName(r) && IsName(e)
    ensures AbsKey(cwd, Join("./" + r, "../" + e)) == Reduce([], Split(cwd)) + [e]
    ensures Lead(Join(cwd, Join("./" + r, "../" + e))) == Lead(cwd)
  {
    var wd, p := "./" + r, "../" + e;
    var c := Reduce([], Split(cwd));
    DotSlashKey(cwd, r);
    var rootKey := c + [r];
    SplitName(".."); SplitName(e);
    assert p == ".." + "/" + e;
    SplitConcat("..", e);
    var b := Join(cwd, wd);
    JoinAssoc(cwd, wd, p);
    calc {
      AbsKey(cwd, Join(wd, p));
      Reduce([], Split(Join(b, p)));
      == { JoinedKey(b, p); }
      Reduce(rootKey, ["..", e]);
      == { assert ["..", e][1..] == [e]; assert rootKey[..|rootKey| - 1] == c; }
      Reduce(c, [e]);
      == { assert [e][1..] == []; }
      c + [e];
    }
    JoinedLead(b, p);
  }

  /** The string test is weaker than containment: from a root "./r", the
      sibling directory "../e" passes it whenever the name r is a prefix of
      the name e, although e lies outside r. */
  lemma SiblingPrefixEscapes(cwd: Cwd, r: string, e: string)
    requires IsName(r) && IsName(e) && StartsWith(e, r) && e != r
    ensures Confined(cwd, "./" + r, "../" + e)
    ensures !SegmentInside(cwd, "./" + r, "../" + e)
  {
    SiblingConfined(cwd, r, e);
    DotSlashKey(cwd, r);
    SiblingKey(cwd, r, e);
    var c := Reduce([], Split(cwd));
    assert (c + [r])[|c|] != (c + [e])[|c|];
  }

  /** The absolute form of `cwd` followed by a slash: what comes before the
      last component of a path one level below it. */
  function ChildBase(cwd: Cwd): string {
    var c := Reduce([], Split(cwd));
    Lead(cwd) + (if c == [] then "" else JoinWith("/", c) + "/")
  }

  lemma RootAbsPath(cwd: Cwd, r: string)
    requires IsName(r)
    ensures AbsPath(cwd, "./" + r) == ChildBase(cwd) + r
  {
    DotSlashKey(cwd, r);
    JoinWithSnoc("/", Reduce([], Split(cwd)), r);
  }

  lemma SiblingAbsPath(cwd: Cwd, r: string, e: string)
    requires IsName(r) && IsName(e)
    ensures AbsPath(cwd, Join("./" + r, "../" + e)) == ChildBase(cwd) + e
  {
    SiblingKey(cwd, r, e);
    JoinWithSnoc("/", Reduce([], Split(cwd)), e);
  }

  lemma SiblingConfined(cwd: Cwd, r: string, e: string)
    requires IsName(r) && IsName(e) && StartsWith(e, r)
    ensures Confined(cwd, "./" + r, "../" + e)
  {
    RootAbsPath(cwd, r);
    SiblingAbsPath(cwd, r, e);
    var base := ChildBase(cwd);
    assert (base + e)[..|base| + |r|] == base + e[..|r|];
  }

  /** The instance of the working directory the dispatcher injects: with
      root "./calculator" the path "../calculator_evil" is accepted, for
      every process cwd. */
  lemma CalculatorEvilEscapes(cwd: Cwd, wd: string, p: string)
    requires wd == "./calculator" && p == "../calculator_evil"
    ensures Confined(cwd, wd, p) && !SegmentInside(cwd, wd, p)
  {
    var r, e := "calculator", "calculator_evil";
    assert e[..|r|] == r;
    assert wd == "./" + r && p == "../" + e;
    SiblingPrefixEscapes(cwd, r, e);
  }
}
