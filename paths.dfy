/** Absolute filesystem paths as the launcher builds them with `path.resolve`
    and `path.join`: a path is the sequence of names below the root, and
    normalisation drops empty and "." names and lets ".." climb one level
    (never above the root). */
module Paths {

  /** One name between two separators. */
  type Segment = string

  /** An absolute path: the segments below the root, outermost first. */
  type Path = seq<Segment>

  /** A name that normalisation keeps as it is. */
  predicate Plain(s: Segment) {
    s != "" && s != "." && s != ".."
  }

  /** A normalised path: every segment is a plain name. */
  predicate Canonical(p: Path) {
    forall i | 0 <= i < |p| :: Plain(p[i])
  }

  /** The directory above `p`; the root is its own parent. */
  function Parent(p: Path): (r: Path)
    ensures Canonical(p) ==> Canonical(r)
    ensures p != [] ==> r + [p[|p| - 1]] == p
  {
    if p == [] then [] else p[..|p| - 1]
  }

  /** Applies one segment to an already normalised prefix. */
  function Enter(acc: Path, s: Segment): (r: Path)
    ensures Canonical(acc) ==> Canonical(r)
  {
    if s == "" || s == "." then acc
    else if s == ".." then Parent(acc)
    else acc + [s]
  }

  /** Normalises `rest` on top of the prefix `acc`, left to right. */
  function NormalizeOnto(acc: Path, rest: seq<Segment>): (r: Path)
    ensures Canonical(acc) ==> Canonical(r)
    ensures |r| <= |acc| + |rest|
    decreases |rest|
  {
    if rest == [] then acc else NormalizeOnto(Enter(acc, rest[0]), rest[1..])
  }

  function Normalize(p: seq<Segment>): (r: Path)
    ensures Canonical(r)
    ensures |r| <= |p|
  {
    NormalizeOnto([], p)
  }

  /** `path.resolve(base, ...rel)` and `path.join(base, ...rel)` for an
      absolute `base` whose further arguments are single names. */
  function Resolve(base: Path, rel: seq<Segment>): (r: Path)
    ensures Canonical(r)
  {
    Normalize(base + rel)
  }

  /** The POSIX text of a path: "/" for the root, "/a/b" otherwise. */
  function Render(p: Path): (r: string)
    ensures |r| >= 1 && r[0] == '/'
    decreases |p|
  {
    if p == [] then "/"
    else if |p| == 1 then "/" + p[0]
    else Render(p[..|p| - 1]) + "/" + p[|p| - 1]
  }

  /** No name of `p` holds the separator. */
  predicate SlashFree(p: Path) {
    forall i | 0 <= i < |p| :: '/' !in p[i]
  }

  /** The index of the last `/` in `s`, or -1 when there is none. */
  function LastSlash(s: string): (k: int)
    ensures -1 <= k < |s|
    ensures k >= 0 ==> s[k] == '/'
    ensures forall j | k < j < |s| :: s[j] != '/'
    decreases |s|
  {
    if s == [] then -1
    else if s[|s| - 1] == '/' then |s| - 1
    else LastSlash(s[..|s| - 1])
  }

  /** Reads the names back out of the text of an absolute path. */
  function Split(s: string): (p: Path)
    decreases |s|
  {
    if s == "" || s == "/" then []
    else
      var k := LastSlash(s);
      if k < 0 then [s] else Split(s[..k]) + [s[k + 1..]]
  }

  /** In `r + "/" + t`, with no separator in the non-empty `t`, the last
      separator is the one just before `t`, so splitting ends with `t`. */
  lemma SplitLast(r: string, t: string)
    requires t != "" && '/' !in t
    ensures Split(r + "/" + t) == Split(r) + [t]
  {
    var s := r + "/" + t;
    forall j | |r| < j < |s| ensures s[j] != '/' {
      assert s[j] == t[j - |r| - 1];
    }
    assert s[|r|] == '/';
    assert LastSlash(s) == |r|;
    assert s[..|r|] == r && s[|r| + 1..] == t;
  }

  /** A one-name path gives its name back. */
  lemma SplitRenderOne(name: Segment)
    requires name != "" && '/' !in name
    ensures Split(Render([name])) == [name]
  {
    SplitLast("", name);
    assert "" + "/" + name == Render([name]);
  }

  /** The text of a normalised path whose names hold no separator gives
      that path back. */
  lemma {:induction false} SplitRender(p: Path)
    requires Canonical(p) && SlashFree(p)
    ensures Split(Render(p)) == p
    decreases |p|
  {
    if p != [] {
      var init, last := p[..|p| - 1], p[|p| - 1];
      assert Plain(last) && '/' !in last;
      if |p| == 1 {
        SplitRenderOne(last);
        assert p == [last];
      } else {
        assert Canonical(init) && SlashFree(init);
        SplitRender(init);
        SplitLast(Render(init), last);
      }
      assert p == init + [last];
    }
  }

  /** Normalising in two pieces is normalising the whole. */
  lemma {:induction false} NormalizeOntoAppend(acc: Path, a: seq<Segment>, b: seq<Segment>)
    ensures NormalizeOnto(acc, a + b) == NormalizeOnto(NormalizeOnto(acc, a), b)
    decreases |a|
  {
    if a == [] {
      assert a + b == b;
    } else {
      assert (a + b)[0] == a[0];
      assert (a + b)[1..] == a[1..] + b;
      NormalizeOntoAppend(Enter(acc, a[0]), a[1..], b);
    }
  }

  /** Plain names are appended unchanged. */
  lemma {:induction false} NormalizeOntoPlain(acc: Path, a: seq<Segment>)
    requires Canonical(a)
    ensures NormalizeOnto(acc, a) == acc + a
    decreases |a|
  {
    if a != [] {
      NormalizeOntoPlain(acc + [a[0]], a[1..]);
      assert acc + [a[0]] + a[1..] == acc + a;
    }
  }

  /** A normalised path is a fixed point of normalisation. */
  lemma NormalizeCanonical(p: Path)
    requires Canonical(p)
    ensures Normalize(p) == p
  {
    NormalizeOntoPlain([], p);
  }

  /** Normalisation is idempotent. */
  lemma NormalizeIdempotent(p: seq<Segment>)
    ensures Normalize(Normalize(p)) == Normalize(p)
  {
    NormalizeCanonical(Normalize(p));
  }

  /** Resolving "..", then plain names, against `base` lands in the parent
      of the normalised base, followed by those names. */
  lemma ResolveUpThen(base: Path, names: seq<Segment>)
    requires Canonical(names)
    ensures Resolve(base, [".."] + names) == Parent(Normalize(base)) + names
  {
    NormalizeOntoAppend([], base, [".."] + names);
    assert ([".."] + names)[0] == "..";
    assert ([".."] + names)[1..] == names;
    NormalizeOntoPlain(Parent(Normalize(base)), names);
  }
}
