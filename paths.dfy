/**
 * Absolute POSIX paths as sequences of segments from the filesystem root, and
 * Node's `path.join(base, rel)` for an absolute, already normalised `base`.
 */
module Paths {

  /** `["home", "me", "app"]` stands for `/home/me/app`; `[]` is `/`. */
  type Path = seq<string>

  /** A segment `path.normalize` leaves alone: not empty, not `.` or `..`, no separator. */
  predicate IsPlainSegment(seg: string) {
    seg != "" && seg != "." && seg != ".." && '/' !in seg
  }

  predicate IsNormal(p: Path) {
    forall k | 0 <= k < |p| :: IsPlainSegment(p[k])
  }

  function Parent(p: Path): Path
    requires |p| > 0
  {
    p[..|p| - 1]
  }

  /** The path itself and every directory above it, up to the root. */
  function Ancestors(p: Path): (r: set<Path>)
    ensures p in r && [] in r
    ensures forall a | a in r :: |a| <= |p|
  {
    assert p[..0] == [] && p[..|p|] == p;
    set i | 0 <= i <= |p| :: p[..i]
  }

  /** Ancestors of a longer path: those of the shorter one, and the steps that lead down from it. */
  lemma AncestorsOfExtension(p: Path, q: Path)
    ensures Ancestors(p + q) == Ancestors(p) + (set k | 1 <= k <= |q| :: p + q[..k])
  {
    forall a | a in Ancestors(p + q)
      ensures a in Ancestors(p) + (set k | 1 <= k <= |q| :: p + q[..k])
    {
      var i :| 0 <= i <= |p + q| && a == (p + q)[..i];
      if i <= |p| {
        assert a == p[..i];
      } else {
        assert a == p + q[..i - |p|];
      }
    }
    forall a | a in Ancestors(p) + (set k | 1 <= k <= |q| :: p + q[..k])
      ensures a in Ancestors(p + q)
    {
      if a in Ancestors(p) {
        var i :| 0 <= i <= |p| && a == p[..i];
        assert a == (p + q)[..i];
      } else {
        var k :| 1 <= k <= |q| && a == p + q[..k];
        assert a == (p + q)[..|p| + k];
      }
    }
  }

  lemma ParentOfChild(p: Path, name: string)
    ensures Parent(p + [name]) == p
  {
  }

  /** One level down: the parent is the directory one came from, and one new ancestor appears. */
  lemma AncestorsOfChild(p: Path, name: string)
    ensures Parent(p + [name]) == p
    ensures Ancestors(p + [name]) == Ancestors(p) + {p + [name]}
  {
    AncestorsOfExtension(p, [name]);
    assert [name][..1] == [name];
    assert (set k | 1 <= k <= 1 :: p + [name][..k]) == {p + [name]};
  }

  /** Two entries of one directory are the same path exactly when they have the same name. */
  lemma ChildrenInjective(dir: Path, a: string, b: string)
    ensures dir + [a] == dir + [b] <==> a == b
  {
    if dir + [a] == dir + [b] {
      assert (dir + [a])[|dir|] == a;
    }
  }

  /** `rel.split('/')`: the pieces between separators, so there is always at least one. */
  function Split(rel: string): (r: seq<string>)
    ensures |r| >= 1
    ensures forall k | 0 <= k < |r| :: '/' !in r[k]
  {
    if rel == [] then [""]
    else
      var rest := Split(rel[1..]);
      if rel[0] == '/' then [""] + rest
      else [[rel[0]] + rest[0]] + rest[1..]
  }

  /** A string without separators is a single piece. */
  lemma {:induction false} SplitWithoutSeparator(rel: string)
    requires '/' !in rel
    ensures Split(rel) == [rel]
  {
    if rel != [] {
      assert '/' !in rel[1..] by {
        forall k | 0 <= k < |rel| - 1 ensures rel[1..][k] != '/' {
          assert rel[1..][k] == rel[k + 1];
        }
      }
      SplitWithoutSeparator(rel[1..]);
      assert [rel[0]] + rel[1..] == rel;
    }
  }

  /**
   * Appends the pieces of a relative path one at a time, as `path.normalize` resolves them:
   * empty pieces and `.` are dropped, `..` climbs one directory but never above the root.
   */
  function Normalize(base: Path, pieces: seq<string>): (r: Path)
    requires forall k | 0 <= k < |pieces| :: '/' !in pieces[k]
    ensures IsNormal(base) ==> IsNormal(r)
    ensures |r| <= |base| + |pieces|
    decreases |pieces|
  {
    if pieces == [] then base
    else
      var piece := pieces[0];
      var next :=
        if piece == "" || piece == "." then base
        else if piece == ".." then (if base == [] then base else Parent(base))
        else base + [piece];
      Normalize(next, pieces[1..])
  }

  /** `path.join(base, rel)` for an absolute `base`. */
  function Join(base: Path, rel: string): (r: Path)
    ensures IsNormal(base) ==> IsNormal(r)
  {
    Normalize(base, Split(rel))
  }

  /** Joining the empty string is the base directory itself. */
  lemma JoinEmpty(base: Path)
    ensures Join(base, "") == base
  {
    assert Split("") == [""];
    assert [""][1..] == [];
  }

  /** Joining a plain name adds exactly one segment. */
  lemma JoinPlainName(base: Path, name: string)
    requires IsPlainSegment(name)
    ensures Join(base, name) == base + [name]
  {
    SplitWithoutSeparator(name);
    assert Normalize(base + [name], []) == base + [name];
    assert Normalize(base, [name]) == Normalize(base + [name], [name][1..]);
  }

  /** A separator ends the first piece. */
  lemma {:induction false} SplitAtSeparator(first: string, rest: string)
    requires '/' !in first
    ensures Split(first + "/" + rest) == [first] + Split(rest)
  {
    if first == [] {
      assert first + "/" + rest == "/" + rest;
      assert ("/" + rest)[1..] == rest;
    } else {
      assert '/' !in first[1..] by {
        forall k | 0 <= k < |first| - 1 ensures first[1..][k] != '/' {
          assert first[1..][k] == first[k + 1];
        }
      }
      SplitAtSeparator(first[1..], rest);
      assert (first + "/" + rest)[1..] == first[1..] + "/" + rest;
      assert [first[0]] + first[1..] == first;
    }
  }

  /** Joining `dir/name` for two plain segments goes down two levels. */
  lemma JoinNested(base: Path, dir: string, name: string)
    requires IsPlainSegment(dir) && IsPlainSegment(name)
    ensures Join(base, dir + "/" + name) == base + [dir, name]
  {
    SplitAtSeparator(dir, name);
    SplitWithoutSeparator(name);
    var pieces := [dir, name];
    assert Normalize(base + [dir, name], []) == base + [dir, name];
    assert Normalize(base + [dir], [name]) == Normalize(base + [dir] + [name], []);
    assert Normalize(base, pieces) == Normalize(base + [dir], pieces[1..]);
    assert base + [dir] + [name] == base + [dir, name];
  }

  /** Joining `dir/sub/name` for three plain segments goes down three levels. */
  lemma JoinNested3(base: Path, dir: string, sub: string, name: string)
    requires IsPlainSegment(dir) && IsPlainSegment(sub) && IsPlainSegment(name)
    ensures Join(base, dir + "/" + sub + "/" + name) == base + [dir, sub, name]
  {
    assert dir + "/" + sub + "/" + name == dir + "/" + (sub + "/" + name);
    SplitAtSeparator(dir, sub + "/" + name);
    JoinNested(base + [dir], sub, name);
    var pieces := [dir] + Split(sub + "/" + name);
    assert Normalize(base, pieces) == Normalize(base + [dir], pieces[1..]);
    assert pieces[1..] == Split(sub + "/" + name);
    assert base + [dir] + [sub, name] == base + [dir, sub, name];
  }

  /** Plain segments written with separators between them, as in `'src/routes'`. */
  function Slashed(segs: seq<string>): (rel: string)
    requires |segs| > 0
  {
    if |segs| == 1 then segs[0] else segs[0] + "/" + Slashed(segs[1..])
  }

  /** Joining plain segments written with separators goes down one level per segment. */
  lemma {:induction false} JoinSlashed(base: Path, segs: seq<string>)
    requires |segs| > 0 && IsNormal(segs)
    ensures Join(base, Slashed(segs)) == base + segs
    decreases |segs|
  {
    if |segs| == 1 {
      JoinPlainName(base, segs[0]);
      assert [segs[0]] == segs;
    } else {
      var rest := segs[1..];
      assert IsNormal(rest) by {
        forall k | 0 <= k < |rest| ensures IsPlainSegment(rest[k]) {
          assert rest[k] == segs[k + 1];
        }
      }
      SplitAtSeparator(segs[0], Slashed(rest));
      JoinSlashed(base + [segs[0]], rest);
      var pieces := [segs[0]] + Split(Slashed(rest));
      assert Normalize(base, pieces) == Normalize(base + [segs[0]], pieces[1..]);
      assert pieces[1..] == Split(Slashed(rest));
      assert base + [segs[0]] + rest == base + segs;
    }
  }
}
