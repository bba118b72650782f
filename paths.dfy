/**
 * The abstract filesystem that the install handler relocates files in.
 *
 * A path is the list of its components ("/erp/erp/conf" is ["erp", "erp", "conf"]), the root
 * "/" is the empty list, and a filesystem is the set of paths that exist. Files and directories
 * are not told apart: an existing destination of a move is taken to be a directory.
 */
module Paths {
  import opened Results

  type Path = seq<string>

  /** The root always exists; any other path exists when it is in the set. */
  predicate Exists(fs: set<Path>, p: Path) {
    p == [] || p in fs
  }

  /** `a` is `b` or one of its ancestors. */
  predicate IsPrefix(a: Path, b: Path) {
    |a| <= |b| && b[..|a|] == a
  }

  function Parent(p: Path): Path {
    if p == [] then [] else p[..|p| - 1]
  }

  function Basename(p: Path): string {
    if p == [] then "" else p[|p| - 1]
  }

  /** A filesystem is a tree: the parent of every entry exists. */
  predicate Tree(fs: set<Path>) {
    forall p | p in fs :: Exists(fs, Parent(p))
  }

  /** The errors the filesystem calls raise (FileNotFoundError, FileExistsError, shutil.Error). */
  datatype FsError = NotFound(path: Path) | AlreadyExists(path: Path) | IntoItself(path: Path)

  /** Where `shutil.move(src, dst)` puts `src`: inside `dst` when `dst` is an existing directory. */
  function MoveTarget(fs: set<Path>, src: Path, dst: Path): Path {
    if Exists(fs, dst) then dst + [Basename(src)] else dst
  }

  /** The tree rooted at `src` re-rooted at `target`; everything else stays. */
  function Relocate(fs: set<Path>, src: Path, target: Path): set<Path> {
    (set p | p in fs && !IsPrefix(src, p)) + (set p | p in fs && IsPrefix(src, p) :: target + p[|src|..])
  }

  lemma AppendIsUnder(a: Path, q: Path)
    ensures IsPrefix(a, a + q)
  {
    assert (a + q)[..|a|] == a;
  }

  /** Paths that start with different components are not under one another. */
  lemma DifferentFirst(a: Path, b: Path)
    requires a != [] && b != [] && a[0] != b[0]
    ensures !IsPrefix(a, b) && !IsPrefix(b, a)
  {
    assert |a| <= |b| ==> b[..|a|][0] == b[0];
    assert |b| <= |a| ==> a[..|b|][0] == a[0];
  }

  /** Two different entries of one directory are not under one another. */
  lemma SiblingsApart(dir: Path, a: string, b: string)
    requires a != b
    ensures !IsPrefix(dir + [a], dir + [b])
  {
    assert (dir + [b])[..|dir + [a]|] == dir + [b];
    assert (dir + [b])[|dir|] == b && (dir + [a])[|dir|] == a;
  }

  /**
   * `shutil.move(src, dst)` on the abstract filesystem: it succeeds exactly when the source
   * exists, the target does not, the target is not inside the source and the target's parent
   * exists; the source's tree is then re-rooted at the target.
   */
  function Move(fs: set<Path>, src: Path, dst: Path): (r: Result<set<Path>, FsError>)
    ensures var target := MoveTarget(fs, src, dst);
      r.Ok? <==> Exists(fs, src) && !Exists(fs, target) && !IsPrefix(src, target) && Exists(fs, Parent(target))
    ensures Exists(fs, MoveTarget(fs, src, dst)) ==> r == Err(AlreadyExists(MoveTarget(fs, src, dst)))
    ensures !Exists(fs, MoveTarget(fs, src, dst)) && !Exists(fs, src) ==> r == Err(NotFound(src))
  {
    var target := MoveTarget(fs, src, dst);
    if Exists(fs, target) then Err(AlreadyExists(target))
    else if !Exists(fs, src) then Err(NotFound(src))
    else if IsPrefix(src, target) then Err(IntoItself(src))
    else if !Exists(fs, Parent(target)) then Err(NotFound(Parent(target)))
    else Ok(Relocate(fs, src, target))
  }

  /**
   * What a successful move leaves: the target exists, everything outside the source's tree
   * stays, every path below the source reappears at the same place below the target, and every
   * path is either a kept one or inside the target.
   */
  lemma MoveFrame(fs: set<Path>, src: Path, dst: Path)
    requires Move(fs, src, dst).Ok?
    ensures var target := MoveTarget(fs, src, dst);
      var moved := Move(fs, src, dst).value;
      && target in moved
      && (forall p | p in fs && !IsPrefix(src, p) :: p in moved)
      && (forall q | q in fs && IsPrefix(src, q) :: target + q[|src|..] in moved)
      && (forall p | p in moved :: (p in fs && !IsPrefix(src, p)) || IsPrefix(target, p))
  {
    var target := MoveTarget(fs, src, dst);
    var moved := Relocate(fs, src, target);
    assert target + src[|src|..] == target;
    assert target in moved by {
      assert src != [] ==> src in fs;
      assert IsPrefix(src, src);
    }
    forall p | p in fs && IsPrefix(src, p) ensures IsPrefix(target, target + p[|src|..]) {
      AppendIsUnder(target, p[|src|..]);
    }
  }

  /**
   * Nothing else appears: every path after a successful move is a kept path or the image of a
   * path below the source.
   */
  lemma MoveExact(fs: set<Path>, src: Path, dst: Path)
    requires Move(fs, src, dst).Ok?
    ensures var target := MoveTarget(fs, src, dst);
      forall p | p in Move(fs, src, dst).value ::
        || (p in fs && !IsPrefix(src, p))
        || (exists q | q in fs && IsPrefix(src, q) :: p == target + q[|src|..])
  {
  }

  /** `os.mkdir(p)` on the abstract filesystem. */
  function MakeDir(fs: set<Path>, p: Path): (r: Result<set<Path>, FsError>)
    ensures r.Ok? <==> !Exists(fs, p) && Exists(fs, Parent(p))
    ensures Exists(fs, p) ==> r == Err(AlreadyExists(p))
    ensures r.Ok? ==> r.value == fs + {p}
    ensures Tree(fs) && r.Ok? ==> Tree(r.value)
  {
    if Exists(fs, p) then Err(AlreadyExists(p))
    else if !Exists(fs, Parent(p)) then Err(NotFound(Parent(p)))
    else Ok(fs + {p})
  }

  /** Every ancestor of an entry of a tree exists. */
  lemma {:induction false} AncestorsExist(fs: set<Path>, p: Path, k: nat)
    requires Tree(fs) && p in fs && k <= |p|
    ensures Exists(fs, p[..k])
    decreases |p| - k
  {
    if k < |p| {
      if k == |p| - 1 {
        assert p[..k] == Parent(p);
      } else {
        var q := p[..|p| - 1];
        assert Parent(p) == q;
        assert q != [] && q in fs;
        AncestorsExist(fs, q, k);
        assert q[..k] == p[..k];
      }
    } else {
      assert p[..k] == p;
    }
  }

  /** On a tree, a successful move leaves nothing at or below the source. */
  lemma MoveRemovesSource(fs: set<Path>, src: Path, dst: Path)
    requires Tree(fs) && Move(fs, src, dst).Ok?
    ensures forall p | p in Move(fs, src, dst).value :: !IsPrefix(src, p)
  {
    var target := MoveTarget(fs, src, dst);
    MoveFrame(fs, src, dst);
    forall p | p in Move(fs, src, dst).value ensures !IsPrefix(src, p) {
      if !(p in fs && !IsPrefix(src, p)) {
        assert IsPrefix(target, p);
        if IsPrefix(src, p) && |src| > |target| {
          // the target would then be an ancestor of the source, which exists on a tree
          assert src[..|target|] == p[..|target|] == target;
          assert src != [] && src in fs;
          AncestorsExist(fs, src, |target|);
        }
      }
    }
  }

  /** Re-rooting a subtree at a target whose parent exists keeps a tree a tree. */
  lemma RelocateKeepsTree(fs: set<Path>, src: Path, target: Path)
    requires Tree(fs) && src != [] && !IsPrefix(src, target) && Exists(fs, Parent(target))
    ensures Tree(Relocate(fs, src, target))
  {
    var moved := Relocate(fs, src, target);
    forall p | p in moved ensures Exists(moved, Parent(p)) {
      if p in fs && !IsPrefix(src, p) {
        KeptParent(fs, src, target, p);
      } else {
        var q :| q in fs && IsPrefix(src, q) && p == target + q[|src|..];
        MovedParent(fs, src, target, q);
      }
    }
  }

  lemma KeptParent(fs: set<Path>, src: Path, target: Path, p: Path)
    requires Tree(fs) && p in fs && !IsPrefix(src, p)
    ensures Exists(Relocate(fs, src, target), Parent(p))
  {
    var up := Parent(p);
    if up != [] {
      assert up in fs;
      assert up in Relocate(fs, src, target);
    }
  }

  lemma MovedParent(fs: set<Path>, src: Path, target: Path, q: Path)
    requires Tree(fs) && src != [] && !IsPrefix(src, target) && Exists(fs, Parent(target))
    requires q in fs && IsPrefix(src, q)
    ensures Exists(Relocate(fs, src, target), Parent(target + q[|src|..]))
  {
    var moved := Relocate(fs, src, target);
    if q == src {
      assert target + q[|src|..] == target;
      var up := Parent(target);
      if up != [] {
        assert up in fs;
        assert up in moved;
      }
    } else {
      var rest := q[|src|..];
      assert |q| > |src|;
      var up := q[..|q| - 1];
      assert Parent(q) == up;
      assert up != [] && up in fs;
      assert IsPrefix(src, up) by {
        assert up[..|src|] == q[..|src|];
      }
      assert up[|src|..] == rest[..|rest| - 1];
      assert Parent(target + rest) == target + rest[..|rest| - 1] by {
        assert (target + rest)[..|target + rest| - 1] == target + rest[..|rest| - 1];
      }
      assert target + up[|src|..] in moved;
    }
  }

  /** A successful move keeps the filesystem a tree. */
  lemma MoveKeepsTree(fs: set<Path>, src: Path, dst: Path)
    requires Tree(fs) && Move(fs, src, dst).Ok?
    ensures Tree(Move(fs, src, dst).value)
  {
    RelocateKeepsTree(fs, src, MoveTarget(fs, src, dst));
  }
}
