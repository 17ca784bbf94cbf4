/**
 * The part of Node's `fs` module the scaffolders call: `existsSync`, `mkdirSync` with
 * `{ recursive: true }` and `writeFileSync`. The failures modelled are those the shape of
 * the tree decides (ENOENT, ENOTDIR, EEXIST, EISDIR); a failing call throws, and here it
 * returns `false` and changes nothing.
 */
module NodeFs {
  import opened Paths
  import opened Artifacts

  /** Writing one more file after a batch of writes extends the batch. */
  lemma WriteAfterBatch(before: map<Path, Content>, batch: map<Path, Content>, p: Path, content: Content)
    ensures (before + batch)[p := content] == before + batch[p := content]
  {
  }

  /** `small` is part of `big`: each of its paths is in `big`, with the same content. */
  predicate SubMap(small: map<Path, Content>, big: map<Path, Content>) {
    forall p | p in small :: p in big && small[p] == big[p]
  }

  /**
   * `after` is `before` with some of the writes of `batch` done: no file is gone, and every
   * path holds either its old content or its content in `batch`.
   */
  predicate PartlyWritten(before: map<Path, Content>, after: map<Path, Content>, batch: map<Path, Content>) {
    && before.Keys <= after.Keys
    && forall p | p in after :: (p in before && after[p] == before[p]) || (p in batch && after[p] == batch[p])
  }

  /** Writing part of a batch leaves the disk partly written with it. */
  lemma PartOfBatch(before: map<Path, Content>, written: map<Path, Content>, batch: map<Path, Content>)
    requires SubMap(written, batch)
    ensures PartlyWritten(before, before + written, batch)
  {
  }

  /** Two batches written one after the other, on different paths, are one batch. */
  lemma PartlyWrittenChain(before: map<Path, Content>, middle: map<Path, Content>, after: map<Path, Content>,
                           first: map<Path, Content>, second: map<Path, Content>)
    requires PartlyWritten(before, middle, first) && PartlyWritten(middle, after, second)
    requires first.Keys !! second.Keys
    ensures PartlyWritten(before, after, first + second)
  {
  }

  /** A batch that was partly written is part of any larger batch on other paths. */
  lemma PartlyWrittenWiden(before: map<Path, Content>, after: map<Path, Content>,
                           batch: map<Path, Content>, more: map<Path, Content>)
    requires PartlyWritten(before, after, batch) && batch.Keys !! more.Keys
    ensures PartlyWritten(before, after, batch + more)
  {
  }

  /** No entry on the way down to `p`, `p` included, is one of `files`. */
  predicate NoFileAlong(files: map<Path, Content>, p: Path) {
    forall i | 0 <= i <= |p| :: p[..i] !in files
  }

  class FileSystem {
    var dirs: set<Path>
    var files: map<Path, Content>

    /** A tree: the root is a directory, directories are closed under taking ancestors,
        every file sits in a directory, and nothing is both a file and a directory. */
    ghost predicate Valid()
      reads this
    {
      && [] in dirs
      && (forall d, i | d in dirs && 0 <= i <= |d| :: d[..i] in dirs)
      && (forall f | f in files :: |f| > 0 && Parent(f) in dirs)
      && (forall d | d in dirs :: d !in files)
    }

    /** An empty disk: only the root directory. */
    constructor ()
      ensures Valid() && dirs == {[]} && files == map[]
    {
      dirs := {[]};
      files := map[];
    }

    /** `fs.existsSync(p)`: true for a directory and for a file alike. */
    predicate Exists(p: Path)
      reads this
      ensures Valid() ==> (Exists(p) <==> (p in dirs) != (p in files))
    {
      p in dirs || p in files
    }

    predicate NoFileOnPath(p: Path)
      reads this
    {
      NoFileAlong(files, p)
    }

    /** In a valid tree, a path whose parent is a directory and which is not itself a file has no file above it. */
    lemma NoFileBelowDirectory(p: Path)
      requires Valid() && |p| > 0 && Parent(p) in dirs && p !in files
      ensures NoFileOnPath(p)
    {
      forall i | 0 <= i <= |p| ensures p[..i] !in files {
        if i < |p| {
          assert p[..i] == Parent(p)[..i];
        } else {
          assert p[..i] == p;
        }
      }
    }

    /**
     * `fs.mkdirSync(p, { recursive: true })`: creates `p` and every missing directory above it;
     * an existing directory is not an error; a file anywhere on the way (ENOTDIR, EEXIST) is.
     */
    method MakeDirectory(p: Path) returns (ok: bool)
      requires Valid()
      modifies this
      ensures Valid()
      ensures ok == old(NoFileOnPath(p))
      ensures files == old(files)
      ensures dirs == if ok then old(dirs) + Ancestors(p) else old(dirs)
    {
      ok := forall i | 0 <= i <= |p| :: p[..i] !in files;
      if ok {
        forall a, i | a in Ancestors(p) && 0 <= i <= |a| ensures a[..i] in Ancestors(p) {
          var j :| 0 <= j <= |p| && a == p[..j];
          assert a[..i] == p[..i];
        }
        dirs := dirs + Ancestors(p);
      }
    }

    /**
     * `fs.writeFileSync(p, content)`: creates or overwrites the file `p`. It fails when the
     * parent is missing (ENOENT) or is a file (ENOTDIR), and when `p` is a directory (EISDIR).
     */
    method WriteFile(p: Path, content: Content) returns (ok: bool)
      requires Valid()
      modifies this
      ensures Valid()
      ensures ok == (|p| > 0 && Parent(p) in old(dirs) && p !in old(dirs))
      ensures dirs == old(dirs)
      ensures files == if ok then old(files)[p := content] else old(files)
    {
      ok := |p| > 0 && Parent(p) in dirs && p !in dirs;
      if ok {
        files := files[p := content];
      }
    }
  }

  /**
   * `writeFileSync(path.join(dir, name), content)` for a plain `name`, as one write of a batch
   * that is part of `target`: it succeeds exactly when `dir` is a directory and no directory
   * stands at the file's path, and then the batch gains that file. Either way the disk is
   * `before` with part of `target` written.
   */
  method WriteInto(fs: FileSystem, dir: Path, name: string, content: Content,
                   ghost before: map<Path, Content>, ghost batch: map<Path, Content>,
                   ghost target: map<Path, Content>) returns (ok: bool)
    requires fs.Valid() && fs.files == before + batch
    requires SubMap(batch, target) && dir + [name] in target && target[dir + [name]] == content
    modifies fs
    ensures fs.Valid() && fs.dirs == old(fs.dirs)
    ensures ok == (dir in old(fs.dirs) && dir + [name] !in old(fs.dirs))
    ensures fs.files == before + if ok then batch[dir + [name] := content] else batch
    ensures ok ==> SubMap(batch[dir + [name] := content], target)
    ensures PartlyWritten(before, fs.files, target)
  {
    ParentOfChild(dir, name);
    ok := fs.WriteFile(dir + [name], content);
    WriteAfterBatch(before, batch, dir + [name], content);
    PartOfBatch(before, if ok then batch[dir + [name] := content] else batch, target);
  }
}
