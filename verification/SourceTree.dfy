/** What the loader finds on disk, and which files a program consists of. */
module SourceTree {

  type Path = string
  type Dir = string

  /** The files of every package directory, the resolved imports of every file, and the files loading
      starts with. Unresolvable imports and `unsafe` are already dropped, as both loaders drop them. */
  datatype Tree = Tree(entry: seq<Path>, files: map<Dir, seq<Path>>, imports: map<Path, seq<Dir>>)

  /** Everything that is named can be read: the runs considered here end without error. */
  predicate Readable(t: Tree) {
    && (forall p :: p in t.entry ==> p in t.imports)
    && (forall d, p :: d in t.files && p in t.files[d] ==> p in t.imports)
    && (forall p, d :: p in t.imports && d in t.imports[p] ==> d in t.files)
  }

  /** A set of files and packages that contains the entry files, the packages they import, the files
      of those, and so on. */
  ghost predicate Closed(t: Tree, fs: set<Path>, ds: set<Dir>)
    requires Readable(t)
  {
    && fs <= t.imports.Keys && ds <= t.files.Keys
    && (forall p :: p in t.entry ==> p in fs)
    && (forall p, d :: p in fs && d in t.imports[p] ==> d in ds)
    && (forall d, p :: d in ds && p in t.files[d] ==> p in fs)
  }

  /** The files and packages that loading must reach: closed, and part of everything closed. */
  ghost predicate Reachable(t: Tree, fs: set<Path>, ds: set<Dir>)
    requires Readable(t)
  {
    Closed(t, fs, ds) && forall fs', ds' :: Closed(t, fs', ds') ==> fs <= fs' && ds <= ds'
  }

  /** A list that holds every element of a set once and nothing else. */
  ghost predicate ExactlyOnce<T(!new)>(xs: seq<T>, s: set<T>) {
    (forall x :: x in xs <==> x in s) && forall i, j :: 0 <= i < j < |xs| ==> xs[i] != xs[j]
  }

  lemma {:induction false} ReachableUnique(t: Tree, fs: set<Path>, ds: set<Dir>, fs': set<Path>, ds': set<Dir>)
    requires Readable(t) && Reachable(t, fs, ds) && Reachable(t, fs', ds')
    ensures fs == fs' && ds == ds'
  {
  }
}
