/** The sequential loader: a queue of files, emptied from the front. */
module SequentialLoader {
  import opened SourceTree

  /** Everything seen or queued is needed. */
  ghost predicate Needed(t: Tree, fs: set<Path>, ds: set<Dir>, queue: seq<Path>)
    requires Readable(t)
  {
    forall fs', ds' :: Closed(t, fs', ds') ==> fs <= fs' && ds <= ds' && forall p :: p in queue ==> p in fs'
  }

  /** What the files and packages seen so far name is seen or queued; `open` are the imports of the
      last file that are still to be followed. */
  predicate Followed(t: Tree, fs: set<Path>, ds: set<Dir>, queue: seq<Path>, open: seq<Dir>)
    requires Readable(t)
  {
    && fs <= t.imports.Keys && ds <= t.files.Keys && (forall p :: p in queue ==> p in t.imports)
    && (forall p :: p in t.entry ==> p in fs || p in queue)
    && (forall p, d :: p in fs && d in t.imports[p] ==> d in ds || d in open)
    && (forall d, p :: d in ds && p in t.files[d] ==> p in fs || p in queue)
  }

  lemma {:induction false} NeededImport(t: Tree, fs: set<Path>, ds: set<Dir>, queue: seq<Path>, p: Path, d: Dir)
    requires Readable(t) && Needed(t, fs, ds, queue) && p in fs && p in t.imports && d in t.imports[p]
    ensures Needed(t, fs, ds + {d}, queue + t.files[d])
  {
  }

  lemma {:induction false} NeededFile(t: Tree, fs: set<Path>, ds: set<Dir>, queue: seq<Path>)
    requires Readable(t) && Needed(t, fs, ds, queue) && queue != []
    ensures Needed(t, fs + {queue[0]}, ds, queue[1..]) && Needed(t, fs, ds, queue[1..])
  {
  }

  lemma {:induction false} NoneLoaded()
    ensures ExactlyOnce<Path>([], {})
  {
  }

  lemma {:induction false} OneMore(loaded: seq<Path>, fs: set<Path>, file: Path)
    requires ExactlyOnce(loaded, fs) && file !in fs
    ensures ExactlyOnce(loaded + [file], fs + {file})
  {
  }

  /** The file at the front of the queue is one of the tree, and can be taken off. */
  lemma {:induction false} FollowedFile(t: Tree, fs: set<Path>, ds: set<Dir>, queue: seq<Path>)
    requires Readable(t) && Followed(t, fs, ds, queue, []) && queue != []
    ensures queue[0] in t.imports
    ensures queue[0] in fs ==> Followed(t, fs, ds, queue[1..], [])
    ensures queue[0] !in fs ==> Followed(t, fs + {queue[0]}, ds, queue[1..], t.imports[queue[0]])
  {
    assert queue == [queue[0]] + queue[1..];
  }

  lemma {:induction false} KnownImports(t: Tree, file: Path)
    requires Readable(t) && file in t.imports
    ensures forall d :: d in t.imports[file] ==> d in t.files
  {
  }

  lemma {:induction false} KnownPackages(t: Tree, fs: set<Path>, ds: set<Dir>, queue: seq<Path>, open: seq<Dir>)
    requires Readable(t) && Followed(t, fs, ds, queue, open)
    ensures ds <= t.files.Keys
  {
  }

  /** Following an import queues its files if it is new. */
  lemma {:induction false} FollowedImport(t: Tree, fs: set<Path>, ds: set<Dir>, queue: seq<Path>, dir: Dir,
                                          open: seq<Dir>)
    requires Readable(t) && Followed(t, fs, ds, queue, [dir] + open)
    ensures dir in ds ==> Followed(t, fs, ds, queue, open)
    ensures dir in t.files ==> Followed(t, fs, ds + {dir}, queue + t.files[dir], open)
  {
  }

  class Loader {
    var visitedFiles: set<Path>
    var visitedPkgs: set<Dir>

    constructor ()
      ensures visitedFiles == {} && visitedPkgs == {}
    {
      visitedFiles, visitedPkgs := {}, {};
    }

    /** Loads the files the entry files lead to: all that are needed and no others, each once. */
    method LoadSequential(t: Tree) returns (loaded: seq<Path>)
      requires Readable(t) && visitedFiles == {} && visitedPkgs == {}
      modifies this
      ensures Reachable(t, visitedFiles, visitedPkgs)
      ensures ExactlyOnce(loaded, visitedFiles)
    {
      hide Needed, Followed, ExactlyOnce, Reachable, Readable;
      var queue := t.entry;
      loaded := [];
      NeededEntry(t);
      NoneLoaded();
      while queue != []
        invariant Followed(t, visitedFiles, visitedPkgs, queue, []) && Needed(t, visitedFiles, visitedPkgs, queue)
        invariant ExactlyOnce(loaded, visitedFiles)
        decreases t.files.Keys - visitedPkgs, |queue|
      {
        var file := queue[0];
        NeededFile(t, visitedFiles, visitedPkgs, queue);
        FollowedFile(t, visitedFiles, visitedPkgs, queue);
        queue := queue[1..];
        if file !in visitedFiles {
          OneMore(loaded, visitedFiles, file);
          visitedFiles := visitedFiles + {file};
          loaded := loaded + [file];
          queue := QueueImports(t, file, queue);
          KnownPackages(t, visitedFiles, visitedPkgs, queue, []);
        }
      }
      NeededAll(t, visitedFiles, visitedPkgs);
    }

    /** Queues the files of the packages that a file just visited imports for the first time. */
    method QueueImports(t: Tree, file: Path, queue: seq<Path>) returns (longer: seq<Path>)
      requires Readable(t) && file in visitedFiles && file in t.imports
      requires Followed(t, visitedFiles, visitedPkgs, queue, t.imports[file]) &&
        Needed(t, visitedFiles, visitedPkgs, queue)
      modifies `visitedPkgs
      ensures Followed(t, visitedFiles, visitedPkgs, longer, []) && Needed(t, visitedFiles, visitedPkgs, longer)
      ensures old(visitedPkgs) <= visitedPkgs && (visitedPkgs == old(visitedPkgs) ==> longer == queue)
    {
      hide Needed, Followed, Readable;
      longer := queue;
      var imports := t.imports[file];
      KnownImports(t, file);
      for i := 0 to |imports|
        invariant Followed(t, visitedFiles, visitedPkgs, longer, imports[i..]) &&
          Needed(t, visitedFiles, visitedPkgs, longer)
        invariant old(visitedPkgs) <= visitedPkgs && (visitedPkgs == old(visitedPkgs) ==> longer == queue)
      {
        var dir := imports[i];
        assert imports[i..] == [dir] + imports[i + 1..];
        FollowedImport(t, visitedFiles, visitedPkgs, longer, dir, imports[i + 1..]);
        if dir !in visitedPkgs {
          NeededImport(t, visitedFiles, visitedPkgs, longer, file, dir);
          visitedPkgs := visitedPkgs + {dir};
          longer := longer + t.files[dir];
        }
      }
    }
  }

  lemma {:induction false} NeededEntry(t: Tree)
    requires Readable(t)
    ensures Needed(t, {}, {}, t.entry) && Followed(t, {}, {}, t.entry, [])
  {
  }

  lemma {:induction false} NeededAll(t: Tree, fs: set<Path>, ds: set<Dir>)
    requires Readable(t) && Followed(t, fs, ds, [], []) && Needed(t, fs, ds, [])
    ensures Reachable(t, fs, ds)
  {
  }
}
