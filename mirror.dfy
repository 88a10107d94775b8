/** The recursive directory mirror of app.py: `download_directory`.

    The remote tree is a value: each directory holds the outcome of fetching and parsing
    its listing, and each entry the outcomes of the further fetches the walk may make for
    it.  The walk itself is the method `Walker.DownloadDirectory`, which changes the
    process's working directory, the set of local directories and a log of the effects
    it has on the file system and the network.  An exception raised anywhere in the walk
    (a listing or metadata fetch that does not parse, a stream that cannot be read, a
    directory that already exists) ends the whole walk at once: no later entry is looked
    at, and the `chdir('..')` of every enclosing level is skipped. */
module Mirror {
  import opened Wrappers
  import opened PyStr
  import opened DownloadPath

  /** A local path, relative to the directory the walk starts in, as its sequence of
      components.  An entry's name is taken as one component. */
  type Path = seq<string>

  /** A name that `os.mkdir` and `open(name, 'wb')` accept in a directory that does not
      hold it yet: "" names nothing, and "." and ".." always exist.  Besides, `os.mkdir`
      raises on a directory that exists, and `open` on a name that is a directory. */
  predicate Openable(name: string)
  {
    name != "" && name != "." && name != ".."
  }

  /** The metadata object of a small file (app.py:148-149). */
  datatype Meta = Meta(name: string, downloadUrl: string, content: string)

  /** The parsed listing of a directory, or a listing fetch that raised. */
  datatype Listing = Listed(entries: seq<Entry>) | Unreadable

  /** One item of a listing.  `meta` is what fetching `<dir>/<name>` yields for a small
      file: None when the fetch raises, its body is not JSON or it lacks `download_url`
      (the walk raises there, after the fetch).  An inline file also raises when the
      metadata lacks `name` or `content`, or the content is not valid base64; that too is
      None.  A `raw_lfs` file whose metadata lacks `name` raises only in its background
      thread, which is not modelled: it is None here, a failed walk.  `streamed` says whether the streamed
      fetch of a large file delivers; `listing` is what fetching the listing of a
      subdirectory yields. */
  datatype Entry = Entry(kind: string, name: string, size: int, downloadUrl: string,
                         meta: Option<Meta>, streamed: bool, listing: Listing)

  /** What the walk does, in order. */
  datatype Effect =
    | FetchListing(remote: string)                 // call_destination(destination, directory_path)
    | MakeDir(dir: Path)                           // os.mkdir
    | StreamToFile(file: Path, remote: string)     // large file, streamed in the walk
    | FetchMeta(remote: string)                    // metadata of a small file
    | SpawnDownload(file: Path, remote: string)    // Thread(target=download_large_file).start()
    | WriteFile(file: Path, base64: string)        // inline content, base64-decoded and written

  /** The threshold of app.py:140 in floor division; Dafny's `/` agrees with Python's
      `//` for a positive divisor. */
  predicate IsLarge(size: int)
  {
    size / 1024 >= 1024
  }

  /** `size // 1024 >= 1024` is `size >= 1 MiB`, for every integer size. */
  lemma LargeIffAtLeastMiB(size: int)
    ensures IsLarge(size) <==> size >= 1048576
  {
  }

  datatype Branch = DirBranch | LargeFile | SmallFile | Skipped

  /** Where the loop of app.py:138-163 sends an entry. */
  function Classify(e: Entry): (b: Branch)
    ensures b == DirBranch <==> e.kind == "dir"
    ensures b == LargeFile <==> e.kind == "file" && e.size >= 1048576
    ensures b == SmallFile <==> e.kind == "file" && e.size < 1048576
    ensures b == Skipped <==> e.kind != "file" && e.kind != "dir"
  {
    LargeIffAtLeastMiB(e.size);
    if e.kind == "file" then (if IsLarge(e.size) then LargeFile else SmallFile)
    else if e.kind == "dir" then DirBranch
    else Skipped
  }

  /** The marker of a file kept in large-object storage (app.py:150). */
  const LfsMarker := "raw_lfs"

  /** The state of a walk: working directory, existing local directories, the effects so
      far, and whether it is still running (false once an exception was raised). */
  datatype Walk = Walk(cwd: Path, dirs: set<Path>, log: seq<Effect>, ok: bool)

  /** `os.chdir('..')`, which the walk applies only to a directory it has entered. */
  function Parent(p: Path): (q: Path)
    ensures p == [] ==> q == []
    ensures p != [] ==> q + [p[|p| - 1]] == p
  {
    if p == [] then [] else p[..|p| - 1]
  }

  /** `download_directory(destination, remote)` run from state `w`. */
  function WalkDir(w: Walk, remote: string, listing: Listing): (r: Walk)
    ensures w.log <= r.log && |r.log| > |w.log| && r.log[|w.log|] == FetchListing(remote)
    decreases listing
  {
    var w1 := w.(log := w.log + [FetchListing(remote)]);
    match listing
    case Unreadable => w1.(ok := false)
    case Listed(es) => WalkEntries(w1, remote, es)
  }

  /** The loop over a listing's entries, in listing order; it stops at the first failure. */
  function WalkEntries(w: Walk, remote: string, es: seq<Entry>): (r: Walk)
    ensures w.log <= r.log
    ensures !w.ok ==> r == w
    decreases es
  {
    if es == [] || !w.ok then w else WalkEntries(WalkEntry(w, remote, es[0]), remote, es[1..])
  }

  /** Entries are handled in listing order: walking `a + b` is walking `a`, then `b`. */
  lemma {:induction false} WalkEntriesAppend(w: Walk, remote: string, a: seq<Entry>, b: seq<Entry>)
    ensures WalkEntries(w, remote, a + b) == WalkEntries(WalkEntries(w, remote, a), remote, b)
    decreases a
  {
    if a == [] {
      assert a + b == b;
    } else if w.ok {
      assert (a + b)[0] == a[0] && (a + b)[1..] == a[1..] + b;
      WalkEntriesAppend(WalkEntry(w, remote, a[0]), remote, a[1..], b);
    }
  }

  /** One iteration of the loop, for entry `e` of the directory `remote`. */
  function WalkEntry(w: Walk, remote: string, e: Entry): (r: Walk)
    ensures w.log <= r.log
    ensures e.kind != "file" && e.kind != "dir" ==> r == w
    decreases e
  {
    match Classify(e)
    case DirBranch =>
      var d := w.cwd + [e.name];
      if !Openable(e.name) || d in w.dirs then w.(ok := false)
      else
        var inner := WalkDir(Walk(d, w.dirs + {d}, w.log + [MakeDir(d)], true), remote + "/" + e.name, e.listing);
        if inner.ok then inner.(cwd := Parent(inner.cwd)) else inner
    case LargeFile =>
      var w1 := w.(log := w.log + [StreamToFile(w.cwd + [e.name], RelativePath(e.downloadUrl))]);
      if e.streamed && Openable(e.name) && w.cwd + [e.name] !in w.dirs then w1 else w1.(ok := false)
    case SmallFile =>
      var w1 := w.(log := w.log + [FetchMeta(remote + "/" + e.name)]);
      (match e.meta
       case None => w1.(ok := false)
       case Some(m) =>
         if Contains(m.downloadUrl, LfsMarker)
         then w1.(log := w1.log + [SpawnDownload(w.cwd + [m.name], RelativePath(m.downloadUrl))])
         else if Openable(m.name) && w.cwd + [m.name] !in w.dirs then w1.(log := w1.log + [WriteFile(w.cwd + [m.name], m.content)])
         else w1.(ok := false))
    case Skipped => w
  }

  /** The directories a stretch of the log creates. */
  function MadeDirs(log: seq<Effect>): (ds: set<Path>)
    ensures forall d :: d in ds <==> MakeDir(d) in log
  {
    if log == [] then {}
    else (if log[0].MakeDir? then {log[0].dir} else {}) + MadeDirs(log[1..])
  }

  /** An effect stays inside the local directory `here` and the remote directory
      `remote`: local paths lie strictly below `here`, fetched paths start with `remote`. */
  predicate Below(eff: Effect, here: Path, remote: string)
  {
    match eff
    case FetchListing(r) => remote <= r
    case FetchMeta(r) => remote <= r
    case MakeDir(d) => here < d
    case StreamToFile(f, _) => here < f
    case SpawnDownload(f, _) => here < f
    case WriteFile(f, _) => here < f
  }

  /** Every mkdir in `log` is of a directory outside `dirs` and not made earlier in `log`,
      so none of them raises FileExistsError. */
  ghost predicate FreshDirs(log: seq<Effect>, dirs: set<Path>)
  {
    forall i | 0 <= i < |log| && log[i].MakeDir? ::
      log[i].dir !in dirs && forall j | i < j < |log| && log[j].MakeDir? :: log[j].dir != log[i].dir
  }

  /** Freshness of two stretches of log in turn: the second must avoid what the first made. */
  lemma FreshDirsAppend(a: seq<Effect>, b: seq<Effect>, dirs: set<Path>)
    ensures FreshDirs(a + b, dirs) <==> FreshDirs(a, dirs) && FreshDirs(b, dirs + MadeDirs(a))
  {
    var ab := a + b;
    if FreshDirs(ab, dirs) {
      forall i | 0 <= i < |b| && b[i].MakeDir?
        ensures b[i].dir !in dirs + MadeDirs(a)
      {
        assert ab[|a| + i] == b[i];
        forall k | 0 <= k < |a| && a[k].MakeDir?
          ensures a[k].dir != b[i].dir
        {
          assert ab[k] == a[k];
        }
      }
      forall i, j | 0 <= i < j < |b| && b[i].MakeDir? && b[j].MakeDir?
        ensures b[j].dir != b[i].dir
      {
        assert ab[|a| + i] == b[i] && ab[|a| + j] == b[j];
      }
      forall i, j | 0 <= i < j < |a| && a[i].MakeDir? && a[j].MakeDir?
        ensures a[j].dir != a[i].dir
      {
        assert ab[i] == a[i] && ab[j] == a[j];
      }
      forall i | 0 <= i < |a| && a[i].MakeDir?
        ensures a[i].dir !in dirs
      {
        assert ab[i] == a[i];
      }
    }
    if FreshDirs(a, dirs) && FreshDirs(b, dirs + MadeDirs(a)) {
      forall i, j | 0 <= i < j < |ab| && ab[i].MakeDir? && ab[j].MakeDir?
        ensures ab[j].dir != ab[i].dir
      {
        if j < |a| {
          assert ab[i] == a[i] && ab[j] == a[j];
        } else if i < |a| {
          assert ab[i] == a[i] && ab[j] == b[j - |a|];
          assert ab[i].dir in MadeDirs(a);
        } else {
          assert ab[i] == b[i - |a|] && ab[j] == b[j - |a|];
        }
      }
      forall i | 0 <= i < |ab| && ab[i].MakeDir?
        ensures ab[i].dir !in dirs
      {
        if i < |a| { assert ab[i] == a[i]; } else { assert ab[i] == b[i - |a|]; }
      }
    }
  }

  /** No file the walk opens for writing (a streamed large file, an inline small file)
      is a directory: neither one of `dirs` nor one made earlier in `log`, so no `open`
      raises IsADirectoryError. */
  ghost predicate ClearFiles(log: seq<Effect>, dirs: set<Path>)
  {
    forall i | 0 <= i < |log| && (log[i].StreamToFile? || log[i].WriteFile?) ::
      log[i].file !in dirs && MakeDir(log[i].file) !in log[..i]
  }

  /** The same split for files: the second stretch must avoid what the first made. */
  lemma ClearFilesAppend(a: seq<Effect>, b: seq<Effect>, dirs: set<Path>)
    ensures ClearFiles(a + b, dirs) <==> ClearFiles(a, dirs) && ClearFiles(b, dirs + MadeDirs(a))
  {
    var ab := a + b;
    forall i | 0 <= i < |a|
      ensures ab[i] == a[i] && ab[..i] == a[..i]
    {
    }
    forall j | 0 <= j < |b|
      ensures ab[|a| + j] == b[j] && ab[..|a| + j] == a + b[..j]
    {
    }
    if ClearFiles(ab, dirs) {
      forall j | 0 <= j < |b| && (b[j].StreamToFile? || b[j].WriteFile?)
        ensures b[j].file !in dirs + MadeDirs(a) && MakeDir(b[j].file) !in b[..j]
      {
        assert ab[|a| + j] == b[j] && ab[..|a| + j] == a + b[..j];
      }
      forall i | 0 <= i < |a| && (a[i].StreamToFile? || a[i].WriteFile?)
        ensures a[i].file !in dirs && MakeDir(a[i].file) !in a[..i]
      {
        assert ab[i] == a[i] && ab[..i] == a[..i];
      }
    }
    if ClearFiles(a, dirs) && ClearFiles(b, dirs + MadeDirs(a)) {
      forall i | 0 <= i < |ab| && (ab[i].StreamToFile? || ab[i].WriteFile?)
        ensures ab[i].file !in dirs && MakeDir(ab[i].file) !in ab[..i]
      {
        if i < |a| {
          assert ab[i] == a[i] && ab[..i] == a[..i];
        } else {
          var j := i - |a|;
          assert ab[i] == b[j] && ab[..i] == a + b[..j];
        }
      }
    }
  }

  /** From `w` to `r` the walk only appended to the log, every appended effect stays below
      `w`'s working directory and `remote`, and the directories added are exactly the ones
      it created, each one new. */
  ghost predicate Confined(w: Walk, r: Walk, remote: string)
  {
    && w.log <= r.log
    && (forall k | |w.log| <= k < |r.log| :: Below(r.log[k], w.cwd, remote))
    && r.dirs == w.dirs + MadeDirs(r.log[|w.log|..])
    && FreshDirs(r.log[|w.log|..], w.dirs)
  }

  /** Confinement survives putting one more effect, not a mkdir, in front. */
  lemma ConfinedCons(w: Walk, m: Walk, r: Walk, remote: string, eff: Effect)
    requires m == w.(log := w.log + [eff]) && !eff.MakeDir? && Below(eff, w.cwd, remote)
    requires Confined(m, r, remote)
    ensures Confined(w, r, remote)
  {
    assert r.log[|w.log|..] == [eff] + r.log[|m.log|..];
    assert MadeDirs([eff]) == {};
    FreshDirsAppend([eff], r.log[|m.log|..], w.dirs);
  }

  lemma BelowDeeper(eff: Effect, here: Path, name: string, remote: string, sub: string)
    requires Below(eff, here + [name], remote + sub)
    ensures Below(eff, here, remote)
  {
  }

  /** A walk of a directory, whatever its outcome, is confined to that directory, and
      when it succeeds it leaves the working directory where it found it. */
  lemma {:induction false} WalkDirConfined(w: Walk, remote: string, listing: Listing)
    ensures Confined(w, WalkDir(w, remote, listing), remote)
    ensures WalkDir(w, remote, listing).ok ==> WalkDir(w, remote, listing).cwd == w.cwd
    decreases listing, 0
  {
    var w1 := w.(log := w.log + [FetchListing(remote)]);
    match listing
    case Unreadable =>
      ConfinedSteps(w, w1.(ok := false), remote, [FetchListing(remote)]);
    case Listed(es) =>
      WalkEntriesConfined(w1, remote, es);
      ConfinedCons(w, w1, WalkEntries(w1, remote, es), remote, FetchListing(remote));
  }

  lemma {:induction false} WalkEntriesConfined(w: Walk, remote: string, es: seq<Entry>)
    ensures Confined(w, WalkEntries(w, remote, es), remote)
    ensures WalkEntries(w, remote, es).ok ==> WalkEntries(w, remote, es).cwd == w.cwd
    decreases es, 0
  {
    var r := WalkEntries(w, remote, es);
    if es == [] || !w.ok {
      assert r.log[|w.log|..] == [];
    } else {
      var m := WalkEntry(w, remote, es[0]);
      WalkEntryConfined(w, remote, es[0]);
      WalkEntriesConfined(m, remote, es[1..]);
      assert r.log[|w.log|..] == m.log[|w.log|..] + r.log[|m.log|..];
      FreshDirsAppend(m.log[|w.log|..], r.log[|m.log|..], w.dirs);
      forall k | |w.log| <= k < |r.log|
        ensures Below(r.log[k], w.cwd, remote)
      {
        if k < |m.log| {
          assert r.log[k] == m.log[k];
        } else if !m.ok {
          assert false;
        }
      }
    }
  }

  lemma {:induction false} WalkEntryConfined(w: Walk, remote: string, e: Entry)
    ensures Confined(w, WalkEntry(w, remote, e), remote)
    ensures WalkEntry(w, remote, e).ok ==> WalkEntry(w, remote, e).cwd == w.cwd
    decreases e, 1
  {
    if e.kind == "dir" {
      DirEntryConfined(w, remote, e);
    } else {
      FileEntryConfined(w, remote, e);
    }
  }

  /** A dir entry: when its name cannot be made or `cwd + name` exists, the walk stops
      with nothing done; otherwise the first effect is the mkdir of `cwd + name`, every
      later one (the subtree) lies below that directory and the remote subdirectory, and
      `chdir('..')` after a successful recursion restores the working directory. */
  lemma {:induction false} DirEntryConfined(w: Walk, remote: string, e: Entry)
    requires e.kind == "dir"
    ensures Confined(w, WalkEntry(w, remote, e), remote)
    ensures WalkEntry(w, remote, e).ok ==> WalkEntry(w, remote, e).cwd == w.cwd
    ensures !Openable(e.name) || w.cwd + [e.name] in w.dirs ==> WalkEntry(w, remote, e) == w.(ok := false)
    ensures Openable(e.name) && w.cwd + [e.name] !in w.dirs ==>
      var r := WalkEntry(w, remote, e);
      |r.log| > |w.log| && r.log[|w.log|] == MakeDir(w.cwd + [e.name]) &&
      forall k | |w.log| < k < |r.log| :: Below(r.log[k], w.cwd + [e.name], remote + "/" + e.name)
    decreases e, 0
  {
    var r := WalkEntry(w, remote, e);
    var d := w.cwd + [e.name];
    if !Openable(e.name) || d in w.dirs {
      assert r.log[|w.log|..] == [];
    } else {
      var sub := remote + "/" + e.name;
      var start := Walk(d, w.dirs + {d}, w.log + [MakeDir(d)], true);
      var inner := WalkDir(start, sub, e.listing);
      WalkDirConfined(start, sub, e.listing);
      assert r.log == inner.log && r.dirs == inner.dirs;
      assert r.log[|w.log|..] == [MakeDir(d)] + r.log[|start.log|..];
      assert MadeDirs([MakeDir(d)]) == {d};
      FreshDirsAppend([MakeDir(d)], r.log[|start.log|..], w.dirs);
      forall k | |w.log| <= k < |r.log|
        ensures Below(r.log[k], w.cwd, remote)
      {
        if k == |w.log| {
          assert r.log[k] == MakeDir(d);
        } else {
          assert sub == remote + ("/" + e.name);
          BelowDeeper(r.log[k], w.cwd, e.name, remote, "/" + e.name);
        }
      }
      if inner.ok {
        assert Parent(d) == w.cwd;
      }
    }
  }

  /** Any entry other than a dir creates no directory, leaves the working directory and
      the known directories as they were, and touches only paths below the working
      directory, whether or not the walk goes on. */
  lemma FileEntryConfined(w: Walk, remote: string, e: Entry)
    requires e.kind != "dir"
    ensures Confined(w, WalkEntry(w, remote, e), remote)
    ensures WalkEntry(w, remote, e).cwd == w.cwd && WalkEntry(w, remote, e).dirs == w.dirs
    ensures forall k | |w.log| <= k < |WalkEntry(w, remote, e).log| :: !WalkEntry(w, remote, e).log[k].MakeDir?
  {
    match Classify(e)
    case Skipped =>
      ConfinedSteps(w, WalkEntry(w, remote, e), remote, []);
    case LargeFile =>
      ConfinedSteps(w, WalkEntry(w, remote, e), remote,
                    [StreamToFile(w.cwd + [e.name], RelativePath(e.downloadUrl))]);
    case SmallFile =>
      SmallFileConfined(w, remote, e);
  }

  /** A small file: the metadata fetch, then at most one background download or one
      write, all below the working directory. */
  lemma SmallFileConfined(w: Walk, remote: string, e: Entry)
    requires Classify(e) == SmallFile
    ensures Confined(w, WalkEntry(w, remote, e), remote)
    ensures WalkEntry(w, remote, e).cwd == w.cwd && WalkEntry(w, remote, e).dirs == w.dirs
    ensures forall k | |w.log| <= k < |WalkEntry(w, remote, e).log| :: !WalkEntry(w, remote, e).log[k].MakeDir?
    ensures var r := WalkEntry(w, remote, e);
      |r.log| - |w.log| in {1, 2} && r.log[|w.log|] == FetchMeta(remote + "/" + e.name) &&
      (|r.log| == |w.log| + 2 ==> r.log[|w.log| + 1].SpawnDownload? || r.log[|w.log| + 1].WriteFile?)
  {
    var fetch := FetchMeta(remote + "/" + e.name);
    if e.meta.None? {
      ConfinedSteps(w, WalkEntry(w, remote, e), remote, [fetch]);
    } else {
      var m := e.meta.value;
      if Contains(m.downloadUrl, LfsMarker) {
        ConfinedSteps(w, WalkEntry(w, remote, e), remote,
                      [fetch, SpawnDownload(w.cwd + [m.name], RelativePath(m.downloadUrl))]);
      } else if Openable(m.name) && w.cwd + [m.name] !in w.dirs {
        ConfinedSteps(w, WalkEntry(w, remote, e), remote, [fetch, WriteFile(w.cwd + [m.name], m.content)]);
      } else {
        ConfinedSteps(w, WalkEntry(w, remote, e), remote, [fetch]);
      }
    }
  }

  lemma ConfinedSteps(w: Walk, r: Walk, remote: string, steps: seq<Effect>)
    requires r.log == w.log + steps && r.dirs == w.dirs && r.cwd == w.cwd
    requires forall k | 0 <= k < |steps| :: !steps[k].MakeDir? && Below(steps[k], w.cwd, remote)
    ensures Confined(w, r, remote)
    ensures forall k | |w.log| <= k < |r.log| :: !r.log[k].MakeDir?
  {
    assert r.log[|w.log|..] == steps;
  }

  /** The effects of mirroring the tree `listing` of `remote` into the local directory
      `here` when nothing goes wrong: a pre-order traversal of the tree, independent of
      the walk's state. */
  function Plan(here: Path, remote: string, listing: Listing): seq<Effect>
    decreases listing
  {
    [FetchListing(remote)] + match listing
      case Unreadable => []
      case Listed(es) => PlanEntries(here, remote, es)
  }

  function PlanEntries(here: Path, remote: string, es: seq<Entry>): seq<Effect>
    decreases es
  {
    if es == [] then [] else PlanEntry(here, remote, es[0]) + PlanEntries(here, remote, es[1..])
  }

  function PlanEntry(here: Path, remote: string, e: Entry): seq<Effect>
    decreases e
  {
    match Classify(e)
    case DirBranch =>
      [MakeDir(here + [e.name])] + Plan(here + [e.name], remote + "/" + e.name, e.listing)
    case LargeFile => [StreamToFile(here + [e.name], RelativePath(e.downloadUrl))]
    case SmallFile =>
      [FetchMeta(remote + "/" + e.name)] + (match e.meta
        case None => []
        case Some(m) =>
          if Contains(m.downloadUrl, LfsMarker)
          then [SpawnDownload(here + [m.name], RelativePath(m.downloadUrl))]
          else [WriteFile(here + [m.name], m.content)])
    case Skipped => []
  }

  /** A walk that succeeds has performed exactly the plan of the tree, from the working
      directory it started in. */
  lemma {:induction false} WalkDirFollowsPlan(w: Walk, remote: string, listing: Listing)
    ensures WalkDir(w, remote, listing).ok ==>
      WalkDir(w, remote, listing).log == w.log + Plan(w.cwd, remote, listing)
    decreases listing, 0
  {
    if listing.Listed? {
      var w1 := w.(log := w.log + [FetchListing(remote)]);
      WalkEntriesFollowPlan(w1, remote, listing.entries);
      assert w1.log + PlanEntries(w.cwd, remote, listing.entries)
          == w.log + ([FetchListing(remote)] + PlanEntries(w.cwd, remote, listing.entries));
    }
  }

  lemma {:induction false} WalkEntriesFollowPlan(w: Walk, remote: string, es: seq<Entry>)
    ensures WalkEntries(w, remote, es).ok ==>
      WalkEntries(w, remote, es).log == w.log + PlanEntries(w.cwd, remote, es)
    decreases es, 0
  {
    if es != [] && w.ok {
      var m := WalkEntry(w, remote, es[0]);
      var r := WalkEntries(m, remote, es[1..]);
      if r.ok {
        var p0, rest := PlanEntry(w.cwd, remote, es[0]), PlanEntries(w.cwd, remote, es[1..]);
        assert m.log == w.log + p0 by { WalkEntryFollowsPlan(w, remote, es[0]); }
        assert m.cwd == w.cwd by { WalkEntryConfined(w, remote, es[0]); }
        assert r.log == m.log + rest by { WalkEntriesFollowPlan(m, remote, es[1..]); }
        assert PlanEntries(w.cwd, remote, es) == p0 + rest;
        assert (w.log + p0) + rest == w.log + (p0 + rest);
      }
    }
  }

  lemma {:induction false} WalkEntryFollowsPlan(w: Walk, remote: string, e: Entry)
    ensures WalkEntry(w, remote, e).ok ==>
      WalkEntry(w, remote, e).log == w.log + PlanEntry(w.cwd, remote, e)
    decreases e, 1
  {
    if e.kind == "dir" {
      var d := w.cwd + [e.name];
      if Openable(e.name) && d !in w.dirs {
        var start := Walk(d, w.dirs + {d}, w.log + [MakeDir(d)], true);
        WalkDirFollowsPlan(start, remote + "/" + e.name, e.listing);
        assert start.log + Plan(d, remote + "/" + e.name, e.listing)
            == w.log + PlanEntry(w.cwd, remote, e);
      }
    } else {
      match Classify(e)
      case LargeFile =>
      case SmallFile =>
        if e.meta.Some? {
          var m := e.meta.value;
          assert PlanEntry(w.cwd, remote, e)
              == [FetchMeta(remote + "/" + e.name),
                  if Contains(m.downloadUrl, LfsMarker)
                  then SpawnDownload(w.cwd + [m.name], RelativePath(m.downloadUrl))
                  else WriteFile(w.cwd + [m.name], m.content)];
        }
      case Skipped =>
    }
  }

  /** Every fetch of the tree delivers and every name can be made: all listings parse,
      every large file streams into a makeable name, every small file's metadata is
      usable and, unless it goes to a background download, names a makeable file, and
      every subdirectory's name can be made. */
  ghost predicate TreeSound(listing: Listing)
    decreases listing
  {
    match listing
    case Unreadable => false
    case Listed(es) => EntriesSound(es)
  }

  ghost predicate EntriesSound(es: seq<Entry>)
    decreases es
  {
    es == [] || (EntrySound(es[0]) && EntriesSound(es[1..]))
  }

  ghost predicate EntrySound(e: Entry)
    decreases e
  {
    match Classify(e)
    case DirBranch => Openable(e.name) && TreeSound(e.listing)
    case LargeFile => e.streamed && Openable(e.name)
    case SmallFile =>
      e.meta.Some? && (Contains(e.meta.value.downloadUrl, LfsMarker) || Openable(e.meta.value.name))
    case Skipped => true
  }

  /** When a walk succeeds: exactly when the tree is sound, none of the directories its
      plan creates exists beforehand or is created twice, and none of the files it writes
      is a directory by then. */
  lemma {:induction false} WalkDirSucceeds(w: Walk, remote: string, listing: Listing)
    requires w.ok
    ensures WalkDir(w, remote, listing).ok <==>
      TreeSound(listing) && FreshDirs(Plan(w.cwd, remote, listing), w.dirs) &&
      ClearFiles(Plan(w.cwd, remote, listing), w.dirs)
    decreases listing, 0
  {
    var head := [FetchListing(remote)];
    assert MadeDirs(head) == {};
    match listing
    case Unreadable =>
    case Listed(es) =>
      var w1 := w.(log := w.log + head);
      WalkEntriesSucceed(w1, remote, es);
      FreshDirsAppend(head, PlanEntries(w.cwd, remote, es), w.dirs);
      ClearFilesAppend(head, PlanEntries(w.cwd, remote, es), w.dirs);
  }

  lemma {:induction false} WalkEntriesSucceed(w: Walk, remote: string, es: seq<Entry>)
    requires w.ok
    ensures WalkEntries(w, remote, es).ok <==>
      EntriesSound(es) && FreshDirs(PlanEntries(w.cwd, remote, es), w.dirs) &&
      ClearFiles(PlanEntries(w.cwd, remote, es), w.dirs)
    decreases es, 0
  {
    if es != [] {
      var m := WalkEntry(w, remote, es[0]);
      var p0 := PlanEntry(w.cwd, remote, es[0]);
      var rest := PlanEntries(w.cwd, remote, es[1..]);
      WalkEntrySucceeds(w, remote, es[0]);
      FreshDirsAppend(p0, rest, w.dirs);
      ClearFilesAppend(p0, rest, w.dirs);
      if m.ok {
        WalkEntryConfined(w, remote, es[0]);
        WalkEntryFollowsPlan(w, remote, es[0]);
        assert m.log[|w.log|..] == p0;
        WalkEntriesSucceed(m, remote, es[1..]);
      }
    }
  }

  lemma {:induction false} WalkEntrySucceeds(w: Walk, remote: string, e: Entry)
    requires w.ok
    ensures WalkEntry(w, remote, e).ok <==>
      EntrySound(e) && FreshDirs(PlanEntry(w.cwd, remote, e), w.dirs) &&
      ClearFiles(PlanEntry(w.cwd, remote, e), w.dirs)
    decreases e, 1
  {
    var p := PlanEntry(w.cwd, remote, e);
    if e.kind == "dir" {
      var d := w.cwd + [e.name];
      var sub := remote + "/" + e.name;
      var head := [MakeDir(d)];
      assert MadeDirs(head) == {d};
      assert p == head + Plan(d, sub, e.listing);
      FreshDirsAppend(head, Plan(d, sub, e.listing), w.dirs);
      ClearFilesAppend(head, Plan(d, sub, e.listing), w.dirs);
      assert FreshDirs(head, w.dirs) <==> d !in w.dirs;
      assert ClearFiles(head, w.dirs);
      if Openable(e.name) && d !in w.dirs {
        WalkDirSucceeds(Walk(d, w.dirs + {d}, w.log + head, true), sub, e.listing);
      }
    } else {
      assert forall k | 0 <= k < |p| :: !p[k].MakeDir?;
      if Classify(e) == LargeFile {
        assert p[..0] == [];
        assert ClearFiles(p, w.dirs) <==> w.cwd + [e.name] !in w.dirs;
      } else if Classify(e) == SmallFile && e.meta.Some? && !Contains(e.meta.value.downloadUrl, LfsMarker) {
        assert p[..1] == [FetchMeta(remote + "/" + e.name)];
        assert ClearFiles(p, w.dirs) <==> w.cwd + [e.meta.value.name] !in w.dirs;
      }
    }
  }

  // One step of each kind, for walking concrete trees.

  lemma LargeFileStep(w: Walk, remote: string, e: Entry)
    requires Classify(e) == LargeFile && e.streamed && Openable(e.name) && w.cwd + [e.name] !in w.dirs
    ensures WalkEntry(w, remote, e) == w.(log := w.log + [StreamToFile(w.cwd + [e.name], RelativePath(e.downloadUrl))])
  {
  }

  lemma BackgroundStep(w: Walk, remote: string, e: Entry)
    requires Classify(e) == SmallFile && e.meta.Some? && Contains(e.meta.value.downloadUrl, LfsMarker)
    ensures WalkEntry(w, remote, e)
      == w.(log := w.log + [FetchMeta(remote + "/" + e.name),
                            SpawnDownload(w.cwd + [e.meta.value.name], RelativePath(e.meta.value.downloadUrl))])
  {
  }

  lemma InlineFileStep(w: Walk, remote: string, e: Entry)
    requires Classify(e) == SmallFile && e.meta.Some? && !Contains(e.meta.value.downloadUrl, LfsMarker)
    requires Openable(e.meta.value.name) && w.cwd + [e.meta.value.name] !in w.dirs
    ensures WalkEntry(w, remote, e)
      == w.(log := w.log + [FetchMeta(remote + "/" + e.name), WriteFile(w.cwd + [e.meta.value.name], e.meta.value.content)])
  {
  }

  lemma DirStep(w: Walk, remote: string, e: Entry, inner: Walk)
    requires e.kind == "dir" && Openable(e.name) && w.cwd + [e.name] !in w.dirs
    requires WalkDir(Walk(w.cwd + [e.name], w.dirs + {w.cwd + [e.name]}, w.log + [MakeDir(w.cwd + [e.name])], true),
                     remote + "/" + e.name, e.listing) == inner
    requires inner.ok
    ensures WalkEntry(w, remote, e) == inner.(cwd := Parent(inner.cwd))
  {
  }

  lemma TwoEntries(w: Walk, remote: string, x: Entry, y: Entry)
    requires w.ok && WalkEntry(w, remote, x).ok
    ensures WalkEntries(w, remote, [x, y]) == WalkEntries(WalkEntry(WalkEntry(w, remote, x), remote, y), remote, [])
  {
    assert [x, y][1..] == [y] && [y][1..] == [];
  }

  // An example tree: "/d" holds a small file "a" with inline content, then the
  // subdirectory "s", which holds a large file "big" and a small file "lfs" kept in
  // large-object storage.

  const ExampleFile := Entry("file", "a", 10, "", Some(Meta("a", "u", "Zm9v")), false, Unreadable)

  function ExampleBig(bigUrl: string): Entry
  {
    Entry("file", "big", 2097152, bigUrl, None, true, Unreadable)
  }

  function ExampleLfs(lfsUrl: string): Entry
  {
    Entry("file", "lfs", 100, "", Some(Meta("lfs", lfsUrl, "")), false, Unreadable)
  }

  function ExampleDir(bigUrl: string, lfsUrl: string): Entry
  {
    Entry("dir", "s", 0, "", None, false, Listed([ExampleBig(bigUrl), ExampleLfs(lfsUrl)]))
  }

  /** Inside "s", "big" is streamed into "s/big". */
  lemma ExampleBigStep(log: seq<Effect>, bigUrl: string)
    ensures WalkEntry(Walk(["s"], {["s"]}, log, true), "/d/s", ExampleBig(bigUrl))
      == Walk(["s"], {["s"]}, log + [StreamToFile(["s", "big"], RelativePath(bigUrl))], true)
  {
    var sdir: Path := ["s"];
    LargeFileStep(Walk(sdir, {sdir}, log, true), "/d/s", ExampleBig(bigUrl));
    assert sdir + ["big"] == ["s", "big"];
  }

  /** Inside "s", the metadata of "lfs" is fetched and one background download dispatched. */
  lemma ExampleLfsStep(log: seq<Effect>, lfsUrl: string)
    requires Contains(lfsUrl, LfsMarker)
    ensures WalkEntry(Walk(["s"], {["s"]}, log, true), "/d/s", ExampleLfs(lfsUrl))
      == Walk(["s"], {["s"]}, log + [FetchMeta("/d/s/lfs"), SpawnDownload(["s", "lfs"], RelativePath(lfsUrl))], true)
  {
    var sdir: Path := ["s"];
    BackgroundStep(Walk(sdir, {sdir}, log, true), "/d/s", ExampleLfs(lfsUrl));
    assert sdir + ["lfs"] == ["s", "lfs"] && "/d/s" + "/" + "lfs" == "/d/s/lfs";
  }

  /** Walking "s" from inside it: the listing fetch, the stream of "big", the metadata
      fetch of "lfs" and its background download. */
  lemma ExampleSubWalk(log: seq<Effect>, bigUrl: string, lfsUrl: string)
    requires Contains(lfsUrl, LfsMarker)
    ensures WalkDir(Walk(["s"], {["s"]}, log, true), "/d/s", ExampleDir(bigUrl, lfsUrl).listing)
      == Walk(["s"], {["s"]},
              log + [FetchListing("/d/s"), StreamToFile(["s", "big"], RelativePath(bigUrl)),
                     FetchMeta("/d/s/lfs"), SpawnDownload(["s", "lfs"], RelativePath(lfsUrl))], true)
  {
    var log1 := log + [FetchListing("/d/s")];
    var log2 := log1 + [StreamToFile(["s", "big"], RelativePath(bigUrl))];
    ExampleBigStep(log1, bigUrl);
    ExampleLfsStep(log2, lfsUrl);
    TwoEntries(Walk(["s"], {["s"]}, log1, true), "/d/s", ExampleBig(bigUrl), ExampleLfs(lfsUrl));
  }

  /** At the top, "a" is fetched and written inline. */
  lemma ExampleFileStep()
    ensures WalkEntry(Walk([], {}, [FetchListing("/d")], true), "/d", ExampleFile)
      == Walk([], {}, [FetchListing("/d"), FetchMeta("/d/a"), WriteFile(["a"], "Zm9v")], true)
  {
    var top: Path := [];
    assert !Contains("u", LfsMarker);
    InlineFileStep(Walk(top, {}, [FetchListing("/d")], true), "/d", ExampleFile);
    assert top + ["a"] == ["a"] && "/d" + "/" + "a" == "/d/a";
  }

  /** At the top, "s" is created and entered, walked, and left again. */
  lemma ExampleDirStep(log: seq<Effect>, bigUrl: string, lfsUrl: string)
    requires Contains(lfsUrl, LfsMarker)
    ensures WalkEntry(Walk([], {}, log, true), "/d", ExampleDir(bigUrl, lfsUrl))
      == Walk([], {["s"]},
              log + [MakeDir(["s"]), FetchListing("/d/s"), StreamToFile(["s", "big"], RelativePath(bigUrl)),
                     FetchMeta("/d/s/lfs"), SpawnDownload(["s", "lfs"], RelativePath(lfsUrl))], true)
  {
    var top: Path := [];
    var sdir: Path := ["s"];
    var inner := WalkDir(Walk(sdir, {sdir}, log + [MakeDir(sdir)], true), "/d/s", ExampleDir(bigUrl, lfsUrl).listing);
    ExampleSubWalk(log + [MakeDir(sdir)], bigUrl, lfsUrl);
    assert top + ["s"] == sdir && "/d" + "/" + "s" == "/d/s" && {} + {sdir} == {sdir};
    DirStep(Walk(top, {}, log, true), "/d", ExampleDir(bigUrl, lfsUrl), inner);
    assert Parent(sdir) == top;
  }

  /** At the top, after the listing fetch: "a", then "s". */
  lemma ExampleTopEntries(bigUrl: string, lfsUrl: string)
    requires Contains(lfsUrl, LfsMarker)
    ensures WalkEntries(Walk([], {}, [FetchListing("/d")], true), "/d", [ExampleFile, ExampleDir(bigUrl, lfsUrl)])
      == Walk([], {["s"]},
              [FetchListing("/d"), FetchMeta("/d/a"), WriteFile(["a"], "Zm9v")] +
              [MakeDir(["s"]), FetchListing("/d/s"), StreamToFile(["s", "big"], RelativePath(bigUrl)),
               FetchMeta("/d/s/lfs"), SpawnDownload(["s", "lfs"], RelativePath(lfsUrl))], true)
  {
    var w1 := Walk([], {}, [FetchListing("/d")], true);
    var head := [FetchListing("/d"), FetchMeta("/d/a"), WriteFile(["a"], "Zm9v")];
    ExampleFileStep();
    ExampleDirStep(head, bigUrl, lfsUrl);
    TwoEntries(w1, "/d", ExampleFile, ExampleDir(bigUrl, lfsUrl));
  }

  /** Mirrored into an empty local directory, the example tree is walked as follows: "a"
      is written, "s" is created and entered, "big" is streamed into it, one background
      download is dispatched for "lfs", the walk returns to where it started, and it
      succeeds. */
  lemma ExampleTreeWalk(bigUrl: string, lfsUrl: string)
    requires Contains(lfsUrl, LfsMarker)
    ensures WalkDir(Walk([], {}, [], true), "/d", Listed([ExampleFile, ExampleDir(bigUrl, lfsUrl)]))
      == Walk([], {["s"]},
              [FetchListing("/d"), FetchMeta("/d/a"), WriteFile(["a"], "Zm9v"),
               MakeDir(["s"]), FetchListing("/d/s"),
               StreamToFile(["s", "big"], RelativePath(bigUrl)),
               FetchMeta("/d/s/lfs"), SpawnDownload(["s", "lfs"], RelativePath(lfsUrl))], true)
  {
    assert [] + [FetchListing("/d")] == [FetchListing("/d")];
    ExampleTopEntries(bigUrl, lfsUrl);
    assert [FetchListing("/d"), FetchMeta("/d/a"), WriteFile(["a"], "Zm9v")] +
           [MakeDir(["s"]), FetchListing("/d/s"), StreamToFile(["s", "big"], RelativePath(bigUrl)),
            FetchMeta("/d/s/lfs"), SpawnDownload(["s", "lfs"], RelativePath(lfsUrl))]
        == [FetchListing("/d"), FetchMeta("/d/a"), WriteFile(["a"], "Zm9v"),
            MakeDir(["s"]), FetchListing("/d/s"),
            StreamToFile(["s", "big"], RelativePath(bigUrl)),
            FetchMeta("/d/s/lfs"), SpawnDownload(["s", "lfs"], RelativePath(lfsUrl))];
  }

  /** Mirroring "a" inline into a directory that already holds a directory "a" fails:
      `open("a", 'wb')` raises IsADirectoryError. */
  lemma ExampleWriteOverDir()
    ensures !WalkDir(Walk([], {["a"]}, [], true), "/d", Listed([ExampleFile])).ok
  {
    var top: Path := [];
    var w1 := Walk(top, {["a"]}, [] + [FetchListing("/d")], true);
    assert top + ["a"] == ["a"] && !Contains("u", LfsMarker);
    assert !WalkEntry(w1, "/d", ExampleFile).ok;
    assert [ExampleFile][1..] == [];
  }

  /** The process state the walk changes. */
  class Walker {
    var cwd: Path
    var dirs: set<Path>
    var log: seq<Effect>

    function State(ok: bool): Walk
      reads this
    {
      Walk(cwd, dirs, log, ok)
    }

    /** A walker about to start in the directory it is given, where `existing` are the
        directories already present below it. */
    constructor (existing: set<Path>)
      ensures cwd == [] && dirs == existing && log == []
    {
      cwd := [];
      dirs := existing;
      log := [];
    }

    /** `download_directory(destination, remote)`: fetch the listing, then handle each
        entry in order.  `ok` is false when an exception ended the walk. */
    method DownloadDirectory(remote: string, listing: Listing) returns (ok: bool)
      modifies this
      ensures State(ok) == WalkDir(old(State(true)), remote, listing)
      decreases listing
    {
      log := log + [FetchListing(remote)];
      if listing.Unreadable? {
        return false;
      }
      var es := listing.entries;
      ghost var goal := WalkEntries(State(true), remote, es);
      for i := 0 to |es|
        invariant WalkEntries(State(true), remote, es[i..]) == goal
      {
        var e := es[i];
        assert es[i..][0] == e && es[i..][1..] == es[i + 1..];
        ghost var before := State(true);
        if e.kind == "file" {
          if e.size / 1024 >= 1024 {
            log := log + [StreamToFile(cwd + [e.name], RelativePath(e.downloadUrl))];
            if !e.streamed || !Openable(e.name) || cwd + [e.name] in dirs {
              return false;
            }
          } else {
            log := log + [FetchMeta(remote + "/" + e.name)];
            if e.meta.None? {
              return false;
            }
            var m := e.meta.value;
            if Contains(m.downloadUrl, LfsMarker) {
              log := log + [SpawnDownload(cwd + [m.name], RelativePath(m.downloadUrl))];
            } else if Openable(m.name) && cwd + [m.name] !in dirs {
              log := log + [WriteFile(cwd + [m.name], m.content)];
            } else {
              return false;
            }
          }
        } else if e.kind == "dir" {
          var d := cwd + [e.name];
          if !Openable(e.name) || d in dirs {
            return false;
          }
          dirs := dirs + {d};
          log := log + [MakeDir(d)];
          cwd := d;
          var sub := DownloadDirectory(remote + "/" + e.name, e.listing);
          if !sub {
            return false;
          }
          cwd := Parent(cwd);
        }
        assert State(true) == WalkEntry(before, remote, e);
      }
      return true;
    }
  }
}
