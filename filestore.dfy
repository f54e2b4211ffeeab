/**
 * The local disk the staging code writes to and deletes from, and the
 * common shape of every staging routine: a loop whose iteration either
 * does nothing, writes one file, deletes one file, or raises, the first
 * raise ending the loop with the effects of the earlier iterations kept.
 */
module FileStore {
  import opened Common

  type Path = string

  /** The disk: the paths that hold a file, and the bytes each holds. */
  type FileMap = map<Path, Bytes>

  /** A bucket: object keys and the bytes stored under them. */
  type Bucket = map<string, Bytes>

  /** Where every staging variant keeps a file: join(predefined_path, f"{id}.{format}"). */
  function StagePath(root: string, id: Text, format: Text): Path
  {
    Join(root, FileName(id, format))
  }

  datatype Action =
    | Write(path: Path, content: Bytes)   // open(path, "wb") and write content
    | Delete(path: Path)                  // os.remove(path), FileNotFoundError caught

  /** What one iteration of a staging loop does. */
  datatype Step = Skip | Act(action: Action) | Raise(error: PyError)

  /** The disk after a staging routine, and the exception it raised, if any. */
  datatype Run = Run(files: FileMap, error: Option<PyError>)

  /** One action on the disk; deleting a missing file changes nothing. */
  function Apply(fs: FileMap, a: Action): FileMap
  {
    match a
    case Write(p, c) => fs[p := c]
    case Delete(p) => fs - {p}
  }

  /**
   * The iterations of a staging loop in order. Once an iteration raises,
   * the later ones do not run and the disk keeps what the earlier ones did.
   */
  function Perform(fs: FileMap, s: seq<Step>): Run
    decreases |s|
  {
    if s == [] then Run(fs, None)
    else Next(Perform(fs, s[..|s| - 1]), s[|s| - 1])
  }

  /** One more iteration after the run r; nothing runs once an iteration has raised. */
  function Next(r: Run, x: Step): Run
  {
    if r.error.Some? then r
    else
      match x
      case Skip => r
      case Act(a) => Run(Apply(r.files, a), None)
      case Raise(e) => Run(r.files, Some(e))
  }

  /** The loop after i + 1 iterations. */
  lemma PerformSnoc(fs: FileMap, s: seq<Step>, i: nat)
    requires i < |s|
    ensures Perform(fs, s[..i + 1]) == Next(Perform(fs, s[..i]), s[i])
  {
    assert s[..i + 1][..i] == s[..i];
  }

  /** The index of the first iteration that raises, or |s| if none does. */
  function FirstRaise(s: seq<Step>): (k: nat)
    ensures k <= |s|
    ensures forall j :: 0 <= j < k ==> !s[j].Raise?
    ensures k < |s| ==> s[k].Raise?
  {
    if s == [] then 0
    else if s[0].Raise? then 0
    else 1 + FirstRaise(s[1..])
  }

  /** The iterations that run. */
  function Executed(s: seq<Step>): seq<Step>
  {
    s[..FirstRaise(s)]
  }

  predicate DeletesAt(s: seq<Step>, j: int, p: Path)
  {
    0 <= j < |s| && s[j].Act? && s[j].action.Delete? && s[j].action.path == p
  }

  /** Paths some iteration writes. */
  function Written(s: seq<Step>): set<Path>
  {
    set j | 0 <= j < |s| && s[j].Act? && s[j].action.Write? :: s[j].action.path
  }

  /** Paths some iteration deletes. */
  function Deleted(s: seq<Step>): set<Path>
  {
    set j | 0 <= j < |s| && s[j].Act? && s[j].action.Delete? :: s[j].action.path
  }

  /** No iteration writes: a clean-up routine. */
  predicate DeleteOnly(s: seq<Step>)
  {
    forall j :: 0 <= j < |s| && s[j].Act? ==> s[j].action.Delete?
  }

  /** No iteration deletes: a staging routine. */
  predicate WriteOnly(s: seq<Step>)
  {
    forall j :: 0 <= j < |s| && s[j].Act? ==> s[j].action.Write?
  }

  /** Paths some iteration acts on. */
  predicate Touches(s: seq<Step>, p: Path)
  {
    exists j :: 0 <= j < |s| && s[j].Act? && s[j].action.path == p
  }

  /**
   * The run is decided by the first raising iteration: the disk is what the
   * iterations before it made of it, and the exception is that iteration's.
   */
  lemma {:induction false} PerformShape(fs: FileMap, s: seq<Step>)
    ensures Perform(fs, s).files == Perform(fs, Executed(s)).files
    ensures Perform(fs, Executed(s)).error == None
    ensures Perform(fs, s).error ==
      if FirstRaise(s) < |s| then Some(s[FirstRaise(s)].error) else None
    decreases |s|
  {
    if s != [] {
      var t := s[..|s| - 1];
      PerformShape(fs, t);
      var k, k' := FirstRaise(t), FirstRaise(s);
      assert forall j :: 0 <= j < |t| ==> s[j] == t[j];
      if k < |t| {
        assert k' == k;
        assert s[..k] == t[..k];
      } else {
        assert t[..k] == t;
        if s[|s| - 1].Raise? {
          assert k' == |t|;
          assert s[..k'] == t;
        } else {
          assert k' == |s|;
          assert s[..k'] == s;
        }
      }
    }
  }

  /** The loop that meets its first raise at iteration i. */
  lemma PerformRaisesAt(fs: FileMap, s: seq<Step>, i: nat)
    requires i < |s| && s[i].Raise?
    requires forall j :: 0 <= j < i ==> !s[j].Raise?
    ensures Perform(fs, s) == Run(Perform(fs, s[..i]).files, Some(s[i].error))
  {
    PerformShape(fs, s);
    assert FirstRaise(s) == i;
  }

  /** A loop none of whose iterations raise. */
  lemma PerformCompletes(fs: FileMap, s: seq<Step>)
    requires forall j :: 0 <= j < |s| ==> !s[j].Raise?
    ensures Perform(fs, s).error == None
  {
    PerformShape(fs, s);
  }

  /** Whether a loop raises does not depend on the disk. */
  lemma ErrorIndependentOfDisk(fs: FileMap, fs': FileMap, s: seq<Step>)
    ensures Perform(fs, s).error == Perform(fs', s).error
  {
    PerformShape(fs, s);
    PerformShape(fs', s);
  }

  /** A path no iteration acts on keeps its file, or its absence. */
  lemma {:induction false} PerformFrame(fs: FileMap, s: seq<Step>, p: Path)
    requires !Touches(s, p)
    ensures p in Perform(fs, s).files <==> p in fs
    ensures p in fs ==> Perform(fs, s).files[p] == fs[p]
    decreases |s|
  {
    if s != [] {
      var t := s[..|s| - 1];
      assert forall j :: 0 <= j < |t| ==> s[j] == t[j];
      PerformFrame(fs, t, p);
      if s[|s| - 1].Act? {
        assert s[|s| - 1].action.path != p;
      }
    }
  }

  /** A clean-up loop that runs to the end removes exactly the paths it deletes. */
  lemma {:induction false} PerformDeletes(fs: FileMap, s: seq<Step>)
    requires DeleteOnly(s)
    requires forall j :: 0 <= j < |s| ==> !s[j].Raise?
    ensures Perform(fs, s) == Run(fs - Deleted(s), None)
    decreases |s|
  {
    if s == [] {
      assert Deleted(s) == {};
    } else {
      var t := s[..|s| - 1];
      assert forall j :: 0 <= j < |t| ==> s[j] == t[j];
      PerformDeletes(fs, t);
      var x := s[|s| - 1];
      if x.Act? {
        assert Deleted(s) == Deleted(t) + {x.action.path} by {
          assert DeletesAt(s, |s| - 1, x.action.path);
          forall q | q in Deleted(s) ensures q in Deleted(t) + {x.action.path} {
            var j :| 0 <= j < |s| && s[j].Act? && s[j].action.Delete? && s[j].action.path == q;
            if j < |t| { assert DeletesAt(t, j, q); }
          }
          forall q | q in Deleted(t) ensures q in Deleted(s) {
            var j :| 0 <= j < |t| && t[j].Act? && t[j].action.Delete? && t[j].action.path == q;
            assert DeletesAt(s, j, q);
          }
        }
      } else {
        assert Deleted(s) == Deleted(t) by {
          forall q | q in Deleted(s) ensures q in Deleted(t) {
            var j :| 0 <= j < |s| && s[j].Act? && s[j].action.Delete? && s[j].action.path == q;
            assert DeletesAt(t, j, q);
          }
          forall q | q in Deleted(t) ensures q in Deleted(s) {
            var j :| 0 <= j < |t| && t[j].Act? && t[j].action.Delete? && t[j].action.path == q;
            assert DeletesAt(s, j, q);
          }
        }
      }
    }
  }

  /** A loop that only writes and never raises keeps a file at every path it writes. */
  lemma {:induction false} WritesStay(fs: FileMap, s: seq<Step>)
    requires WriteOnly(s)
    requires forall j :: 0 <= j < |s| ==> !s[j].Raise?
    ensures forall p :: p in Written(s) ==> p in Perform(fs, s).files
    decreases |s|
  {
    if s != [] {
      var t := s[..|s| - 1];
      assert forall j :: 0 <= j < |t| ==> s[j] == t[j];
      WritesStay(fs, t);
      PerformCompletes(fs, t);
      forall p | p in Written(s)
        ensures p in Perform(fs, s).files
      {
        var j :| 0 <= j < |s| && s[j].Act? && s[j].action.Write? && s[j].action.path == p;
        var x := s[|s| - 1];
        assert Perform(fs, s) == Next(Perform(fs, t), x);
        if j < |t| {
          assert t[j].Act? && t[j].action.Write? && t[j].action.path == p;
          assert p in Written(t);
          if x.Act? {
            assert x.action.Write?;
          }
        }
      }
    }
  }

  /** A staging loop, even one that raises, keeps a file at every path its executed iterations write. */
  lemma WrittenKept(fs: FileMap, s: seq<Step>)
    requires WriteOnly(s)
    ensures forall p :: p in Written(Executed(s)) ==> p in Perform(fs, s).files
  {
    PerformShape(fs, s);
    var e := Executed(s);
    assert forall j :: 0 <= j < |e| ==> e[j] == s[j];
    WritesStay(fs, e);
  }

  /** A clean-up loop, even one that raises, removes what its executed iterations delete. */
  lemma CleanupRemoves(fs: FileMap, r: seq<Step>)
    requires DeleteOnly(r)
    ensures Perform(fs, r).files == fs - Deleted(Executed(r))
  {
    PerformShape(fs, r);
    var e := Executed(r);
    assert forall j :: 0 <= j < |e| ==> e[j] == r[j];
    PerformDeletes(fs, e);
  }

  /**
   * Running a clean-up loop twice is the same as running it once: deleting
   * an already missing file is swallowed and the loop raises, or not, alike.
   */
  lemma CleanupIdempotent(fs: FileMap, r: seq<Step>)
    requires DeleteOnly(r)
    ensures Perform(Perform(fs, r).files, r) == Perform(fs, r)
  {
    var once := Perform(fs, r).files;
    CleanupRemoves(fs, r);
    CleanupRemoves(once, r);
    ErrorIndependentOfDisk(fs, once, r);
  }

  /**
   * Staging followed by clean-up. When every path the staging loop wrote is
   * among those the clean-up loop deleted, no staged file survives, and a
   * path neither loop acts on is left as it was.
   */
  lemma StageThenCleanup(fs: FileMap, d: seq<Step>, r: seq<Step>)
    requires DeleteOnly(r)
    requires Written(Executed(d)) <= Deleted(Executed(r))
    ensures forall p :: p in Written(Executed(d)) ==> p !in Perform(Perform(fs, d).files, r).files
    ensures forall p :: !Touches(d, p) && !Touches(r, p) ==>
      (p in Perform(Perform(fs, d).files, r).files <==> p in fs) &&
      (p in fs ==> Perform(Perform(fs, d).files, r).files[p] == fs[p])
  {
    var mid := Perform(fs, d).files;
    CleanupRemoves(mid, r);
    forall p | !Touches(d, p) && !Touches(r, p)
      ensures p in Perform(mid, r).files <==> p in fs
      ensures p in fs ==> Perform(mid, r).files[p] == fs[p]
    {
      PerformFrame(fs, d, p);
      PerformFrame(mid, r, p);
    }
  }
}
