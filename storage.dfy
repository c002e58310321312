/** The part of the filesystem that TTSPlayer touches: temporary files made by
    tempfile.mkstemp, tested with os.path.exists and deleted with os.remove. */
module Storage {

  /** The suffix mkstemp is asked for. */
  datatype Suffix = Wav | Mp3

  /** A temporary path: mkstemp's unique name is abstracted to a number. */
  datatype Path = Path(id: nat, suffix: Suffix)

  /** The files that exist, and the first number mkstemp has not handed out. */
  datatype Disk = Disk(files: set<Path>, next: nat)

  /** Every existing file has a number below the next one mkstemp hands out,
      so the next name is unique. */
  ghost predicate DiskOk(d: Disk) {
    forall p :: p in d.files ==> p.id < d.next
  }

  /** tempfile.mkstemp(suffix=...): creates a new, empty file under a name
      no existing file has, and returns that name. */
  function MakeTemp(d: Disk, suffix: Suffix): (r: (Disk, Path))
    ensures DiskOk(d) ==> r.1 !in d.files && DiskOk(r.0)
    ensures r.1.suffix == suffix && r.0.files == d.files + {r.1}
    ensures d.next <= r.1.id < r.0.next
  {
    var p := Path(d.next, suffix);
    (Disk(d.files + {p}, d.next + 1), p)
  }

  /** os.remove after an os.path.exists test (or with its error swallowed):
      the path is gone afterwards, whether or not it existed. */
  function Removed(d: Disk, p: Path): (r: Disk)
    ensures p !in r.files && r.next == d.next
    ensures forall q :: q != p ==> (q in r.files <==> q in d.files)
    ensures DiskOk(d) ==> DiskOk(r)
  {
    Disk(d.files - {p}, d.next)
  }

  class FileSystem {
    var files: set<Path>
    var next: nat

    function State(): Disk
      reads this
    {
      Disk(files, next)
    }

    ghost predicate Valid()
      reads this
    {
      DiskOk(State())
    }

    /** A filesystem with the given files, none of which uses a number at or above `next`. */
    constructor (existing: set<Path>, next: nat)
      requires forall p :: p in existing ==> p.id < next
      ensures Valid() && State() == Disk(existing, next)
    {
      files := existing;
      this.next := next;
    }

    method Mkstemp(suffix: Suffix) returns (p: Path)
      requires Valid()
      modifies this
      ensures Valid()
      ensures (State(), p) == MakeTemp(old(State()), suffix)
    {
      p := Path(next, suffix);
      files := files + {p};
      next := next + 1;
    }

    /** Deletes `p` if it exists; a missing file is tolerated. */
    method Remove(p: Path)
      requires Valid()
      modifies this
      ensures Valid()
      ensures State() == Removed(old(State()), p)
    {
      if p in files {
        files := files - {p};
      }
    }
  }
}
