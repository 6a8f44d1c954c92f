/** An abstract operating system: the directories and files that exist, the ownership
    assigned to paths, and which operations the host refuses. The primitives return
    None where the real call raises OSError or IOError. */
module OsModel {
  import opened ExportTypes
  import opened Paths

  /** What is on disk. `owners` records the ownership set by chown; the identity a
      newly created entry gets from the running process is not modelled. */
  datatype Disk = Disk(dirs: set<Path>, files: map<Path, string>, owners: map<Path, Identity>)

  /** Failure oracles: the paths on which makedirs, chown or a write is refused
      (permissions, read-only mounts, and the like). */
  datatype Faults = Faults(mkdir: set<Path>, chown: set<Path>, write: set<Path>)

  /** os.path.exists: a directory or a file is at `p`. */
  predicate Exists(d: Disk, p: Path) {
    p in d.dirs || p in d.files
  }

  /** Whether open(p, 'w') succeeds: not refused, and not a directory. */
  predicate CanWrite(d: Disk, f: Faults, p: Path) {
    p !in f.write && p !in d.dirs
  }

  /** os.makedirs(p): refuses an existing path; otherwise creates `p` and its ancestors. */
  function MakeDirs(d: Disk, f: Faults, p: Path): Option<Disk> {
    if Exists(d, p) || p in f.mkdir then None
    else Some(d.(dirs := d.dirs + Lineage(p)))
  }

  /** os.chown(p, uid, gid): fails on a missing path or a refused one. */
  function ChangeOwner(d: Disk, f: Faults, p: Path, id: Identity): Option<Disk> {
    if !Exists(d, p) || p in f.chown then None
    else Some(d.(owners := d.owners[p := id]))
  }

  /** open(p, 'w').write(content): replaces whatever file was at `p`. */
  function WriteFile(d: Disk, f: Faults, p: Path, content: string): Option<Disk> {
    if !CanWrite(d, f, p) then None
    else Some(d.(files := d.files[p := content]))
  }

  /** The disk after a primitive: its new disk if it succeeded, the old one otherwise. */
  function Apply(d: Disk, r: Option<Disk>): Disk {
    if r.Some? then r.value else d
  }
}
