/** The host filesystem as mutable state, with the system calls the exporter makes. */
module Host {
  import opened ExportTypes
  import opened Paths
  import OsModel

  class FileSystem {
    var dirs: set<Path>
    var files: map<Path, string>
    var owners: map<Path, Identity>
    /** Which operations this host refuses; fixed for the run. */
    const faults: OsModel.Faults

    constructor (disk: OsModel.Disk, faults: OsModel.Faults)
      ensures State() == disk && this.faults == faults
    {
      dirs, files, owners := disk.dirs, disk.files, disk.owners;
      this.faults := faults;
    }

    /** The current disk as a value. */
    function State(): OsModel.Disk
      reads this
    {
      OsModel.Disk(dirs, files, owners)
    }

    /** os.path.exists */
    predicate PathExists(p: Path)
      reads this
      ensures PathExists(p) <==> OsModel.Exists(State(), p)
    {
      p in dirs || p in files
    }

    /** os.makedirs; `ok` is false where it would raise. */
    method MakeDirs(p: Path) returns (ok: bool)
      modifies this
      ensures ok == OsModel.MakeDirs(old(State()), faults, p).Some?
      ensures State() == OsModel.Apply(old(State()), OsModel.MakeDirs(old(State()), faults, p))
    {
      ok := !PathExists(p) && p !in faults.mkdir;
      if ok {
        dirs := dirs + Lineage(p);
      }
    }

    /** os.chown; `ok` is false where it would raise. */
    method ChangeOwner(p: Path, id: Identity) returns (ok: bool)
      modifies this
      ensures ok == OsModel.ChangeOwner(old(State()), faults, p, id).Some?
      ensures State() == OsModel.Apply(old(State()), OsModel.ChangeOwner(old(State()), faults, p, id))
    {
      ok := PathExists(p) && p !in faults.chown;
      if ok {
        owners := owners[p := id];
      }
    }

    /** open(p, 'w').write(content); `ok` is false where it would raise. */
    method WriteFile(p: Path, content: string) returns (ok: bool)
      modifies this
      ensures ok == OsModel.WriteFile(old(State()), faults, p, content).Some?
      ensures State() == OsModel.Apply(old(State()), OsModel.WriteFile(old(State()), faults, p, content))
    {
      ok := p !in faults.write && p !in dirs;
      if ok {
        files := files[p := content];
      }
    }
  }
}
