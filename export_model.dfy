/** The export orchestration as functions on disk values: what each step of
    BaseExport does to the disk and what it returns, and the ordering and gating
    properties of the whole run. */
module ExportModel {
  import opened ExportTypes
  import opened Paths
  import opened OsModel

  /** The disk after a run of steps and how the run ended. */
  datatype Effect = Effect(disk: Disk, outcome: Outcome)

  /** The disk after export() and what it returned or raised. */
  datatype Exported = Exported(disk: Disk, result: Result<seq<RenderedFile>>)

  /** One step as an effect: a failed step leaves the disk as it was. */
  function Step(d: Disk, r: Result<Disk>): Effect {
    if r.Success? then Effect(r.value, Pass) else Effect(d, Fail(r.error))
  }

  /** pwd.getpwnam(user): the account's owner and group, or "No such user". */
  function LookupUser(users: UserDatabase, user: string): (r: Result<Identity>)
    ensures r.Success? <==> user in users
    ensures r.Success? ==> r.value == users[user]
    ensures r.Failure? ==> r.error == UserNotFound(user)
  {
    if user in users then Success(users[user]) else Failure(UserNotFound(user))
  }

  /** _mkdir: nothing to do when the path exists; otherwise makedirs, failing with
      "Can not create" naming the directory. */
  function Mkdir(d: Disk, f: Faults, directory: Path): (r: Result<Disk>)
    ensures Exists(d, directory) ==> r == Success(d)
    ensures r.Failure? <==> !Exists(d, directory) && directory in f.mkdir
    ensures r.Failure? ==> r.error == CannotCreate(directory)
    ensures r.Success? ==> Exists(r.value, directory) && d.dirs <= r.value.dirs
    ensures r.Success? ==> r.value.files == d.files && r.value.owners == d.owners
    ensures r.Success? ==> forall q :: q in r.value.dirs && q !in d.dirs ==> q == directory || IsAncestor(q, directory)
    ensures r.Success? && !Exists(d, directory) ==> forall q :: IsAncestor(q, directory) ==> q in r.value.dirs
  {
    if Exists(d, directory) then Success(d)
    else match MakeDirs(d, f, directory)
      case None => Failure(CannotCreate(directory))
      case Some(d') => Success(d')
  }

  /** Calling _mkdir a second time changes nothing and does not fail. */
  lemma MkdirIdempotent(d: Disk, f: Faults, directory: Path)
    requires Mkdir(d, f, directory).Success?
    ensures Mkdir(Mkdir(d, f, directory).value, f, directory) == Mkdir(d, f, directory)
  {
  }

  /** _chown: gives `filename` the resolved identity. The error names the log
      directory and the user, whichever path was being changed. */
  function Chown(d: Disk, f: Faults, id: Identity, log: Path, user: string, filename: Path): (r: Result<Disk>)
    ensures r.Failure? <==> !Exists(d, filename) || filename in f.chown
    ensures r.Failure? ==> r.error == CannotChown(log, user)
    ensures r.Success? ==> filename in r.value.owners && r.value.owners[filename] == id
    ensures r.Success? ==> forall p :: p != filename ==> (p in r.value.owners <==> p in d.owners)
    ensures r.Success? ==> forall p :: p != filename && p in d.owners ==> r.value.owners[p] == d.owners[p]
    ensures r.Success? ==> r.value.dirs == d.dirs && r.value.files == d.files
  {
    match ChangeOwner(d, f, filename, id)
    case None => Failure(CannotChown(log, user))
    case Some(d') => Success(d')
  }

  /** _write: replaces the file at location/name with `content`, or fails with
      "Can not write" naming that path. */
  function Write(d: Disk, f: Faults, location: Path, name: string, content: string): (r: Result<Disk>)
    ensures r.Failure? <==> !CanWrite(d, f, Join(location, name))
    ensures r.Failure? ==> r.error == CannotWrite(Join(location, name))
    ensures r.Success? ==> Join(location, name) in r.value.files && r.value.files[Join(location, name)] == content
    ensures r.Success? ==> forall p :: p != Join(location, name) ==> (p in r.value.files <==> p in d.files)
    ensures r.Success? ==> forall p :: p != Join(location, name) && p in d.files ==> r.value.files[p] == d.files[p]
    ensures r.Success? ==> r.value.dirs == d.dirs && r.value.owners == d.owners
  {
    match WriteFile(d, f, Join(location, name), content)
    case None => Failure(CannotWrite(Join(location, name)))
    case Some(d') => Success(d')
  }

  /** The write loop of export(): each file in order, stopping at the first failure. */
  function WriteAll(d: Disk, f: Faults, location: Path, files: seq<RenderedFile>): (r: Effect)
    ensures r.disk.dirs == d.dirs && r.disk.owners == d.owners
    ensures d.files.Keys <= r.disk.files.Keys
    decreases |files|
  {
    if files == [] then Effect(d, Pass)
    else match Write(d, f, location, files[0].name, files[0].content)
      case Failure(e) => Effect(d, Fail(e))
      case Success(d') => WriteAll(d', f, location, files[1..])
  }

  /** Writing `a` then `b` is writing `a + b`; a failure in `a` means `b` is never tried. */
  lemma {:induction false} WriteAllAppend(d: Disk, f: Faults, location: Path, a: seq<RenderedFile>, b: seq<RenderedFile>)
    ensures WriteAll(d, f, location, a + b) ==
            (var w := WriteAll(d, f, location, a);
             if w.outcome.Fail? then w else WriteAll(w.disk, f, location, b))
    decreases |a|
  {
    if a == [] {
      assert a + b == b;
    } else {
      assert (a + b)[0] == a[0];
      assert (a + b)[1..] == a[1..] + b;
      match Write(d, f, location, a[0].name, a[0].content)
      case Failure(e) =>
      case Success(d') => WriteAllAppend(d', f, location, a[1..], b);
    }
  }

  /** The loop completes exactly when every target path is writable. */
  lemma {:induction false} WriteAllPassIff(d: Disk, f: Faults, location: Path, files: seq<RenderedFile>)
    ensures WriteAll(d, f, location, files).outcome.Pass? <==>
            forall j :: 0 <= j < |files| ==> CanWrite(d, f, Join(location, files[j].name))
    decreases |files|
  {
    if files != [] {
      match Write(d, f, location, files[0].name, files[0].content)
      case Failure(e) =>
      case Success(d') =>
        WriteAllPassIff(d', f, location, files[1..]);
        assert forall j :: 1 <= j < |files| ==> files[j] == files[1..][j - 1];
    }
  }

  /** A path none of the files is written to keeps its content, whatever happens. */
  lemma {:induction false} WriteAllUntouched(d: Disk, f: Faults, location: Path, files: seq<RenderedFile>, p: Path)
    requires forall j :: 0 <= j < |files| ==> Join(location, files[j].name) != p
    ensures var w := WriteAll(d, f, location, files).disk;
            (p in w.files <==> p in d.files) && (p in d.files ==> w.files[p] == d.files[p])
    decreases |files|
  {
    if files != [] {
      match Write(d, f, location, files[0].name, files[0].content)
      case Failure(e) =>
      case Success(d') =>
        assert forall j :: 0 <= j < |files[1..]| ==> files[1..][j] == files[j + 1];
        WriteAllUntouched(d', f, location, files[1..], p);
    }
  }

  /** After a complete loop, each file's path holds the content of the last entry
      with that name: writes are applied in order and each overwrites. */
  lemma {:induction false} WriteAllLastWins(d: Disk, f: Faults, location: Path, files: seq<RenderedFile>, k: nat)
    requires WriteAll(d, f, location, files).outcome.Pass?
    requires k < |files|
    requires forall j :: k < j < |files| ==> files[j].name != files[k].name
    ensures var w := WriteAll(d, f, location, files).disk;
            Join(location, files[k].name) in w.files && w.files[Join(location, files[k].name)] == files[k].content
    decreases |files|
  {
    var first := Write(d, f, location, files[0].name, files[0].content);
    assert first.Success?;
    var d' := first.value;
    var rest := files[1..];
    assert WriteAll(d, f, location, files) == WriteAll(d', f, location, rest);
    var p := Join(location, files[0].name);
    if k == 0 {
      forall j | 0 <= j < |rest| ensures Join(location, rest[j].name) != p {
        assert rest[j] == files[j + 1];
        if Join(location, rest[j].name) == p {
          JoinInjective(location, rest[j].name, files[0].name);
        }
      }
      WriteAllUntouched(d', f, location, rest, p);
    } else {
      forall j | k - 1 < j < |rest| ensures rest[j].name != rest[k - 1].name {
        assert rest[j] == files[j + 1];
      }
      WriteAllLastWins(d', f, location, rest, k - 1);
    }
  }

  /** A failed loop stops at the first unwritable path: the disk is exactly what the
      files before it made it (nothing is rolled back), and the error names that path. */
  lemma {:induction false} WriteAllFailure(d: Disk, f: Faults, location: Path, files: seq<RenderedFile>)
    requires WriteAll(d, f, location, files).outcome.Fail?
    ensures exists k :: 0 <= k < |files|
              && WriteAll(d, f, location, files[..k]) == Effect(WriteAll(d, f, location, files).disk, Pass)
              && !CanWrite(d, f, Join(location, files[k].name))
              && WriteAll(d, f, location, files).outcome.error == CannotWrite(Join(location, files[k].name))
    decreases |files|
  {
    var w := WriteAll(d, f, location, files);
    var first := Write(d, f, location, files[0].name, files[0].content);
    if first.Failure? {
      assert files[..0] == [];
      assert WriteAll(d, f, location, files[..0]) == Effect(w.disk, Pass);
    } else {
      var d' := first.value;
      var rest := files[1..];
      assert w == WriteAll(d', f, location, rest);
      WriteAllFailure(d', f, location, rest);
      var k' :| 0 <= k' < |rest|
              && WriteAll(d', f, location, rest[..k']) == Effect(w.disk, Pass)
              && !CanWrite(d', f, Join(location, rest[k'].name))
              && w.outcome.error == CannotWrite(Join(location, rest[k'].name));
      var k := k' + 1;
      var prefix := files[..k];
      assert prefix[0] == files[0] && prefix[1..] == rest[..k'];
      assert files[k] == rest[k'];
      assert WriteAll(d, f, location, prefix) == WriteAll(d', f, location, rest[..k']);
      assert d'.dirs == d.dirs;
    }
  }

  /** The last entry at or after `j` carrying the same name as entry `j`. */
  lemma LastEntry(files: seq<RenderedFile>, j: nat) returns (k: nat)
    requires j < |files|
    ensures j <= k < |files| && files[k].name == files[j].name
    ensures forall i :: k < i < |files| ==> files[i].name != files[k].name
  {
    k := j;
    var i := j + 1;
    while i < |files|
      invariant j <= k < i <= |files| && files[k].name == files[j].name
      invariant forall m :: k < m < i ==> files[m].name != files[k].name
    {
      if files[i].name == files[j].name {
        k := i;
      }
      i := i + 1;
    }
  }

  /** Writing the same files again onto the disk a complete loop produced succeeds
      and changes nothing. */
  lemma WriteAllRepeat(d: Disk, f: Faults, location: Path, files: seq<RenderedFile>)
    requires WriteAll(d, f, location, files).outcome.Pass?
    ensures WriteAll(WriteAll(d, f, location, files).disk, f, location, files) == WriteAll(d, f, location, files)
  {
    var w := WriteAll(d, f, location, files);
    var w2 := WriteAll(w.disk, f, location, files);
    WriteAllPassIff(d, f, location, files);
    WriteAllPassIff(w.disk, f, location, files);
    forall p ensures (p in w2.disk.files <==> p in w.disk.files) && (p in w.disk.files ==> w2.disk.files[p] == w.disk.files[p]) {
      if j :| 0 <= j < |files| && Join(location, files[j].name) == p {
        var k := LastEntry(files, j);
        WriteAllLastWins(d, f, location, files, k);
        WriteAllLastWins(w.disk, f, location, files, k);
      } else {
        WriteAllUntouched(w.disk, f, location, files, p);
      }
    }
    assert w2.disk.files == w.disk.files;
  }

  /** The three preparation steps of export(): create location, create log, chown log. */
  function Prepare(d: Disk, f: Faults, options: Options, id: Identity): (r: Effect)
    ensures r.outcome.Pass? ==> Exists(r.disk, options.location) && Exists(r.disk, options.log)
    ensures r.outcome.Pass? ==> r.disk.owners == d.owners[options.log := id]
    ensures r.outcome.Fail? ==> r.disk.owners == d.owners
    ensures r.disk.files == d.files
    ensures d.dirs <= r.disk.dirs
    ensures forall q :: q in r.disk.dirs && q !in d.dirs ==> q in Lineage(options.location) + Lineage(options.log)
    ensures r.outcome.Fail? ==>
              r.outcome.error in {CannotCreate(options.location), CannotCreate(options.log), CannotChown(options.log, options.user)}
  {
    match Mkdir(d, f, options.location)
    case Failure(e) => Effect(d, Fail(e))
    case Success(d1) =>
      match Mkdir(d1, f, options.log)
      case Failure(e) => Effect(d1, Fail(e))
      case Success(d2) => Step(d2, Chown(d2, f, id, options.log, options.user, options.log))
  }

  /** export(): prepare, then take the rendered files, write them in order, and return
      them. `rendered` is what the format's render method produced or raised. */
  function Export(d: Disk, f: Faults, options: Options, id: Identity, rendered: Result<seq<RenderedFile>>): (r: Exported)
    ensures r.result.Success? ==> r.result == rendered
    ensures r.disk.owners == d.owners || r.disk.owners == d.owners[options.log := id]
    ensures rendered.Failure? ==> r.result.Failure? && r.disk.files == d.files
    ensures d.dirs <= r.disk.dirs
    ensures forall q :: q in r.disk.dirs && q !in d.dirs ==> q in Lineage(options.location) + Lineage(options.log)
  {
    var p := Prepare(d, f, options, id);
    if p.outcome.Fail? then Exported(p.disk, Failure(p.outcome.error))
    else match rendered
      case Failure(e) => Exported(p.disk, Failure(e))
      case Success(files) =>
        var w := WriteAll(p.disk, f, options.location, files);
        if w.outcome.Fail? then Exported(w.disk, Failure(w.outcome.error))
        else Exported(w.disk, Success(files))
  }

  /** If creating `location` fails, export fails with that error and nothing changes. */
  lemma LocationFailureChangesNothing(d: Disk, f: Faults, options: Options, id: Identity, rendered: Result<seq<RenderedFile>>)
    requires !Exists(d, options.location) && options.location in f.mkdir
    ensures Export(d, f, options, id, rendered) == Exported(d, Failure(CannotCreate(options.location)))
  {
  }

  /** If creating `log` fails, only `location` has been created: no ownership is
      changed and no file is written. */
  lemma LogFailureAfterLocation(d: Disk, f: Faults, options: Options, id: Identity, rendered: Result<seq<RenderedFile>>)
    requires Mkdir(d, f, options.location).Success?
    requires Mkdir(Mkdir(d, f, options.location).value, f, options.log).Failure?
    ensures var r := Export(d, f, options, id, rendered);
            r == Exported(Mkdir(d, f, options.location).value, Failure(CannotCreate(options.log)))
            && r.disk.owners == d.owners && r.disk.files == d.files && Exists(r.disk, options.location)
  {
  }

  /** If chown of `log` fails, both paths exist (a plain file already there counts),
      no ownership has changed and no file is written; render's outcome does not matter. */
  lemma ChownFailureAfterDirectories(d: Disk, f: Faults, options: Options, id: Identity, rendered: Result<seq<RenderedFile>>)
    requires Mkdir(d, f, options.location).Success?
    requires var d1 := Mkdir(d, f, options.location).value;
             Mkdir(d1, f, options.log).Success? &&
             Chown(Mkdir(d1, f, options.log).value, f, id, options.log, options.user, options.log).Failure?
    ensures var r := Export(d, f, options, id, rendered);
            r.result == Failure(CannotChown(options.log, options.user))
            && r.disk == Mkdir(Mkdir(d, f, options.location).value, f, options.log).value
            && r.disk.owners == d.owners && r.disk.files == d.files
            && Exists(r.disk, options.location) && Exists(r.disk, options.log)
  {
  }

  /** If render fails after preparation, export raises render's error and the disk is
      the prepared one: no file is written. */
  lemma RenderFailureAfterPreparation(d: Disk, f: Faults, options: Options, id: Identity, e: Error)
    requires Prepare(d, f, options, id).outcome.Pass?
    ensures Export(d, f, options, id, Failure(e)) == Exported(Prepare(d, f, options, id).disk, Failure(e))
  {
  }

  /** export() succeeds exactly when preparation succeeds, render produces files and
      every target path under `location` is writable; it then returns the rendered
      sequence, both paths exist (a plain file already there counts), and only `log`
      has a new owner. */
  lemma ExportSucceedsIff(d: Disk, f: Faults, options: Options, id: Identity, rendered: Result<seq<RenderedFile>>)
    ensures var p := Prepare(d, f, options, id);
            Export(d, f, options, id, rendered).result.Success? <==>
              p.outcome.Pass? && rendered.Success? &&
              forall j :: 0 <= j < |rendered.value| ==> CanWrite(p.disk, f, Join(options.location, rendered.value[j].name))
    ensures var r := Export(d, f, options, id, rendered);
            r.result.Success? ==>
              r.result == rendered && r.disk.owners == d.owners[options.log := id] &&
              Exists(r.disk, options.location) && Exists(r.disk, options.log)
  {
    var p := Prepare(d, f, options, id);
    if p.outcome.Pass? && rendered.Success? {
      WriteAllPassIff(p.disk, f, options.location, rendered.value);
    }
  }

  /** Exporting again onto the disk a successful export left, with the same inputs,
      succeeds, returns the same files and changes nothing: re-export is idempotent. */
  lemma ExportTwice(d: Disk, f: Faults, options: Options, id: Identity, rendered: Result<seq<RenderedFile>>)
    requires Export(d, f, options, id, rendered).result.Success?
    ensures Export(Export(d, f, options, id, rendered).disk, f, options, id, rendered) == Export(d, f, options, id, rendered)
  {
    var r := Export(d, f, options, id, rendered);
    var p := Prepare(d, f, options, id);
    var d' := r.disk;
    assert d'.owners[options.log := id] == d'.owners;
    assert Prepare(d', f, options, id) == Effect(d', Pass);
    WriteAllRepeat(p.disk, f, options.location, rendered.value);
  }

  /** After a successful export, every returned file is on disk under `location`
      (the last entry of a repeated name wins); ExportLeavesOtherFiles covers the
      files it does not target. */
  lemma ExportWroteReturnedFiles(d: Disk, f: Faults, options: Options, id: Identity, rendered: Result<seq<RenderedFile>>, k: nat)
    requires Export(d, f, options, id, rendered).result.Success?
    requires k < |rendered.value|
    requires forall j :: k < j < |rendered.value| ==> rendered.value[j].name != rendered.value[k].name
    ensures var files := Export(d, f, options, id, rendered).disk.files;
            Join(options.location, rendered.value[k].name) in files &&
            files[Join(options.location, rendered.value[k].name)] == rendered.value[k].content
  {
    WriteAllLastWins(Prepare(d, f, options, id).disk, f, options.location, rendered.value, k);
  }

  /** A file that export() does not write to keeps its content, on success or failure. */
  lemma ExportLeavesOtherFiles(d: Disk, f: Faults, options: Options, id: Identity, rendered: Result<seq<RenderedFile>>, p: Path)
    requires rendered.Success? ==> forall j :: 0 <= j < |rendered.value| ==> Join(options.location, rendered.value[j].name) != p
    ensures var files := Export(d, f, options, id, rendered).disk.files;
            (p in files <==> p in d.files) && (p in d.files ==> files[p] == d.files[p])
  {
    var prepared := Prepare(d, f, options, id);
    if prepared.outcome.Pass? && rendered.Success? {
      WriteAllUntouched(prepared.disk, f, options.location, rendered.value, p);
    }
  }

  /** A write that fails ends the export with that error; the files before it stay
      written (there is no rollback) and no later file is attempted. */
  lemma ExportFailedWriteKeepsEarlier(d: Disk, f: Faults, options: Options, id: Identity, rendered: Result<seq<RenderedFile>>)
    requires Prepare(d, f, options, id).outcome.Pass? && rendered.Success?
    requires Export(d, f, options, id, rendered).result.Failure?
    ensures var prepared := Prepare(d, f, options, id).disk;
            var r := Export(d, f, options, id, rendered);
            exists k :: 0 <= k < |rendered.value|
              && WriteAll(prepared, f, options.location, rendered.value[..k]) == Effect(r.disk, Pass)
              && r.result.error == CannotWrite(Join(options.location, rendered.value[k].name))
  {
    WriteAllFailure(Prepare(d, f, options, id).disk, f, options.location, rendered.value);
  }

  /** The base class's render: it always raises NotImplementedError. */
  function BaseRender(procfile: Procfile, options: Options, environment: Environment, concurrency: Concurrency): (r: Result<seq<RenderedFile>>)
    ensures r.Failure? && r.error == RenderNotImplemented
  {
    Failure(RenderNotImplemented)
  }

  /** Exporting with the base render never succeeds and never writes a file; once
      preparation has passed it fails with RenderNotImplemented. */
  lemma BaseRenderWritesNothing(d: Disk, f: Faults, options: Options, id: Identity,
                                procfile: Procfile, environment: Environment, concurrency: Concurrency)
    ensures var r := Export(d, f, options, id, BaseRender(procfile, options, environment, concurrency));
            r.result.Failure? && r.disk.files == d.files &&
            (Prepare(d, f, options, id).outcome.Pass? ==> r.result.error == RenderNotImplemented)
  {
  }

  /** Constructing a BaseExport and calling export(): the user is resolved first, and
      the resolved account is the identity given to `log`. */
  function Run(users: UserDatabase, d: Disk, f: Faults, options: Options, render: Renderer,
               procfile: Procfile, environment: Environment, concurrency: Concurrency): (r: Exported)
    ensures options.user !in users ==> r == Exported(d, Failure(UserNotFound(options.user)))
    ensures options.user in users && r.result.Success? ==> r.disk.owners == d.owners[options.log := users[options.user]]
  {
    match LookupUser(users, options.user)
    case Failure(e) => Exported(d, Failure(e))
    case Success(id) =>
      var rendered := render(procfile, options, environment, concurrency);
      ExportSucceedsIff(d, f, options, id, rendered);
      Export(d, f, options, id, rendered)
  }
}
