/** BaseExport: resolves the target user, prepares the export and log directories,
    asks the format's render method for the files, writes them, and returns them. */
module Export {
  import opened ExportTypes
  import opened Paths
  import OsModel
  import ExportModel
  import Host

  class BaseExport {
    const procfile: Procfile
    const options: Options
    const environment: Environment
    const concurrency: Concurrency
    /** Owner and group of options.user, fixed at construction. */
    const uid: nat
    const gid: nat
    /** The filesystem the export changes. */
    const fs: Host.FileSystem
    /** The format's render method; ExportModel.BaseRender for the base class. */
    const render: Renderer

    /** Stores the inputs and the resolved account. */
    constructor (procfile: Procfile, options: Options, environment: Environment, concurrency: Concurrency,
                 account: Identity, fs: Host.FileSystem, render: Renderer)
      ensures this.procfile == procfile && this.options == options
      ensures this.environment == environment && this.concurrency == concurrency
      ensures uid == account.uid && gid == account.gid
      ensures this.fs == fs && this.render == render
    {
      this.procfile, this.options := procfile, options;
      this.environment, this.concurrency := environment, concurrency;
      uid, gid := account.uid, account.gid;
      this.fs, this.render := fs, render;
    }

    /** BaseExport(procfile, options, environment, concurrency): looks the user up
        first and raises "No such user" before anything else happens. */
    static method Create(procfile: Procfile, options: Options, environment: Environment, concurrency: Concurrency,
                         users: UserDatabase, fs: Host.FileSystem, render: Renderer)
      returns (r: Result<BaseExport>)
      ensures r.Failure? <==> options.user !in users
      ensures r.Failure? ==> r.error == UserNotFound(options.user)
      ensures r.Success? ==> fresh(r.value) && r.value.Owner() == users[options.user]
      ensures r.Success? ==> r.value.fs == fs && r.value.options == options && r.value.render == render
      ensures r.Success? ==> r.value.procfile == procfile && r.value.environment == environment
      ensures r.Success? ==> r.value.concurrency == concurrency
      ensures unchanged(fs)
    {
      var entry := ExportModel.LookupUser(users, options.user);
      if entry.Failure? {
        return Failure(entry.error);
      }
      var e := new BaseExport(procfile, options, environment, concurrency, entry.value, fs, render);
      return Success(e);
    }

    /** The identity _chown applies. */
    function Owner(): Identity {
      Identity(uid, gid)
    }

    /** _mkdir */
    method Mkdir(directory: Path) returns (o: Outcome)
      modifies fs
      ensures ExportModel.Effect(fs.State(), o) == ExportModel.Step(old(fs.State()), ExportModel.Mkdir(old(fs.State()), fs.faults, directory))
    {
      if fs.PathExists(directory) {
        return Pass;
      }
      var ok := fs.MakeDirs(directory);
      if !ok {
        return Fail(CannotCreate(directory));
      }
      return Pass;
    }

    /** _chown */
    method Chown(filename: Path) returns (o: Outcome)
      modifies fs
      ensures ExportModel.Effect(fs.State(), o) ==
              ExportModel.Step(old(fs.State()), ExportModel.Chown(old(fs.State()), fs.faults, Owner(), options.log, options.user, filename))
    {
      var ok := fs.ChangeOwner(filename, Owner());
      if !ok {
        return Fail(CannotChown(options.log, options.user));
      }
      return Pass;
    }

    /** _write */
    method Write(filename: string, content: string) returns (o: Outcome)
      modifies fs
      ensures ExportModel.Effect(fs.State(), o) ==
              ExportModel.Step(old(fs.State()), ExportModel.Write(old(fs.State()), fs.faults, options.location, filename, content))
    {
      var path := Join(options.location, filename);
      var ok := fs.WriteFile(path, content);
      if !ok {
        return Fail(CannotWrite(path));
      }
      return Pass;
    }

    /** get_template: the text at directory/format/name in `package`, or "Can not
        find template" naming the template. */
    function GetTemplate(store: TemplateStore, name: string, package: string,
                         directory: Path := DefaultTemplateDirectory): (r: Result<string>)
      ensures r.Success? <==> (package, TemplatePath(directory, options.format, name)) in store
      ensures r.Success? ==> r.value == store[(package, TemplatePath(directory, options.format, name))]
      ensures r.Failure? ==> r.error == TemplateNotFound(name)
    {
      var path := (package, TemplatePath(directory, options.format, name));
      if path in store then Success(store[path]) else Failure(TemplateNotFound(name))
    }

    /** export(): the steps run in order and the first failure ends the run. */
    method Export() returns (r: Result<seq<RenderedFile>>)
      modifies fs
      ensures ExportModel.Exported(fs.State(), r) ==
              ExportModel.Export(old(fs.State()), fs.faults, options, Owner(), render(procfile, options, environment, concurrency))
    {
      var o := Mkdir(options.location);
      if o.Fail? {
        return Failure(o.error);
      }
      o := Mkdir(options.log);
      if o.Fail? {
        return Failure(o.error);
      }
      o := Chown(options.log);
      if o.Fail? {
        return Failure(o.error);
      }
      var rendered := render(procfile, options, environment, concurrency);
      if rendered.Failure? {
        return Failure(rendered.error);
      }
      var files := rendered.value;
      ghost var prepared := fs.State();
      for i := 0 to |files|
        invariant ExportModel.WriteAll(prepared, fs.faults, options.location, files[..i]) == ExportModel.Effect(fs.State(), Pass)
      {
        ghost var before := fs.State();
        o := Write(files[i].name, files[i].content);
        assert files[..i + 1] == files[..i] + [files[i]];
        ExportModel.WriteAllAppend(prepared, fs.faults, options.location, files[..i], [files[i]]);
        assert ExportModel.WriteAll(before, fs.faults, options.location, [files[i]]) == ExportModel.Effect(fs.State(), o);
        if o.Fail? {
          assert files == files[..i + 1] + files[i + 1..];
          ExportModel.WriteAllAppend(prepared, fs.faults, options.location, files[..i + 1], files[i + 1..]);
          return Failure(o.error);
        }
      }
      assert files[..|files|] == files;
      return rendered;
    }
  }

  /** BaseExport(...).export() as a caller runs it: a user that does not resolve stops
      the run before the filesystem is touched. */
  method ConstructAndExport(procfile: Procfile, options: Options, environment: Environment, concurrency: Concurrency,
                            users: UserDatabase, fs: Host.FileSystem, render: Renderer)
    returns (r: Result<seq<RenderedFile>>)
    modifies fs
    ensures ExportModel.Exported(fs.State(), r) ==
            ExportModel.Run(users, old(fs.State()), fs.faults, options, render, procfile, environment, concurrency)
  {
    var exporter := BaseExport.Create(procfile, options, environment, concurrency, users, fs, render);
    if exporter.Failure? {
      return Failure(exporter.error);
    }
    r := exporter.value.Export();
  }
}
