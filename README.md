# honcho export orchestrator, modelled in Dafny

honcho's `export` command turns a Procfile into configuration files for a process
supervisor. `BaseExport` is the format-independent part of every exporter:

1. It resolves `options.user` to a numeric owner and group.
2. It creates the export `location` and the `log` directory.
3. It gives `log` to that user.
4. It asks the format's `render` method for an ordered list of `(name, content)` files.
5. It writes those files under `location` and returns the list.

Each step is a hard gate: the first one that raises ends the export.

This project models that orchestration. The operating system is an abstract disk:
- a set of directories;
- a map from path to file content;
- a map from path to the ownership set by `chown`.

Failure oracles (sets of paths on which `makedirs`, `chown` or a write is refused)
stand for permission errors and the like. The account database is a map from user
name to `(uid, gid)`. The template store is a map from `(package, relative path)`
to text. A format's `render` method is a function value, injected at construction.

Files:
- `types.dfy` (`ExportTypes`): options, identities, rendered files, the error kinds, `Result`/`Outcome`.
- `paths.dfy` (`Paths`): `os.path.join` for relative components, the ancestors `os.makedirs` creates, and the template path.
- `os_model.dfy` (`OsModel`): the disk as a value and the system calls as functions.
- `host.dfy` (`Host`): the disk as a mutable `FileSystem` object whose methods are those system calls.
- `export_model.dfy` (`ExportModel`): each `BaseExport` step as a function on disk values, plus the ordering, gating and write-loop lemmas.
- `base_export.dfy` (`Export`): the `BaseExport` class. Its stateful methods are proved equal to the `ExportModel` functions.

Two behaviours of `base.py` that the model keeps as written:
- `_mkdir` skips creation whenever anything exists at the path, including a plain file, not only a directory.
- The `_chown` error names `options.log` and `options.user` whatever path was being changed.

## Model

| member | source | states |
|---|---|---|
| ExportModel.LookupUser | honcho/export/base.py:30-37 | succeeds exactly when the user is in the account database, yielding that account's uid and gid; otherwise fails with UserNotFound naming the user |
| Export.BaseExport.constructor | honcho/export/base.py:24-37 | stores procfile, options, environment, concurrency and the given account's uid and gid |
| Export.BaseExport.Create | honcho/export/base.py:24-37 | fails with UserNotFound exactly when the user is unknown, touching nothing; otherwise a fresh exporter whose identity is exactly the account's (uid, gid) |
| Export.BaseExport.Owner | honcho/export/base.py:51 | the (uid, gid) pair applied by chown is the pair stored at construction |
| Host.FileSystem.PathExists | honcho/export/base.py:40 | true exactly when a directory or a file is at the path |
| Host.FileSystem.MakeDirs | honcho/export/base.py:43 | succeeds exactly when the abstract makedirs does, and the disk becomes its result (the directory and its ancestors added) |
| Host.FileSystem.ChangeOwner | honcho/export/base.py:51 | succeeds exactly when the path exists and chown is not refused; the new disk records the new owner |
| Host.FileSystem.WriteFile | honcho/export/base.py:61 | succeeds exactly when the path is writable; the new disk holds the content at that path |
| Paths.Join | honcho/export/base.py:58 | os.path.join of a base and a relative name: the base, a '/' unless the base is empty or already ends in one, then the name (properties in Paths.JoinParts) |
| Paths.TemplatePath | honcho/export/base.py:76 | os.path.join(directory, format, name) as two joins |
| OsModel.Exists | honcho/export/base.py:40 | os.path.exists: a directory or a file is at the path |
| OsModel.MakeDirs | honcho/export/base.py:43 | os.makedirs: refuses an existing or refused path, otherwise adds the path and its ancestors as directories |
| OsModel.ChangeOwner | honcho/export/base.py:51 | os.chown: refuses a missing or refused path, otherwise records the identity as that path's owner |
| OsModel.CanWrite | honcho/export/base.py:61 | open(path, 'w') succeeds unless the path is refused or is a directory |
| OsModel.WriteFile | honcho/export/base.py:61 | open(path, 'w').write(content): replaces the file at the path, or fails where CanWrite does not hold |
| Paths.Lineage | honcho/export/base.py:43 | the set of directories makedirs creates is exactly the path and its proper ancestors |
| Paths.JoinParts | honcho/export/base.py:58 | a joined path starts with the base, ends with the name, and has a slash between them when the base is non-empty |
| Paths.JoinInjective | honcho/export/base.py:58 | two names joined onto the same location give the same path only if they are equal |
| ExportModel.Mkdir | honcho/export/base.py:39-47 | an existing path leaves the disk unchanged with no error; otherwise fails with CannotCreate(directory) exactly when creation is refused, else adds the directory and only its missing ancestors and changes no file or owner |
| ExportModel.MkdirIdempotent | honcho/export/base.py:39-41 | after a successful mkdir a second mkdir of the same path succeeds and changes nothing |
| Export.BaseExport.Mkdir | honcho/export/base.py:39-47 | the filesystem change and outcome are exactly ExportModel.Mkdir of the old disk |
| ExportModel.Chown | honcho/export/base.py:49-55 | fails with CannotChown(log, user) exactly when the path is missing or refused; otherwise that path's owner becomes the identity and no other owner, directory or file changes |
| Export.BaseExport.Chown | honcho/export/base.py:49-55 | the filesystem change and outcome are exactly ExportModel.Chown with the stored identity |
| ExportModel.Write | honcho/export/base.py:57-64 | fails with CannotWrite(location/name) exactly when that path is not writable; otherwise that file's content is replaced and nothing else changes |
| Export.BaseExport.Write | honcho/export/base.py:57-64 | the filesystem change and outcome are exactly ExportModel.Write under options.location |
| Paths.DefaultTemplateLayout | honcho/export/base.py:66-76 | for a format that is non-empty and does not end in '/', the default directory gives data/export/<format>/<name> |
| Paths.TemplatesAreFormatScoped | honcho/export/base.py:76 | two different non-empty format names without a '/' never resolve any two template names to the same path |
| Export.BaseExport.GetTemplate | honcho/export/base.py:66-82 | succeeds exactly when directory/format/name exists in the package's templates, yielding its text; otherwise fails with TemplateNotFound naming the template |
| ExportModel.WriteAll | honcho/export/base.py:94-95 | the write loop never changes directories or ownership and never removes a file |
| ExportModel.WriteAllAppend | honcho/export/base.py:94-95 | writing a + b is writing a and then b, and b is never attempted once a write in a fails |
| ExportModel.WriteAllPassIff | honcho/export/base.py:94-95 | the loop completes exactly when every target path is writable |
| ExportModel.WriteAllUntouched | honcho/export/base.py:94-95 | a path none of the files targets keeps its presence and content, on success or failure |
| ExportModel.WriteAllLastWins | honcho/export/base.py:94-95 | after a complete loop each path holds the content of the last entry with that name |
| ExportModel.WriteAllFailure | honcho/export/base.py:94-95 | a failed loop stops at a first unwritable entry k: the disk is what entries before k produced (no rollback) and the error names entry k's path |
| ExportModel.WriteAllRepeat | honcho/export/base.py:94-95 | writing the same files again onto the disk a complete loop produced succeeds and changes nothing |
| ExportModel.Prepare | honcho/export/base.py:85-87 | on success both paths exist (a plain file already there counts) and only log's owner changed; on failure no owner changed; files never change; directories are only added, and only location, log and their ancestors; the only possible errors are creating location, creating log, or chowning log |
| ExportModel.Export | honcho/export/base.py:84-97 | on success returns exactly the rendered sequence; ownership changes at most at log; directories are only added, and only location, log and their ancestors; a failed render leaves every file as it was |
| ExportModel.LocationFailureChangesNothing | honcho/export/base.py:85 | a location that cannot be created ends the export with CannotCreate(location) and an unchanged disk |
| ExportModel.LogFailureAfterLocation | honcho/export/base.py:85-86 | a log directory that cannot be created ends the export after location was ensured (created or already present), before any chown or write |
| ExportModel.ChownFailureAfterDirectories | honcho/export/base.py:85-87 | a failed chown ends the export on exactly the disk the two mkdirs left: both paths present (a plain file already there counts), no owner changed and no file written |
| ExportModel.RenderFailureAfterPreparation | honcho/export/base.py:87-92 | a render error after preparation is the export's error, and the disk is the prepared one with no file written |
| ExportModel.ExportSucceedsIff | honcho/export/base.py:84-97 | export succeeds exactly when preparation passes, render yields files and all their paths are writable; it then returns the rendered sequence, both paths exist (a plain file already there counts) and only log was chowned |
| ExportModel.ExportTwice | honcho/export/base.py:84-97 | exporting again with the same inputs onto the disk a successful export left succeeds, returns the same files and changes nothing |
| ExportModel.ExportWroteReturnedFiles | honcho/export/base.py:94-97 | after success every returned file is on disk under location with the last content given for its name |
| ExportModel.ExportLeavesOtherFiles | honcho/export/base.py:84-97 | a path the rendered files do not target is unchanged by export, whatever the outcome |
| ExportModel.ExportFailedWriteKeepsEarlier | honcho/export/base.py:94-95 | a failed write ends the export with CannotWrite for that file, and the disk keeps exactly the writes made before it |
| ExportModel.BaseRender | honcho/export/base.py:99-100 | the base render always fails with RenderNotImplemented |
| ExportModel.BaseRenderWritesNothing | honcho/export/base.py:89-100 | exporting with the base render never succeeds and writes no file; after preparation it fails with RenderNotImplemented |
| ExportModel.Run | honcho/export/base.py:30-97 | an unknown user fails with UserNotFound and leaves the disk unchanged; on success log is owned by exactly the account's (uid, gid) |
| Export.BaseExport.Export | honcho/export/base.py:84-97 | the filesystem change and result of export() are exactly ExportModel.Export of the old disk and the render result |
| Export.ConstructAndExport | honcho/export/base.py:30-97 | constructing then exporting changes the filesystem and returns exactly what ExportModel.Run states |

## Left out

- The jinja2 import guard (honcho/export/base.py:10-20) prints to stderr and exits the process. That is process-level I/O.
- The real `pwd.getpwnam`, `os.makedirs`, `os.chown`, `open().write` and `os.path.exists` are replaced by the abstract disk, the account map and the failure oracles. The OS rules kept are:
  - `makedirs` refuses an existing path;
  - `chown` refuses a missing path;
  - a write refuses a path that is a directory.
  Every other reason a call fails (permissions, a missing parent directory, an ancestor that is a plain file, and so on) is what the oracles stand for. In particular the model does not keep `dirs` and `files` disjoint: a `makedirs` under a plain file that no oracle refuses makes that path both a file and a directory.
- ExportModel.Write: a failed write leaves the file as it was. The model does not capture a partially written file or a truncated one.
- ExportModel.Mkdir, ExportModel.LocationFailureChangesNothing, ExportModel.LogFailureAfterLocation, Paths.Lineage: a `makedirs` that fails part-way leaves the ancestors it already made. The model treats a refused `makedirs` as creating nothing.
- The identity the running process gives to newly created directories and files is not modelled. `owners` records only the ownership set by `chown`.
- `os.path.join` resets the path at an absolute component. Paths.Join models only relative components.
- Paths.JoinInjective, Paths.Lineage, ExportModel.Mkdir, OsModel.CanWrite, ExportModel.WriteAllLastWins, ExportModel.WriteAllUntouched, ExportModel.ExportWroteReturnedFiles and ExportModel.ExportLeavesOtherFiles: paths are compared as unnormalised strings. Two spellings of one file (`x` and `./x`, a doubled or trailing `/`, `..`, a symbolic link) are two keys in the model. So "last entry wins" and "untouched" hold per spelling, not per file on disk. The ancestors of `a//b` include both `a/` and `a`, and `Lineage("out/")` holds both `out/` and `out`. A write to `o/` is allowed while `o` is a directory, unless an oracle refuses it.
- `pkg_resources.resource_filename` (honcho/export/base.py:77) is packaging resolution. The template store is keyed by package and relative path instead.
- Export.BaseExport.GetTemplate returns the template's text. jinja2 `Template` construction and substitution (honcho/export/base.py:79) are an external templating engine.
- Concrete `render` implementations for specific supervisor formats live outside `base.py`. The format's render is an injected function value, so its output is deterministic by construction. Which processes and how many instances it emits is the renderer's policy and is not modelled.
- The `print(e)` in `_mkdir` (honcho/export/base.py:45) and the exact error message texts are left out. Errors keep their kind and the path, user or template they name.
- Python lets `render` return any iterable. The model uses a sequence, which is what `export` both iterates and returns.
- The file handle left open by `open(path, 'w').write(content)` is not modelled.
