/** The values an export run works with: options, identities, rendered files and the
    errors an export can end with. */
module ExportTypes {

  /** A filesystem path, as text. */
  type Path = string

  /** A numeric owner and group, as read from a user account (pw_uid, pw_gid). */
  datatype Identity = Identity(uid: nat, gid: nat)

  /** The export options the orchestrator consults. Format-specific extension fields
      are read only by concrete renderers and are not modelled. */
  datatype Options = Options(format: string, location: Path, log: Path, user: string)

  /** One generated file: its name relative to the export location and its content. */
  datatype RenderedFile = RenderedFile(name: string, content: string)

  /** The process list: ordered (process name, command) pairs. */
  type Procfile = seq<(string, string)>

  /** Environment variables handed through to the renderer. */
  type Environment = map<string, string>

  /** Desired instance count per process name. */
  type Concurrency = map<string, nat>

  /** The account database: user name to its owner and group. */
  type UserDatabase = map<string, Identity>

  /** Template files, keyed by (package, path relative to that package). */
  type TemplateStore = map<(string, Path), string>

  /** Everything an export can fail with. All but the last are CommandError in
      base.py; RenderNotImplemented is the NotImplementedError of its render. */
  datatype Error =
    | UserNotFound(user: string)
    | CannotCreate(directory: Path)
    | CannotChown(log: Path, owner: string)
    | CannotWrite(path: Path)
    | TemplateNotFound(name: string)
    | RenderNotImplemented

  datatype Option<T> = None | Some(value: T)

  /** A value or the error raised instead of it. */
  datatype Result<T> = Success(value: T) | Failure(error: Error)

  /** Completion of a step that returns nothing: it either returned or raised. */
  datatype Outcome = Pass | Fail(error: Error)

  /** A format's render method: process list, options, environment and concurrency
      to the ordered files to write, or the error it raised. */
  type Renderer = (Procfile, Options, Environment, Concurrency) -> Result<seq<RenderedFile>>
}
