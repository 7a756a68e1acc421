/** Option, Result and the errors the generator pipeline can report. */
module Results {

  datatype Option<+T> = None | Some(value: T)

  /** The error that a Go function returns beside its value. */
  datatype Error =
    /** An error produced by a collaborator this model keeps abstract
        (directory walk, YAML decoding, template parsing, flag parsing). */
    | External(detail: string)
    /** An `*os.PathError`: the operation, the path it was applied to, and why it failed. */
    | PathError(op: string, path: string, errno: Errno)
    /** `html/template.ParseFiles` was called with no file names. */
    | NoTemplateFiles
    /** `ExecuteTemplate` was asked for a template name the set does not hold. */
    | NoSuchTemplate(name: string)
    /** No definition file declares the requested generator name. */
    | GeneratorNotFound(name: string)
    /** `forge new` was called without a generator name. */
    | GeneratorRequired
  {
    /** The message text for the errors whose text the program itself fixes. */
    function Message(): string {
      match this
      case GeneratorNotFound(name) => "generator '" + name + "' not found"
      case GeneratorRequired => "generator is required"
      case NoTemplateFiles => "html/template: no files named in call to ParseFiles"
      case External(detail) => detail
      case PathError(op, path, errno) => op + " " + path + ": " + errno.Text()
      case NoSuchTemplate(name) => "html/template: \"" + name + "\" is undefined"
    }
  }

  /** The system error numbers the modelled file operations can fail with. */
  datatype Errno =
    /** ENOENT: no file or directory exists at the path. */
    | NoEntry
    /** EISDIR: the path names a directory where a file was needed. */
    | IsDirectory
    /** ENOTDIR: a path component is a file where a directory was needed. */
    | NotDirectory
  {
    function Text(): string {
      match this
      case NoEntry => "no such file or directory"
      case IsDirectory => "is a directory"
      case NotDirectory => "not a directory"
    }
  }

  datatype Result<+T> = Ok(value: T) | Err(error: Error)
}
