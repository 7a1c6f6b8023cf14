/**
 * The values the build pipeline passes around: the chapter record, the
 * error taxonomy, and small failure-compatible wrappers.
 */
module Models {

  datatype Option<+T> = None | Some(value: T) {
    /** `unwrap_or`: the carried value, or `default` when there is none. */
    function GetOr(default: T): T {
      match this
      case Some(v) => v
      case None => default
    }
  }

  /** `anyhow::Result`: a value or the error that aborted the computation. */
  datatype Result<+T> = Ok(value: T) | Err(error: Error)

  /** A filesystem path as its sequence of components; joining is concatenation. */
  type Path = seq<string>

  /** Every way an operation of the pipeline can fail. */
  datatype Error =
    | EntryError             // the directory iterator yielded an I/O error
    | ReadError              // a chapter file could not be read as text
    | StemError              // a file stem is not valid UTF-8
    | NoTitle                // a plain-text chapter has no first line
    | FolderError(lang: string)  // a language's source folder could not be opened
    | WriteError(path: Path)     // an output file could not be written
    | ConfigError            // the book configuration could not be loaded
    | RemoveError(path: Path)    // a directory could not be removed

  /** One page of the book. `slug` names the output file; `content` is the body. */
  datatype Chapter = Chapter(title: string, slug: Option<string>, content: Option<string>)

  /** What the front-matter engine yields: the deserialised metadata and the body after it. */
  datatype Matter = Matter(data: Chapter, content: string)

  /** Every chapter carries a slug, so generation can name its page. */
  predicate Slugged(chapters: seq<Chapter>) {
    forall i :: 0 <= i < |chapters| ==> chapters[i].slug.Some?
  }
}
