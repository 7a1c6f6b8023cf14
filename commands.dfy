/**
 * The subcommand dispatcher: `clean` removes the resolved build directory
 * when it exists, `build` loads the configuration, insists on a default
 * language, stores the configuration and runs the build; `watch`, `serve`
 * and `test` do nothing.
 */
module Commands {
  import opened Models
  import opened Folder
  import opened Output
  import Pipeline = Build

  datatype BookSection = BookSection(src: Path)
  datatype BuildSection = BuildSection(buildDir: Path)

  /** `book.toml` as far as this core reads it; `defaultLanguage` is what `Config::default_language` yields. */
  datatype Config = Config(book: BookSection, build: Option<BuildSection>, defaultLanguage: Option<string>)

  datatype Command =
    | Build(open: bool, destDir: Option<Path>, dir: Path)
    | Clean(dir: Path, destDir: Option<Path>)
    | Watch(open: bool, destDir: Option<Path>, dir: Path)
    | Serve(open: bool, port: Option<nat>, destDir: Option<Path>, hostname: Option<string>, dir: Path)
    | Test(open: bool, chapter: Option<string>, libraryPath: seq<Path>, dir: Path)

  /** How a command ends: normally, with an error returned to `main`, or by a panic. */
  datatype Outcome = Done | Failed(error: Error) | Panicked

  /** The process-wide configuration slot that `build` fills before building. */
  class Shared {
    var config: Option<Config>

    constructor ()
      ensures config == None
    {
      config := None;
    }
  }

  /**
   * The directory `clean` removes: an explicit destination wins regardless
   * of the configuration; otherwise the book source joined with the
   * configured build directory, or with the command's `dir` when the
   * configuration has no build section.
   */
  function DirToRemove(destDir: Option<Path>, config: Config, dir: Path): (p: Path)
    ensures destDir.Some? ==> p == destDir.value
    ensures destDir.None? ==> config.book.src <= p
    ensures destDir.None? && config.build.Some? ==> p[|config.book.src|..] == config.build.value.buildDir
    ensures destDir.None? && config.build.None? ==> p[|config.book.src|..] == dir
  {
    match destDir
    case Some(d) => d
    case None =>
      match config.build
      case Some(b) => config.book.src + b.buildDir
      case None => config.book.src + dir
  }

  /** `Commands::execute` for the modelled subcommands. `bookToml` is `./book.toml` when it loads and parses. */
  method Execute(cmd: Command, bookToml: Option<Config>, shared: Shared, disk: Disk,
                 src: map<string, seq<DirEntry>>, engine: FrontMatter, languages: Option<seq<string>>)
    returns (o: Outcome)
    modifies shared, disk
    // watch, serve and test: no effect
    ensures cmd.Watch? || cmd.Serve? || cmd.Test? ==>
      o == Done && unchanged(shared, disk)
    // clean
    ensures cmd.Clean? ==> unchanged(shared) && disk.pages == old(disk.pages) && disk.assets == old(disk.assets)
    ensures cmd.Clean? && bookToml.None? ==> o == Failed(ConfigError) && unchanged(disk)
    ensures cmd.Clean? && bookToml.Some? ==>
      var target := DirToRemove(cmd.destDir, bookToml.value, cmd.dir);
      && (target !in old(disk.tree) ==> o == Done && disk.tree == old(disk.tree))
      && (target in old(disk.tree) && target in disk.refused ==>
            o == Failed(RemoveError(target)) && disk.tree == old(disk.tree))
      && (target in old(disk.tree) && target !in disk.refused ==>
            o == Done && forall p :: p in disk.tree <==> p in old(disk.tree) && !Under(target, p))
    // build
    ensures cmd.Build? && (bookToml.None? || bookToml.value.defaultLanguage.None?) ==>
      o == Panicked && unchanged(shared, disk)
    ensures cmd.Build? && bookToml.Some? && bookToml.value.defaultLanguage.Some? ==>
      var t := Pipeline.BuildTrace(src, engine, disk.refused, bookToml.value.defaultLanguage, languages);
      && shared.config == bookToml
      && disk.pages == old(disk.pages) + t.pages
      && disk.tree == old(disk.tree)
      && disk.assets == (if Pipeline.StylePath in disk.refused then old(disk.assets) else old(disk.assets) + {Pipeline.StylePath})
      && o == (if t.result.Ok? then Done else Failed(t.result.error))
  {
    match cmd
    case Clean(dir, destDir) =>
      if bookToml.None? {
        return Failed(ConfigError);
      }
      var target := DirToRemove(destDir, bookToml.value, dir);
      if target in disk.tree {
        var removed := disk.RemoveAll(target);
        if removed.Err? {
          return Failed(removed.error);
        }
      }
      return Done;
    case Build(_, _, _) =>
      if bookToml.None? {
        return Panicked;
      }
      var config := bookToml.value;
      if config.defaultLanguage.None? {
        return Panicked;
      }
      shared.config := Some(config);
      var built := Pipeline.Execute(disk, src, engine, config.defaultLanguage, languages);
      if built.Err? {
        return Failed(built.error);
      }
      return Done;
    case Watch(_, _, _) =>
      return Done;
    case Serve(_, _, _, _, _) =>
      return Done;
    case Test(_, _, _, _) =>
      return Done;
  }
}
