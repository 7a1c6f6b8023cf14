/**
 * The output side of the filesystem and the static-site writer. `Disk`
 * records which paths exist, which assets and rendered pages were written
 * and in what order; `Ssg` is a writer rooted at one output directory whose
 * `Gen` records the arguments of each successful render-and-write.
 */
module Output {
  import opened Models

  /** The properties handed to the page component: the chapter shown (none on a homepage), the navigation list and the language. */
  datatype Props = Props(chapter: Option<Chapter>, chapters: seq<Chapter>, language: string)

  /** One rendered page that reached the disk: its directory, its file name and what it was rendered from. */
  datatype Page = Page(dir: Path, file: string, props: Props)

  /** `p` lies at or below the directory `dir`. */
  predicate Under(dir: Path, p: Path) {
    dir <= p
  }

  class Disk {
    /** The paths that exist. */
    var tree: set<Path>
    /** Files written verbatim (the stylesheet). */
    var assets: set<Path>
    /** Rendered pages written, in the order they were written. */
    var pages: seq<Page>
    /** Paths at which a write or a removal fails. */
    const refused: set<Path>

    constructor (existing: set<Path>, failing: set<Path>)
      ensures tree == existing && refused == failing
      ensures assets == {} && pages == []
    {
      tree := existing;
      refused := failing;
      assets := {};
      pages := [];
    }

    /** `fs::write` of a verbatim asset. */
    method WriteAsset(path: Path) returns (r: Result<()>)
      modifies this
      ensures r == if path in refused then Err(WriteError(path)) else Ok(())
      ensures assets == if r.Ok? then old(assets) + {path} else old(assets)
      ensures tree == old(tree) && pages == old(pages)
    {
      if path in refused {
        return Err(WriteError(path));
      }
      assets := assets + {path};
      return Ok(());
    }

    /** `fs::remove_dir_all`: removes `target` and everything below it, or fails and removes nothing. */
    method RemoveAll(target: Path) returns (r: Result<()>)
      modifies this
      ensures r == if target in refused then Err(RemoveError(target)) else Ok(())
      ensures r.Err? ==> tree == old(tree)
      ensures r.Ok? ==> forall p :: p in tree <==> p in old(tree) && !Under(target, p)
      ensures assets == old(assets) && pages == old(pages)
    {
      if target in refused {
        return Err(RemoveError(target));
      }
      tree := set p | p in tree && !Under(target, p);
      return Ok(());
    }
  }

  class Ssg {
    /** The directory this writer renders into. */
    const out: Path
    const disk: Disk

    constructor (out: Path, disk: Disk)
      ensures this.out == out && this.disk == disk
    {
      this.out := out;
      this.disk := disk;
    }

    /** Renders `props` and writes it to `out` joined with `path`; a refused path writes nothing. */
    method Gen(path: string, props: Props) returns (r: Result<()>)
      modifies disk
      ensures r == if out + [path] in disk.refused then Err(WriteError(out + [path])) else Ok(())
      ensures disk.pages == if r.Ok? then old(disk.pages) + [Page(out, path, props)] else old(disk.pages)
      ensures disk.tree == old(disk.tree) && disk.assets == old(disk.assets)
    {
      if out + [path] in disk.refused {
        return Err(WriteError(out + [path]));
      }
      disk.pages := disk.pages + [Page(out, path, props)];
      return Ok(());
    }
  }
}
