/**
 * The build command: `execute` walks the languages, appends each language's
 * scanned chapters to one list that is never reset, writes that language's
 * chapter pages from the list accumulated so far, and finally writes one
 * homepage from the whole list through the root writer.
 */
module Build {
  import opened Models
  import opened Folder
  import opened Output

  /** `./out/book`, the root of the generated site. */
  const OutRoot: Path := ["out", "book"]
  /** `./out/book/style.css`. */
  const StylePath: Path := OutRoot + ["style.css"]
  const IndexFile: string := "index.html"

  /** `./out/book/<lang>`; the empty language is the root itself. */
  function LangDir(lang: string): (d: Path)
    ensures OutRoot <= d && |d| <= |OutRoot| + 1
    ensures d == OutRoot <==> lang == ""
    ensures lang != "" ==> d[|OutRoot|] == lang
  {
    if lang == "" then OutRoot else OutRoot + [lang]
  }

  /** With no language list, the single unnamed language `""` is built. */
  function LanguageList(languages: Option<seq<string>>): (langs: seq<string>)
    ensures languages.Some? ==> langs == languages.value
    ensures languages.None? ==> |langs| == 1 && langs[0] == ""
  {
    languages.GetOr([""])
  }

  /** `fs::read_dir("./src/<lang>")` followed by the folder scan; `src` lists the folders that can be opened. */
  function ScanLanguage(src: map<string, seq<DirEntry>>, engine: FrontMatter, lang: string): (r: Result<seq<Chapter>>)
    ensures lang !in src ==> r == Err(FolderError(lang))
    ensures lang in src ==> r == Scan(src[lang], engine)
    ensures r.Ok? ==> Slugged(r.value)
  {
    if lang in src then ScanSlugged(src[lang], engine); Scan(src[lang], engine) else Err(FolderError(lang))
  }

  /** The writes a generation step made and the result it returned. */
  datatype Trace = Trace(pages: seq<Page>, result: Result<()>)

  /** `<slug>.html`: the slug followed by the extension. */
  function PageFile(c: Chapter): (f: string)
    requires c.slug.Some?
    ensures |f| == |c.slug.value| + 5
    ensures f[..|c.slug.value|] == c.slug.value && f[|c.slug.value|..] == ".html"
  {
    c.slug.value + ".html"
  }

  /** What `generate_chapters` writes for `todo`, each page carrying the navigation list `nav`: it stops at the first refused write. */
  function ChapterTrace(out: Path, todo: seq<Chapter>, nav: seq<Chapter>, lang: string, refused: set<Path>): Trace
    requires Slugged(todo)
    decreases |todo|
  {
    if todo == [] then Trace([], Ok(()))
    else
      var path := out + [PageFile(todo[0])];
      if path in refused then Trace([], Err(WriteError(path)))
      else
        var rest := ChapterTrace(out, todo[1..], nav, lang, refused);
        Trace([Page(out, PageFile(todo[0]), Props(Some(todo[0]), nav, lang))] + rest.pages, rest.result)
  }

  /** What `generate_homepage` writes: `index.html` with no chapter, the whole list, and the default language or `""`. */
  function HomeTrace(out: Path, chapters: seq<Chapter>, defaultLanguage: Option<string>, refused: set<Path>): Trace {
    var path := out + [IndexFile];
    if path in refused then Trace([], Err(WriteError(path)))
    else Trace([Page(out, IndexFile, Props(None, chapters, defaultLanguage.GetOr("")))], Ok(()))
  }

  /** What the language loop leaves behind: the accumulated chapters, the pages written, and the fatal error if one stopped it. */
  datatype Run = Run(chapters: seq<Chapter>, pages: seq<Page>, failure: Option<Error>)

  /**
   * The language loop over `langs`, starting from the accumulated list
   * `acc`: each language's scan is appended to the list, and that
   * language's pages are generated from the whole list so far.
   */
  function LanguagesPass(src: map<string, seq<DirEntry>>, engine: FrontMatter, refused: set<Path>,
                         acc: seq<Chapter>, langs: seq<string>): (run: Run)
    requires Slugged(acc)
    ensures Slugged(run.chapters)
    decreases |langs|
  {
    if langs == [] then Run(acc, [], None)
    else match ScanLanguage(src, engine, langs[0])
      case Err(e) => Run(acc, [], Some(e))
      case Ok(scanned) =>
        var chapters := acc + scanned;
        var rest := LanguagesPass(src, engine, refused, chapters, langs[1..]);
        Run(rest.chapters, ChapterTrace(LangDir(langs[0]), chapters, chapters, langs[0], refused).pages + rest.pages, rest.failure)
  }

  /** The whole of `execute`: the stylesheet, the language loop from an empty list, then the homepage. */
  function BuildTrace(src: map<string, seq<DirEntry>>, engine: FrontMatter, refused: set<Path>,
                      defaultLanguage: Option<string>, languages: Option<seq<string>>): Trace
  {
    if StylePath in refused then Trace([], Err(WriteError(StylePath)))
    else
      var run := LanguagesPass(src, engine, refused, [], LanguageList(languages));
      if run.failure.Some? then Trace(run.pages, Err(run.failure.value))
      else Trace(run.pages + HomeTrace(OutRoot, run.chapters, defaultLanguage, refused).pages, Ok(()))
  }

  /** `generate_chapters`: one page per chapter, in order, each navigating the whole list. */
  method GenerateChapters(ssg: Ssg, chapters: seq<Chapter>, language: string) returns (r: Result<()>)
    requires Slugged(chapters)
    modifies ssg.disk
    ensures var t := ChapterTrace(ssg.out, chapters, chapters, language, ssg.disk.refused);
      ssg.disk.pages == old(ssg.disk.pages) + t.pages && r == t.result
    ensures ssg.disk.tree == old(ssg.disk.tree) && ssg.disk.assets == old(ssg.disk.assets)
  {
    var i := 0;
    while i < |chapters|
      invariant 0 <= i <= |chapters|
      invariant var whole := ChapterTrace(ssg.out, chapters, chapters, language, ssg.disk.refused);
        var rest := ChapterTrace(ssg.out, chapters[i..], chapters, language, ssg.disk.refused);
        ssg.disk.pages + rest.pages == old(ssg.disk.pages) + whole.pages && rest.result == whole.result
      invariant ssg.disk.tree == old(ssg.disk.tree) && ssg.disk.assets == old(ssg.disk.assets)
    {
      var chapter := chapters[i];
      var path := chapter.slug.value + ".html";
      var written := ssg.Gen(path, Props(Some(chapter), chapters, language));
      assert chapters[i..][1..] == chapters[i + 1..];
      if written.Err? {
        return written;
      }
      i := i + 1;
    }
    return Ok(());
  }

  /** `generate_homepage`. */
  method GenerateHomepage(ssg: Ssg, chapters: seq<Chapter>, defaultLanguage: Option<string>) returns (r: Result<()>)
    modifies ssg.disk
    ensures var t := HomeTrace(ssg.out, chapters, defaultLanguage, ssg.disk.refused);
      ssg.disk.pages == old(ssg.disk.pages) + t.pages && r == t.result
    ensures ssg.disk.tree == old(ssg.disk.tree) && ssg.disk.assets == old(ssg.disk.assets)
  {
    r := ssg.Gen(IndexFile, Props(None, chapters, defaultLanguage.GetOr("")));
  }

  /** The `for lang in languages` loop of `execute`: proved to compute `LanguagesPass` from an empty list. */
  method BuildLanguages(disk: Disk, src: map<string, seq<DirEntry>>, engine: FrontMatter, langs: seq<string>)
    returns (chapters: seq<Chapter>, failure: Option<Error>)
    modifies disk
    ensures var run := LanguagesPass(src, engine, disk.refused, [], langs);
      disk.pages == old(disk.pages) + run.pages && chapters == run.chapters && failure == run.failure
    ensures disk.assets == old(disk.assets) && disk.tree == old(disk.tree)
  {
    ghost var whole := LanguagesPass(src, engine, disk.refused, [], langs);
    ghost var rest := whole;
    chapters := [];
    var i := 0;
    while i < |langs|
      invariant 0 <= i <= |langs| && Slugged(chapters)
      invariant rest == LanguagesPass(src, engine, disk.refused, chapters, langs[i..])
      invariant old(disk.pages) + whole.pages == disk.pages + rest.pages
      invariant whole.chapters == rest.chapters && whole.failure == rest.failure
      invariant disk.assets == old(disk.assets) && disk.tree == old(disk.tree)
    {
      var lang := langs[i];
      assert langs[i..][0] == lang && langs[i..][1..] == langs[i + 1..];
      ghost var before := disk.pages;
      var next, stop := BuildLanguage(disk, src, engine, chapters, lang);
      if stop.Some? {
        assert rest == Run(chapters, [], stop);
        assert disk.pages + [] == disk.pages;
        return chapters, stop;
      }
      ghost var trace := ChapterTrace(LangDir(lang), next, next, lang, disk.refused).pages;
      ghost var tail := LanguagesPass(src, engine, disk.refused, next, langs[i + 1..]);
      assert rest == Run(tail.chapters, trace + tail.pages, tail.failure);
      assert disk.pages == before + trace;
      ConcatAssoc(before, trace, tail.pages);
      rest := tail;
      chapters := next;
      i := i + 1;
    }
    assert langs[i..] == [];
    return chapters, None;
  }

  /**
   * One pass of the language loop: scan the folder of `lang`, append its
   * chapters to the accumulated list, and generate that language's pages
   * from the whole list. A missing folder or a failed scan stops before
   * anything is written.
   */
  method BuildLanguage(disk: Disk, src: map<string, seq<DirEntry>>, engine: FrontMatter, chapters: seq<Chapter>, lang: string)
    returns (next: seq<Chapter>, failure: Option<Error>)
    requires Slugged(chapters)
    modifies disk
    ensures Slugged(next)
    ensures match ScanLanguage(src, engine, lang)
      case Err(e) => failure == Some(e) && next == chapters && disk.pages == old(disk.pages)
      case Ok(scanned) =>
        && failure.None? && next == chapters + scanned
        && disk.pages == old(disk.pages) + ChapterTrace(LangDir(lang), next, next, lang, disk.refused).pages
    ensures disk.assets == old(disk.assets) && disk.tree == old(disk.tree)
  {
    if lang !in src {
      return chapters, Some(FolderError(lang));
    }
    var scanned := ChaptersFromFolder(src[lang], engine);
    if scanned.Err? {
      return chapters, Some(scanned.error);
    }
    ScanSlugged(src[lang], engine);
    next := chapters + scanned.value;
    var ssg := new Ssg(LangDir(lang), disk);
    var _ := GenerateChapters(ssg, next, lang);
    failure := None;
  }

  /** `execute(default_language, languages)`. */
  method Execute(disk: Disk, src: map<string, seq<DirEntry>>, engine: FrontMatter,
                 defaultLanguage: Option<string>, languages: Option<seq<string>>) returns (r: Result<()>)
    modifies disk
    ensures var t := BuildTrace(src, engine, disk.refused, defaultLanguage, languages);
      disk.pages == old(disk.pages) + t.pages && r == t.result
    ensures disk.assets == if StylePath in disk.refused then old(disk.assets) else old(disk.assets) + {StylePath}
    ensures disk.tree == old(disk.tree)
  {
    var ssg := new Ssg(OutRoot, disk);
    var style := disk.WriteAsset(StylePath);
    if style.Err? {
      return style;
    }
    var chapters, failure := BuildLanguages(disk, src, engine, LanguageList(languages));
    if failure.Some? {
      return Err(failure.value);
    }
    var _ := GenerateHomepage(ssg, chapters, defaultLanguage);
    return Ok(());
  }

  /**
   * `generate_chapters` writes in list order: the k-th write is `slug_k.html`
   * with chapter k, the whole navigation list and the language. It stops at
   * the first refused write and reports that write's error; otherwise every
   * chapter is written and the result is Ok.
   */
  lemma {:induction false} ChapterTraceWrites(out: Path, todo: seq<Chapter>, nav: seq<Chapter>, lang: string, refused: set<Path>)
    requires Slugged(todo)
    ensures var t := ChapterTrace(out, todo, nav, lang, refused);
      && |t.pages| <= |todo|
      && (forall k :: 0 <= k < |t.pages| ==>
            t.pages[k] == Page(out, PageFile(todo[k]), Props(Some(todo[k]), nav, lang))
            && out + [PageFile(todo[k])] !in refused)
      && (t.result.Ok? <==> |t.pages| == |todo|)
      && (t.result.Err? ==> t.result.error == WriteError(out + [PageFile(todo[|t.pages|])])
                            && out + [PageFile(todo[|t.pages|])] in refused)
    decreases |todo|
  {
    if todo != [] {
      var rest := todo[1..];
      assert Slugged(rest) by {
        forall i | 0 <= i < |rest| ensures rest[i].slug.Some? {
          assert rest[i] == todo[i + 1];
        }
      }
      ChapterTraceWrites(out, rest, nav, lang, refused);
      var path := out + [PageFile(todo[0])];
      if path !in refused {
        var t := ChapterTrace(out, todo, nav, lang, refused);
        var tr := ChapterTrace(out, rest, nav, lang, refused);
        forall k | 1 <= k < |t.pages|
          ensures t.pages[k] == Page(out, PageFile(todo[k]), Props(Some(todo[k]), nav, lang))
        {
          assert t.pages[k] == tr.pages[k - 1];
          assert rest[k - 1] == todo[k];
        }
        if t.result.Err? {
          assert rest[|tr.pages|] == todo[|t.pages|];
        }
      }
    }
  }

  /** Two chapters share a page file exactly when they share a slug. */
  lemma PageFilesDistinct(a: Chapter, b: Chapter)
    requires a.slug.Some? && b.slug.Some?
    ensures PageFile(a) == PageFile(b) <==> a.slug == b.slug
  {
    if PageFile(a) == PageFile(b) {
      assert a.slug.value == PageFile(a)[..|PageFile(a)| - 5];
      assert b.slug.value == PageFile(b)[..|PageFile(b)| - 5];
    }
  }

  /** Solver aid only: regrouping a concatenation, used where the loop proofs split page logs. */
  lemma ConcatAssoc<T>(a: seq<T>, b: seq<T>, c: seq<T>)
    ensures a + (b + c) == (a + b) + c
  {
  }

  // ---- properties of the language loop ----

  /**
   * Running the loop over `a + b` is running it over `a`, then, unless `a`
   * failed, over `b` starting from the list `a` accumulated. A fatal error
   * is final: nothing after it is scanned or written.
   */
  lemma {:induction false} PassSplit(src: map<string, seq<DirEntry>>, engine: FrontMatter, refused: set<Path>,
                                     acc: seq<Chapter>, a: seq<string>, b: seq<string>)
    requires Slugged(acc)
    ensures var first := LanguagesPass(src, engine, refused, acc, a);
      LanguagesPass(src, engine, refused, acc, a + b) ==
        if first.failure.Some? then first
        else
          var second := LanguagesPass(src, engine, refused, first.chapters, b);
          Run(second.chapters, first.pages + second.pages, second.failure)
    decreases |a|
  {
    if a == [] {
      assert a + b == b;
      assert [] + LanguagesPass(src, engine, refused, acc, b).pages == LanguagesPass(src, engine, refused, acc, b).pages;
    } else {
      var ab := a + b;
      assert ab[0] == a[0] && ab[1..] == a[1..] + b;
      var s := ScanLanguage(src, engine, a[0]);
      if s.Ok? {
        var chapters := acc + s.value;
        var trace := ChapterTrace(LangDir(a[0]), chapters, chapters, a[0], refused).pages;
        var tail := LanguagesPass(src, engine, refused, chapters, a[1..]);
        PassSplit(src, engine, refused, chapters, a[1..], b);
        if tail.failure.None? {
          var second := LanguagesPass(src, engine, refused, tail.chapters, b);
          ConcatAssoc(trace, tail.pages, second.pages);
        }
      }
    }
  }

  /** The accumulated list only grows: the loop's final list extends the list it started from. */
  lemma {:induction false} AccumulationGrows(src: map<string, seq<DirEntry>>, engine: FrontMatter, refused: set<Path>,
                                             acc: seq<Chapter>, langs: seq<string>)
    requires Slugged(acc)
    ensures acc <= LanguagesPass(src, engine, refused, acc, langs).chapters
    decreases |langs|
  {
    if langs != [] {
      match ScanLanguage(src, engine, langs[0])
      case Err(e) =>
      case Ok(scanned) =>
        AccumulationGrows(src, engine, refused, acc + scanned, langs[1..]);
    }
  }

  /**
   * The list after the first i languages of a successful loop is a prefix of
   * the final list, and the pages written by then are a prefix of all pages.
   */
  lemma AccumulationIsPrefix(src: map<string, seq<DirEntry>>, engine: FrontMatter, refused: set<Path>, langs: seq<string>, i: nat)
    requires i <= |langs| && LanguagesPass(src, engine, refused, [], langs).failure.None?
    ensures LanguagesPass(src, engine, refused, [], langs[..i]).failure.None?
    ensures LanguagesPass(src, engine, refused, [], langs[..i]).chapters <= LanguagesPass(src, engine, refused, [], langs).chapters
    ensures LanguagesPass(src, engine, refused, [], langs[..i]).pages <= LanguagesPass(src, engine, refused, [], langs).pages
  {
    assert langs == langs[..i] + langs[i..];
    PassSplit(src, engine, refused, [], langs[..i], langs[i..]);
    var first := LanguagesPass(src, engine, refused, [], langs[..i]);
    AccumulationGrows(src, engine, refused, first.chapters, langs[i..]);
  }

  /** Reference definition: the scans of `langs` concatenated in order, or the first language's failure. */
  function Scans(src: map<string, seq<DirEntry>>, engine: FrontMatter, langs: seq<string>): (r: Result<seq<Chapter>>)
    ensures r.Ok? ==> Slugged(r.value)
    decreases |langs|
  {
    if langs == [] then Ok([])
    else match ScanLanguage(src, engine, langs[0])
      case Err(e) => Err(e)
      case Ok(first) =>
        match Scans(src, engine, langs[1..])
        case Err(e) => Err(e)
        case Ok(rest) => Ok(first + rest)
  }

  /**
   * The loop's list is the starting list followed by the concatenation of
   * the scans of all languages, and the loop fails exactly when one of
   * those scans fails, with the first failure.
   */
  lemma {:induction false} PassIsConcatenation(src: map<string, seq<DirEntry>>, engine: FrontMatter, refused: set<Path>,
                                               acc: seq<Chapter>, langs: seq<string>)
    requires Slugged(acc)
    ensures var run := LanguagesPass(src, engine, refused, acc, langs);
      var all := Scans(src, engine, langs);
      && (all.Ok? ==> run.failure.None? && run.chapters == acc + all.value)
      && (all.Err? ==> run.failure == Some(all.error))
    decreases |langs|
  {
    var run := LanguagesPass(src, engine, refused, acc, langs);
    var all := Scans(src, engine, langs);
    if langs == [] {
      assert all == Ok([]) && run == Run(acc, [], None);
      assert acc + [] == acc;
    } else {
      var s := ScanLanguage(src, engine, langs[0]);
      if s.Ok? {
        var chapters := acc + s.value;
        var tail := LanguagesPass(src, engine, refused, chapters, langs[1..]);
        var rest := Scans(src, engine, langs[1..]);
        PassIsConcatenation(src, engine, refused, chapters, langs[1..]);
        assert run.chapters == tail.chapters && run.failure == tail.failure;
        if rest.Ok? {
          assert all == Ok(s.value + rest.value);
          ConcatAssoc(acc, s.value, rest.value);
        } else {
          assert all == Err(rest.error);
        }
      } else {
        assert all == Err(s.error) && run.failure == Some(s.error);
      }
    }
  }

  /** The first language whose folder or scan fails decides the loop's failure. */
  lemma {:induction false} ScansFailAtFirst(src: map<string, seq<DirEntry>>, engine: FrontMatter, langs: seq<string>, i: nat)
    requires i < |langs| && ScanLanguage(src, engine, langs[i]).Err?
    requires forall j :: 0 <= j < i ==> ScanLanguage(src, engine, langs[j]).Ok?
    ensures Scans(src, engine, langs) == Err(ScanLanguage(src, engine, langs[i]).error)
    decreases i
  {
    if i > 0 {
      assert forall j :: 0 <= j < i - 1 ==> langs[1..][j] == langs[j + 1];
      assert ScanLanguage(src, engine, langs[0]).Ok?;
      ScansFailAtFirst(src, engine, langs[1..], i - 1);
    }
  }

  /**
   * The pages of the i-th language, written right after those of the
   * languages before it, navigate the list accumulated so far: the scans
   * of languages 0..i-1 followed by language i's own chapters.
   */
  lemma LanguagePagesNavigation(src: map<string, seq<DirEntry>>, engine: FrontMatter, refused: set<Path>, langs: seq<string>, i: nat)
    requires i < |langs|
    requires forall j :: 0 <= j <= i ==> ScanLanguage(src, engine, langs[j]).Ok?
    ensures Scans(src, engine, langs[..i]).Ok?
    ensures var nav := Scans(src, engine, langs[..i]).value + ScanLanguage(src, engine, langs[i]).value;
      var before := LanguagesPass(src, engine, refused, [], langs[..i]).pages;
      before + ChapterTrace(LangDir(langs[i]), nav, nav, langs[i], refused).pages
        <= LanguagesPass(src, engine, refused, [], langs).pages
  {
    var prefix := langs[..i];
    var suffix := langs[i..];
    PrefixPassSucceeds(src, engine, refused, langs, i);
    var before := LanguagesPass(src, engine, refused, [], prefix);
    var scanned := Scans(src, engine, prefix).value;
    assert langs == prefix + suffix;
    PassSplit(src, engine, refused, [], prefix, suffix);
    var after := LanguagesPass(src, engine, refused, scanned, suffix);
    assert LanguagesPass(src, engine, refused, [], langs).pages == before.pages + after.pages;
    assert suffix[0] == langs[i];
    var own := ScanLanguage(src, engine, langs[i]).value;
    var nav := scanned + own;
    var trace := ChapterTrace(LangDir(langs[i]), nav, nav, langs[i], refused).pages;
    assert after.pages == trace + LanguagesPass(src, engine, refused, nav, suffix[1..]).pages;
  }

  /** When the first i languages scan cleanly, the loop over them succeeds with their concatenated scans. */
  lemma PrefixPassSucceeds(src: map<string, seq<DirEntry>>, engine: FrontMatter, refused: set<Path>, langs: seq<string>, i: nat)
    requires i <= |langs|
    requires forall j :: 0 <= j < i ==> ScanLanguage(src, engine, langs[j]).Ok?
    ensures Scans(src, engine, langs[..i]).Ok?
    ensures var before := LanguagesPass(src, engine, refused, [], langs[..i]);
      before.failure.None? && before.chapters == Scans(src, engine, langs[..i]).value
  {
    var prefix := langs[..i];
    assert forall j :: 0 <= j < |prefix| ==> prefix[j] == langs[j];
    ScansSucceed(src, engine, prefix);
    PassIsConcatenation(src, engine, refused, [], prefix);
    assert [] + Scans(src, engine, prefix).value == Scans(src, engine, prefix).value;
  }

  lemma {:induction false} ScansSucceed(src: map<string, seq<DirEntry>>, engine: FrontMatter, langs: seq<string>)
    requires forall l :: 0 <= l < |langs| ==> ScanLanguage(src, engine, langs[l]).Ok?
    ensures Scans(src, engine, langs).Ok?
    decreases |langs|
  {
    if langs != [] {
      assert forall l :: 0 <= l < |langs| - 1 ==> langs[1..][l] == langs[l + 1];
      ScansSucceed(src, engine, langs[1..]);
    }
  }

  /** No page in `pages` is a homepage. */
  predicate ChapterPagesOnly(pages: seq<Page>) {
    forall k :: 0 <= k < |pages| ==> pages[k].props.chapter.Some?
  }

  /** Every page the language loop writes is a chapter page: it carries a chapter. */
  lemma {:induction false} PassWritesChapterPages(src: map<string, seq<DirEntry>>, engine: FrontMatter, refused: set<Path>,
                                                  acc: seq<Chapter>, langs: seq<string>)
    requires Slugged(acc)
    ensures ChapterPagesOnly(LanguagesPass(src, engine, refused, acc, langs).pages)
    decreases |langs|
  {
    if langs != [] {
      match ScanLanguage(src, engine, langs[0])
      case Err(e) =>
      case Ok(scanned) =>
        var chapters := acc + scanned;
        var rest := LanguagesPass(src, engine, refused, chapters, langs[1..]);
        var trace := ChapterTrace(LangDir(langs[0]), chapters, chapters, langs[0], refused);
        PassWritesChapterPages(src, engine, refused, chapters, langs[1..]);
        ChapterTraceWrites(LangDir(langs[0]), chapters, chapters, langs[0], refused);
        var pages := trace.pages + rest.pages;
        forall k | 0 <= k < |pages| ensures pages[k].props.chapter.Some? {
          if k < |trace.pages| {
            assert pages[k] == trace.pages[k];
          } else {
            assert pages[k] == rest.pages[k - |trace.pages|];
          }
        }
    }
  }

  /**
   * The homepage is written at most once and last, to `index.html` at the
   * root, with no chapter, the whole accumulated list and the default
   * language (or `""`); a build that fails writes no homepage.
   */
  lemma HomepageOnceAndLast(src: map<string, seq<DirEntry>>, engine: FrontMatter, refused: set<Path>,
                            defaultLanguage: Option<string>, languages: Option<seq<string>>)
    ensures var t := BuildTrace(src, engine, refused, defaultLanguage, languages);
      var run := LanguagesPass(src, engine, refused, [], LanguageList(languages));
      && (t.result.Err? ==> ChapterPagesOnly(t.pages))
      && (t.result.Ok? ==>
            && ChapterPagesOnly(run.pages)
            && t.pages[..|run.pages|] == run.pages
            && t.pages == run.pages + (if OutRoot + [IndexFile] in refused then []
                                       else [Page(OutRoot, IndexFile, Props(None, run.chapters, defaultLanguage.GetOr("")))])
            && |t.pages| <= |run.pages| + 1
            && (OutRoot + [IndexFile] in refused <==> |t.pages| == |run.pages|)
            && (OutRoot + [IndexFile] !in refused ==>
                  t.pages[|t.pages| - 1] == Page(OutRoot, IndexFile, Props(None, run.chapters, defaultLanguage.GetOr("")))))
  {
    PassWritesChapterPages(src, engine, refused, [], LanguageList(languages));
  }

  /** Without a language list only the unnamed language is built, so every page lands in the root output directory. */
  lemma NoLanguageListWritesRootOnly(src: map<string, seq<DirEntry>>, engine: FrontMatter, refused: set<Path>,
                                     defaultLanguage: Option<string>)
    ensures var t := BuildTrace(src, engine, refused, defaultLanguage, None);
      forall k :: 0 <= k < |t.pages| ==> t.pages[k].dir == OutRoot
  {
    var langs := LanguageList(None);
    assert langs == [""] && langs[1..] == [];
    var s := ScanLanguage(src, engine, "");
    if s.Ok? {
      var chapters := [] + s.value;
      var trace := ChapterTrace(OutRoot, chapters, chapters, "", refused);
      ChapterTraceWrites(OutRoot, chapters, chapters, "", refused);
      var run := LanguagesPass(src, engine, refused, [], langs);
      assert LanguagesPass(src, engine, refused, chapters, []) == Run(chapters, [], None);
      assert run.pages == trace.pages + [];
      assert LangDir("") == OutRoot;
    }
  }

  /**
   * An empty plain-text file aborts the whole build: once the languages
   * before it scanned cleanly and the entries before it in its folder were
   * not fatal, the build reports the missing title.
   */
  lemma EmptyFileAbortsBuild(src: map<string, seq<DirEntry>>, engine: FrontMatter, refused: set<Path>,
                             defaultLanguage: Option<string>, langs: seq<string>, i: nat, j: nat, stem: string)
    requires StylePath !in refused
    requires i < |langs| && langs[i] in src
    requires forall l :: 0 <= l < i ==> ScanLanguage(src, engine, langs[l]).Ok?
    requires j < |src[langs[i]]| && src[langs[i]][j] == File(Some(stem), Some(""))
    requires NoAbort(src[langs[i]][..j], engine)
    ensures BuildTrace(src, engine, refused, defaultLanguage, Some(langs)).result == Err(NoTitle)
  {
    ScanFailsAtFirstAbort(src[langs[i]], j, engine);
    ScansFailAtFirst(src, engine, langs, i);
    PassIsConcatenation(src, engine, refused, [], langs);
  }
}
