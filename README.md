# mdbook-killer build pipeline, modelled in Dafny

This project models the core of mdbook-killer, a static book generator:

- **Chapter parsing** (`charpters_from_folder`). Every file of one language's source folder becomes a chapter. There are two parse paths. A text that starts with `---` goes through the front-matter engine: a failure skips the file, and the stem fills in a missing slug. Any other text takes its first line as the title, the whole text as the content and the file stem as the slug.
- **The build** (`execute`, `generate_chapters`, `generate_homepage`). It writes the stylesheet and walks the languages. It appends each language's chapters to one list that is never reset. It writes that language's chapter pages from the list accumulated so far. At the end it writes one homepage, from the whole list, to the root output directory.
- **The subcommand dispatcher** (`Commands::execute`). `clean` removes the resolved build directory if it exists. `build` loads the configuration, insists on a default language, stores the configuration and builds. `watch`, `serve` and `test` do nothing.

Files:

- `models.dfy`: chapters, errors, `Option`/`Result`, paths as component sequences.
- `text.dfy`: `starts_with` and the first line of `str::lines`.
- `output.dfy`: the `Disk` class and the `Ssg` writer class. `Disk` holds the existing paths, the written assets, the log of rendered pages and the paths that refuse writes. `Ssg` is a writer rooted at one directory.
- `folder.dfy`: the folder scan, with the `Scan` specification and its lemmas.
- `build.dfy`: page generation and the language loop. The specifications are `ChapterTrace`, `HomeTrace`, `LanguagesPass` and `BuildTrace`, with their lemmas.
- `commands.dfy`: the `clean`/`build`/no-op arms.

Each loop of the source is a method. Each method is proved to compute a recursive specification function. The properties are proved as lemmas about those functions.

Inputs that stand for the environment:

- A language's source folder is the sequence of its directory entries. `src` maps each language to its folder; a language missing from `src` is a folder `read_dir` cannot open.
- An entry is an iterator error or a file. A file's stem may be invalid UTF-8, and its text may be unreadable.
- The YAML front-matter engine is a function parameter returning `Option<Matter>`.
- Write and removal failures come from the disk's `refused` set of paths.
- `book.toml` is an `Option<Config>`; `None` means it could not be loaded or parsed.

Two behaviours of the code worth stating plainly:

- An empty plain-text file is fatal to the whole build. It is not skipped.
- A folder that cannot be opened or scanned aborts the whole build. It is not isolated to its language.

`commands.rs:162` calls `build::execute` with only the default language, but `build.rs:16-19` takes two parameters. The model uses the two-parameter form. `Commands.Execute` takes the language list as an extra input and passes the default language as `Some`.

## Model

| member | source | states |
|---|---|---|
| `Text.FirstLine` | src/commands/build.rs:129-132 | a first line exists exactly when the text is non-empty; it contains no line feed and is followed by the end of the text, by `\n` (and then does not end in `\r`), or by `\r\n` |
| `Text.FirstLineUnique` | src/commands/build.rs:129-131 | any string fitting that description is the line `lines().next()` yields, so the title is determined |
| `Folder.ParseText` | src/commands/build.rs:114-140 | front-matter path: never fatal, skipped exactly when the engine fails, content is the engine's body, an explicit slug is kept and a missing one becomes the stem; plain path: never skipped, fatal (no title) exactly on empty text, otherwise title is the first line, content the whole text, slug the stem |
| `Folder.ParseEntry` | src/commands/build.rs:106-113 | an iterator error, an unreadable file and a non-UTF-8 stem are fatal, in that order; only a front-matter file can be skipped; an empty readable file is fatal with no title |
| `Folder.PlainTextExample` | src/commands/build.rs:127-139 | `nota` holding `Bienvenido\r\nTexto del capitulo` gives title `Bienvenido`, slug `nota` and the whole text as content |
| `Folder.ChaptersFromFolder` | src/commands/build.rs:103-144 | the folder loop returns exactly `Scan` of the listing: the chapters in entry order, or the first fatal error |
| `Folder.ScanSlugged` | src/commands/build.rs:121-139 | every chapter of a successful scan has a slug, which is what makes the `unwrap` at line 66 safe |
| `Folder.ScanIsKept` | src/commands/build.rs:104-143 | with no fatal entry, the scan succeeds with the kept chapters in listing order |
| `Folder.ScanFailurePersists` | src/commands/build.rs:106-132 | once a prefix of the listing has failed, the whole scan fails with the same error |
| `Folder.ScanFailsAtFirstAbort` | src/commands/build.rs:107-132 | the first fatal entry decides the scan's error; it is not skipped |
| `Folder.KeptCount` | src/commands/build.rs:114-126 | with no fatal entry, the number of chapters is the number of entries less the skipped front-matter failures |
| `Folder.KeptOnePerEntry` | src/commands/build.rs:106-143 | when every entry parses, there is one chapter per entry and the k-th chapter comes from the k-th entry |
| `Build.LanguageList` | src/commands/build.rs:22 | a given language list is used as is; without one, the list is the single unnamed language `""` |
| `Build.LangDir` | src/commands/build.rs:44 | a language's output directory lies directly under `./out/book`, named after the language; the unnamed language `""` is identified with the root itself, and only it |
| `Build.PageFile` | src/commands/build.rs:66-67 | a chapter's page file is its slug followed by `.html` |
| `Build.PageFilesDistinct` | src/commands/build.rs:66-67 | two chapters are written to the same page file exactly when they have the same slug |
| `Build.ScanLanguage` | src/commands/build.rs:35-38 | a folder that cannot be opened is a folder error for that language; an openable folder gives exactly the scan of its listing; a successful scan carries slugs only |
| `Build.LanguagesPass` | src/commands/build.rs:32-53 | the accumulated chapter list always carries slugs |
| `Build.GenerateChapters` | src/commands/build.rs:59-84 | the page log grows by exactly `ChapterTrace` of the list and the result is its result; nothing else on disk changes |
| `Build.GenerateHomepage` | src/commands/build.rs:86-101 | the page log grows by exactly `HomeTrace`: `index.html`, no chapter, the whole list, the default language or `""` |
| `Build.BuildLanguages` | src/commands/build.rs:32-53 | the language loop ends in the state `LanguagesPass` describes: the accumulated list, the pages written, the fatal error if any |
| `Build.Execute` | src/commands/build.rs:16-57 | the stylesheet write is fatal; the page log grows by exactly `BuildTrace` and the result is its result; the stylesheet is recorded exactly when its path is writable |
| `Build.BuildLanguage` | src/commands/build.rs:35-52 | one pass of the loop: a missing folder or a failed scan writes nothing and leaves the list as it was; otherwise the language's chapters are appended and its pages are generated from the whole list so far, with that list as navigation |
| `Build.ChapterTraceWrites` | src/commands/build.rs:64-83 | the k-th write is `slug_k.html` with chapter k, the whole input list and the language; writing stops at the first refused path and returns that path's error; otherwise every chapter is written and the result is Ok |
| `Build.PassSplit` | src/commands/build.rs:34-53 | running the loop over two runs of languages is running it over the first and, unless the first failed, over the second from the list the first accumulated; a fatal error ends the build with nothing later scanned or written |
| `Build.AccumulationGrows` | src/commands/build.rs:32-38 | the list the loop ends with extends the list it started from |
| `Build.AccumulationIsPrefix` | src/commands/build.rs:32-52 | in a successful loop, the list and the page log after the first i languages are prefixes of the final list and page log |
| `Build.PassIsConcatenation` | src/commands/build.rs:32-38 | the accumulated list is the concatenation of the scans of the languages processed so far, and the loop fails exactly when one of them fails, with the first failure |
| `Build.ScansFailAtFirst` | src/commands/build.rs:34-38 | the first language whose folder or scan fails decides the error of the whole loop |
| `Build.PrefixPassSucceeds` | src/commands/build.rs:34-38 | when the first i languages scan cleanly, the loop over them succeeds with their scans concatenated |
| `Build.LanguagePagesNavigation` | src/commands/build.rs:38-52 | the pages of language i follow those of the earlier languages and navigate the scans of languages 0..i-1 followed by language i's own chapters, not language i's chapters alone |
| `Build.PassWritesChapterPages` | src/commands/build.rs:69-79 | every page the language loop writes carries a chapter |
| `Build.HomepageOnceAndLast` | src/commands/build.rs:29-54 | a failed build writes no homepage; a successful one writes exactly the loop's pages followed by one homepage (none when its path refuses the write), so the homepage comes once and after every chapter page, through the root writer, with no chapter, the whole list and the default language or `""` |
| `Build.NoLanguageListWritesRootOnly` | src/commands/build.rs:22 | with no language list only the unnamed language is built, so every page lands in the root output directory |
| `Build.EmptyFileAbortsBuild` | src/commands/build.rs:128-132 | an empty plain-text file reached by the scan makes the whole build fail with the no-title error |
| `Output.Ssg.Gen` | src/commands/build.rs:73-80 | a write to a refused path records nothing and returns that path's error; otherwise it records one page with the given properties |
| `Output.Disk.WriteAsset` | src/commands/build.rs:30 | writing the stylesheet fails on a refused path and otherwise records it |
| `Output.Disk.RemoveAll` | src/commands.rs:140-141 | a successful removal deletes the target and everything under it and keeps every other path; a failed one changes nothing |
| `Commands.DirToRemove` | src/commands.rs:131-137 | an explicit destination is the target regardless of configuration; otherwise it is the book source followed by the build directory when a build section exists, or by `dir` when not |
| `Commands.Execute` | src/commands.rs:122-185 | `clean` fails when the configuration does not load, removes only an existing target, and touches nothing else; `build` panics without a configuration or default language, otherwise stores the configuration and runs the build; `watch`, `serve` and `test` change nothing and return Ok |

## Left out

- `Init` and `Completions`: `Init` lives in a module that is not part of this model, and `Completions` only calls a shell-completion library.
- The clap definitions of the commands, `src/main.rs` and the async runtime: they are declarations and dispatch only.
- The global `CONFIG` lock: it is a field of the `Shared` object, written once, with no concurrency.
- The internals of `Config::from_disk`, of TOML parsing and of `Config::default_language`: the configuration is an input value.
- The YAML deserialisation: the front-matter engine is an uninterpreted function parameter.
- HTML rendering by `Ssg::gen` and the `Homepage` component: only the directory, the file name and the properties of each write are recorded.
- The contents of the written files are not modelled: `style.css` is recorded as written, not with its text.
- The panics of `create_dir_all(...).expect(...)`: output directories are assumed to be creatable, and the created directories are not added to `Disk.tree`.
- Written pages are also not added to `Disk.tree`. `tree` is the state that `clean` inspects.
- The panic of `file_stem().unwrap()`: entries from `read_dir` always have a file name.
- `Path::join` with absolute components: paths are component sequences and joining is concatenation. The output directory of language `""` (`./out/book/`) is identified with the root `./out/book`.
- Which paths are refused is fixed for the whole run: a write fails on a path in `Disk.refused`, not on a transient error.
- `Output.Disk.RemoveAll`: a removal that fails partway is modelled as removing nothing.
- The diagnostics printed with `println!`.
