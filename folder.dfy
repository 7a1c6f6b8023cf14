/**
 * `charpters_from_folder`: turns every entry of one language's source
 * directory into a chapter, in iteration order. A front-matter file the
 * engine cannot parse is skipped; every other failure aborts the scan.
 */
module Folder {
  import opened Models
  import opened Text

  /**
   * One item of the directory iterator: an I/O error, or a file whose stem
   * (None when it is not valid UTF-8) and text (None when it cannot be read)
   * are given.
   */
  datatype DirEntry = Broken | File(stem: Option<string>, text: Option<string>)

  /** The front-matter engine: metadata plus body, or nothing when the block does not deserialise. */
  type FrontMatter = string -> Option<Matter>

  /** What one entry contributes to the scan. */
  datatype Step = Keep(chapter: Chapter) | Skip | Abort(error: Error)

  const Delimiter: string := "---"

  /** The per-file decision between the front-matter path and the plain-text path. */
  function ParseText(text: string, stem: string, engine: FrontMatter): (s: Step)
    ensures s.Keep? ==> s.chapter.slug.Some?
    ensures s.Abort? ==> s.error == NoTitle
    // front-matter path: never fatal; skipped exactly when the engine fails
    ensures StartsWith(text, Delimiter) ==> !s.Abort? && (s.Skip? <==> engine(text).None?)
    ensures StartsWith(text, Delimiter) && s.Keep? ==>
      var m := engine(text).value;
      && s.chapter.title == m.data.title
      && s.chapter.content == Some(m.content)
      && (m.data.slug.Some? ==> s.chapter.slug == m.data.slug)
      && (m.data.slug.None? ==> s.chapter.slug == Some(stem))
    // plain-text path: never skipped; fatal exactly when there is no line
    ensures !StartsWith(text, Delimiter) ==> !s.Skip? && (s.Abort? <==> text == [])
    ensures !StartsWith(text, Delimiter) && s.Keep? ==>
      && IsFirstLine(text, s.chapter.title)
      && s.chapter.content == Some(text)
      && s.chapter.slug == Some(stem)
  {
    if StartsWith(text, Delimiter) then
      match engine(text)
      case None => Skip
      case Some(m) =>
        var slug := if m.data.slug.Some? then m.data.slug else Some(stem);
        Keep(m.data.(content := Some(m.content), slug := slug))
    else
      match FirstLine(text)
      case None => Abort(NoTitle)
      case Some(title) => Keep(Chapter(title, Some(stem), Some(text)))
  }

  /** What one directory entry contributes, with the I/O failures checked in the order the loop meets them. */
  function ParseEntry(e: DirEntry, engine: FrontMatter): (s: Step)
    ensures s.Keep? ==> s.chapter.slug.Some?
    ensures e.Broken? ==> s == Abort(EntryError)
    ensures e.File? && e.text.None? ==> s == Abort(ReadError)
    ensures e.File? && e.text.Some? && e.stem.None? ==> s == Abort(StemError)
    ensures s.Skip? ==> e.File? && e.text.Some? && StartsWith(e.text.value, Delimiter)
    ensures e.File? && e.stem.Some? && e.text == Some([]) ==> s == Abort(NoTitle)
  {
    match e
    case Broken => Abort(EntryError)
    case File(stem, text) =>
      if text.None? then Abort(ReadError)
      else if stem.None? then Abort(StemError)
      else ParseText(text.value, stem.value, engine)
  }

  /** The scan of a folder listing, entry by entry: the chapters kept so far, or the first fatal error. */
  function Scan(entries: seq<DirEntry>, engine: FrontMatter): Result<seq<Chapter>>
    decreases |entries|
  {
    if entries == [] then Ok([])
    else match Scan(entries[..|entries| - 1], engine)
      case Err(e) => Err(e)
      case Ok(chapters) =>
        match ParseEntry(entries[|entries| - 1], engine)
        case Abort(e) => Err(e)
        case Skip => Ok(chapters)
        case Keep(c) => Ok(chapters + [c])
  }

  /** Reference definition: the kept chapters of a listing, in listing order. */
  function Kept(entries: seq<DirEntry>, engine: FrontMatter): seq<Chapter> {
    if entries == [] then []
    else
      (match ParseEntry(entries[0], engine) case Keep(c) => [c] case _ => [])
      + Kept(entries[1..], engine)
  }

  /** How many entries are skipped front-matter failures. */
  function Skipped(entries: seq<DirEntry>, engine: FrontMatter): nat {
    if entries == [] then 0
    else (if ParseEntry(entries[0], engine).Skip? then 1 else 0) + Skipped(entries[1..], engine)
  }

  predicate NoAbort(entries: seq<DirEntry>, engine: FrontMatter) {
    forall i :: 0 <= i < |entries| ==> !ParseEntry(entries[i], engine).Abort?
  }

  /** The folder loop: proved to compute `Scan`. */
  method ChaptersFromFolder(folder: seq<DirEntry>, engine: FrontMatter) returns (r: Result<seq<Chapter>>)
    ensures r == Scan(folder, engine)
  {
    var chapters: seq<Chapter> := [];
    var i := 0;
    while i < |folder|
      invariant 0 <= i <= |folder|
      invariant Scan(folder[..i], engine) == Ok(chapters)
    {
      assert folder[..i + 1][..i] == folder[..i];
      var entry := folder[i];
      if entry.Broken? {
        ScanFailurePersists(folder, i + 1, engine);
        return Err(EntryError);
      }
      if entry.text.None? {
        ScanFailurePersists(folder, i + 1, engine);
        return Err(ReadError);
      }
      var text := entry.text.value;
      if entry.stem.None? {
        ScanFailurePersists(folder, i + 1, engine);
        return Err(StemError);
      }
      var stem := entry.stem.value;
      var step := ParseText(text, stem, engine);
      if step.Abort? {
        ScanFailurePersists(folder, i + 1, engine);
        return Err(step.error);
      }
      if step.Keep? {
        chapters := chapters + [step.chapter];
      }
      i := i + 1;
    }
    assert folder[..i] == folder;
    return Ok(chapters);
  }

  /** A plain-text file: its first line is the title, the whole text the content, the file stem the slug. */
  lemma PlainTextExample(engine: FrontMatter)
    ensures ParseText("Bienvenido\r\nTexto del capitulo", "nota", engine)
         == Keep(Chapter("Bienvenido", Some("nota"), Some("Bienvenido\r\nTexto del capitulo")))
  {
    var text := "Bienvenido\r\nTexto del capitulo";
    assert text[..3] != Delimiter by { assert text[0] != Delimiter[0]; }
    assert text[..12] == "Bienvenido" + "\r\n";
    FirstLineUnique(text, "Bienvenido");
  }

  // ---- properties of the scan ----

  /** Every chapter a successful scan returns has a slug, so generation's `unwrap` of it cannot fail. */
  lemma {:induction false} ScanSlugged(entries: seq<DirEntry>, engine: FrontMatter)
    ensures Scan(entries, engine).Ok? ==> Slugged(Scan(entries, engine).value)
    decreases |entries|
  {
    if entries != [] {
      ScanSlugged(entries[..|entries| - 1], engine);
    }
  }

  lemma {:induction false} KeptAppend(a: seq<DirEntry>, b: seq<DirEntry>, engine: FrontMatter)
    ensures Kept(a + b, engine) == Kept(a, engine) + Kept(b, engine)
    decreases |a|
  {
    if a != [] {
      assert (a + b)[0] == a[0];
      assert (a + b)[1..] == a[1..] + b;
      KeptAppend(a[1..], b, engine);
    } else {
      assert a + b == b;
    }
  }

  /** Without a fatal entry the scan succeeds with exactly the kept chapters, in listing order. */
  lemma {:induction false} ScanIsKept(entries: seq<DirEntry>, engine: FrontMatter)
    requires NoAbort(entries, engine)
    ensures Scan(entries, engine) == Ok(Kept(entries, engine))
    decreases |entries|
  {
    if entries != [] {
      var n := |entries| - 1;
      var init := entries[..n];
      assert NoAbort(init, engine) by {
        forall i | 0 <= i < |init| ensures !ParseEntry(init[i], engine).Abort? {
          assert init[i] == entries[i];
        }
      }
      ScanIsKept(init, engine);
      assert entries == init + [entries[n]];
      KeptAppend(init, [entries[n]], engine);
      assert [entries[n]][1..] == [];
      var step := ParseEntry(entries[n], engine);
      assert !step.Abort?;
      assert Kept([entries[n]], engine) == if step.Keep? then [step.chapter] else [];
      assert Scan(entries, engine) == if step.Keep? then Ok(Kept(init, engine) + [step.chapter]) else Ok(Kept(init, engine));
      assert Kept(entries, engine) == Kept(init, engine) + Kept([entries[n]], engine);
      if !step.Keep? {
        assert Kept(init, engine) + [] == Kept(init, engine);
      }
    } else {
      assert Kept(entries, engine) == [];
    }
  }

  /** Once a prefix of the listing has failed, the whole scan fails with the same error. */
  lemma {:induction false} ScanFailurePersists(entries: seq<DirEntry>, k: nat, engine: FrontMatter)
    requires k <= |entries| && Scan(entries[..k], engine).Err?
    ensures Scan(entries, engine) == Scan(entries[..k], engine)
    decreases |entries|
  {
    if k < |entries| {
      var n := |entries| - 1;
      assert entries[..n][..k] == entries[..k];
      ScanFailurePersists(entries[..n], k, engine);
    } else {
      assert entries[..k] == entries;
    }
  }

  /** The first fatal entry decides the scan's error: a read error, a bad stem or an empty plain file is not skipped. */
  lemma ScanFailsAtFirstAbort(entries: seq<DirEntry>, i: nat, engine: FrontMatter)
    requires i < |entries| && ParseEntry(entries[i], engine).Abort?
    requires NoAbort(entries[..i], engine)
    ensures Scan(entries, engine) == Err(ParseEntry(entries[i], engine).error)
  {
    ScanIsKept(entries[..i], engine);
    assert entries[..i + 1][..i] == entries[..i];
    ScanFailurePersists(entries, i + 1, engine);
  }

  /** Every entry that is not fatal yields one chapter or one skip: the kept count is the listing's size less the skipped files. */
  lemma {:induction false} KeptCount(entries: seq<DirEntry>, engine: FrontMatter)
    requires NoAbort(entries, engine)
    ensures |Kept(entries, engine)| == |entries| - Skipped(entries, engine)
    decreases |entries|
  {
    if entries != [] {
      assert NoAbort(entries[1..], engine) by {
        forall i | 0 <= i < |entries| - 1 ensures !ParseEntry(entries[1..][i], engine).Abort? {
          assert entries[1..][i] == entries[i + 1];
        }
      }
      assert !ParseEntry(entries[0], engine).Abort?;
      KeptCount(entries[1..], engine);
    }
  }

  /** When no entry is skipped or fatal, the k-th chapter comes from the k-th entry. */
  lemma {:induction false} KeptOnePerEntry(entries: seq<DirEntry>, engine: FrontMatter)
    requires forall i :: 0 <= i < |entries| ==> ParseEntry(entries[i], engine).Keep?
    ensures |Kept(entries, engine)| == |entries|
    ensures forall k :: 0 <= k < |entries| ==> Kept(entries, engine)[k] == ParseEntry(entries[k], engine).chapter
    decreases |entries|
  {
    if entries != [] {
      assert forall i :: 0 <= i < |entries| - 1 ==> entries[1..][i] == entries[i + 1];
      KeptOnePerEntry(entries[1..], engine);
    }
  }
}
