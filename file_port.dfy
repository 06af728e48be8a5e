/** The file vault panel: extension lookups for the code preview, the list
    of ingested files with their simulated progress, the preview toggle and
    the manifest summary of an unpacked archive. Reading the file, unzipping
    it and the interval timer are outside the model: their results (the
    data, the manifest, the elapsed time) come in as parameters. */
module FilePort {
  import opened Wrappers
  import opened Strings
  import opened Types

  // ------------------------------------------------------------ extensions

  /** `name.split('.').pop().toLowerCase()`: the lower-cased text after the
      last dot, or the whole name when it has none. */
  function Extension(name: string): (ext: string)
    ensures !HasChar(ext, '.')
    ensures |ext| <= |name|
  {
    var pieces := Split(name, '.');
    assert |Split(name, '.')[|pieces| - 1]| <= |name| by { PieceShorter(pieces, |pieces| - 1, '.'); }
    var last := pieces[|pieces| - 1];
    assert !HasChar(ToLower(last), '.') by {
      forall i | 0 <= i < |last| ensures ToLower(last)[i] != '.' {
        assert last[i] != '.';
      }
    }
    ToLower(last)
  }

  /** A piece of a split is no longer than what was split. */
  lemma {:induction false} PieceShorter(pieces: seq<string>, k: nat, sep: char)
    requires k < |pieces|
    ensures |pieces[k]| <= |Join(pieces, sep)|
    decreases |pieces|
  {
    if k > 0 {
      PieceShorter(pieces[1..], k - 1, sep);
    }
  }

  lemma ExtensionWithoutDot(name: string)
    requires !HasChar(name, '.')
    ensures Extension(name) == ToLower(name)
  {
    SplitWithoutSep(name, '.');
  }

  lemma ExtensionAfterDot(stem: string, ext: string)
    requires !HasChar(ext, '.')
    ensures Extension(stem + "." + ext) == ToLower(ext)
  {
    SplitLastAfterSep(stem, '.', ext);
  }

  /** The extensions the preview knows a language for. */
  const LanguageExtensions: set<string> :=
    {"js", "jsx", "ts", "tsx", "py", "html", "css", "json", "md", "cpp", "cs", "go", "dwg", "dxf", "xml", "txt"}

  /** The highlighting language of `getLanguage`. */
  function GetLanguage(name: string): (lang: string)
    ensures lang == "clike" <==> Extension(name) !in LanguageExtensions
  {
    var ext := Extension(name);
    if ext == "js" then "javascript"
    else if ext == "jsx" then "jsx"
    else if ext == "ts" then "typescript"
    else if ext == "tsx" then "tsx"
    else if ext == "py" then "python"
    else if ext == "html" then "html"
    else if ext == "css" then "css"
    else if ext == "json" then "json"
    else if ext == "md" then "markdown"
    else if ext == "cpp" then "cpp"
    else if ext == "cs" then "csharp"
    else if ext == "go" then "go"
    else if ext == "dwg" || ext == "dxf" then "autocad"
    else if ext == "xml" then "xml"
    else if ext == "txt" then "text"
    else "clike"
  }

  /** The twenty extensions `isCodeFile` accepts. */
  const CodeExtensions: seq<string> :=
    ["js", "jsx", "ts", "tsx", "py", "html", "css", "json", "md", "cpp", "cs", "go", "txt", "c", "h", "java", "dwg", "dxf", "xml", "bim"]

  predicate IsCodeFile(name: string) {
    Extension(name) in CodeExtensions
  }

  /** Every file with a known language is offered a preview; the only code
      files without one are C sources and headers, Java and BIM files,
      which are highlighted as `clike`. */
  lemma LanguageImpliesCodeFile(name: string)
    ensures GetLanguage(name) != "clike" ==> IsCodeFile(name)
    ensures IsCodeFile(name) && GetLanguage(name) == "clike" <==> Extension(name) in {"c", "h", "java", "bim"}
  {
  }

  /** A drawing file keeps its language whatever the case of its extension. */
  lemma DrawingLanguage(stem: string)
    ensures GetLanguage(stem + ".DWG") == "autocad" && GetLanguage(stem + ".dxf") == "autocad"
    ensures IsCodeFile(stem + ".Dwg")
  {
    assert stem + ".DWG" == stem + "." + "DWG";
    assert stem + ".dxf" == stem + "." + "dxf";
    assert stem + ".Dwg" == stem + "." + "Dwg";
    assert ToLower("DWG") == "dwg" && ToLower("Dwg") == "dwg" && ToLower("dxf") == "dxf";
    ExtensionAfterDot(stem, "DWG");
    ExtensionAfterDot(stem, "dxf");
    ExtensionAfterDot(stem, "Dwg");
    DrawingExtension(stem + ".DWG");
    DrawingExtension(stem + ".dxf");
    DrawingExtension(stem + ".Dwg");
  }

  lemma DrawingExtension(name: string)
    requires Extension(name) == "dwg" || Extension(name) == "dxf"
    ensures GetLanguage(name) == "autocad" && IsCodeFile(name)
  {
    var ext := Extension(name);
    assert ext[0] == 'd' && |ext| == 3;
    assert CodeExtensions[16] == "dwg" && CodeExtensions[17] == "dxf";
  }

  // ---------------------------------------------------------- file records

  datatype Status = Uploading | Processing | Ready | Error

  /** A vault entry: the file's metadata and the panel's own fields. */
  datatype ProcessedFile = ProcessedFile(
    meta: FileMetadata,
    status: Status,
    progress: int,
    manifest: Option<seq<string>>,
    previewOpen: Option<bool>)

  predicate IsArchive(name: string, mimeType: string) {
    mimeType == "application/zip" || EndsWith(name, ".zip")
  }

  /** The record `processFile` (or `handleZip`) prepends for a dropped file. */
  function NewRecord(id: string, name: string, size: int, mimeType: string): (f: ProcessedFile)
    ensures f.meta.id == id && f.meta.name == name && f.meta.path == name && f.meta.size == size
    ensures f.meta.mimeType == Some(mimeType) && f.meta.data.None?
    ensures f.progress == 0 && f.manifest.None? && f.previewOpen.None?
    ensures IsArchive(name, mimeType) <==> f.meta.fileType == "zip" && f.status == Processing
    ensures !IsArchive(name, mimeType) <==> f.meta.fileType == "raw" && f.status == Uploading
  {
    var kind := if IsArchive(name, mimeType) then "zip" else "raw";
    ProcessedFile(
      FileMetadata(id, name, size, kind, name, None, None, Some(mimeType), None, None),
      if IsArchive(name, mimeType) then Processing else Uploading,
      0, None, None)
  }

  datatype ReadMode = AsDataUrl | AsText

  /** Images are read as data URLs, everything else (drawings included) as text. */
  function ReadModeOf(mimeType: string): (m: ReadMode)
    ensures m == AsDataUrl <==> StartsWith(mimeType, "image/")
  {
    if StartsWith(mimeType, "image/") then AsDataUrl else AsText
  }

  /** `updateProgress`: the record with the id gets the progress, and the
      status too when one is given. */
  function UpdateProgress(files: seq<ProcessedFile>, id: string, progress: int, status: Option<Status>): (r: seq<ProcessedFile>)
    ensures |r| == |files|
    ensures forall k :: 0 <= k < |r| ==> r[k].meta == files[k].meta && r[k].manifest == files[k].manifest && r[k].previewOpen == files[k].previewOpen
  {
    seq(|files|, k requires 0 <= k < |files| =>
      if files[k].meta.id == id
      then files[k].(progress := progress, status := if status.Some? then status.value else files[k].status)
      else files[k])
  }

  /** The record with the id is replaced by another (the finished upload). */
  function ReplaceById(files: seq<ProcessedFile>, id: string, f: ProcessedFile): seq<ProcessedFile> {
    seq(|files|, k requires 0 <= k < |files| => if files[k].meta.id == id then f else files[k])
  }

  /** The failure path of `handleZip`. */
  function MarkError(files: seq<ProcessedFile>, id: string): seq<ProcessedFile> {
    seq(|files|, k requires 0 <= k < |files| =>
      if files[k].meta.id == id then files[k].(status := Error) else files[k])
  }

  /** `!f.previewOpen`: an unset flag counts as closed, so it opens. */
  function TogglePreview(files: seq<ProcessedFile>, id: string): (r: seq<ProcessedFile>)
    ensures |r| == |files|
    ensures forall k :: 0 <= k < |r| ==> r[k] == files[k].(previewOpen := r[k].previewOpen)
    ensures forall k :: 0 <= k < |r| && files[k].meta.id == id ==> r[k].previewOpen.Some? && (r[k].previewOpen.value <==> files[k].previewOpen != Some(true))
  {
    seq(|files|, k requires 0 <= k < |files| =>
      if files[k].meta.id == id then files[k].(previewOpen := Some(files[k].previewOpen != Some(true))) else files[k])
  }

  /** Only the records with the id change: their progress is set, their
      status only when one is given; every other field and record stays. */
  lemma UpdateProgressOnlyMatching(files: seq<ProcessedFile>, id: string, progress: int, status: Option<Status>, k: nat)
    requires k < |files|
    ensures var r := UpdateProgress(files, id, progress, status);
      |r| == |files| &&
      (files[k].meta.id != id ==> r[k] == files[k]) &&
      (files[k].meta.id == id ==>
        r[k].progress == progress && r[k].meta == files[k].meta &&
        r[k].manifest == files[k].manifest && r[k].previewOpen == files[k].previewOpen &&
        (status.None? ==> r[k].status == files[k].status) &&
        (status.Some? ==> r[k].status == status.value))
  {
  }

  /** Toggling twice closes the preview when it was closed or never set, and
      leaves it open when it was open: the flag ends up defined. */
  lemma TogglePreviewTwice(files: seq<ProcessedFile>, id: string)
    ensures var r := TogglePreview(TogglePreview(files, id), id);
      |r| == |files| &&
      forall k :: 0 <= k < |files| ==>
        if files[k].meta.id == id
        then r[k] == files[k].(previewOpen := Some(files[k].previewOpen == Some(true)))
        else r[k] == files[k]
  {
  }

  /** A record whose flag was never set ends closed after two toggles. */
  lemma TogglePreviewTwiceFromUnset(files: seq<ProcessedFile>, id: string, k: nat)
    requires k < |files| && files[k].meta.id == id && files[k].previewOpen.None?
    ensures TogglePreview(TogglePreview(files, id), id)[k].previewOpen == Some(false)
  {
    TogglePreviewTwice(files, id);
  }

  // --------------------------------------------------------------- progress

  /** The percentage `Math.min(Math.round(elapsed / duration * 100), 95)`,
      computed here on exact rationals with halves rounded up; the source
      computes the quotient on doubles, so where its product falls just
      below a half it shows one percent less. */
  function SimulatedProgress(elapsed: nat, duration: nat): (p: int)
    requires duration > 0
    ensures 0 <= p <= 95
  {
    var rounded := (200 * elapsed + duration) / (2 * duration);
    if rounded < 95 then rounded else 95
  }

  lemma MulMonotone(a: int, b: int, m: int)
    requires a <= b && m >= 0
    ensures a * m <= b * m
  {
    assert b * m - a * m == (b - a) * m;
  }

  lemma DivAtLeast(n: int, m: int, q: int)
    requires m > 0 && q * m <= n
    ensures q <= n / m
  {
    var d := n / m;
    assert n < (d + 1) * m;
    if d + 1 <= q {
      MulMonotone(d + 1, q, m);
      assert false;
    }
  }

  lemma DivMonotone(n1: int, n2: int, m: int)
    requires m > 0 && n1 <= n2
    ensures n1 / m <= n2 / m
  {
    var d1 := n1 / m;
    assert d1 * m <= n1;
    DivAtLeast(n2, m, d1);
  }

  /** Once the duration has passed the bar sits at its cap of 95. */
  lemma ProgressCapsAtDuration(elapsed: nat, duration: nat)
    requires duration > 0 && elapsed >= duration
    ensures SimulatedProgress(elapsed, duration) == 95
  {
    DivAtLeast(200 * elapsed + duration, 2 * duration, 100);
  }

  /** Later ticks never show less progress. */
  lemma ProgressMonotone(e1: nat, e2: nat, duration: nat)
    requires duration > 0 && e1 <= e2
    ensures SimulatedProgress(e1, duration) <= SimulatedProgress(e2, duration)
  {
    DivMonotone(200 * e1 + duration, 200 * e2 + duration, 2 * duration);
  }

  // ---------------------------------------------------------- archives

  /** What the completion step of `handleZip` leaves, as the source is
      written. `paths` is the archive's path list when `JSZip.loadAsync`
      resolves and None when it rejects. The `try` around it covers only
      the synchronous `simulateProgress` call, which merely starts the
      interval, so a rejection inside the later completion step reaches no
      handler: the list stays as the last tick left it. */
  function ArchiveOpenedAsWritten(files: seq<ProcessedFile>, record: ProcessedFile, paths: Option<seq<string>>): (r: seq<ProcessedFile>)
    ensures paths.None? ==> r == files
  {
    match paths
    case Some(m) => ReplaceById(files, record.meta.id, record.(status := Ready, progress := 100, manifest := Some(m)))
    case None => files
  }

  /** A zip file that cannot be opened, as written: after the 2000 ms of
      simulated progress the record sits at 95 and stays `processing`; it
      never becomes an error. */
  lemma RejectedArchiveHangs(id: string)
    ensures var f0 := [NewRecord(id, "plans.zip", 1, "application/zip")];
      var f1 := UpdateProgress(f0, id, SimulatedProgress(2000, 2000), None);
      var r := ArchiveOpenedAsWritten(f1, f0[0], None);
      r[0].status == Processing && r[0].progress == 95
  {
    ProgressCapsAtDuration(2000, 2000);
    assert EndsWith("plans.zip", ".zip");
  }

  /** The completion step with the failure handled where it can occur: a
      rejected open marks the records with the id as errors. Every record
      with the id settles, ready or failed, and no other record changes. */
  function ArchiveOpened(files: seq<ProcessedFile>, record: ProcessedFile, paths: Option<seq<string>>): (r: seq<ProcessedFile>)
    ensures |r| == |files|
    ensures forall k :: 0 <= k < |files| && files[k].meta.id != record.meta.id ==> r[k] == files[k]
    ensures forall k :: 0 <= k < |files| && files[k].meta.id == record.meta.id ==>
      (paths.Some? ==> r[k].status == Ready && r[k].manifest == paths) &&
      (paths.None? ==> r[k] == files[k].(status := Error))
  {
    match paths
    case Some(m) => ReplaceById(files, record.meta.id, record.(status := Ready, progress := 100, manifest := Some(m)))
    case None => MarkError(files, record.meta.id)
  }

  /** The same zip file with the failure handled: the record ends as an error. */
  lemma RejectedArchiveFails(id: string)
    ensures var f0 := [NewRecord(id, "plans.zip", 1, "application/zip")];
      var f1 := UpdateProgress(f0, id, SimulatedProgress(2000, 2000), None);
      ArchiveOpened(f1, f0[0], None)[0].status == Error
  {
  }

  /** The vault's record list. */
  class FileVault {
    var files: seq<ProcessedFile>

    /** Progress stays a percentage, and a record still uploading or
        processing never shows a full bar: 100 comes only with completion. */
    ghost predicate Valid()
      reads this
    {
      forall k :: 0 <= k < |files| ==>
        0 <= files[k].progress <= 100 &&
        (files[k].status == Uploading || files[k].status == Processing ==> files[k].progress < 100)
    }

    constructor ()
      ensures Valid() && files == []
    {
      files := [];
    }

    /** A dropped file: its new record goes first in the list. */
    method Ingest(id: string, name: string, size: int, mimeType: string) returns (record: ProcessedFile)
      requires Valid()
      modifies this
      ensures Valid()
      ensures record == NewRecord(id, name, size, mimeType)
      ensures files == [record] + old(files)
    {
      record := NewRecord(id, name, size, mimeType);
      files := [record] + files;
    }

    /** One interval tick of `simulateProgress`; reports when the duration
        has passed and the completion step should run. */
    method Tick(id: string, elapsed: nat, duration: nat) returns (done: bool)
      requires Valid() && duration > 0
      modifies this
      ensures Valid()
      ensures files == UpdateProgress(old(files), id, SimulatedProgress(elapsed, duration), None)
      ensures done <==> elapsed >= duration
    {
      files := UpdateProgress(files, id, SimulatedProgress(elapsed, duration), None);
      done := elapsed >= duration;
    }

    /** The reader's load handler: the record as first created, now ready,
        full and holding the data, replaces the entry with its id. */
    method FinishUpload(record: ProcessedFile, data: string) returns (updated: ProcessedFile)
      requires Valid()
      modifies this
      ensures Valid()
      ensures updated == record.(status := Ready, progress := 100, meta := record.meta.(data := Some(data)))
      ensures files == ReplaceById(old(files), record.meta.id, updated)
    {
      updated := record.(status := Ready, progress := 100, meta := record.meta.(data := Some(data)));
      files := ReplaceById(files, record.meta.id, updated);
    }

    /** The archive's completion: ready, full and carrying its manifest. */
    method FinishArchive(record: ProcessedFile, manifest: seq<string>) returns (updated: ProcessedFile)
      requires Valid()
      modifies this
      ensures Valid()
      ensures updated == record.(status := Ready, progress := 100, manifest := Some(manifest))
      ensures files == ReplaceById(old(files), record.meta.id, updated)
    {
      updated := record.(status := Ready, progress := 100, manifest := Some(manifest));
      files := ReplaceById(files, record.meta.id, updated);
    }

    /** The `catch` of `handleZip`: the records with the id become errors.
        As the source is written it runs only when the synchronous
        `simulateProgress` call throws; SettleArchive also runs it for a
        rejected open. */
    method Fail(id: string)
      requires Valid()
      modifies this
      ensures Valid()
      ensures files == MarkError(old(files), id)
    {
      files := MarkError(files, id);
    }

    /** The archive's completion step with the failure handled: the
        manifest when the archive opens, an error when it does not. */
    method SettleArchive(record: ProcessedFile, paths: Option<seq<string>>)
      requires Valid()
      modifies this
      ensures Valid()
      ensures files == ArchiveOpened(old(files), record, paths)
    {
      if paths.Some? {
        var _ := FinishArchive(record, paths.value);
      } else {
        Fail(record.meta.id);
      }
    }

    method ToggleFilePreview(id: string)
      requires Valid()
      modifies this
      ensures Valid()
      ensures files == TogglePreview(old(files), id)
    {
      files := TogglePreview(files, id);
    }
  }

  /** The manifest list: at most the first ten paths, and a count of the
      rest only when there are more than ten. */
  function ManifestView(manifest: seq<string>): (v: (seq<string>, Option<nat>))
    ensures |v.0| == if |manifest| <= 10 then |manifest| else 10
    ensures v.0 == manifest[..|v.0|]
    ensures v.1.Some? <==> |manifest| > 10
    ensures v.1.Some? ==> |v.0| + v.1.value == |manifest|
  {
    var shown := if |manifest| <= 10 then manifest else manifest[..10];
    (shown, if |manifest| > 10 then Some(|manifest| - 10) else None)
  }
}
