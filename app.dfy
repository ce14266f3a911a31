/**
 * The upload service: which file names it accepts, what it does with an
 * upload (the 400 guards, saving, the result name it derives and the
 * processor call it makes) and how it lists the results it has produced.
 * The HTTP layer, the detector, `uuid4`, the clock and werkzeug's
 * `secure_filename` are parameters; the results folder is its listing.
 */
module App {
  import opened Wrappers
  import opened PyText

  const UPLOAD_FOLDER: string := "static/uploads"
  const RESULT_FOLDER: string := "static/results"

  const ALLOWED_EXTENSIONS: set<string> := {"png", "jpg", "jpeg", "mp4", "avi", "mov", "mkv"}

  /** The extensions the upload handler sends to the video processor. */
  const VIDEO_EXTENSIONS: seq<string> := ["mp4", "avi", "mov", "mkv"]

  const RESULT_PREFIX: string := "result_"

  /** The URL prefix under which a result file is served. */
  const RESULT_ROUTE: string := "/result/"

  // ---------------------------------------------------------------- file names

  /** `name.rsplit('.', 1)` for a name with a dot: the text before and after its last dot. */
  function RSplitDot(name: string): (parts: Option<(string, string)>)
    ensures parts.None? <==> '.' !in name
    ensures parts.Some? ==> name == parts.value.0 + "." + parts.value.1 && '.' !in parts.value.1
  {
    match LastIndexOf(name, '.')
      case None => None
      case Some(i) =>
        assert name == name[..i] + "." + name[i + 1..];
        Some((name[..i], name[i + 1..]))
  }

  /** Splitting at the last dot undoes joining a stem and a dot-free extension. */
  lemma RSplitDotOfJoin(stem: string, ext: string)
    requires '.' !in ext
    ensures RSplitDot(stem + "." + ext) == Some((stem, ext))
  {
    var name := stem + "." + ext;
    assert name[|stem|] == '.';
    var i := LastIndexOf(name, '.').value;
    assert name[..i] == stem && name[i + 1..] == ext;
  }

  /** `allowed_file`: the text after the last dot, lower-cased, is an allowed extension. */
  predicate AllowedFile(filename: string): (ok: bool)
    ensures ok ==> '.' in filename
  {
    match RSplitDot(filename)
      case None => false
      case Some((_, ext)) => Lower(ext) in ALLOWED_EXTENSIONS
  }

  /** Only the extension decides, whatever the stem, and its case does not matter. */
  lemma AllowedFileByExtension(stem: string, ext: string)
    requires '.' !in ext
    ensures AllowedFile(stem + "." + ext) <==> Lower(ext) in ALLOWED_EXTENSIONS
  {
    RSplitDotOfJoin(stem, ext);
  }

  /** An extension whose lower-case form is not on the list is refused, whatever the stem. */
  lemma RejectedExtension(stem: string, ext: string)
    requires '.' !in ext && Lower(ext) !in ALLOWED_EXTENSIONS
    ensures !AllowedFile(stem + "." + ext)
  {
    AllowedFileByExtension(stem, ext);
  }

  /** Executables and audio files are refused, whatever the stem. */
  lemma RejectedExtensions(stem: string)
    ensures !AllowedFile(stem + "." + "exe") && !AllowedFile(stem + "." + "wav") && !AllowedFile(stem + "." + "mp3")
  {
    UnlistedExtensions();
    RejectedExtension(stem, "exe");
    RejectedExtension(stem, "wav");
    RejectedExtension(stem, "mp3");
  }

  lemma UnlistedExtensions()
    ensures '.' !in "exe" && Lower("exe") !in ALLOWED_EXTENSIONS
    ensures '.' !in "wav" && Lower("wav") !in ALLOWED_EXTENSIONS
    ensures '.' !in "mp3" && Lower("mp3") !in ALLOWED_EXTENSIONS
  {
    assert Lower("exe") == "exe" && Lower("wav") == "wav" && Lower("mp3") == "mp3";
  }

  /** Upper-case extensions are accepted like lower-case ones. */
  lemma ExtensionCaseIgnored(stem: string)
    ensures AllowedFile(stem + "." + "PNG") && AllowedFile(stem + "." + "Mp4")
  {
    AllowedFileByExtension(stem, "PNG");
    AllowedFileByExtension(stem, "Mp4");
    assert Lower("PNG") == "png";
    assert Lower("Mp4") == "mp4";
  }

  datatype ResultType = Video | Image

  /**
   * The result file name derived from the secured upload name, with the
   * branch the handler takes: a video becomes `result_<stem>.mp4`, anything
   * else `result_<name>`.  None when the name has no dot, where
   * `rsplit('.', 1)[1]` raises.
   */
  function ResultFileName(filename: string): (r: Option<(string, ResultType)>)
    ensures r.None? <==> '.' !in filename
    ensures r.Some? ==> StartsWith(r.value.0, RESULT_PREFIX)
  {
    match RSplitDot(filename)
      case None => None
      case Some((stem, ext)) =>
        if Lower(ext) in VIDEO_EXTENSIONS then Some((RESULT_PREFIX + stem + ".mp4", Video))
        else Some((RESULT_PREFIX + filename, Image))
  }

  /** The two forms of the result name, for a name split into its stem and extension. */
  lemma ResultFileNameForms(stem: string, ext: string)
    requires '.' !in ext
    ensures ResultFileName(stem + "." + ext)
         == if Lower(ext) in VIDEO_EXTENSIONS then Some((RESULT_PREFIX + stem + ".mp4", Video))
            else Some((RESULT_PREFIX + stem + "." + ext, Image))
  {
    RSplitDotOfJoin(stem, ext);
    ConcatAssoc(RESULT_PREFIX, stem, ".", ext);
  }

  /** The video branch is taken exactly when the result name ends in `.mp4`. */
  lemma VideoIffMp4ResultName(filename: string)
    requires '.' in filename
    ensures var r := ResultFileName(filename).value;
            r.1 == Video <==> EndsWith(r.0, ".mp4")
  {
    VideoNameEndsMp4(filename);
    ImageNameNotMp4(filename);
  }

  lemma VideoNameEndsMp4(filename: string)
    requires '.' in filename
    ensures var r := ResultFileName(filename).value;
            r.1 == Video ==> EndsWith(r.0, ".mp4")
  {
    var stem := RSplitDot(filename).value.0;
    EndsWithConcat(RESULT_PREFIX + stem, ".mp4");
  }

  lemma ImageNameNotMp4(filename: string)
    requires '.' in filename
    ensures var r := ResultFileName(filename).value;
            r.1 == Image ==> !EndsWith(r.0, ".mp4")
  {
    var ext := RSplitDot(filename).value.1;
    if Lower(ext) !in VIDEO_EXTENSIONS && EndsWith(RESULT_PREFIX + filename, ".mp4") {
      PrefixedMp4(filename);
      Mp4NameSplits(filename);
      LowerMp4();
      assert false;
    }
  }

  lemma LowerMp4()
    ensures Lower("mp4") == "mp4"
  {
  }

  /** A name ending in `.mp4` splits into the text before that suffix and `mp4`. */
  lemma Mp4NameSplits(filename: string)
    requires EndsWith(filename, ".mp4")
    ensures RSplitDot(filename) == Some((filename[..|filename| - 4], "mp4"))
  {
    var stem := filename[..|filename| - 4];
    assert ".mp4" == "." + "mp4";
    assert filename == stem + "." + "mp4";
    RSplitDotOfJoin(stem, "mp4");
  }

  /** The prefix has no dot, so a prefixed name ending in `.mp4` is a name ending in `.mp4`. */
  lemma PrefixedMp4(filename: string)
    requires EndsWith(RESULT_PREFIX + filename, ".mp4")
    ensures EndsWith(filename, ".mp4")
  {
    var name := RESULT_PREFIX + filename;
    var n := |name|;
    assert name[n - 4] == '.';
    assert |filename| >= 4;
    assert name[n - 4..] == filename[|filename| - 4..];
  }

  /** `os.path.join(folder, name)` on POSIX paths. */
  function PathJoin(folder: string, name: string): (path: string)
    ensures !StartsWith(name, "/") && folder != [] ==> EndsWith(path, name)
    ensures StartsWith(name, "/") ==> path == name
  {
    if StartsWith(name, "/") then name
    else if folder == [] || EndsWith(folder, "/") then folder + name
    else folder + "/" + name
  }

  // ---------------------------------------------------------------- upload_file

  /** The `file` part of a multipart request; werkzeug gives it no file name when the part carries none. */
  datatype FilePart = FilePart(filename: Option<string>)

  /** The processor call the handler makes, on the saved upload and the result path. */
  datatype Job = Job(kind: ResultType, uploadPath: string, resultPath: string)

  /** What the handler answers. */
  datatype Outcome =
    | NoFilePart                                                        // 400
    | NoSelectedFile                                                    // 400
    | UnsupportedFormat                                                 // 400
    | Processed(resultUrl: string, resultType: ResultType, originalName: string)
    | ProcessingFailed(error: string)                                   // 500, the `except` branch
    | Uncaught                                                          // 500, an exception outside the `try`

  function Status(o: Outcome): int {
    match o
      case NoFilePart => 400
      case NoSelectedFile => 400
      case UnsupportedFormat => 400
      case Processed(_, _, _) => 200
      case ProcessingFailed(_) => 500
      case Uncaught => 500
  }

  /** The answer together with the effects: the path the upload was saved to and the processor call. */
  datatype Upload = Upload(outcome: Outcome, saved: Option<string>, job: Option<Job>)

  /**
   * `upload_file`.  `timestamp` and `fileId` are the formatted clock and the
   * first eight characters of the uuid, `secure` is `secure_filename`, and
   * `processorError` is the exception the processor raises, if any.
   */
  function UploadFile(filePart: Option<FilePart>, timestamp: string, fileId: string,
                      secure: string -> string, processorError: Option<string>): (u: Upload)
    ensures filePart.None? ==> u == Upload(NoFilePart, None, None)
    ensures Status(u.outcome) == 400 <==> u.saved.None?
    ensures u.saved.Some? ==> filePart.Some? && filePart.value.filename.Some? && AllowedFile(filePart.value.filename.value)
    ensures u.job.Some? ==> u.saved == Some(u.job.value.uploadPath)
    ensures u.outcome.Processed? || u.outcome.ProcessingFailed? <==> u.job.Some?
    ensures u.outcome.ProcessingFailed? <==> u.job.Some? && processorError.Some?
  {
    match filePart
      case None => Upload(NoFilePart, None, None)
      case Some(part) =>
        if part.filename == Some("") then Upload(NoSelectedFile, None, None)
        else if part.filename.None? || !AllowedFile(part.filename.value) then Upload(UnsupportedFormat, None, None)
        else SaveAndProcess(part.filename.value, timestamp, fileId, secure, processorError)
  }

  /** The handler past its guards: save the upload under its new name, derive the result name and
      run the processor. */
  function SaveAndProcess(original: string, timestamp: string, fileId: string,
                          secure: string -> string, processorError: Option<string>): (u: Upload)
    ensures u.saved.Some? && Status(u.outcome) != 400
    ensures u.job.Some? ==> u.saved == Some(u.job.value.uploadPath)
    ensures u.outcome.Processed? || u.outcome.ProcessingFailed? <==> u.job.Some?
    ensures u.outcome.ProcessingFailed? <==> u.job.Some? && processorError.Some?
  {
    var filename := secure(timestamp + "_" + fileId + "_" + original);
    var uploadPath := PathJoin(UPLOAD_FOLDER, filename);
    match ResultFileName(filename)
      case None => Upload(Uncaught, Some(uploadPath), None)
      case Some((resultName, kind)) =>
        var job := Job(kind, uploadPath, PathJoin(RESULT_FOLDER, resultName));
        match processorError
          case Some(e) => Upload(ProcessingFailed(e), Some(uploadPath), Some(job))
          case None => Upload(Processed(RESULT_ROUTE + resultName, kind, original), Some(uploadPath), Some(job))
  }

  /** A request without a usable file name is answered 400 before anything is saved or processed. */
  lemma UploadGuards(filePart: Option<FilePart>, timestamp: string, fileId: string,
                     secure: string -> string, processorError: Option<string>)
    ensures var u := UploadFile(filePart, timestamp, fileId, secure, processorError);
            && (filePart == Some(FilePart(Some(""))) ==> u == Upload(NoSelectedFile, None, None))
            && (filePart == Some(FilePart(None)) ==> u == Upload(UnsupportedFormat, None, None))
            && (forall f :: filePart == Some(FilePart(Some(f))) && f != "" && !AllowedFile(f) ==>
                  u == Upload(UnsupportedFormat, None, None))
  {
  }

  /** A processed upload links to a result whose name starts with `result_`, and the type said is the
      branch taken: video exactly when that name ends in `.mp4`. */
  lemma ProcessedResult(filePart: Option<FilePart>, timestamp: string, fileId: string,
                        secure: string -> string, processorError: Option<string>)
    requires UploadFile(filePart, timestamp, fileId, secure, processorError).outcome.Processed?
    ensures var u := UploadFile(filePart, timestamp, fileId, secure, processorError);
            var o := u.outcome;
            && StartsWith(o.resultUrl, RESULT_ROUTE)
            && var name := o.resultUrl[|RESULT_ROUTE|..];
            && StartsWith(name, RESULT_PREFIX)
            && (o.resultType == Video <==> EndsWith(name, ".mp4"))
            && u.job.value.kind == o.resultType
            && u.job.value.resultPath == PathJoin(RESULT_FOLDER, name)
            && Some(o.originalName) == filePart.value.filename
  {
    var original := filePart.value.filename.value;
    var filename := secure(timestamp + "_" + fileId + "_" + original);
    var (resultName, kind) := ResultFileName(filename).value;
    VideoIffMp4ResultName(filename);
    assert (RESULT_ROUTE + resultName)[|RESULT_ROUTE|..] == resultName;
  }

  // ---------------------------------------------------------------- list_results

  /** An entry of the results folder with its creation time. */
  datatype DirEntry = DirEntry(name: string, created: real)

  /** One element of the JSON listing. */
  datatype Listed = Listed(name: string, url: string, kind: ResultType, created: real)

  function ListedEntry(e: DirEntry): (l: Listed)
    ensures l.name == e.name && l.created == e.created && StartsWith(l.url, RESULT_ROUTE)
    ensures l.kind == Video <==> EndsWith(e.name, ".mp4")
  {
    Listed(e.name, RESULT_ROUTE + e.name, if EndsWith(e.name, ".mp4") then Video else Image, e.created)
  }

  /** The listing before sorting: the `result_` entries, in directory order. */
  function Listing(entries: seq<DirEntry>): seq<Listed> {
    if entries == [] then []
    else
      var last := entries[|entries| - 1];
      Listing(entries[..|entries| - 1]) + if StartsWith(last.name, RESULT_PREFIX) then [ListedEntry(last)] else []
  }

  /** The listing holds exactly the `result_` entries. */
  lemma {:induction false} ListingMembers(entries: seq<DirEntry>)
    ensures forall l :: l in Listing(entries) <==> exists e :: e in entries && StartsWith(e.name, RESULT_PREFIX) && l == ListedEntry(e)
  {
    if entries != [] {
      var init := entries[..|entries| - 1];
      ListingMembers(init);
      assert entries == init + [entries[|entries| - 1]];
    }
  }

  /** `list.sort(key=created, reverse=True)`: newest first, entries created at the same time in their
      original order. */
  function SortByCreated(xs: seq<Listed>): (s: seq<Listed>)
    ensures |s| == |xs|
  {
    if xs == [] then [] else InsertByCreated(xs[0], SortByCreated(xs[1..]))
  }

  /** Put `x` before the first element created no later than it. */
  function InsertByCreated(x: Listed, s: seq<Listed>): (r: seq<Listed>)
    ensures |r| == |s| + 1
  {
    if s == [] || s[0].created <= x.created then [x] + s
    else [s[0]] + InsertByCreated(x, s[1..])
  }

  predicate NewestFirst(s: seq<Listed>) {
    forall i, j :: 0 <= i < j < |s| ==> s[i].created >= s[j].created
  }

  /** The elements of `s` created at time `t`, in order. */
  function CreatedAt(s: seq<Listed>, t: real): seq<Listed> {
    if s == [] then []
    else (if s[0].created == t then [s[0]] else []) + CreatedAt(s[1..], t)
  }

  lemma {:induction false} InsertKeepsNewestFirst(x: Listed, s: seq<Listed>)
    requires NewestFirst(s)
    ensures NewestFirst(InsertByCreated(x, s))
    ensures forall l :: l in InsertByCreated(x, s) ==> l == x || l in s
  {
    if s != [] && s[0].created > x.created {
      var rest := InsertByCreated(x, s[1..]);
      InsertKeepsNewestFirst(x, s[1..]);
      var r := [s[0]] + rest;
      assert r[1..] == rest;
      forall j | 0 < j < |r|
        ensures r[0].created >= r[j].created
      {
        assert r[j] in rest;
      }
    }
  }

  lemma {:induction false} InsertKeepsElements(x: Listed, s: seq<Listed>)
    ensures multiset(InsertByCreated(x, s)) == multiset(s) + multiset{x}
  {
    if s != [] && s[0].created > x.created {
      InsertKeepsElements(x, s[1..]);
      assert s == [s[0]] + s[1..];
    }
  }

  /** `x` goes after the elements created strictly later and before the others, so among the elements
      created at any one time it comes first. */
  lemma {:induction false} InsertIsStable(x: Listed, s: seq<Listed>, t: real)
    ensures CreatedAt(InsertByCreated(x, s), t) == (if x.created == t then [x] else []) + CreatedAt(s, t)
  {
    var r := InsertByCreated(x, s);
    if s == [] || s[0].created <= x.created {
      assert r[1..] == s;
    } else {
      var rest := InsertByCreated(x, s[1..]);
      InsertIsStable(x, s[1..], t);
      assert r[1..] == rest;
      var head := if s[0].created == t then [s[0]] else [];
      var mine := if x.created == t then [x] else [];
      assert CreatedAt(r, t) == head + CreatedAt(rest, t) == head + (mine + CreatedAt(s[1..], t));
      assert CreatedAt(s, t) == head + CreatedAt(s[1..], t);
      assert head == [] || mine == [];
    }
  }

  /** The sort orders newest first, keeps every element, and is stable. */
  lemma {:induction false} SortByCreatedIsStableSort(xs: seq<Listed>)
    ensures NewestFirst(SortByCreated(xs))
    ensures multiset(SortByCreated(xs)) == multiset(xs)
    ensures forall t :: CreatedAt(SortByCreated(xs), t) == CreatedAt(xs, t)
  {
    if xs != [] {
      var rest := SortByCreated(xs[1..]);
      SortByCreatedIsStableSort(xs[1..]);
      InsertKeepsNewestFirst(xs[0], rest);
      InsertKeepsElements(xs[0], rest);
      assert xs == [xs[0]] + xs[1..];
      forall t
        ensures CreatedAt(SortByCreated(xs), t) == CreatedAt(xs, t)
      {
        InsertIsStable(xs[0], rest, t);
      }
    }
  }

  /** `list_results`: keep the `result_` entries, then sort them newest first. */
  method ListResults(entries: seq<DirEntry>) returns (results: seq<Listed>)
    ensures results == SortByCreated(Listing(entries))
  {
    results := [];
    var i := 0;
    while i < |entries|
      invariant 0 <= i <= |entries|
      invariant results == Listing(entries[..i])
    {
      assert entries[..i + 1][..i] == entries[..i];
      var file := entries[i];
      if StartsWith(file.name, RESULT_PREFIX) {
        results := results + [ListedEntry(file)];
      }
      i := i + 1;
    }
    assert entries[..i] == entries;
    results := SortByCreated(results);
  }

  /** What the listing promises: only `result_` files, each once per entry, typed by its `.mp4` suffix,
      newest first, ties in directory order. */
  lemma ListResultsProperties(entries: seq<DirEntry>)
    ensures var results := SortByCreated(Listing(entries));
            && multiset(results) == multiset(Listing(entries))
            && NewestFirst(results)
            && (forall t :: CreatedAt(results, t) == CreatedAt(Listing(entries), t))
            && (forall l :: l in results <==> exists e :: e in entries && StartsWith(e.name, RESULT_PREFIX) && l == ListedEntry(e))
  {
    var listing := Listing(entries);
    SortByCreatedIsStableSort(listing);
    ListingMembers(entries);
    var results := SortByCreated(listing);
    forall l
      ensures l in results <==> l in listing
    {
      assert l in results <==> l in multiset(results);
      assert l in listing <==> l in multiset(listing);
    }
  }

  /** A processed upload whose result file is in the folder shows up in the listing with the type the
      upload reported. */
  lemma UploadedResultIsListed(filePart: Option<FilePart>, timestamp: string, fileId: string,
                               secure: string -> string, entries: seq<DirEntry>, e: DirEntry)
    requires UploadFile(filePart, timestamp, fileId, secure, None).outcome.Processed?
    requires e in entries && UploadFile(filePart, timestamp, fileId, secure, None).outcome.resultUrl == RESULT_ROUTE + e.name
    ensures var o := UploadFile(filePart, timestamp, fileId, secure, None).outcome;
            exists l :: l in SortByCreated(Listing(entries)) && l.name == e.name && l.url == o.resultUrl && l.kind == o.resultType
  {
    ProcessedResult(filePart, timestamp, fileId, secure, None);
    ListResultsProperties(entries);
    assert (RESULT_ROUTE + e.name)[|RESULT_ROUTE|..] == e.name;
    assert ListedEntry(e) in SortByCreated(Listing(entries));
  }
}
