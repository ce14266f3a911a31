/**
 * The dataset merge script: label lines of each source are re-numbered
 * through that source's class mapping, files with no surviving line are
 * skipped, and the label file and its image are written under names
 * prefixed by the source name.  The filesystem is an input: each source
 * tree gives its label directories (listing and contents) and the image
 * file names that exist.
 */
module MergeData {
  import opened Wrappers
  import opened PyText
  import opened Yolo

  datatype SourceConfig = SourceConfig(name: string, mapping: map<int, int>)

  /** The two configured sources and their old-id -> new-id maps. */
  const MAPPING_CONFIG: seq<SourceConfig> := [
    SourceConfig("Folder_A", map[0 := 0, 1 := 1, 2 := 1, 3 := 3]),
    SourceConfig("Folder_B", map[0 := 2])
  ]

  const SUBSETS: seq<string> := ["train", "test", "valid"]

  /** Image extensions tried, in this order, for the image of a label file. */
  const IMAGE_EXTENSIONS: seq<string> := [".jpg", ".jpeg", ".png", ".bmp", ".tiif", ".webp"]

  /** `nc` and `names` of the data.yaml written after the merge. */
  const YAML_NC: nat := 4
  const YAML_NAMES: seq<string> := ["Airplane", "Bird", "Drone", "Helicopter"]

  /** Every target id of the configuration names a class of data.yaml, and every class gets a source. */
  lemma MappingTargetsAreYamlClasses()
    ensures YAML_NC == |YAML_NAMES|
    ensures forall s, id :: s in MAPPING_CONFIG && id in s.mapping ==> 0 <= s.mapping[id] < YAML_NC
    ensures (set s, id | s in MAPPING_CONFIG && id in s.mapping :: s.mapping[id]) == {0, 1, 2, 3}
  {
    var a, b := MAPPING_CONFIG[0], MAPPING_CONFIG[1];
    assert a.mapping[0] == 0 && a.mapping[1] == 1 && b.mapping[0] == 2 && a.mapping[3] == 3;
  }

  // ---------------------------------------------------------------- names

  /** YOLO calls the validation split `val`; the sources call it `valid`. */
  function TargetSubset(subset: string): (t: string)
    ensures subset == "valid" ==> t == "val"
    ensures subset != "valid" ==> t == subset
  {
    if subset == "valid" then "val" else subset
  }

  lemma TargetSubsetsAreYoloSplits()
    ensures forall s :: s in SUBSETS ==> TargetSubset(s) in ["train", "val", "test"]
    ensures forall s, t :: s in SUBSETS && t in SUBSETS && TargetSubset(s) == TargetSubset(t) ==> s == t
  {
  }

  /** Destination name of a label or image file: the source name, `_`, the original name. */
  function DestName(source: string, file: string): (r: string)
    ensures |r| == |source| + 1 + |file|
    ensures StartsWith(r, source + "_") && r[|source| + 1..] == file
  {
    source + "_" + file
  }

  /** Prefixing keeps the files of one source apart and the two configured sources apart. */
  lemma DestNamesDoNotCollide(s: string, f: string, g: string)
    ensures DestName(s, f) == DestName(s, g) ==> f == g
    ensures DestName(MAPPING_CONFIG[0].name, f) != DestName(MAPPING_CONFIG[1].name, g)
  {
    if DestName(s, f) == DestName(s, g) {
      assert f == DestName(s, f)[|s| + 1..];
    }
    assert DestName(MAPPING_CONFIG[0].name, f)[7] == 'A';
    assert DestName(MAPPING_CONFIG[1].name, g)[7] == 'B';
  }

  /** `os.path.splitext(name)[0]` for a bare file name: leading dots never start an extension. */
  function SplitExtRoot(name: string): (root: string)
    ensures root <= name
    ensures root != name ==> name[|root|] == '.' && '.' !in name[|root| + 1..]
    ensures root != name ==> exists j :: 0 <= j < |root| && root[j] != '.'
  {
    match LastIndexOf(name, '.')
    case None => name
    case Some(i) =>
      if exists j :: 0 <= j < i && name[j] != '.' then name[..i] else name
  }

  lemma SplitExtRootOfTxt(stem: string)
    requires exists j :: 0 <= j < |stem| && stem[j] != '.'
    ensures SplitExtRoot(stem + ".txt") == stem
  {
    var name := stem + ".txt";
    assert name[|stem|] == '.';
    assert forall i :: |stem| < i < |name| ==> name[i] != '.';
    assert LastIndexOf(name, '.') == Some(|stem|);
    var j :| 0 <= j < |stem| && stem[j] != '.';
    assert name[j] == stem[j];
    assert name[..|stem|] == stem;
  }

  /** The label files of a directory listing: the entries whose name ends in `.txt`, in listing order. */
  function LabelFiles(entries: seq<LabelFile>): (files: seq<LabelFile>)
    ensures forall f :: f in files <==> f in entries && EndsWith(f.name, ".txt")
  {
    if entries == [] then []
    else (if EndsWith(entries[0].name, ".txt") then [entries[0]] else []) + LabelFiles(entries[1..])
  }

  // ---------------------------------------------------------------- one label line

  /** Why the script stops: `int()` refused the class-id token. */
  datatype RemapError = InvalidClassId(token: string)

  /**
   * One label line: `None` when it is dropped, the re-numbered line when it
   * is kept, an error when its first token is not an integer.
   */
  function RemapLine(line: string, mapping: map<int, int>): (r: Result<Option<string>, RemapError>)
    ensures |Tokens(line)| < 5 ==> r == Ok(None)
    ensures r.Err? ==> |Tokens(line)| >= 5 && ParseInt(Tokens(line)[0]).None? && r.error.token == Tokens(line)[0]
    ensures r.Ok? && r.value.Some? ==> EndsWith(r.value.value, "\n")
  {
    var parts := Tokens(line);
    if |parts| < 5 then Ok(None)
    else match ParseInt(parts[0])
      case None => Err(InvalidClassId(parts[0]))
      case Some(id) =>
        if id in mapping then Ok(Some(IntToStr(mapping[id]) + " " + Join(parts[1..], " ") + "\n"))
        else Ok(None)
  }

  /** The drop rules: short lines, then ids outside the mapping. */
  lemma RemapLineDropRules(line: string, mapping: map<int, int>)
    ensures |Tokens(line)| < 5 ==> RemapLine(line, mapping) == Ok(None)
    ensures |Tokens(line)| >= 5 ==>
              (RemapLine(line, mapping).Err? <==> ParseInt(Tokens(line)[0]).None?)
    ensures |Tokens(line)| >= 5 && ParseInt(Tokens(line)[0]).Some? ==>
              (RemapLine(line, mapping) == Ok(None) <==> ParseInt(Tokens(line)[0]).value !in mapping)
  {
  }

  /** A label line as the merge writes it: single spaces, a newline, an id of `classes` first. */
  predicate IsMergedLine(out: string, classes: set<int>) {
    var toks := Tokens(out);
    && |toks| >= 5
    && out == Join(toks, " ") + "\n"
    && ParseInt(toks[0]).Some? && ParseInt(toks[0]).value in classes
  }

  /**
   * A kept line re-reads as the new id followed by the original
   * coordinate tokens, in order, separated by single spaces.
   */
  lemma RemapLineKept(line: string, mapping: map<int, int>, out: string)
    requires RemapLine(line, mapping) == Ok(Some(out))
    ensures |Tokens(line)| >= 5
    ensures ParseInt(Tokens(line)[0]).Some? && ParseInt(Tokens(line)[0]).value in mapping
    ensures Tokens(out) == [IntToStr(mapping[ParseInt(Tokens(line)[0]).value])] + Tokens(line)[1..]
    ensures ParseInt(Tokens(out)[0]) == Some(mapping[ParseInt(Tokens(line)[0]).value])
    ensures IsMergedLine(out, mapping.Values)
  {
    var parts := Tokens(line);
    var id := ParseInt(parts[0]).value;
    var ws := [IntToStr(mapping[id])] + parts[1..];
    IntToStrIsWord(mapping[id]);
    assert ws[1..] == parts[1..];
    assert Join(ws, " ") == IntToStr(mapping[id]) + " " + Join(parts[1..], " ");
    assert out == Join(ws, " ") + "\n";
    SplitJoin(ws, "\n");
    ParseIntOfIntToStr(mapping[id]);
    assert mapping[id] in mapping.Values;
  }

  // ---------------------------------------------------------------- one label file

  /**
   * Collecting per-line outcomes in order: kept lines are appended, dropped
   * lines skipped, and the first error stops everything.
   */
  function Collect<T, E>(outcomes: seq<Result<Option<T>, E>>): Result<seq<T>, E> {
    if outcomes == [] then Ok([])
    else match Collect(outcomes[..|outcomes| - 1])
      case Err(e) => Err(e)
      case Ok(prev) =>
        match outcomes[|outcomes| - 1]
        case Err(e) => Err(e)
        case Ok(None) => Ok(prev)
        case Ok(Some(l)) => Ok(prev + [l])
  }

  /** Collecting one more outcome: an error stops with that error, otherwise what was collected is kept
      and the outcome's line, if any, added. */
  lemma CollectStep<T, E>(outcomes: seq<Result<Option<T>, E>>, i: nat, acc: seq<T>)
    requires i < |outcomes| && Collect(outcomes[..i]) == Ok(acc)
    ensures outcomes[i].Err? ==> Collect(outcomes[..i + 1]) == Err(outcomes[i].error)
    ensures outcomes[i].Ok? ==>
              Collect(outcomes[..i + 1]) == Ok(if outcomes[i].value.Some? then acc + [outcomes[i].value.value] else acc)
  {
    assert outcomes[..i + 1][..i] == outcomes[..i];
  }

  function LineOutcomes(lines: seq<string>, mapping: map<int, int>): (o: seq<Result<Option<string>, RemapError>>)
    ensures |o| == |lines| && forall i :: 0 <= i < |lines| ==> o[i] == RemapLine(lines[i], mapping)
  {
    seq(|lines|, i requires 0 <= i < |lines| => RemapLine(lines[i], mapping))
  }

  /** The `new_lines` of a label file: the kept lines in input order; the first bad id stops it. */
  function RemapLines(lines: seq<string>, mapping: map<int, int>): Result<seq<string>, RemapError> {
    Collect(LineOutcomes(lines, mapping))
  }

  /** The loop of `process_dataset` that builds `new_lines`. */
  method RemapLabelLines(lines: seq<string>, mapping: map<int, int>) returns (r: Result<seq<string>, RemapError>)
    ensures r == RemapLines(lines, mapping)
  {
    ghost var outcomes := LineOutcomes(lines, mapping);
    var newLines: seq<string> := [];
    var i := 0;
    while i < |lines|
      invariant 0 <= i <= |lines|
      invariant Collect(outcomes[..i]) == Ok(newLines)
    {
      var parts := Tokens(lines[i]);
      if |parts| < 5 {
        assert RemapLine(lines[i], mapping) == Ok(None);
        CollectStep(outcomes, i, newLines);
        i := i + 1;
        continue;
      }
      var classId := ParseInt(parts[0]);
      if classId.None? {
        assert RemapLine(lines[i], mapping) == Err(InvalidClassId(parts[0]));
        CollectStep(outcomes, i, newLines);
        CollectErrorPropagates(outcomes, i + 1);
        return Err(InvalidClassId(parts[0]));
      }
      if classId.value in mapping {
        var newLine := IntToStr(mapping[classId.value]) + " " + Join(parts[1..], " ") + "\n";
        assert RemapLine(lines[i], mapping) == Ok(Some(newLine));
        CollectStep(outcomes, i, newLines);
        newLines := newLines + [newLine];
      } else {
        assert RemapLine(lines[i], mapping) == Ok(None);
        CollectStep(outcomes, i, newLines);
      }
      i := i + 1;
    }
    assert outcomes[..i] == outcomes;
    r := Ok(newLines);
  }

  /** Once a prefix fails, the whole sequence fails with the same error. */
  lemma {:induction false} CollectErrorPropagates<T, E>(outcomes: seq<Result<Option<T>, E>>, n: nat)
    requires n <= |outcomes| && Collect(outcomes[..n]).Err?
    ensures Collect(outcomes) == Collect(outcomes[..n])
    decreases |outcomes| - n
  {
    if n < |outcomes| {
      assert outcomes[..n + 1][..n] == outcomes[..n];
      CollectErrorPropagates(outcomes, n + 1);
    } else {
      assert outcomes[..n] == outcomes;
    }
  }

  lemma {:induction false} CollectOkIffEveryOk<T, E>(outcomes: seq<Result<Option<T>, E>>)
    ensures Collect(outcomes).Ok? <==> forall i :: 0 <= i < |outcomes| ==> outcomes[i].Ok?
  {
    if outcomes != [] {
      var init := outcomes[..|outcomes| - 1];
      CollectOkIffEveryOk(init);
      assert forall i :: 0 <= i < |init| ==> init[i] == outcomes[i];
    }
  }

  lemma {:induction false} CollectKeepsOrder<T, E>(outcomes: seq<Result<Option<T>, E>>, out: seq<T>)
    returns (idx: seq<nat>)
    requires Collect(outcomes) == Ok(out)
    ensures |idx| == |out| <= |outcomes|
    ensures forall k :: 0 <= k < |idx| ==> idx[k] < |outcomes| && outcomes[idx[k]] == Ok(Some(out[k]))
    ensures forall k, m :: 0 <= k < m < |idx| ==> idx[k] < idx[m]
    ensures forall i :: 0 <= i < |outcomes| && i !in idx ==> outcomes[i] == Ok(None)
  {
    if outcomes == [] {
      idx := [];
    } else {
      var n := |outcomes| - 1;
      var init := outcomes[..n];
      var prev := Collect(init).value;
      var pidx := CollectKeepsOrder(init, prev);
      assert forall i :: 0 <= i < n ==> init[i] == outcomes[i];
      if outcomes[n] == Ok(None) {
        idx := pidx;
      } else {
        idx := pidx + [n];
        assert out == prev + [out[|out| - 1]];
      }
    }
  }

  /** The file is processed without error exactly when no line has an error. */
  lemma RemapLinesOkIffEveryLineOk(lines: seq<string>, mapping: map<int, int>)
    ensures RemapLines(lines, mapping).Ok? <==>
            forall i :: 0 <= i < |lines| ==> RemapLine(lines[i], mapping).Ok?
  {
    CollectOkIffEveryOk(LineOutcomes(lines, mapping));
  }

  /**
   * The output is the kept lines in input order: `idx` picks, strictly
   * increasing, the input line each output line comes from, and every input
   * line not picked is dropped.  So there are never more output lines than input lines.
   */
  lemma RemapLinesKeepsOrder(lines: seq<string>, mapping: map<int, int>, out: seq<string>)
    returns (idx: seq<nat>)
    requires RemapLines(lines, mapping) == Ok(out)
    ensures |idx| == |out| <= |lines|
    ensures forall k :: 0 <= k < |idx| ==> idx[k] < |lines| && RemapLine(lines[idx[k]], mapping) == Ok(Some(out[k]))
    ensures forall k, m :: 0 <= k < m < |idx| ==> idx[k] < idx[m]
    ensures forall i :: 0 <= i < |lines| && i !in idx ==> RemapLine(lines[i], mapping) == Ok(None)
  {
    idx := CollectKeepsOrder(LineOutcomes(lines, mapping), out);
  }

  /** The lines of a kept file are well-formed merged lines whose ids are targets of the mapping. */
  lemma {:induction false} RemapLinesWellFormed(lines: seq<string>, mapping: map<int, int>, out: seq<string>)
    requires RemapLines(lines, mapping) == Ok(out)
    ensures forall k :: 0 <= k < |out| ==> IsMergedLine(out[k], mapping.Values)
  {
    var idx := RemapLinesKeepsOrder(lines, mapping, out);
    forall k | 0 <= k < |out|
      ensures IsMergedLine(out[k], mapping.Values)
    {
      RemapLineKept(lines[idx[k]], mapping, out[k]);
    }
  }

  // ---------------------------------------------------------------- image search

  /** The first `base + ext` that exists, trying `exts` in order. */
  function FirstImage(base: string, exts: seq<string>, existing: set<string>): (r: Option<string>)
    ensures r.None? <==> forall k :: 0 <= k < |exts| ==> base + exts[k] !in existing
    ensures r.Some? ==> exists k :: 0 <= k < |exts| && r.value == base + exts[k] && r.value in existing
                                    && forall j :: 0 <= j < k ==> base + exts[j] !in existing
  {
    if exts == [] then None
    else if base + exts[0] in existing then Some(base + exts[0])
    else
      var r := FirstImage(base, exts[1..], existing);
      assert forall k :: 0 < k < |exts| ==> exts[k] == exts[1..][k - 1];
      if r.Some? then
        var k :| 0 <= k < |exts| - 1 && r.value == base + exts[1..][k] && r.value in existing
                 && forall j :: 0 <= j < k ==> base + exts[1..][j] !in existing;
        assert r.value == base + exts[k + 1];
        r
      else r
  }

  /** The search loop with its `image_found` flag and `break`. */
  method FindImage(base: string, existing: set<string>) returns (found: Option<string>)
    ensures found == FirstImage(base, IMAGE_EXTENSIONS, existing)
  {
    var imageFound := false;
    found := None;
    var i := 0;
    while i < |IMAGE_EXTENSIONS|
      invariant 0 <= i <= |IMAGE_EXTENSIONS|
      invariant imageFound == found.Some?
      invariant !imageFound ==> FirstImage(base, IMAGE_EXTENSIONS[i..], existing) == FirstImage(base, IMAGE_EXTENSIONS, existing)
      invariant imageFound ==> found == FirstImage(base, IMAGE_EXTENSIONS, existing)
    {
      var srcImgName := base + IMAGE_EXTENSIONS[i];
      if srcImgName in existing {
        found := Some(srcImgName);
        imageFound := true;
        break;
      }
      i := i + 1;
    }
  }

  // ---------------------------------------------------------------- the whole merge

  /**
   * What a source directory holds: label directories by subset and, by
   * subset, the image names `os.path.exists` accepts in the images folder
   * (on Windows, every letter-case variant of a stored name).
   */
  datatype SourceTree = SourceTree(labelDirs: map<string, seq<LabelFile>>, imageDirs: map<string, set<string>>)

  datatype Source = Source(config: SourceConfig, tree: SourceTree)

  datatype WrittenLabel = WrittenLabel(subset: string, name: string, lines: seq<string>)

  datatype CopiedImage = CopiedImage(subset: string, name: string, srcImageName: string)

  /** The files written so far and `total_files_copied`. */
  datatype Merged = Merged(labels: seq<WrittenLabel>, images: seq<CopiedImage>, copied: nat)

  /** The script stopped on a bad class id; what it had written stays on disk. */
  datatype MergeFailure = MergeFailure(error: RemapError, written: Merged)

  const EMPTY: Merged := Merged([], [], 0)

  function ImagesIn(tree: SourceTree, subset: string): set<string> {
    if subset in tree.imageDirs then tree.imageDirs[subset] else {}
  }

  /** One label file of one subset of one source. */
  function MergeFile(src: Source, subset: string, f: LabelFile, acc: Merged): Result<Merged, MergeFailure> {
    match RemapLines(f.lines, src.config.mapping)
    case Err(e) => Err(MergeFailure(e, acc))
    case Ok(newLines) => Ok(WriteLabelFile(src, subset, f.name, newLines, acc))
  }

  /** Writing the remapped lines of one file (if any) and copying its image (if found). */
  function WriteLabelFile(src: Source, subset: string, name: string, newLines: seq<string>, acc: Merged): Merged {
    if newLines == [] then acc
    else
      var target := TargetSubset(subset);
      var labels := acc.labels + [WrittenLabel(target, DestName(src.config.name, name), newLines)];
      match FirstImage(SplitExtRoot(name), IMAGE_EXTENSIONS, ImagesIn(src.tree, subset))
      case None => Merged(labels, acc.images, acc.copied)
      case Some(img) =>
        Merged(labels, acc.images + [CopiedImage(target, DestName(src.config.name, img), img)], acc.copied + 1)
  }

  function MergeFiles(src: Source, subset: string, files: seq<LabelFile>, acc: Merged): Result<Merged, MergeFailure>
    decreases |files|
  {
    if files == [] then Ok(acc)
    else match MergeFile(src, subset, files[0], acc)
      case Err(e) => Err(e)
      case Ok(a) => MergeFiles(src, subset, files[1..], a)
  }

  /** A subset whose label directory is missing is skipped. */
  function MergeSubset(src: Source, subset: string, acc: Merged): Result<Merged, MergeFailure> {
    if subset in src.tree.labelDirs then MergeFiles(src, subset, LabelFiles(src.tree.labelDirs[subset]), acc)
    else Ok(acc)
  }

  function MergeSubsets(src: Source, subsets: seq<string>, acc: Merged): Result<Merged, MergeFailure>
    decreases |subsets|, 0
  {
    if subsets == [] then Ok(acc)
    else ThenSubsets(MergeSubset(src, subsets[0], acc), src, subsets[1..])
  }

  function ThenSubsets(r: Result<Merged, MergeFailure>, src: Source, subsets: seq<string>): Result<Merged, MergeFailure>
    decreases |subsets|, 1
  {
    match r
    case Err(e) => Err(e)
    case Ok(a) => MergeSubsets(src, subsets, a)
  }

  function MergeSources(sources: seq<Source>, acc: Merged): Result<Merged, MergeFailure>
    decreases |sources|, 0
  {
    if sources == [] then Ok(acc)
    else ThenSources(MergeSubsets(sources[0], SUBSETS, acc), sources[1..])
  }

  function ThenSources(r: Result<Merged, MergeFailure>, sources: seq<Source>): Result<Merged, MergeFailure>
    decreases |sources|, 1
  {
    match r
    case Err(e) => Err(e)
    case Ok(a) => MergeSources(sources, a)
  }

  // ---------------------------------------------------------------- what the merge writes

  /**
   * The merge output is consistent: `total_files_copied` counts the copied
   * images, each written label file has at least one line, and every
   * written line is a merged line whose class is one of `classes`.
   */
  ghost predicate Valid(m: Merged, classes: set<int>) {
    && m.copied == |m.images| <= |m.labels|
    && forall l :: l in m.labels ==>
         l.lines != [] && forall k :: 0 <= k < |l.lines| ==> IsMergedLine(l.lines[k], classes)
  }

  /** Valid for the finished merge, and for what stays on disk when it stops on an error. */
  ghost predicate ValidOutcome(r: Result<Merged, MergeFailure>, classes: set<int>) {
    match r
    case Ok(m) => Valid(m, classes)
    case Err(f) => Valid(f.written, classes)
  }

  lemma MergeFileValid(src: Source, subset: string, f: LabelFile, acc: Merged, classes: set<int>)
    requires Valid(acc, classes) && src.config.mapping.Values <= classes
    ensures ValidOutcome(MergeFile(src, subset, f, acc), classes)
  {
    var r := RemapLines(f.lines, src.config.mapping);
    if r.Ok? {
      RemapLinesWellFormed(f.lines, src.config.mapping, r.value);
      var m := WriteLabelFile(src, subset, f.name, r.value, acc);
      forall l | l in m.labels
        ensures l.lines != [] && forall k :: 0 <= k < |l.lines| ==> IsMergedLine(l.lines[k], classes)
      {
        if l !in acc.labels {
          assert l.lines == r.value;
        }
      }
    }
  }

  /**
   * One label file adds at most one written label and at most one copied
   * image, and an image only together with its own label: same target
   * split, both named with the source's prefix.  A stop on a bad id adds
   * nothing.
   */
  lemma MergeFileAddsOnePair(src: Source, subset: string, f: LabelFile, acc: Merged)
    ensures var r := MergeFile(src, subset, f, acc);
            r.Err? ==> r.error.written == acc
    ensures var r := MergeFile(src, subset, f, acc);
            r.Ok? ==> var m := r.value;
              && acc.labels <= m.labels && |m.labels| <= |acc.labels| + 1
              && acc.images <= m.images && |m.images| <= |acc.images| + 1
              && m.copied - acc.copied == |m.images| - |acc.images|
              && (|m.labels| > |acc.labels| ==>
                    m.labels[|acc.labels|] == WrittenLabel(TargetSubset(subset), DestName(src.config.name, f.name), m.labels[|acc.labels|].lines))
              && (|m.images| > |acc.images| ==>
                    && |m.labels| == |acc.labels| + 1
                    && m.images[|acc.images|].subset == TargetSubset(subset)
                    && StartsWith(m.images[|acc.images|].name, src.config.name + "_"))
  {
  }

  lemma {:induction false} MergeFilesValid(src: Source, subset: string, files: seq<LabelFile>, acc: Merged, classes: set<int>)
    requires Valid(acc, classes) && src.config.mapping.Values <= classes
    ensures ValidOutcome(MergeFiles(src, subset, files, acc), classes)
    decreases |files|
  {
    if files != [] {
      MergeFileValid(src, subset, files[0], acc, classes);
      var r := MergeFile(src, subset, files[0], acc);
      if r.Ok? {
        MergeFilesValid(src, subset, files[1..], r.value, classes);
      }
    }
  }

  lemma {:induction false} MergeSubsetsValid(src: Source, subsets: seq<string>, acc: Merged, classes: set<int>)
    requires Valid(acc, classes) && src.config.mapping.Values <= classes
    ensures ValidOutcome(MergeSubsets(src, subsets, acc), classes)
    decreases |subsets|
  {
    if subsets != [] {
      var r := MergeSubset(src, subsets[0], acc);
      if subsets[0] in src.tree.labelDirs {
        MergeFilesValid(src, subsets[0], LabelFiles(src.tree.labelDirs[subsets[0]]), acc, classes);
      }
      if r.Ok? {
        MergeSubsetsValid(src, subsets[1..], r.value, classes);
      }
    }
  }

  lemma {:induction false} MergeSourcesValid(sources: seq<Source>, acc: Merged, classes: set<int>)
    requires Valid(acc, classes)
    requires forall s :: s in sources ==> s.config.mapping.Values <= classes
    ensures ValidOutcome(MergeSources(sources, acc), classes)
    decreases |sources|
  {
    if sources != [] {
      MergeSubsetsValid(sources[0], SUBSETS, acc, classes);
      var r := MergeSubsets(sources[0], SUBSETS, acc);
      if r.Ok? {
        MergeSourcesValid(sources[1..], r.value, classes);
      }
    }
  }

  /**
   * Merging the configured sources writes only lines whose class is one of
   * the four data.yaml classes, never an empty label file, counts one
   * copied image per copy, and copies no more images than it writes label
   * files (`MergeFileAddsOnePair` pairs each image with its label).
   */
  lemma ConfiguredMergeIsValid(trees: seq<SourceTree>)
    requires |trees| == |MAPPING_CONFIG|
    ensures var sources := seq(|trees|, i requires 0 <= i < |trees| => Source(MAPPING_CONFIG[i], trees[i]));
            ValidOutcome(MergeSources(sources, EMPTY), {0, 1, 2, 3})
  {
    var sources := seq(|trees|, i requires 0 <= i < |trees| => Source(MAPPING_CONFIG[i], trees[i]));
    MappingTargetsAreYamlClasses();
    forall s | s in sources
      ensures s.config.mapping.Values <= {0, 1, 2, 3}
    {
      var i :| 0 <= i < |sources| && sources[i] == s;
      assert s.config in MAPPING_CONFIG;
    }
    MergeSourcesValid(sources, EMPTY, {0, 1, 2, 3});
  }

  /** The body of the innermost loop of `process_dataset`: one label file. */
  method MergeLabelFile(src: Source, subset: string, lblFile: LabelFile, acc: Merged) returns (r: Result<Merged, MergeFailure>)
    ensures r == MergeFile(src, subset, lblFile, acc)
  {
    var newLines := RemapLabelLines(lblFile.lines, src.config.mapping);
    if newLines.Err? {
      return Err(MergeFailure(newLines.error, acc));
    }
    var merged := WriteLabel(src, subset, lblFile.name, newLines.value, acc);
    r := Ok(merged);
  }

  /** Only a file with at least one line left is written; then its image is searched and copied. */
  method WriteLabel(src: Source, subset: string, name: string, newLines: seq<string>, acc: Merged) returns (merged: Merged)
    ensures merged == WriteLabelFile(src, subset, name, newLines, acc)
  {
    if newLines == [] {
      return acc;
    }
    var target := TargetSubset(subset);
    var written := WrittenLabel(target, DestName(src.config.name, name), newLines);
    merged := acc.(labels := acc.labels + [written]);
    var baseName := SplitExtRoot(name);
    var found := FindImage(baseName, ImagesIn(src.tree, subset));
    if found.Some? {
      var copy := CopiedImage(target, DestName(src.config.name, found.value), found.value);
      merged := merged.(images := merged.images + [copy], copied := merged.copied + 1);
    }
  }

  /** `process_dataset` over the given sources (the script passes the two of MAPPING_CONFIG). */
  method ProcessDataset(sources: seq<Source>) returns (r: Result<Merged, MergeFailure>)
    ensures r == MergeSources(sources, EMPTY)
  {
    var acc := EMPTY;
    var i := 0;
    while i < |sources|
      invariant 0 <= i <= |sources|
      invariant MergeSources(sources[i..], acc) == MergeSources(sources, EMPTY)
    {
      var src := sources[i];
      assert sources[i..][1..] == sources[i + 1..];
      var j := 0;
      while j < |SUBSETS|
        invariant 0 <= j <= |SUBSETS|
        invariant ThenSources(MergeSubsets(src, SUBSETS[j..], acc), sources[i + 1..]) == MergeSources(sources, EMPTY)
      {
        var subset := SUBSETS[j];
        assert SUBSETS[j..][1..] == SUBSETS[j + 1..];
        if subset in src.tree.labelDirs {
          var files := LabelFiles(src.tree.labelDirs[subset]);
          var k := 0;
          while k < |files|
            invariant 0 <= k <= |files|
            invariant ThenSources(ThenSubsets(MergeFiles(src, subset, files[k..], acc), src, SUBSETS[j + 1..]), sources[i + 1..])
                      == MergeSources(sources, EMPTY)
          {
            assert files[k..][1..] == files[k + 1..];
            var step := MergeLabelFile(src, subset, files[k], acc);
            if step.Err? {
              return step;
            }
            acc := step.value;
            k := k + 1;
          }
        }
        j := j + 1;
      }
      i := i + 1;
    }
    r := Ok(acc);
  }
}
