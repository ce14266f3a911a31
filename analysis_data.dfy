/**
 * The dataset analysis script: over the label files of the `train`, `val`
 * and `test` splits it counts, per class id, the bounding boxes (non-blank
 * label lines) and the images (label files) that contain the class, and
 * reports the four named classes in id order.  Directory listings and file
 * contents are inputs; plotting is not modelled.
 */
module AnalysisData {
  import opened Wrappers
  import opened PyText
  import opened Yolo

  const SPLITS: seq<string> := ["train", "val", "test"]

  const CLASS_NAMES: map<int, string> := map[0 := "Airplane", 1 := "Bird", 2 := "Drone", 3 := "Helicopter"]

  /** `sorted(CLASS_NAMES.keys())`. */
  const SORTED_CLASS_IDS: seq<int> := [0, 1, 2, 3]

  lemma SortedClassIdsAreTheKeys()
    ensures forall i, j :: 0 <= i < j < |SORTED_CLASS_IDS| ==> SORTED_CLASS_IDS[i] < SORTED_CLASS_IDS[j]
    ensures forall c :: c in SORTED_CLASS_IDS <==> c in CLASS_NAMES
  {
  }

  // ---------------------------------------------------------------- inputs

  /**
   * `glob('*.txt')` on Windows, where the dataset lives: names ending in `.txt`
   * in any letter case (`fnmatch` compares `os.path.normcase` forms); the `*`
   * does not match a leading dot.
   */
  predicate GlobMatchesTxt(name: string) {
    EndsWith(Lower(name), ".txt") && !StartsWith(name, ".")
  }

  function GlobTxt(entries: seq<LabelFile>): (files: seq<LabelFile>)
    ensures forall f :: f in files <==> f in entries && GlobMatchesTxt(f.name)
  {
    if entries == [] then []
    else (if GlobMatchesTxt(entries[0].name) then [entries[0]] else []) + GlobTxt(entries[1..])
  }

  /** The label files of one split; a split whose `labels` folder is missing has none. */
  function SplitFiles(root: map<string, seq<LabelFile>>, split: string): seq<LabelFile> {
    if split in root then GlobTxt(root[split]) else []
  }

  /** All label files visited, split after split. */
  function DatasetFiles(root: map<string, seq<LabelFile>>, splits: seq<string>): seq<LabelFile> {
    if splits == [] then []
    else DatasetFiles(root, splits[..|splits| - 1]) + SplitFiles(root, splits[|splits| - 1])
  }

  // ---------------------------------------------------------------- what is counted

  /** What one line contributes: nothing, a box of a class, or an `int()` failure. */
  datatype LineKind = Blank | Box(classId: int) | BadId(token: string)

  /** `parts = line.strip().split()`, then `int(parts[0])` unless the line is blank. */
  function Classify(line: string): LineKind {
    var parts := Tokens(line);
    if parts == [] then Blank
    else match ParseInt(parts[0])
      case None => BadId(parts[0])
      case Some(c) => Box(c)
  }

  /** The kind of every line of a file, in order. */
  function Kinds(lines: seq<string>): (ks: seq<LineKind>)
    ensures |ks| == |lines|
  {
    if lines == [] then [] else Kinds(lines[..|lines| - 1]) + [Classify(lines[|lines| - 1])]
  }

  lemma {:induction false} KindsAt(lines: seq<string>, i: nat)
    requires i < |lines|
    ensures Kinds(lines)[i] == Classify(lines[i])
  {
    if i < |lines| - 1 {
      KindsAt(lines[..|lines| - 1], i);
    }
  }

  /** No line of the file makes `int()` fail. */
  predicate KindsOk(ks: seq<LineKind>) {
    forall i :: 0 <= i < |ks| ==> !ks[i].BadId?
  }

  /** Boxes of class `c` in one file: its lines of that class. */
  function KindBoxes(ks: seq<LineKind>, c: int): nat {
    if ks == [] then 0
    else KindBoxes(ks[..|ks| - 1], c) + (if ks[|ks| - 1] == Box(c) then 1 else 0)
  }

  /** `classes_in_this_image` once the file is read. */
  function KindClasses(ks: seq<LineKind>): set<int> {
    if ks == [] then {}
    else KindClasses(ks[..|ks| - 1]) + (if ks[|ks| - 1].Box? then {ks[|ks| - 1].classId} else {})
  }

  /** The line kinds of each file of a list, file after file. */
  function FileKinds(files: seq<LabelFile>): (fks: seq<seq<LineKind>>)
    ensures |fks| == |files|
  {
    if files == [] then [] else FileKinds(files[..|files| - 1]) + [Kinds(files[|files| - 1].lines)]
  }

  lemma {:induction false} FileKindsAt(files: seq<LabelFile>, k: nat)
    requires k < |files|
    ensures FileKinds(files)[k] == Kinds(files[k].lines)
  {
    if k < |files| - 1 {
      FileKindsAt(files[..|files| - 1], k);
    }
  }

  lemma FileKindsAppend(a: seq<LabelFile>, b: seq<LabelFile>)
    ensures FileKinds(a + b) == FileKinds(a) + FileKinds(b)
  {
    var both := FileKinds(a + b);
    var each := FileKinds(a) + FileKinds(b);
    forall k | 0 <= k < |both|
      ensures both[k] == each[k]
    {
      FileKindsAt(a + b, k);
      if k < |a| {
        FileKindsAt(a, k);
      } else {
        FileKindsAt(b, k - |a|);
      }
    }
  }

  /** No file of the list makes the analysis fail. */
  predicate AllOk(fks: seq<seq<LineKind>>) {
    forall k :: 0 <= k < |fks| ==> KindsOk(fks[k])
  }

  /** `bbox_count` of class `c` over a list of files. */
  function BoxCount(fks: seq<seq<LineKind>>, c: int): nat {
    if fks == [] then 0
    else BoxCount(fks[..|fks| - 1], c) + KindBoxes(fks[|fks| - 1], c)
  }

  /** `image_count` of class `c`: the files with at least one line of class `c`. */
  function ImageCount(fks: seq<seq<LineKind>>, c: int): nat {
    if fks == [] then 0
    else ImageCount(fks[..|fks| - 1], c) + (if c in KindClasses(fks[|fks| - 1]) then 1 else 0)
  }

  // ---------------------------------------------------------------- properties of the counts

  /** A class is in the file's set exactly when the file has a box of it. */
  lemma {:induction false} KindClassesIffBoxes(ks: seq<LineKind>, c: int)
    ensures c in KindClasses(ks) <==> KindBoxes(ks, c) > 0
  {
    if ks != [] {
      KindClassesIffBoxes(ks[..|ks| - 1], c);
    }
  }

  /** A file counts once per class however many boxes it has: images never exceed boxes. */
  lemma {:induction false} ImageCountAtMostBoxCount(fks: seq<seq<LineKind>>, c: int)
    ensures ImageCount(fks, c) <= BoxCount(fks, c)
  {
    if fks != [] {
      ImageCountAtMostBoxCount(fks[..|fks| - 1], c);
      KindClassesIffBoxes(fks[|fks| - 1], c);
    }
  }

  /** No class is in more images than there are files. */
  lemma {:induction false} ImageCountAtMostFiles(fks: seq<seq<LineKind>>, c: int)
    ensures ImageCount(fks, c) <= |fks|
  {
    if fks != [] {
      ImageCountAtMostFiles(fks[..|fks| - 1], c);
    }
  }

  /** Blank lines add no box and no class. */
  lemma BlankLinesNotCounted(lines: seq<string>, blank: string, c: int)
    requires Tokens(blank) == []
    ensures KindBoxes(Kinds(lines + [blank]), c) == KindBoxes(Kinds(lines), c)
    ensures KindClasses(Kinds(lines + [blank])) == KindClasses(Kinds(lines))
  {
    assert (lines + [blank])[..|lines|] == lines;
    var ks := Kinds(lines + [blank]);
    assert ks[..|lines|] == Kinds(lines);
  }

  /** Counting two lists one after the other counts their concatenation. */
  lemma {:induction false} CountsAppend(a: seq<seq<LineKind>>, b: seq<seq<LineKind>>, c: int)
    ensures BoxCount(a + b, c) == BoxCount(a, c) + BoxCount(b, c)
    ensures ImageCount(a + b, c) == ImageCount(a, c) + ImageCount(b, c)
  {
    if b != [] {
      var init := b[..|b| - 1];
      CountsAppend(a, init, c);
      assert (a + b)[..|a + b| - 1] == a + init;
      assert (a + b)[|a + b| - 1] == b[|b| - 1];
    } else {
      assert a + b == a;
    }
  }

  // ---------------------------------------------------------------- the analysis

  datatype ClassStat = ClassStat(bboxCount: nat, imageCount: nat)

  /** `class_stats[c]` of the defaultdict: zero counts for a class never seen. */
  function Stat(stats: map<int, ClassStat>, c: int): ClassStat {
    if c in stats then stats[c] else ClassStat(0, 0)
  }

  datatype Summary = Summary(classStats: map<int, ClassStat>, splitCounts: map<string, nat>, totalImages: nat)

  datatype AnalysisError = InvalidClassId(token: string)

  /** The loops over one label file: count its boxes, then once per class it contains. */
  method CountLabelFile(stats: map<int, ClassStat>, lines: seq<string>) returns (r: Result<map<int, ClassStat>, AnalysisError>)
    ensures r.Ok? <==> KindsOk(Kinds(lines))
    ensures r.Err? ==> exists i :: 0 <= i < |lines| && Classify(lines[i]) == BadId(r.error.token)
    ensures r.Ok? ==> var ks := Kinds(lines);
              forall c :: Stat(r.value, c) == ClassStat(Stat(stats, c).bboxCount + KindBoxes(ks, c),
                                                       Stat(stats, c).imageCount + if c in KindClasses(ks) then 1 else 0)
  {
    var kinds := Kinds(lines);
    var boxes := CountBoxes(stats, kinds);
    match boxes {
      case Err(i) =>
        KindsAt(lines, i);
        r := Err(InvalidClassId(kinds[i].token));
      case Ok((counted, classesInThisImage)) =>
        counted := CountImages(counted, classesInThisImage);
        r := Ok(counted);
    }
  }

  /** The loop over the lines of one file, each already classified: the index of the first bad line, or the
      box counts and the set of classes seen. */
  method CountBoxes(stats: map<int, ClassStat>, ks: seq<LineKind>) returns (r: Result<(map<int, ClassStat>, set<int>), nat>)
    ensures r.Ok? <==> KindsOk(ks)
    ensures r.Err? ==> r.error < |ks| && ks[r.error].BadId? && KindsOk(ks[..r.error])
    ensures r.Ok? ==> && r.value.1 == KindClasses(ks)
                      && forall c :: Stat(r.value.0, c) == Stat(stats, c).(bboxCount := Stat(stats, c).bboxCount + KindBoxes(ks, c))
  {
    var counted := stats;
    var classesInThisImage: set<int> := {};
    var i := 0;
    while i < |ks|
      invariant 0 <= i <= |ks|
      invariant KindsOk(ks[..i])
      invariant classesInThisImage == KindClasses(ks[..i])
      invariant forall c :: Stat(counted, c) == Stat(stats, c).(bboxCount := Stat(stats, c).bboxCount + KindBoxes(ks[..i], c))
    {
      assert ks[..i + 1][..i] == ks[..i];
      match ks[i] {
        case Blank =>
        case BadId(_) =>
          return Err(i);
        case Box(cid) =>
          counted := counted[cid := Stat(counted, cid).(bboxCount := Stat(counted, cid).bboxCount + 1)];
          classesInThisImage := classesInThisImage + {cid};
      }
      i := i + 1;
    }
    assert ks[..i] == ks;
    r := Ok((counted, classesInThisImage));
  }

  lemma SomeMember(s: set<int>)
    requires s != {}
    ensures exists x :: x in s
  {
    if forall x :: x !in s {
      assert false;
    }
  }

  /** The loop over `classes_in_this_image`: one more image for each class in the set. */
  method CountImages(counted0: map<int, ClassStat>, classes: set<int>) returns (counted: map<int, ClassStat>)
    ensures forall c :: Stat(counted, c) == Stat(counted0, c).(imageCount := Stat(counted0, c).imageCount + if c in classes then 1 else 0)
  {
    counted := counted0;
    var remaining := classes;
    while remaining != {}
      invariant remaining <= classes
      invariant forall c :: Stat(counted, c) == Stat(counted0, c).(imageCount := Stat(counted0, c).imageCount + if c in classes - remaining then 1 else 0)
      decreases remaining
    {
      SomeMember(remaining);
      var cid :| cid in remaining;
      counted := counted[cid := Stat(counted, cid).(imageCount := Stat(counted, cid).imageCount + 1)];
      remaining := remaining - {cid};
    }
  }

  /** `after` holds the counts of `before` plus those of the files `more`. */
  ghost predicate Adds(before: map<int, ClassStat>, after: map<int, ClassStat>, more: seq<seq<LineKind>>) {
    forall c :: Stat(after, c) == ClassStat(Stat(before, c).bboxCount + BoxCount(more, c),
                                           Stat(before, c).imageCount + ImageCount(more, c))
  }

  /** `stats` holds exactly the counts of the files `done`. */
  ghost predicate Covers(stats: map<int, ClassStat>, done: seq<seq<LineKind>>) {
    forall c :: Stat(stats, c) == ClassStat(BoxCount(done, c), ImageCount(done, c))
  }

  /** The loop over the label files of one split, adding their counts to `classStats0`. */
  method CountFiles(classStats0: map<int, ClassStat>, files: seq<LabelFile>) returns (r: Result<map<int, ClassStat>, AnalysisError>)
    ensures r.Ok? <==> AllOk(FileKinds(files))
    ensures r.Ok? ==> Adds(classStats0, r.value, FileKinds(files))
  {
    ghost var fks := FileKinds(files);
    var classStats := classStats0;
    var k := 0;
    while k < |files|
      invariant 0 <= k <= |files|
      invariant AllOk(fks[..k])
      invariant Adds(classStats0, classStats, fks[..k])
    {
      FileKindsAt(files, k);
      var counted := CountLabelFile(classStats, files[k].lines);
      if counted.Err? {
        assert !KindsOk(fks[k]);
        return Err(counted.error);
      }
      AddsStep(classStats0, classStats, counted.value, fks[..k], fks[k]);
      assert fks[..k + 1] == fks[..k] + [fks[k]];
      classStats := counted.value;
      k := k + 1;
    }
    assert fks[..k] == fks;
    r := Ok(classStats);
  }

  /** Counting one more file whose kinds are `ks` extends what the counts cover by that file. */
  lemma AddsStep(stats0: map<int, ClassStat>, stats: map<int, ClassStat>, next: map<int, ClassStat>,
                 done: seq<seq<LineKind>>, ks: seq<LineKind>)
    requires Adds(stats0, stats, done) && KindsOk(ks) && AllOk(done)
    requires forall c :: Stat(next, c) == ClassStat(Stat(stats, c).bboxCount + KindBoxes(ks, c),
                                                   Stat(stats, c).imageCount + if c in KindClasses(ks) then 1 else 0)
    ensures Adds(stats0, next, done + [ks]) && AllOk(done + [ks])
  {
    assert (done + [ks])[..|done|] == done;
  }

  /** `analyze_yolo_dataset` up to its printing: `root` maps each split that has a `labels` folder to its entries. */
  method AnalyzeYoloDataset(root: map<string, seq<LabelFile>>) returns (r: Result<Summary, AnalysisError>)
    ensures r.Ok? <==> AllOk(FileKinds(DatasetFiles(root, SPLITS)))
    ensures r.Ok? ==> var fks := FileKinds(DatasetFiles(root, SPLITS));
            && (forall c :: Stat(r.value.classStats, c) == ClassStat(BoxCount(fks, c), ImageCount(fks, c)))
            && r.value.totalImages == |fks|
            && (forall s :: s in SPLITS ==> s in r.value.splitCounts && r.value.splitCounts[s] == |SplitFiles(root, s)|)
  {
    SplitsDistinct();
    r := AnalyzeSplits(root, SPLITS, map["train" := 0, "val" := 0, "test" := 0]);
  }

  /** The loop of `analyze_yolo_dataset` over the splits `splits`, starting from the zero `split_counts`. */
  method AnalyzeSplits(root: map<string, seq<LabelFile>>, splits: seq<string>, splitCounts0: map<string, nat>)
      returns (r: Result<Summary, AnalysisError>)
    requires forall i, j :: 0 <= i < j < |splits| ==> splits[i] != splits[j]
    requires forall j :: 0 <= j < |splits| ==> splits[j] in splitCounts0 && splitCounts0[splits[j]] == 0
    ensures r.Ok? <==> AllOk(FileKinds(DatasetFiles(root, splits)))
    ensures r.Ok? ==> var fks := FileKinds(DatasetFiles(root, splits));
            && (forall c :: Stat(r.value.classStats, c) == ClassStat(BoxCount(fks, c), ImageCount(fks, c)))
            && r.value.totalImages == |fks|
            && (forall j :: 0 <= j < |splits| ==>
                  splits[j] in r.value.splitCounts && r.value.splitCounts[splits[j]] == |SplitFiles(root, splits[j])|)
  {
    var summary := Summary(map[], splitCounts0, 0);
    var s := 0;
    while s < |splits|
      invariant 0 <= s <= |splits|
      invariant Progress(root, splits, s, summary)
    {
      var failure;
      summary, failure := AnalyzeSplit(root, splits, s, summary);
      if failure.Some? {
        return Err(failure.value);
      }
      s := s + 1;
    }
    assert splits[..s] == splits;
    r := Ok(summary);
  }

  /** What the loop over the splits has produced once the first `s` splits are done. */
  ghost predicate Progress(root: map<string, seq<LabelFile>>, splits: seq<string>, s: nat, summary: Summary)
    requires s <= |splits|
  {
    var done := FileKinds(DatasetFiles(root, splits[..s]));
    && AllOk(done)
    && summary.totalImages == |done|
    && Covers(summary.classStats, done)
    && (forall j :: 0 <= j < |splits| ==>
          splits[j] in summary.splitCounts
          && summary.splitCounts[splits[j]] == if j < s then |SplitFiles(root, splits[j])| else 0)
  }

  /** One pass of the loop over the splits, for split `s`: skip it when its `labels` folder is missing,
      otherwise record its file count and count its files. */
  method AnalyzeSplit(root: map<string, seq<LabelFile>>, splits: seq<string>, s: nat, summary: Summary)
      returns (next: Summary, failure: Option<AnalysisError>)
    requires forall i, j :: 0 <= i < j < |splits| ==> splits[i] != splits[j]
    requires s < |splits| && Progress(root, splits, s, summary)
    ensures failure.None? ==> Progress(root, splits, s + 1, next)
    ensures failure.Some? <==> !AllOk(FileKinds(SplitFiles(root, splits[s])))
    ensures failure.Some? ==> !AllOk(FileKinds(DatasetFiles(root, splits)))
  {
    var split := splits[s];
    var classStats: map<int, ClassStat> := summary.classStats;
    var splitCounts: map<string, nat> := summary.splitCounts;
    var totalImages: nat := summary.totalImages;
    failure := None;
    if split in root {
      var txtFiles := GlobTxt(root[split]);
      var numFiles := |txtFiles|;
      splitCounts := splitCounts[split := numFiles];
      totalImages := totalImages + numFiles;
      var counted := CountFiles(classStats, txtFiles);
      if counted.Err? {
        ErrorReachesDataset(root, splits, s);
        failure := Some(counted.error);
      } else {
        classStats := counted.value;
      }
    }
    next := Summary(classStats, splitCounts, totalImages);
    if failure.None? {
      ProgressStep(root, splits, s, summary, next);
    }
  }

  /** The loop over the splits keeps `Progress` when split `s` adds its files' counts, its file count
      and, when its folder exists, its entry in `split_counts`. */
  lemma ProgressStep(root: map<string, seq<LabelFile>>, splits: seq<string>, s: nat, summary: Summary, next: Summary)
    requires forall i, j :: 0 <= i < j < |splits| ==> splits[i] != splits[j]
    requires s < |splits| && Progress(root, splits, s, summary)
    requires var more := FileKinds(SplitFiles(root, splits[s]));
             && AllOk(more)
             && next.totalImages == summary.totalImages + |more|
             && Adds(summary.classStats, next.classStats, more)
    requires next.splitCounts == if splits[s] in root then summary.splitCounts[splits[s] := |SplitFiles(root, splits[s])|]
                                 else summary.splitCounts
    ensures Progress(root, splits, s + 1, next)
  {
    var done := FileKinds(DatasetFiles(root, splits[..s]));
    var more := FileKinds(SplitFiles(root, splits[s]));
    SplitStep(root, splits, s);
    TallyAppend(summary.classStats, next.classStats, done, more);
    SplitCountsStep(root, splits, s, summary.splitCounts, next.splitCounts);
  }

  /** Recording the file count of split `s` keeps the earlier splits' counts and zero for the later ones. */
  lemma SplitCountsStep(root: map<string, seq<LabelFile>>, splits: seq<string>, s: nat,
                        counts: map<string, nat>, updated: map<string, nat>)
    requires forall i, j :: 0 <= i < j < |splits| ==> splits[i] != splits[j]
    requires s < |splits|
    requires forall j :: 0 <= j < |splits| ==>
               splits[j] in counts && counts[splits[j]] == if j < s then |SplitFiles(root, splits[j])| else 0
    requires updated == if splits[s] in root then counts[splits[s] := |SplitFiles(root, splits[s])|] else counts
    ensures forall j :: 0 <= j < |splits| ==>
              splits[j] in updated && updated[splits[j]] == if j < s + 1 then |SplitFiles(root, splits[j])| else 0
  {
  }

  /** Counts that cover `done` and then `more` cover `done + more`. */
  lemma TallyAppend(before: map<int, ClassStat>, after: map<int, ClassStat>, done: seq<seq<LineKind>>, more: seq<seq<LineKind>>)
    requires Covers(before, done)
    requires AllOk(done) && AllOk(more)
    requires Adds(before, after, more)
    ensures Covers(after, done + more)
    ensures AllOk(done + more)
  {
    forall c
      ensures Stat(after, c) == ClassStat(BoxCount(done + more, c), ImageCount(done + more, c))
    {
      CountsAppend(done, more, c);
    }
  }

  lemma SplitsDistinct()
    ensures forall i, j :: 0 <= i < j < |SPLITS| ==> SPLITS[i] != SPLITS[j]
  {
    assert SPLITS[0][0] == 't' && SPLITS[1][0] == 'v';
    assert SPLITS[2][1] == 'e' && SPLITS[0][1] == 'r';
  }

  /** The files of split `s` follow those of the splits before it. */
  lemma SplitStep(root: map<string, seq<LabelFile>>, splits: seq<string>, s: nat)
    requires s < |splits|
    ensures FileKinds(DatasetFiles(root, splits[..s + 1]))
         == FileKinds(DatasetFiles(root, splits[..s])) + FileKinds(SplitFiles(root, splits[s]))
  {
    assert splits[..s + 1][..s] == splits[..s];
    FileKindsAppend(DatasetFiles(root, splits[..s]), SplitFiles(root, splits[s]));
  }

  /** A split with a file that fails makes the whole dataset fail. */
  lemma ErrorReachesDataset(root: map<string, seq<LabelFile>>, splits: seq<string>, s: nat)
    requires s < |splits| && !AllOk(FileKinds(SplitFiles(root, splits[s])))
    ensures !AllOk(FileKinds(DatasetFiles(root, splits)))
  {
    SplitStep(root, splits, s);
    DatasetFilesPrefix(root, splits, s + 1);
    FileKindsPrefix(DatasetFiles(root, splits[..s + 1]), DatasetFiles(root, splits));
    NotOkExtends(FileKinds(DatasetFiles(root, splits[..s])), FileKinds(SplitFiles(root, splits[s])),
                 FileKinds(DatasetFiles(root, splits)));
  }

  /** A failing file among `more` makes every listing that continues `done + more` fail. */
  lemma NotOkExtends(done: seq<seq<LineKind>>, more: seq<seq<LineKind>>, every: seq<seq<LineKind>>)
    requires !AllOk(more) && done + more <= every
    ensures !AllOk(every)
  {
    var k :| 0 <= k < |more| && !KindsOk(more[k]);
    PrefixElement(done, more, every, k);
  }

  lemma PrefixElement<T>(pre: seq<T>, here: seq<T>, every: seq<T>, k: nat)
    requires pre + here <= every && k < |here|
    ensures |pre| + k < |every| && every[|pre| + k] == here[k]
  {
    assert (pre + here)[|pre| + k] == here[k];
  }

  lemma FileKindsPrefix(a: seq<LabelFile>, b: seq<LabelFile>)
    requires a <= b
    ensures FileKinds(a) <= FileKinds(b)
  {
    forall k | 0 <= k < |a|
      ensures FileKinds(a)[k] == FileKinds(b)[k]
    {
      FileKindsAt(a, k);
      FileKindsAt(b, k);
    }
  }

  /** The files of the first `t` splits come first, in the same order. */
  lemma {:induction false} DatasetFilesPrefix(root: map<string, seq<LabelFile>>, splits: seq<string>, t: nat)
    requires t <= |splits|
    ensures DatasetFiles(root, splits[..t]) <= DatasetFiles(root, splits)
    decreases |splits|
  {
    if t < |splits| {
      var init := splits[..|splits| - 1];
      DatasetFilesPrefix(root, init, t);
      assert init[..t] == splits[..t];
    } else {
      assert splits[..t] == splits;
    }
  }

  // ---------------------------------------------------------------- the report

  datatype ReportRow = ReportRow(name: string, classId: int, bboxes: nat, images: nat)

  /** The table printed (and plotted): one row per named class, in ascending id order
      (`SortedClassIdsAreTheKeys`), with that class's name and counts, zero for a class never seen. */
  method ReportRows(classStats: map<int, ClassStat>) returns (rows: seq<ReportRow>)
    ensures |rows| == |SORTED_CLASS_IDS|
    ensures forall i :: 0 <= i < |rows| ==>
              var c := SORTED_CLASS_IDS[i];
              rows[i] == ReportRow(CLASS_NAMES[c], c, Stat(classStats, c).bboxCount, Stat(classStats, c).imageCount)
  {
    rows := [];
    var i := 0;
    while i < |SORTED_CLASS_IDS|
      invariant 0 <= i <= |SORTED_CLASS_IDS|
      invariant |rows| == i
      invariant forall j :: 0 <= j < i ==>
                  var c := SORTED_CLASS_IDS[j];
                  rows[j] == ReportRow(CLASS_NAMES[c], c, Stat(classStats, c).bboxCount, Stat(classStats, c).imageCount)
    {
      var classId := SORTED_CLASS_IDS[i];
      var name := CLASS_NAMES[classId];
      var bboxes := Stat(classStats, classId).bboxCount;
      var imgs := Stat(classStats, classId).imageCount;
      rows := rows + [ReportRow(name, classId, bboxes, imgs)];
      i := i + 1;
    }
  }
}
