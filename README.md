# Drone / bird / aircraft detector: dataset tools, upload service and late fusion

This project is a Dafny model of four parts of a detector for airplanes, birds, drones and helicopters.

- **The dataset merge** (`utils/merge_data.py`). Each label line of each configured source is re-numbered through that source's class map. Lines that are too short, or whose class is not in the map, are dropped, and a non-integer class id stops the script. A label file is written only if at least one of its lines is kept. It gets a `<source>_` prefix, and the first existing image with the same stem is copied and counted. The source subset `valid` becomes `val`.
- **The dataset analysis** (`utils/analysis_data.py`). Over the `train`, `val` and `test` label folders it counts, per class id:
  - the boxes, which are the non-blank lines;
  - the images, which are the files containing the class at least once.

  It also counts the files per split and overall, and reports the four named classes in ascending id order.
- **The upload service** (`app.py`), in three parts:
  - the extension allow-list;
  - the `upload_file` handler: its 400 guards, the saved name, the result name and branch it derives, the processor call, and the JSON answer or error;
  - `list_results`: the `result_` files, typed by their `.mp4` suffix and sorted newest first.
- **Late fusion** (`utils/late_fusion.py`). It blends the visual and audio class scores with weight `alpha` and returns the first class holding the highest blended score.

Python's string and number primitives the code relies on live in `py_text.dfy`: `strip`, `split`, `join`, `int()`, `str(int)`, `lower`, `startswith` and `endswith`. YOLO label files live in `yolo.dfy`, and `Option`/`Result` in `wrappers.dfy`.

The filesystem is an input. Directory listings are sequences of named files with their lines, the existing images of a folder are the set of names `os.path.exists` accepts there (on Windows, every letter-case variant of a stored name), and creation times are reals. A Python exception the code does not catch becomes an error value. Examples are `int()` on a bad class id and `rsplit('.', 1)[1]` on a name without a dot.

## Model

| member | source | states |
|---|---|---|
| MergeData.MappingTargetsAreYamlClasses | utils/merge_data.py:18-35 | every target id of the two class maps is a data.yaml class below `nc = 4`, `nc` equals the number of names, and together the maps reach all four classes |
| MergeData.TargetSubset | utils/merge_data.py:71 | `valid` becomes `val`; every other subset keeps its name |
| MergeData.TargetSubsetsAreYoloSplits | utils/merge_data.py:38-52 | the three source subsets map one-to-one onto the YOLO splits `train`, `val`, `test` |
| MergeData.DestName | utils/merge_data.py:106 | the written name is the source name, `_`, then the original name unchanged |
| MergeData.DestNamesDoNotCollide | utils/merge_data.py:106-120 | prefixed names of one source differ when the originals differ, and the two configured sources never produce the same name |
| MergeData.SplitExtRoot | utils/merge_data.py:114 | `os.path.splitext(name)[0]`: the root is a prefix of the name; when it is shorter, the name continues with its last dot, and the root has a character other than a dot (leading dots never start an extension) |
| MergeData.SplitExtRootOfTxt | utils/merge_data.py:114 | `splitext` of `<stem>.txt` gives back the stem, for a stem that is not all dots |
| MergeData.LabelFiles | utils/merge_data.py:80 | the label files are exactly the listing entries whose name ends in `.txt` |
| MergeData.RemapLine | utils/merge_data.py:91-101 | the per-line step: a line of fewer than 5 tokens is dropped; an error happens only on a line of at least 5 tokens whose first token `int()` refuses, and it carries that token; a kept line ends in a newline |
| MergeData.RemapLineDropRules | utils/merge_data.py:91-99 | a line with fewer than 5 tokens is dropped; otherwise it is an error iff its first token is not an integer; otherwise it is dropped iff its id is not in the map |
| MergeData.RemapLineKept | utils/merge_data.py:94-101 | a kept line re-reads as the mapped id followed by the original coordinate tokens, single-spaced and newline-terminated, and its id parses back to the mapped id |
| MergeData.CollectStep | utils/merge_data.py:90-101 | one more line either stops with its error, keeps what was collected, or appends its new line |
| MergeData.RemapLabelLines | utils/merge_data.py:86-101 | the per-line loop builds exactly `RemapLines`: the kept lines in input order, or the first bad-id error |
| MergeData.CollectErrorPropagates | utils/merge_data.py:94 | once a prefix of the lines has failed, the whole file fails with the same error |
| MergeData.CollectOkIffEveryOk | utils/merge_data.py:90-101 | collecting succeeds iff no per-line outcome is an error |
| MergeData.CollectKeepsOrder | utils/merge_data.py:90-101 | each collected item comes from a kept outcome, at strictly increasing positions, and every outcome not picked was dropped |
| MergeData.RemapLinesOkIffEveryLineOk | utils/merge_data.py:90-101 | a label file is processed without error iff none of its lines has a bad class id |
| MergeData.RemapLinesKeepsOrder | utils/merge_data.py:90-101 | the new lines are the kept input lines, remapped, in input order, and never more than the input lines |
| MergeData.RemapLinesWellFormed | utils/merge_data.py:90-101 | every new line is a well-formed label line whose class is a target of the map |
| MergeData.FirstImage | utils/merge_data.py:116-123 | no image exists iff no extension gives an existing name; otherwise the result is the existing name of the first extension that does |
| MergeData.FindImage | utils/merge_data.py:114-123 | the `image_found`/`break` loop finds exactly the first existing `<stem><ext>` in the extension order |
| MergeData.MergeFileValid | utils/merge_data.py:86-126 | processing one label file keeps the output consistent: the copied count equals the copied images, every written label file is non-empty, and every written line has a data.yaml class |
| MergeData.MergeFilesValid | utils/merge_data.py:82-126 | the same for the files of one subset, including what is on disk when a bad id stops the script |
| MergeData.MergeSubsetsValid | utils/merge_data.py:65-126 | the same for all subsets of one source, missing label folders skipped |
| MergeData.MergeSourcesValid | utils/merge_data.py:59-126 | the same over a sequence of sources |
| MergeData.ConfiguredMergeIsValid | utils/merge_data.py:18-35 | merging the two configured sources, whatever their trees hold, writes only lines with classes 0-3, never an empty label file, counts exactly the copied images, and copies no more images than it writes label files |
| MergeData.MergeFileAddsOnePair | utils/merge_data.py:104-126 | one label file adds at most one written label (named `<source>_<file>` in the target split) and at most one copied image, and an image only together with its label, in the same split and with the same source prefix; a bad id adds nothing |
| MergeData.MergeLabelFile | utils/merge_data.py:83-126 | one pass of the innermost loop is exactly `MergeFile`: stop on a bad id, else write the file and copy its image |
| MergeData.WriteLabel | utils/merge_data.py:104-126 | a file with no kept line writes nothing; otherwise its prefixed label goes to the target split, and the image found, if any, is copied and counted |
| MergeData.ProcessDataset | utils/merge_data.py:54-126 | the three nested loops over sources, subsets and files compute exactly `MergeSources`, stopping at the first bad id |
| Yolo.TokensAreStripSplit | utils/merge_data.py:91 | `line.strip().split()` equals `line.split()` |
| PyText.SplitOfStrip | utils/analysis_data.py:52 | splitting a stripped line gives the same tokens as splitting the line |
| PyText.SplitJoin | utils/merge_data.py:100 | joining non-empty, whitespace-free words with single spaces, adding trailing white space such as the newline, and splitting again gives the words back |
| PyText.ParseIntOfIntToStr | utils/merge_data.py:94-100 | `int(str(n))` is `n`: a written id reads back as itself |
| AnalysisData.SortedClassIdsAreTheKeys | utils/analysis_data.py:78 | the report order is the keys of `CLASS_NAMES`, strictly ascending |
| AnalysisData.GlobTxt | utils/analysis_data.py:37 | the files counted are exactly the entries matching `*.txt`: ending in `.txt` in any letter case, as on Windows where the dataset path lives, and not starting with a dot |
| AnalysisData.KindsAt | utils/analysis_data.py:51-55 | each line is classified on its own: blank, a box of the class `int(parts[0])`, or a bad id |
| AnalysisData.FileKindsAppend | utils/analysis_data.py:43-45 | classifying two file lists one after the other classifies their concatenation |
| AnalysisData.KindClassesIffBoxes | utils/analysis_data.py:58-59 | a class is in `classes_in_this_image` iff the file has at least one box of it |
| AnalysisData.ImageCountAtMostBoxCount | utils/analysis_data.py:58-63 | an image counts once per class however many boxes it has, so image counts never exceed box counts |
| AnalysisData.ImageCountAtMostFiles | utils/analysis_data.py:62-63 | no class is in more images than there are label files |
| AnalysisData.BlankLinesNotCounted | utils/analysis_data.py:53 | a blank line adds no box and no class |
| AnalysisData.CountsAppend | utils/analysis_data.py:43-63 | box and image counts are additive over file lists |
| AnalysisData.CountLabelFile | utils/analysis_data.py:44-63 | one file either fails on a bad id that occurs in it, or adds its boxes per class and one image per class it contains |
| AnalysisData.CountBoxes | utils/analysis_data.py:51-59 | the line loop fails exactly at the first bad id; otherwise it adds each class's boxes and collects exactly the classes seen |
| AnalysisData.CountImages | utils/analysis_data.py:62-63 | the loop over the set adds one image to each class in it and leaves other classes alone |
| AnalysisData.CountFiles | utils/analysis_data.py:43-63 | the file loop succeeds iff no file has a bad id, and then adds the files' box and image counts to the starting counts |
| AnalysisData.AddsStep | utils/analysis_data.py:43-63 | counting one more error-free file extends the added counts by that file |
| AnalysisData.AnalyzeYoloDataset | utils/analysis_data.py:20-63 | succeeds iff no label file of the three splits has a bad id; then class stats are the box and image counts of all files, `total_images` is their number, and each split's count is its number of `*.txt` files (0 when the folder is missing) |
| AnalysisData.AnalyzeSplits | utils/analysis_data.py:25-63 | the same for any list of distinct splits whose counts start at zero |
| AnalysisData.AnalyzeSplit | utils/analysis_data.py:29-63 | one pass for a split: skipped when its folder is missing, otherwise its count recorded and its files counted; it fails iff one of its files fails, and then the whole dataset fails |
| AnalysisData.ProgressStep | utils/analysis_data.py:29-63 | after split `s` the summary covers exactly the files of the first `s + 1` splits |
| AnalysisData.SplitCountsStep | utils/analysis_data.py:39 | recording a split's count keeps the earlier splits' counts and leaves the later ones at zero |
| AnalysisData.TallyAppend | utils/analysis_data.py:43-63 | counts covering one file list, plus the counts of the next, cover both lists together |
| AnalysisData.SplitStep | utils/analysis_data.py:29-45 | the files of a split follow those of the splits before it |
| AnalysisData.ErrorReachesDataset | utils/analysis_data.py:55 | a bad id in any split makes the whole analysis fail |
| AnalysisData.DatasetFilesPrefix | utils/analysis_data.py:29-45 | the files of the first splits come first, in the same order |
| AnalysisData.ReportRows | utils/analysis_data.py:78-88 | one row per named class, in ascending id order, with its name and counts, zero for a class never seen |
| App.RSplitDot | app.py:25 | `rsplit('.', 1)` gives text without a dot after the last dot, and the name is stem + `.` + extension; no split iff no dot |
| App.RSplitDotOfJoin | app.py:25 | splitting at the last dot undoes joining a stem and a dot-free extension |
| App.AllowedFile | app.py:23-25 | `allowed_file`: only a name containing a dot can be allowed; by its definition, the lower-cased text after the last dot must be on the allow-list (`AllowedFileByExtension` states the iff) |
| App.AllowedFileByExtension | app.py:23-25 | a name is allowed iff its lower-cased last extension is in the allow-list |
| App.RejectedExtension | app.py:23-25 | a name whose lower-cased extension is not listed is refused |
| App.RejectedExtensions | app.py:14-25 | `.exe`, `.wav` and `.mp3` files are refused |
| App.ExtensionCaseIgnored | app.py:25 | `.PNG` and `.Mp4` files are accepted |
| App.ResultFileName | app.py:52-53 | the result name starts with `result_`; it is absent iff the secured name has no dot |
| App.ResultFileNameForms | app.py:52-53 | a video extension gives `result_<stem>.mp4` and the video branch; anything else gives `result_<name>` and the image branch |
| App.VideoIffMp4ResultName | app.py:53-64 | the video branch is taken iff the result name ends in `.mp4` |
| App.PathJoin | app.py:48 | POSIX `os.path.join` ends with the name, or is the name itself when it is absolute |
| App.UploadFile | app.py:32-76 | no file part gives 400; the answer is 400 iff nothing is saved; a saved upload had an allowed name; the processor runs on the saved path; the answer is success or failure iff the processor ran, and failure iff it raised |
| App.SaveAndProcess | app.py:43-74 | past the guards the upload is always saved and never answered 400, and the processor call uses the saved path |
| App.UploadGuards | app.py:33-41 | an empty file name gives 400 "no file selected"; a missing or disallowed name gives 400 "unsupported"; nothing is saved or processed |
| App.ProcessedResult | app.py:52-71 | a successful answer links to `/result/result_...`; the type it reports is the branch taken and is video iff the name ends in `.mp4`; the processor wrote to that name in the results folder; the original name is echoed |
| App.ListedEntry | app.py:87-93 | a listed entry keeps its name and time, has a `/result/` URL, and is a video iff its name ends in `.mp4` |
| App.ListingMembers | app.py:85-93 | the listing holds exactly the folder entries whose name starts with `result_` |
| App.SortByCreated | app.py:96 | `results.sort(key=created, reverse=True)` as insertion of each element into the sorted rest: the length is kept; `SortByCreatedIsStableSort` proves it newest first, a permutation and stable |
| App.InsertByCreated | app.py:96 | one insertion step: the element goes before the first element created no later than it, and the length grows by one |
| App.InsertKeepsNewestFirst | app.py:96 | inserting into a newest-first list keeps it newest first and adds no element other than the inserted one |
| App.InsertKeepsElements | app.py:96 | insertion adds exactly one copy of the element |
| App.InsertIsStable | app.py:96 | an inserted element goes before the existing ones created at the same time |
| App.SortByCreatedIsStableSort | app.py:96 | the sort is newest first, a permutation of its input, and keeps entries created at the same time in their original order |
| App.ListResults | app.py:83-98 | the loop and sort compute the filtered listing, sorted |
| App.ListResultsProperties | app.py:83-98 | the response lists only `result_` files, one per matching entry, typed by `.mp4`, newest first, with ties in directory order |
| App.UploadedResultIsListed | app.py:53-98 | a processed upload whose result file is in the folder is listed, with the URL and type the upload answered |
| LateFusion.Get | utils/late_fusion.py:4-5 | `get` returns the default for a missing key and the key's score otherwise |
| LateFusion.Put | utils/late_fusion.py:6 | storing a new key appends it at the end of the dict |
| LateFusion.FirstArgMax | utils/late_fusion.py:8 | the position found holds the highest score, and every earlier position scores strictly less (Python's `max` keeps the first maximum) |
| LateFusion.Blend | utils/late_fusion.py:2-6 | `final_probs`: one entry per visual class, at the same position and with the same key as in `visual_probs` |
| LateFusion.DefaultAlphaIsMean | utils/late_fusion.py:1 | with the default `alpha = 0.5` each fused score is the mean of the visual and the audio score |
| LateFusion.LateFusionVisualAudio | utils/late_fusion.py:1-9 | the loop builds exactly the blend of the visual classes in visual order, and the final class is the first class with the highest blended score |
| LateFusion.BlendKeysStep | utils/late_fusion.py:3-6 | blending the next visual class appends it, since no earlier class has its key |
| LateFusion.BlendKeysAreVisualKeys | utils/late_fusion.py:3 | the fused dict has exactly the visual classes, in visual order; audio-only classes are ignored |
| LateFusion.BlendAt | utils/late_fusion.py:3-6 | each fused score is `alpha * v + (1 - alpha) * a` with the class's visual score and its audio score, 0 when missing |
| LateFusion.MissingAudioScoresZero | utils/late_fusion.py:5 | a class the audio scores lack gets `alpha * v` |
| LateFusion.BlendAlphaOne | utils/late_fusion.py:6 | with `alpha = 1` the fused dict is the visual scores |
| LateFusion.BlendAlphaZero | utils/late_fusion.py:6 | with `alpha = 0` each visual class gets its audio score, 0 when missing |
| LateFusion.BlendBetween | utils/late_fusion.py:6 | for `alpha` in [0, 1] a fused score lies between the visual and the audio score |
| LateFusion.FinalClassIsFirstMax | utils/late_fusion.py:8 | the final class is a visual class with the highest fused score, and no class before it scores as high |

## Left out

- File and network I/O are inputs or effects recorded in the result. This covers reading and writing label files, `shutil.copy2`, `os.makedirs` (`create_dir_structure`), `yaml.dump` (`create_yaml_file`, whose constants are kept as `YAML_NC` and `YAML_NAMES`), `file.save`, `send_file` and `os.listdir`.
- `App.PathJoin` models POSIX `os.path.join`, giving `static/uploads/<name>`. On Windows the join uses `\`. Only `Job.uploadPath` and `Job.resultPath` would differ, and the contracts about them hold on both platforms.
- The orders of `os.listdir` and `glob` are whatever the input sequence gives, and `os.path.getctime` is an input field.
- AnalysisData.GlobTxt: matches `*.txt` as `glob` does on Windows (`utils/analysis_data.py:10` is a Windows path), folding letter case. On POSIX `glob` is case-sensitive and would skip `X.TXT`; that platform is not modelled.
- The data.yaml written at the end is not modelled as a file. Its `nc` and `names` are the constants that `MappingTargetsAreYamlClasses` checks the maps against.
- The source paths (`PATH_FOLDER_A`, `PATH_FOLDER_B`, `OUTPUT_DIR`, `DATASET_PATH`) are not modelled: each source is given by its tree.
- Printing, `tqdm` progress bars and the analysis plot are left out. The report rows are modelled, not their text.
- `AnalysisData.CountImages`: Python iterates the set in hash order, while the model takes the elements in any order. The counts do not depend on the order.
- Flask routing, `index`, `get_result`, `MAX_CONTENT_LENGTH` and the JSON encoding are not modelled. The answer is an `Outcome` value with its status code, and the error messages are constructors rather than text.
- `uuid4`, the clock and `secure_filename` are parameters of `UploadFile`: `fileId`, `timestamp` and a function.
- The detector and video processor (`VideoProcessor`) are not part of this model. Their success or exception is the `processorError` parameter.
- The upload allow-list is `png`, `jpg`, `jpeg`, `mp4`, `avi`, `mov`, `mkv` (`app.py:14`). `wav` and `mp3` are not on the list, so audio uploads are refused (`App.RejectedExtensions`).
- Scores are reals, not IEEE floats, so rounding in `alpha * v + (1 - alpha) * a` and NaN are not modelled. The default `alpha = 0.5` is the constant `DEFAULT_ALPHA`, not a default argument; `DefaultAlphaIsMean` states what the default call computes.
- `LateFusion.LateFusionVisualAudio`: requires a non-empty visual dict, because `max` of an empty dict raises.
- `PyText.ParseInt`: parses a whitespace-free token of ASCII digits, with an optional sign and single underscores between digits. Python's `int()` also accepts other Unicode decimal digits, which are not modelled. Any number of digits is accepted: the limit of 4300 digits in CPython 3.11 and later (and in security releases of 3.7-3.10), beyond which `int()` raises ValueError, is not modelled. A longer class id is therefore mapped or dropped instead of stopping the script.
- `PyText.Lower`: lower-cases ASCII letters and KELVIN SIGN. Other non-ASCII case mappings are not modelled, and the extensions compared against are ASCII.
- `utils/conver_mp4_to_wav.py` is not part of this model.
