/** Visual regression testing: a screenshot is compared pixel by pixel with
    a stored baseline image, and the baseline store is maintained.

    The file system is a map from path strings to file contents. What the
    image decoder (ImageIO.read) makes of a file is part of its content:
    a readable raster, data it fails on with an IOException, or a format
    it has no reader for (it then returns null). Capturing the screenshot
    is an input: the captured file, or nothing when the capture failed
    (the screenshot helper swallows its errors and writes no file). */
module VisualTests {
  import opened Wrappers
  import opened Rationals
  import opened JavaStrings
  import opened VisualTestResults

  // ------------------------------------------------------------------
  // Images and files
  // ------------------------------------------------------------------

  /** A raster of packed RGB values: rgb[x][y] is getRGB(x, y). */
  datatype Raster = Raster(width: int, height: int, rgb: seq<seq<int>>)

  /** A raster a decoder can produce: both sides positive (a PNG of zero
      width or height is rejected by the decoder) and the pixel columns
      of the stated size. */
  predicate WellFormed(r: Raster) {
    && r.width > 0 && r.height > 0
    && |r.rgb| == r.width
    && forall x :: 0 <= x < r.width ==> |r.rgb[x]| == r.height
  }

  datatype FileData =
    | ImageFile(raster: Raster)   // an image file the decoder reads
    | CorruptFile                 // the decoder throws an IOException
    | UnknownFormat               // no reader: ImageIO.read returns null

  type FileSystem = map<string, FileData>

  /** What ImageIO.read(new File(path)) does with the file at path. */
  datatype ReadOutcome = Pixels(raster: Raster) | ReadFails | NoReader

  function ReadFile(fs: FileSystem, path: string): (r: ReadOutcome)
    ensures r.Pixels? ==> WellFormed(r.raster)
    ensures path !in fs ==> r == ReadFails
  {
    if path !in fs then ReadFails
    else match fs[path]
      case ImageFile(raster) => if WellFormed(raster) then Pixels(raster) else ReadFails
      case CorruptFile => ReadFails
      case UnknownFormat => NoReader
  }

  // ------------------------------------------------------------------
  // Pixel comparison
  // ------------------------------------------------------------------

  predicate SameSize(b: Raster, c: Raster) {
    b.width == c.width && b.height == c.height
  }

  /** Coordinates (x, y) with y < upTo whose two RGB values are equal, or,
      when agree is false, differ. */
  function ColumnCount(b: Raster, c: Raster, x: int, upTo: int, agree: bool): nat
    requires WellFormed(b) && WellFormed(c) && SameSize(b, c)
    requires 0 <= x < b.width && 0 <= upTo <= b.height
    decreases upTo
  {
    if upTo == 0 then 0
    else ColumnCount(b, c, x, upTo - 1, agree) + (if (b.rgb[x][upTo - 1] == c.rgb[x][upTo - 1]) == agree then 1 else 0)
  }

  /** The same count over the columns x < upTo. */
  function PixelCount(b: Raster, c: Raster, upTo: int, agree: bool): nat
    requires WellFormed(b) && WellFormed(c) && SameSize(b, c)
    requires 0 <= upTo <= b.width
    decreases upTo
  {
    if upTo == 0 then 0 else PixelCount(b, c, upTo - 1, agree) + ColumnCount(b, c, upTo - 1, b.height, agree)
  }

  /** Every coordinate of a column is counted once, as matching or as not. */
  lemma {:induction false} ColumnCountSplit(b: Raster, c: Raster, x: int, upTo: int)
    requires WellFormed(b) && WellFormed(c) && SameSize(b, c)
    requires 0 <= x < b.width && 0 <= upTo <= b.height
    ensures ColumnCount(b, c, x, upTo, true) + ColumnCount(b, c, x, upTo, false) == upTo
  {
    if upTo > 0 {
      ColumnCountSplit(b, c, x, upTo - 1);
    }
  }

  /** Matching and differing pixels together are all the pixels: with k
      differing pixels out of N the match count is N - k. */
  lemma {:induction false} MatchingPlusDiffering(b: Raster, c: Raster, upTo: int)
    requires WellFormed(b) && WellFormed(c) && SameSize(b, c)
    requires 0 <= upTo <= b.width
    ensures PixelCount(b, c, upTo, true) + PixelCount(b, c, upTo, false) == upTo * b.height
  {
    if upTo > 0 {
      MatchingPlusDiffering(b, c, upTo - 1);
      ColumnCountSplit(b, c, upTo - 1, b.height);
      assert (upTo - 1) * b.height + b.height == upTo * b.height;
    }
  }

  /** An image compared with itself matches at every pixel. */
  lemma {:induction false} IdenticalMatchesAll(r: Raster, upTo: int)
    requires WellFormed(r) && 0 <= upTo <= r.width
    ensures PixelCount(r, r, upTo, true) == upTo * r.height
    ensures PixelCount(r, r, upTo, false) == 0
  {
    if upTo > 0 {
      IdenticalMatchesAll(r, upTo - 1);
      IdenticalColumn(r, upTo - 1, r.height);
      assert (upTo - 1) * r.height + r.height == upTo * r.height;
    }
  }

  lemma SelfComparisonMatchesAll(b: Raster, c: Raster)
    requires WellFormed(b) && WellFormed(c)
    ensures b == c ==> PixelCount(b, c, b.width, true) == b.width * b.height
  {
    if b == c {
      IdenticalMatchesAll(b, b.width);
    }
  }

  lemma {:induction false} IdenticalColumn(r: Raster, x: int, upTo: int)
    requires WellFormed(r) && 0 <= x < r.width && 0 <= upTo <= r.height
    ensures ColumnCount(r, r, x, upTo, true) == upTo
    ensures ColumnCount(r, r, x, upTo, false) == 0
  {
    if upTo > 0 {
      IdenticalColumn(r, x, upTo - 1);
    }
  }

  /** The similarity of two decoded images: 0 when their sizes differ
      (no pixel is compared), otherwise the matching pixels over all
      pixels. It lies in [0, 1], and an image compared with itself
      scores exactly 1. */
  function Similarity(b: Raster, c: Raster): (s: Rat)
    requires WellFormed(b) && WellFormed(c)
    ensures InUnitInterval(s)
    ensures !SameSize(b, c) ==> s.num == 0
    ensures SameSize(b, c) ==> s.den == b.width * b.height && s.num == PixelCount(b, c, b.width, true)
    ensures b == c ==> Same(s, OfInt(1))
  {
    if !SameSize(b, c) then Rat(0, 1)
    else
      MatchingPlusDiffering(b, c, b.width);
      SelfComparisonMatchesAll(b, c);
      Rat(PixelCount(b, c, b.width, true), b.width * b.height)
  }

  /** Two 2x2 images, an all-black baseline and a candidate with one white
      pixel (getRGB packs alpha, so black is 0xFF000000 and white
      0xFFFFFFFF, read as signed ints): three of four pixels match, so the
      similarity is 0.75, which fails the default threshold 0.95 and passes
      a threshold of 0.70. */
  lemma OneWhitePixelOfFour()
    ensures var black := Raster(2, 2, [[-16777216, -16777216], [-16777216, -16777216]]);
      var oneWhite := Raster(2, 2, [[-1, -16777216], [-16777216, -16777216]]);
      && Same(Similarity(black, oneWhite), Rat(3, 4))
      && !AtMost(DefaultThreshold, Similarity(black, oneWhite))
      && AtMost(Rat(70, 100), Similarity(black, oneWhite))
  {
    var black := Raster(2, 2, [[-16777216, -16777216], [-16777216, -16777216]]);
    var oneWhite := Raster(2, 2, [[-1, -16777216], [-16777216, -16777216]]);
    assert ColumnCount(black, oneWhite, 0, 2, true) == 1;
    assert ColumnCount(black, oneWhite, 1, 2, true) == 2;
    assert PixelCount(black, oneWhite, 2, true) == 3;
  }

  const NullImageReason := "NullPointerException: the decoder returned no image"

  /** compareImages on the contents of a file system: an IOException while
      reading either file gives 0.0; an image without a reader is null and
      the NullPointerException it causes escapes. */
  function ImageSimilarity(fs: FileSystem, baselinePath: string, currentPath: string): (r: Result<Rat>)
    ensures r.Success? ==> InUnitInterval(r.value)
    ensures ReadFile(fs, baselinePath) == ReadFails || ReadFile(fs, currentPath) == ReadFails ==> r == Success(Rat(0, 1))
    ensures r.Failure? <==> (ReadFile(fs, baselinePath) == NoReader || ReadFile(fs, currentPath) == NoReader)
                            && ReadFile(fs, baselinePath) != ReadFails && ReadFile(fs, currentPath) != ReadFails
  {
    var b := ReadFile(fs, baselinePath);
    var c := ReadFile(fs, currentPath);
    if b == ReadFails || c == ReadFails then Success(Rat(0, 1))
    else if b == NoReader || c == NoReader then Failure(NullImageReason)
    else Success(Similarity(b.raster, c.raster))
  }

  // ------------------------------------------------------------------
  // Paths and configuration
  // ------------------------------------------------------------------

  /** File.separator on the platform the model assumes. */
  const Separator: char := '/'
  const BaselineSuffix := "_baseline.png"

  /** getBaselinePath: <baseline directory>/<test name>_baseline.png. */
  function BaselinePath(baselineDir: string, testName: string): (p: string)
    ensures StartsWith(p, baselineDir + [Separator]) && EndsWith(p, BaselineSuffix)
  {
    baselineDir + [Separator] + testName + BaselineSuffix
  }

  /** takeCurrentScreenshot's file: <screenshot directory>/<test name>_<timestamp>.png. */
  function ScreenshotPath(screenshotDir: string, testName: string, timestamp: string): (p: string)
    ensures StartsWith(p, screenshotDir + [Separator]) && EndsWith(p, ".png")
  {
    screenshotDir + [Separator] + testName + "_" + timestamp + ".png"
  }

  /** Distinct test names have distinct baseline paths. */
  lemma BaselinePathInjective(dir: string, t1: string, t2: string)
    requires BaselinePath(dir, t1) == BaselinePath(dir, t2)
    ensures t1 == t2
  {
    var p := BaselinePath(dir, t1);
    assert |t1| == |t2|;
    assert p[|dir| + 1..|dir| + 1 + |t1|] == t1;
    assert BaselinePath(dir, t2)[|dir| + 1..|dir| + 1 + |t2|] == t2;
  }

  /** A file clearAllBaselines deletes: listed directly in the baseline
      directory (a directory given as "" does not exist and lists nothing)
      with a name ending in "_baseline.png". */
  predicate IsBaselineFile(baselineDir: string, path: string) {
    && baselineDir != ""
    && StartsWith(path, baselineDir + [Separator])
    && Separator !in path[|baselineDir| + 1..]
    && EndsWith(path[|baselineDir| + 1..], BaselineSuffix)
  }

  /** Every test name without a separator has its baseline among the files
      clearAllBaselines deletes. */
  lemma BaselinePathIsBaselineFile(dir: string, testName: string)
    requires dir != "" && Separator !in testName
    ensures IsBaselineFile(dir, BaselinePath(dir, testName))
  {
    var p := BaselinePath(dir, testName);
    assert p[..|dir| + 1] == dir + [Separator];
    assert p[|dir| + 1..] == testName + BaselineSuffix;
    assert Separator !in BaselineSuffix;
  }

  /** The file system after clearAllBaselines: every baseline file gone,
      every other file as it was. */
  function WithoutBaselines(fs: FileSystem, baselineDir: string): (r: FileSystem)
    ensures forall p :: p in r ==> p in fs && r[p] == fs[p] && !IsBaselineFile(baselineDir, p)
    ensures forall p :: p in fs && !IsBaselineFile(baselineDir, p) ==> p in r
  {
    map p | p in fs && !IsBaselineFile(baselineDir, p) :: fs[p]
  }

  /** Clearing removes the baseline of every test whose name has no
      separator, and keeps every file whose name does not end in
      "_baseline.png". */
  lemma ClearedStoreHasNoBaselines(fs: FileSystem, dir: string, testName: string, path: string)
    requires dir != "" && Separator !in testName
    ensures BaselinePath(dir, testName) !in WithoutBaselines(fs, dir)
    ensures path in fs && !EndsWith(path, BaselineSuffix) ==> path in WithoutBaselines(fs, dir)
  {
    BaselinePathIsBaselineFile(dir, testName);
    if path in fs && !EndsWith(path, BaselineSuffix) && IsBaselineFile(dir, path) {
      EndsWithOfTail(path, |dir| + 1, BaselineSuffix);
    }
  }

  /** The store after a file is written (or not, when capture failed). */
  function Written(fs: FileSystem, path: string, file: Option<FileData>): FileSystem {
    if file.Some? then fs[path := file.value] else fs
  }

  /** Files.copy(from, to) without REPLACE_EXISTING: a missing source
      fails, an existing target fails unless it is the source itself (then
      nothing is copied), otherwise the target becomes a copy. */
  function Copied(fs: FileSystem, from: string, to: string): (r: Result<FileSystem>)
    ensures r.Success? <==> from in fs && (from == to || to !in fs)
    ensures r.Success? ==> r.value == fs[to := fs[from]]
  {
    if from !in fs then Failure("NoSuchFileException: " + from)
    else if from == to then Success(fs)
    else if to in fs then Failure("FileAlreadyExistsException: " + to)
    else Success(fs[to := fs[from]])
  }

  datatype Config = Config(baselineDir: string, screenshotDir: string, threshold: Rat)

  /** visual.threshold when the test data does not set it. */
  const DefaultThreshold := Rat(95, 100)

  const BaselineCreatedMessage := "Baseline oluşturuldu"
  const PassedMessage := "Görsel test başarılı"

  function FailedMessage(similarity: Rat, threshold: Rat): string {
    "Görsel test başarısız. Benzerlik: " + Fixed2(similarity) + ", Eşik: " + Fixed2(threshold)
  }

  /** The result every exception in compareScreenshot turns into. */
  function ErrorResult(reason: string): VisualTestResult {
    VisualTestResult(false, Rat(0, 1), "Görsel test hatası: " + reason, "", "")
  }

  datatype Checked = Checked(result: VisualTestResult, files: FileSystem)

  /** compareScreenshot as a function of the file system before the call:
      the screenshot is written, then a missing baseline is created from it
      (and the check passes), or else the two images are compared and the
      check passes when the similarity reaches the threshold. */
  function CompareScreenshotSpec(cfg: Config, fs: FileSystem, testName: string, timestamp: string,
                                 capture: Option<FileData>): (r: Checked)
    ensures forall p :: p in fs && p != ScreenshotPath(cfg.screenshotDir, testName, timestamp) ==>
      p in r.files && r.files[p] == fs[p]
    ensures r.files.Keys <= fs.Keys + {ScreenshotPath(cfg.screenshotDir, testName, timestamp),
                                       BaselinePath(cfg.baselineDir, testName)}
    ensures r.result.passed ==> BaselinePath(cfg.baselineDir, testName) in r.files
  {
    var current := ScreenshotPath(cfg.screenshotDir, testName, timestamp);
    var baseline := BaselinePath(cfg.baselineDir, testName);
    var fs1 := Written(fs, current, capture);
    if baseline !in fs1 then
      match Copied(fs1, current, baseline)
      case Success(fs2) => Checked(VisualTestResult(true, Rat(1, 1), BaselineCreatedMessage, current, baseline), fs2)
      case Failure(e) => Checked(ErrorResult(e), fs1)
    else
      match ImageSimilarity(fs1, baseline, current)
      case Failure(e) => Checked(ErrorResult(e), fs1)
      case Success(s) =>
        var passed := AtMost(cfg.threshold, s);
        Checked(VisualTestResult(passed, s, if passed then PassedMessage else FailedMessage(s, cfg.threshold),
                                 current, baseline), fs1)
  }

  /** The public createBaseline: write the screenshot, copy it to the
      baseline path; true exactly when the copy succeeds. */
  function CreateBaselineSpec(cfg: Config, fs: FileSystem, testName: string, timestamp: string,
                              capture: Option<FileData>): (r: (bool, FileSystem))
    ensures forall p :: p in fs && p != ScreenshotPath(cfg.screenshotDir, testName, timestamp) ==>
      p in r.1 && r.1[p] == fs[p]
    ensures r.0 ==> var current := ScreenshotPath(cfg.screenshotDir, testName, timestamp);
      var baseline := BaselinePath(cfg.baselineDir, testName);
      current in r.1 && baseline in r.1 && r.1[baseline] == r.1[current]
  {
    var current := ScreenshotPath(cfg.screenshotDir, testName, timestamp);
    var fs1 := Written(fs, current, capture);
    match Copied(fs1, current, BaselinePath(cfg.baselineDir, testName))
    case Success(fs2) => (true, fs2)
    case Failure(_) => (false, fs1)
  }

  // ------------------------------------------------------------------
  // Properties of the comparison and of the baseline lifecycle
  // ------------------------------------------------------------------

  /** First run: with no baseline, the screenshot becomes the baseline and
      the check passes with similarity 1. */
  lemma FirstRunCreatesBaseline(cfg: Config, fs: FileSystem, testName: string, timestamp: string, shot: FileData)
    requires BaselinePath(cfg.baselineDir, testName) !in fs
    requires ScreenshotPath(cfg.screenshotDir, testName, timestamp) != BaselinePath(cfg.baselineDir, testName)
    ensures var c := CompareScreenshotSpec(cfg, fs, testName, timestamp, Some(shot));
      && c.result == VisualTestResult(true, Rat(1, 1), BaselineCreatedMessage,
                                      ScreenshotPath(cfg.screenshotDir, testName, timestamp),
                                      BaselinePath(cfg.baselineDir, testName))
      && c.files == fs[ScreenshotPath(cfg.screenshotDir, testName, timestamp) := shot]
                      [BaselinePath(cfg.baselineDir, testName) := shot]
  {
  }

  /** Once a baseline exists, the check leaves it alone, passes exactly when
      the similarity reaches the threshold, and running it again with the
      same screenshot gives the same result and the same files. */
  lemma ExistingBaselineVerdict(cfg: Config, fs: FileSystem, testName: string, timestamp: string,
                                capture: Option<FileData>)
    requires BaselinePath(cfg.baselineDir, testName) in fs
    requires ScreenshotPath(cfg.screenshotDir, testName, timestamp) != BaselinePath(cfg.baselineDir, testName)
    ensures var current := ScreenshotPath(cfg.screenshotDir, testName, timestamp);
      var baseline := BaselinePath(cfg.baselineDir, testName);
      var c := CompareScreenshotSpec(cfg, fs, testName, timestamp, capture);
      && c.files == Written(fs, current, capture)
      && c.files[baseline] == fs[baseline]
      && (c.result.passed <==> ImageSimilarity(c.files, baseline, current).Success?
                               && AtMost(cfg.threshold, ImageSimilarity(c.files, baseline, current).value))
      && CompareScreenshotSpec(cfg, c.files, testName, timestamp, capture) == c
  {
    var current := ScreenshotPath(cfg.screenshotDir, testName, timestamp);
    var fs1 := Written(fs, current, capture);
    assert Written(fs1, current, capture) == fs1;
  }

  /** Identity: after the first run created the baseline from a readable
      screenshot, a second run with the same image (under any timestamp)
      scores exactly 1 and passes for every threshold up to 1. */
  lemma SecondRunWithSameImagePasses(cfg: Config, fs: FileSystem, testName: string, ts1: string, ts2: string, shot: Raster)
    requires WellFormed(shot) && AtMost(cfg.threshold, OfInt(1))
    requires BaselinePath(cfg.baselineDir, testName) !in fs
    requires ScreenshotPath(cfg.screenshotDir, testName, ts1) != BaselinePath(cfg.baselineDir, testName)
    requires ScreenshotPath(cfg.screenshotDir, testName, ts2) != BaselinePath(cfg.baselineDir, testName)
    ensures var first := CompareScreenshotSpec(cfg, fs, testName, ts1, Some(ImageFile(shot)));
      var second := CompareScreenshotSpec(cfg, first.files, testName, ts2, Some(ImageFile(shot)));
      && second.result.passed
      && Same(second.result.similarity, OfInt(1))
      && second.result.message == PassedMessage
  {
    var first := CompareScreenshotSpec(cfg, fs, testName, ts1, Some(ImageFile(shot)));
    FirstRunCreatesBaseline(cfg, fs, testName, ts1, ImageFile(shot));
    var baseline := BaselinePath(cfg.baselineDir, testName);
    var current := ScreenshotPath(cfg.screenshotDir, testName, ts2);
    var fs1 := Written(first.files, current, Some(ImageFile(shot)));
    assert fs1[baseline] == ImageFile(shot) && fs1[current] == ImageFile(shot);
    assert ImageSimilarity(fs1, baseline, current) == Success(Similarity(shot, shot));
    var s := Similarity(shot, shot);
    assert s.num == s.den;
    assert AtMost(cfg.threshold, s) by {
      assert cfg.threshold.num <= cfg.threshold.den;
      assert cfg.threshold.num * s.den <= cfg.threshold.den * s.den;
    }
  }

  /** Images of different sizes score 0 and fail every positive threshold,
      however alike their pixels are. */
  lemma SizeMismatchFails(cfg: Config, fs: FileSystem, testName: string, timestamp: string, shot: Raster)
    requires cfg.threshold.num > 0
    requires ScreenshotPath(cfg.screenshotDir, testName, timestamp) != BaselinePath(cfg.baselineDir, testName)
    requires BaselinePath(cfg.baselineDir, testName) in fs
    requires ReadFile(fs, BaselinePath(cfg.baselineDir, testName)).Pixels?
    requires WellFormed(shot) && !SameSize(ReadFile(fs, BaselinePath(cfg.baselineDir, testName)).raster, shot)
    ensures var c := CompareScreenshotSpec(cfg, fs, testName, timestamp, Some(ImageFile(shot)));
      !c.result.passed && c.result.similarity.num == 0
  {
    var current := ScreenshotPath(cfg.screenshotDir, testName, timestamp);
    var baseline := BaselinePath(cfg.baselineDir, testName);
    var fs1 := Written(fs, current, Some(ImageFile(shot)));
    assert fs1[baseline] == fs[baseline];
    var s := ImageSimilarity(fs1, baseline, current);
    assert s.Success? && s.value.num == 0;
    assert !AtMost(cfg.threshold, s.value) by {
      assert cfg.threshold.num * s.value.den > 0;
    }
  }

  /** A screenshot in a format without a decoder makes compareImages throw;
      the check then fails with similarity 0 and both paths empty. */
  lemma UnreadableFormatIsError(cfg: Config, fs: FileSystem, testName: string, timestamp: string)
    requires ScreenshotPath(cfg.screenshotDir, testName, timestamp) != BaselinePath(cfg.baselineDir, testName)
    requires ReadFile(fs, BaselinePath(cfg.baselineDir, testName)).Pixels?
    ensures var r := CompareScreenshotSpec(cfg, fs, testName, timestamp, Some(UnknownFormat)).result;
      && !r.passed && r.similarity.num == 0
      && r.currentScreenshotPath == "" && r.baselineScreenshotPath == ""
  {
    var current := ScreenshotPath(cfg.screenshotDir, testName, timestamp);
    var baseline := BaselinePath(cfg.baselineDir, testName);
    var fs1 := Written(fs, current, Some(UnknownFormat));
    assert fs1[baseline] == fs[baseline];
    assert ReadFile(fs1, current) == NoReader;
  }

  /** Deleting a baseline and checking again behaves as a first run. */
  lemma DeleteThenCompareRecreates(cfg: Config, fs: FileSystem, testName: string, timestamp: string, shot: FileData)
    requires ScreenshotPath(cfg.screenshotDir, testName, timestamp) != BaselinePath(cfg.baselineDir, testName)
    ensures var c := CompareScreenshotSpec(cfg, fs - {BaselinePath(cfg.baselineDir, testName)}, testName, timestamp, Some(shot));
      && c.result.passed && c.result.message == BaselineCreatedMessage
      && c.files[BaselinePath(cfg.baselineDir, testName)] == shot
  {
    FirstRunCreatesBaseline(cfg, fs - {BaselinePath(cfg.baselineDir, testName)}, testName, timestamp, shot);
  }

  /** The public createBaseline never overwrites: with a baseline present it
      returns false and the baseline keeps its content. */
  lemma CreateBaselineKeepsExisting(cfg: Config, fs: FileSystem, testName: string, timestamp: string,
                                    capture: Option<FileData>)
    requires ScreenshotPath(cfg.screenshotDir, testName, timestamp) != BaselinePath(cfg.baselineDir, testName)
    ensures var (ok, fs') := CreateBaselineSpec(cfg, fs, testName, timestamp, capture);
      var current := ScreenshotPath(cfg.screenshotDir, testName, timestamp);
      var baseline := BaselinePath(cfg.baselineDir, testName);
      && (ok <==> (capture.Some? || current in fs) && baseline !in fs)
      && (baseline in fs ==> baseline in fs' && fs'[baseline] == fs[baseline])
      && (ok ==> fs'[baseline] == Written(fs, current, capture)[current])
  {
  }

  // ------------------------------------------------------------------
  // The manager: the store and the operations on it
  // ------------------------------------------------------------------

  /** A decoded image: a fresh pixel array, or the decoder's failure. */
  datatype Decoded = Decoded(pixels: array2<int>) | DecodeIOError | DecodeNull

  /** The pixel array holds the raster's values. */
  ghost predicate Holds(a: array2<int>, r: Raster)
    reads a
  {
    && WellFormed(r)
    && a.Length0 == r.width && a.Length1 == r.height
    && forall x, y :: 0 <= x < r.width && 0 <= y < r.height ==> a[x, y] == r.rgb[x][y]
  }

  /** The nested x/y loop of compareImages: counts coordinates whose two
      RGB values are exactly equal. */
  method CountMatching(baseline: array2<int>, current: array2<int>, ghost b: Raster, ghost c: Raster)
    returns (matching: nat)
    requires Holds(baseline, b) && Holds(current, c) && SameSize(b, c)
    ensures matching == PixelCount(b, c, b.width, true)
  {
    matching := 0;
    var x := 0;
    while x < baseline.Length0
      invariant 0 <= x <= baseline.Length0
      invariant matching == PixelCount(b, c, x, true)
    {
      var y := 0;
      while y < baseline.Length1
        invariant 0 <= y <= baseline.Length1
        invariant matching == PixelCount(b, c, x, true) + ColumnCount(b, c, x, y, true)
      {
        if baseline[x, y] == current[x, y] {
          matching := matching + 1;
        }
        y := y + 1;
      }
      x := x + 1;
    }
  }

  class VisualTestManager {
    const cfg: Config
    var files: FileSystem

    constructor (cfg: Config, files: FileSystem)
      ensures this.cfg == cfg && this.files == files
    {
      this.cfg := cfg;
      this.files := files;
    }

    /** ImageIO.read: decodes the file into a fresh pixel array. */
    method ReadImage(path: string) returns (d: Decoded)
      ensures d.Decoded? <==> ReadFile(files, path).Pixels?
      ensures d.Decoded? ==> fresh(d.pixels) && Holds(d.pixels, ReadFile(files, path).raster)
      ensures d == DecodeIOError <==> ReadFile(files, path) == ReadFails
    {
      match ReadFile(files, path)
      case ReadFails => d := DecodeIOError;
      case NoReader => d := DecodeNull;
      case Pixels(r) =>
        var a := new int[r.width, r.height]((x, y) => if 0 <= x < |r.rgb| && 0 <= y < |r.rgb[x]| then r.rgb[x][y] else 0);
        d := Decoded(a);
    }

    /** compareImages(baselinePath, currentPath). */
    method CompareImages(baselinePath: string, currentPath: string) returns (r: Result<Rat>)
      ensures r == ImageSimilarity(files, baselinePath, currentPath)
    {
      var baseline := ReadImage(baselinePath);
      if baseline == DecodeIOError {
        return Success(Rat(0, 1));
      }
      var current := ReadImage(currentPath);
      if current == DecodeIOError {
        return Success(Rat(0, 1));
      }
      if baseline == DecodeNull || current == DecodeNull {
        return Failure(NullImageReason);
      }
      ghost var b := ReadFile(files, baselinePath).raster;
      ghost var c := ReadFile(files, currentPath).raster;
      var a1, a2 := baseline.pixels, current.pixels;
      if a1.Length0 != a2.Length0 || a1.Length1 != a2.Length1 {
        return Success(Rat(0, 1));
      }
      var totalPixels := a1.Length0 * a1.Length1;
      var matchingPixels := CountMatching(a1, a2, b, c);
      r := Success(Rat(matchingPixels, totalPixels));
    }

    /** The private createBaseline(currentPath, baselinePath): Files.copy. */
    method CopyFile(from: string, to: string) returns (r: Result<()>)
      modifies this
      ensures Copied(old(files), from, to).Success? ==> r == Success(()) && files == Copied(old(files), from, to).value
      ensures Copied(old(files), from, to).Failure? ==> r == Failure(Copied(old(files), from, to).error) && files == old(files)
    {
      if from !in files {
        return Failure("NoSuchFileException: " + from);
      }
      if from == to {
        return Success(());
      }
      if to in files {
        return Failure("FileAlreadyExistsException: " + to);
      }
      files := files[to := files[from]];
      r := Success(());
    }

    /** compareScreenshot(driver, testName), with the clock's timestamp and
        the captured screenshot as inputs. */
    method CompareScreenshot(testName: string, timestamp: string, capture: Option<FileData>)
      returns (r: VisualTestResult)
      modifies this
      ensures Checked(r, files) == CompareScreenshotSpec(cfg, old(files), testName, timestamp, capture)
    {
      var currentPath := ScreenshotPath(cfg.screenshotDir, testName, timestamp);
      if capture.Some? {
        files := files[currentPath := capture.value];
      }
      var baselinePath := BaselinePath(cfg.baselineDir, testName);
      if baselinePath !in files {
        var copied := CopyFile(currentPath, baselinePath);
        if copied.Failure? {
          return ErrorResult(copied.error);
        }
        return VisualTestResult(true, Rat(1, 1), BaselineCreatedMessage, currentPath, baselinePath);
      }
      var similarity := CompareImages(baselinePath, currentPath);
      if similarity.Failure? {
        return ErrorResult(similarity.error);
      }
      var s := similarity.value;
      var isPassed := AtMost(cfg.threshold, s);
      var message := if isPassed then PassedMessage else FailedMessage(s, cfg.threshold);
      r := VisualTestResult(isPassed, s, message, currentPath, baselinePath);
    }

    /** The public createBaseline(driver, testName). */
    method CreateBaseline(testName: string, timestamp: string, capture: Option<FileData>) returns (ok: bool)
      modifies this
      ensures (ok, files) == CreateBaselineSpec(cfg, old(files), testName, timestamp, capture)
    {
      var currentPath := ScreenshotPath(cfg.screenshotDir, testName, timestamp);
      if capture.Some? {
        files := files[currentPath := capture.value];
      }
      var copied := CopyFile(currentPath, BaselinePath(cfg.baselineDir, testName));
      ok := copied.Success?;
    }

    /** deleteBaseline: removes that test's baseline; nothing happens when
        it is absent, and no other file changes. */
    method DeleteBaseline(testName: string)
      modifies this
      ensures files == old(files) - {BaselinePath(cfg.baselineDir, testName)}
    {
      var baselinePath := BaselinePath(cfg.baselineDir, testName);
      if baselinePath in files {
        files := files - {baselinePath};
      }
    }

    /** clearAllBaselines: walks the directory listing and deletes every
        file whose name ends in "_baseline.png". */
    method ClearAllBaselines()
      modifies this
      ensures files == WithoutBaselines(old(files), cfg.baselineDir)
    {
      if cfg.baselineDir == "" {
        assert files == WithoutBaselines(files, cfg.baselineDir);
        return;
      }
      var prefix := cfg.baselineDir + [Separator];
      var listing := set p | p in files && StartsWith(p, prefix) && Separator !in p[|prefix|..];
      ghost var before := files;
      while listing != {}
        invariant listing <= before.Keys
        invariant forall p :: p in files <==> p in before && (p in listing || !IsBaselineFile(cfg.baselineDir, p))
        invariant forall p :: p in files ==> files[p] == before[p]
        invariant forall p :: IsBaselineFile(cfg.baselineDir, p) && p in before ==> p in listing || p !in files
        decreases listing
      {
        var file :| file in listing;
        if EndsWith(file[|prefix|..], BaselineSuffix) {
          files := files - {file};
        }
        listing := listing - {file};
      }
      assert files == WithoutBaselines(before, cfg.baselineDir);
    }
  }
}
