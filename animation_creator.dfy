/**
 * `AnimationCreator`: turns the sprite grids of an export setting into
 * animation clips and one animator per grid.
 *
 * Clips are written for each grid (variant) in turn, one clip per animation
 * entry, each from one row of the grid, and then that grid's animator: a
 * controller holding every clip of the main export folder, or an override
 * controller pairing those clips with the ones whose name carries the
 * variant index. The asset database is a log of what was created, and the
 * specification functions below say which log a run leaves behind.
 */
module AnimationCreator {
  import opened Wrappers
  import opened SpriteNumberPattern
  import opened EditorData
  import ExtractedSpriteNumberComparer
  import ExtensionMethods

  // ------------------------------------------------------------------
  // Clip paths and override pairs

  /** The path a clip is saved at: `folder/prefix_name_suffix.anim`. */
  function ClipPath(folderPath: string, prefix: string, animationName: string, suffix: string): string
  {
    folderPath + "/" + prefix + "_" + animationName + "_" + suffix + ".anim"
  }

  /**
   * The suffix of a clip path is the variant index, and it is the frame
   * number the sprite-name comparers read back from the path, whatever the
   * folder, prefix and animation name hold.
   */
  lemma ClipPathCarriesIndex(folderPath: string, prefix: string, animationName: string, index: nat)
    ensures ExtractedSpriteNumberComparer.ExtractNumber(
      ClipPath(folderPath, prefix, animationName, IntToString(index))) == index
  {
    var stem := folderPath + "/" + prefix + "_" + animationName;
    var ds := IntToString(index);
    assert ClipPath(folderPath, prefix, animationName, ds) == stem + "_" + ds + ".anim";
    assert forall t :: 0 <= t < |".anim"| ==> !MarkerAt(".anim", t);
    ExtractedSpriteNumberComparer.ExtractNumberOfSuffix(stem, ds, ".anim");
  }

  /**
   * `Enumerable.Zip`: pair `i` joins the `i`-th elements; the pairs stop at
   * the end of the shorter input, and a length mismatch is not reported.
   */
  function Zip<A, B>(xs: seq<A>, ys: seq<B>): (pairs: seq<(A, B)>)
    ensures |pairs| == if |xs| <= |ys| then |xs| else |ys|
    ensures forall i :: 0 <= i < |pairs| ==> pairs[i] == (xs[i], ys[i])
  {
    if |xs| == 0 || |ys| == 0 then []
    else [(xs[0], ys[0])] + Zip(xs[1..], ys[1..])
  }

  /** Taking the pairs apart gives back both inputs, cut to the shorter length. */
  lemma ZipUnzips<A, B>(xs: seq<A>, ys: seq<B>)
    ensures var pairs := Zip(xs, ys);
      && (seq(|pairs|, i requires 0 <= i < |pairs| => pairs[i].0) == xs[..|pairs|])
      && (seq(|pairs|, i requires 0 <= i < |pairs| => pairs[i].1) == ys[..|pairs|])
  {
  }

  // ------------------------------------------------------------------
  // One clip

  /**
   * What reading `length` sprites of row `start` from a `rows` x `cols`
   * grid throws, if anything: a negative length fails to allocate the
   * keyframe array, a read outside the grid fails on the first such read.
   */
  function ClipFault(rows: nat, cols: nat, start: int, length: int): Option<Exception>
  {
    if length < 0 then Some(OverflowException)
    else if length == 0 || (0 <= start < rows && length <= cols) then None
    else Some(IndexOutOfRangeException)
  }

  /** Cell `[row, col]` lies inside a `rows` x `cols` grid. */
  predicate CellInGrid(rows: nat, cols: nat, row: int, col: int)
  {
    0 <= row < rows && 0 <= col < cols
  }

  /** A clip is readable exactly when every cell it reads lies inside the grid. */
  lemma ClipFaultIsOutOfBoundsRead(rows: nat, cols: nat, start: int, length: int)
    ensures ClipFault(rows, cols, start, length).None? <==>
      length >= 0 && forall i :: 0 <= i < length ==> CellInGrid(rows, cols, start, i)
  {
    if length > 0 && ClipFault(rows, cols, start, length).Some? {
      if 0 <= start < rows {
        assert !CellInGrid(rows, cols, start, cols);
      } else {
        assert !CellInGrid(rows, cols, start, 0);
      }
    }
  }

  /** `length` keyframes can be read from row `start` of `sprites`. */
  predicate RowReadable(sprites: Grid, start: int, length: int)
  {
    ClipFault(|sprites.rows|, sprites.width, start, length).None?
  }

  /**
   * The keyframes of a readable clip: keyframe `i` shows the sprite in
   * column `i` of row `start`. A row that cannot be read yields no clip,
   * and its keyframes are left empty here.
   */
  function RowKeyframes(sprites: Grid, start: int, length: int): (frames: seq<Keyframe>)
    ensures RowReadable(sprites, start, length) ==>
      && |frames| == length
      && forall i :: 0 <= i < length ==> frames[i] == Keyframe(i, sprites.rows[start][i])
  {
    if !RowReadable(sprites, start, length) then []
    else seq(length, i requires 0 <= i < length => Keyframe(i, sprites.rows[start][i]))
  }

  /**
   * `CreateAnimationClip`: fills a keyframe array from one grid row and
   * saves the clip at its path, so that `log'` is `log` with the clip
   * appended. It fails, creating nothing, exactly when the row cannot be
   * read.
   */
  method CreateAnimationClip(log: seq<Asset>, sprites: Grid, prefix: string,
                             animationName: string, startingIndex: int, suffix: string,
                             length: int, targetFolder: Option<Folder>)
    returns (outcome: Outcome<Exception>, log': seq<Asset>)
    ensures outcome.Fail? <==> !RowReadable(sprites, startingIndex, length)
    ensures outcome.Fail? ==>
      Some(outcome.error) == ClipFault(|sprites.rows|, sprites.width, startingIndex, length) &&
      log' == log
    ensures outcome.Pass? ==> log' == log + [AnimationClipAsset(
      ClipPath(FolderPath(targetFolder), prefix, animationName, suffix),
      RowKeyframes(sprites, startingIndex, length))]
  {
    if length < 0 {
      return Fail(OverflowException), log;
    }
    var spriteKeyFrames := new Keyframe[length];
    for i := 0 to length
      invariant i > 0 ==> 0 <= startingIndex < |sprites.rows| && i <= sprites.width
      invariant forall i' :: 0 <= i' < i ==> spriteKeyFrames[i'] == Keyframe(i', sprites.rows[startingIndex][i'])
    {
      if !(0 <= startingIndex < |sprites.rows| && i < sprites.width) {
        return Fail(IndexOutOfRangeException), log;
      }
      spriteKeyFrames[i] := Keyframe(i, sprites.rows[startingIndex][i]);
    }
    assert spriteKeyFrames[..] == RowKeyframes(sprites, startingIndex, length);
    var path := ClipPath(FolderPath(targetFolder), prefix, animationName, suffix);
    outcome, log' := Pass, log + [AnimationClipAsset(path, spriteKeyFrames[..])];
  }

  // ------------------------------------------------------------------
  // The assets of one sprite sheet

  /**
   * What one `CreateAnimationsAndAnimatorController` call works from besides
   * the grids: the export settings, the animation entries, the clip length
   * (the sheet width), the kind of animator, the main export folder's path
   * and the asset lookups.
   */
  datatype SheetJob = SheetJob(
    settings: ExportSettings,
    animationData: seq<AnimationData>,
    length: int,
    isOverride: bool,
    originalFolderPath: string,
    queries: AssetQueries)

  /** Every clip of grid `g` can be read. */
  predicate RowsReadable(g: Grid, job: SheetJob)
  {
    forall i :: 0 <= i < |job.animationData| ==> RowReadable(g, job.animationData[i].rowOffset, job.length)
  }

  /** Every clip of the first `n` grids can be read. */
  predicate ReadableUpTo(gs: seq<Grid>, job: SheetJob, n: nat)
    requires n <= |gs|
  {
    forall k :: 0 <= k < n ==> RowsReadable(gs[k], job)
  }

  /** The clip of animation entry `d` for variant `index`. */
  function ClipFor(job: SheetJob, g: Grid, d: AnimationData, index: nat): Asset
  {
    AnimationClipAsset(
      ClipPath(FolderPath(job.settings.exportFolder), job.settings.animationPrefix,
               d.animationName, IntToString(index)),
      RowKeyframes(g, d.rowOffset, job.length))
  }

  /**
   * The animator of variant `index`: a controller whose motions are the
   * clips of the main export folder in load order, or an override
   * controller on the main folder's controller whose overrides pair those
   * clips with this folder's clips found by the index.
   */
  function AnimatorFor(queries: AssetQueries, settings: ExportSettings, index: nat,
                       isOverride: bool, originalFolderPath: string): Asset
  {
    var savePath := queries.animatorSavePath(settings, index);
    var originals := queries.clipsIn(originalFolderPath, "");
    if !isOverride then AnimatorControllerAsset(savePath, originals)
    else AnimatorOverrideControllerAsset(
      savePath, queries.controllerIn(originalFolderPath),
      Zip(originals, queries.clipsIn(FolderPath(settings.exportFolder), IntToString(index))))
  }

  /** The clips of the first `m` animation entries for variant `index`, in entry order. */
  function VariantClips(job: SheetJob, g: Grid, index: nat, m: nat): seq<Asset>
    requires m <= |job.animationData|
  {
    if m == 0 then []
    else VariantClips(job, g, index, m - 1) + [ClipFor(job, g, job.animationData[m - 1], index)]
  }

  /** The assets created for variant `index`: its clips, then its animator. */
  function VariantLog(job: SheetJob, g: Grid, index: nat): seq<Asset>
  {
    VariantClips(job, g, index, |job.animationData|)
    + [AnimatorFor(job.queries, job.settings, index, job.isOverride, job.originalFolderPath)]
  }

  /** The assets created for the first `n` grids: each grid's clips, then its animator. */
  function SheetLog(job: SheetJob, gs: seq<Grid>, n: nat): seq<Asset>
    requires n <= |gs|
  {
    if n == 0 then []
    else SheetLog(job, gs, n - 1) + VariantLog(job, gs[n - 1], n - 1)
  }

  lemma AppendAssoc<T>(a: seq<T>, b: seq<T>, c: seq<T>)
    ensures (a + b) + c == a + (b + c)
  {
  }

  lemma {:induction false} VariantClipsAt(job: SheetJob, g: Grid, index: nat, m: nat)
    requires m <= |job.animationData|
    ensures |VariantClips(job, g, index, m)| == m
    ensures forall i :: 0 <= i < m ==>
      VariantClips(job, g, index, m)[i] == ClipFor(job, g, job.animationData[i], index)
  {
    if m > 0 {
      VariantClipsAt(job, g, index, m - 1);
    }
  }

  /** Slot `i` of a variant's block: its clip of entry `i`, or its animator when `i == m`. */
  lemma VariantLogAt(job: SheetJob, g: Grid, index: nat, i: nat)
    requires i <= |job.animationData|
    ensures |VariantLog(job, g, index)| == |job.animationData| + 1
    ensures i < |job.animationData| ==>
      VariantLog(job, g, index)[i] == ClipFor(job, g, job.animationData[i], index)
    ensures i == |job.animationData| ==>
      VariantLog(job, g, index)[i] == AnimatorFor(job.queries, job.settings, index, job.isOverride, job.originalFolderPath)
  {
    VariantClipsAt(job, g, index, |job.animationData|);
  }

  lemma {:induction false} SheetLogLength(job: SheetJob, gs: seq<Grid>, n: nat)
    requires n <= |gs|
    ensures |SheetLog(job, gs, n)| == n * (|job.animationData| + 1)
  {
    if n > 0 {
      SheetLogLength(job, gs, n - 1);
      VariantLogAt(job, gs[n - 1], n - 1, 0);
      BlockStep(n, |job.animationData| + 1);
    }
  }

  lemma BlockStep(n: nat, w: nat)
    requires n > 0
    ensures (n - 1) * w + w == n * w
  {
  }

  /** Slot `i` of block `k` comes before block `n` when `k < n`. */
  lemma BlockBelow(k: nat, n: nat, w: nat, i: nat)
    requires k < n && i < w
    ensures k * w + i < n * w
  {
    ExtensionMethods.MulMono(k + 1, n, w);
  }

  /** Where slot `i` of variant `k`'s block sits in a log with `m` clips per variant. */
  function Slot(m: nat, k: nat, i: nat): nat
  {
    k * (m + 1) + i
  }

  /** The log of the first `a` grids is a prefix of the log of the first `b`. */
  lemma {:induction false} SheetLogPrefix(job: SheetJob, gs: seq<Grid>, a: nat, b: nat)
    requires a <= b <= |gs|
    ensures |SheetLog(job, gs, a)| <= |SheetLog(job, gs, b)|
    ensures SheetLog(job, gs, b) == SheetLog(job, gs, a) + SheetLog(job, gs, b)[|SheetLog(job, gs, a)|..]
  {
    if a < b {
      SheetLogPrefix(job, gs, a, b - 1);
      var front := SheetLog(job, gs, a);
      var prev := SheetLog(job, gs, b - 1);
      var whole := SheetLog(job, gs, b);
      assert whole == prev + VariantLog(job, gs[b - 1], b - 1);
      AppendAssoc(front, prev[|front|..], VariantLog(job, gs[b - 1], b - 1));
      assert whole == front + whole[|front|..];
    }
  }

  /** The asset at slot `i` of variant `k`'s block is slot `i` of that variant's own log. */
  lemma SheetLogAt(job: SheetJob, gs: seq<Grid>, n: nat, k: nat, i: nat)
    requires n <= |gs| && k < n && i <= |job.animationData|
    ensures |VariantLog(job, gs[k], k)| == |job.animationData| + 1
    ensures Slot(|job.animationData|, k, i) < |SheetLog(job, gs, n)|
    ensures SheetLog(job, gs, n)[Slot(|job.animationData|, k, i)] == VariantLog(job, gs[k], k)[i]
  {
    var m := |job.animationData|;
    var prev := SheetLog(job, gs, k);
    var upTo := SheetLog(job, gs, k + 1);
    var block := VariantLog(job, gs[k], k);
    assert upTo == prev + block;
    SheetLogLength(job, gs, k);
    VariantLogAt(job, gs[k], k, i);
    SheetLogPrefix(job, gs, k + 1, n);
    assert Slot(m, k, i) == |prev| + i;
  }

  /**
   * The order of creation: variant-major, then animation-entry order, each
   * variant closed by its animator. Asset `k * (m + 1) + i` is the clip of
   * entry `i` for variant `k` (suffix `k`), and asset `k * (m + 1) + m` is
   * variant `k`'s animator.
   */
  lemma SheetLogLayout(job: SheetJob, gs: seq<Grid>, n: nat)
    requires n <= |gs|
    ensures |SheetLog(job, gs, n)| == n * (|job.animationData| + 1)
    ensures forall k, i :: 0 <= k < n && 0 <= i < |job.animationData| ==>
      && Slot(|job.animationData|, k, i) < |SheetLog(job, gs, n)|
      && SheetLog(job, gs, n)[Slot(|job.animationData|, k, i)] ==
         ClipFor(job, gs[k], job.animationData[i], k)
    ensures forall k :: 0 <= k < n ==>
      && Slot(|job.animationData|, k, |job.animationData|) < |SheetLog(job, gs, n)|
      && SheetLog(job, gs, n)[Slot(|job.animationData|, k, |job.animationData|)] ==
         AnimatorFor(job.queries, job.settings, k, job.isOverride, job.originalFolderPath)
  {
    SheetLogLength(job, gs, n);
    forall k, i | 0 <= k < n && 0 <= i < |job.animationData|
      ensures Slot(|job.animationData|, k, i) < |SheetLog(job, gs, n)|
      ensures SheetLog(job, gs, n)[Slot(|job.animationData|, k, i)] ==
        ClipFor(job, gs[k], job.animationData[i], k)
    {
      SheetLogAt(job, gs, n, k, i);
      VariantLogAt(job, gs[k], k, i);
    }
    forall k | 0 <= k < n
      ensures Slot(|job.animationData|, k, |job.animationData|) < |SheetLog(job, gs, n)|
      ensures SheetLog(job, gs, n)[Slot(|job.animationData|, k, |job.animationData|)] ==
        AnimatorFor(job.queries, job.settings, k, job.isOverride, job.originalFolderPath)
    {
      SheetLogAt(job, gs, n, k, |job.animationData|);
      VariantLogAt(job, gs[k], k, |job.animationData|);
    }
  }

  /** What kind of asset an entry of the log is. */
  datatype AssetKind = Clip | Controller | OverrideController

  function KindOf(a: Asset): AssetKind
  {
    match a
    case AnimationClipAsset(_, _) => Clip
    case AnimatorControllerAsset(_, _) => Controller
    case AnimatorOverrideControllerAsset(_, _, _) => OverrideController
  }

  /** The kind of animator a sheet gets. */
  function AnimatorKind(isOverride: bool): AssetKind
  {
    if isOverride then OverrideController else Controller
  }

  /** How many assets of the log are of kind `kind`. */
  function CountKind(log: seq<Asset>, kind: AssetKind): nat
  {
    if log == [] then 0
    else CountKind(log[..|log| - 1], kind) + (if KindOf(log[|log| - 1]) == kind then 1 else 0)
  }

  lemma {:induction false} CountKindAppend(a: seq<Asset>, b: seq<Asset>, kind: AssetKind)
    ensures CountKind(a + b, kind) == CountKind(a, kind) + CountKind(b, kind)
    decreases |b|
  {
    if b == [] {
      assert a + b == a;
    } else {
      assert (a + b)[..|a + b| - 1] == a + b[..|b| - 1];
      assert (a + b)[|a + b| - 1] == b[|b| - 1];
      CountKindAppend(a, b[..|b| - 1], kind);
    }
  }

  lemma {:induction false} VariantClipsCount(job: SheetJob, g: Grid, index: nat, m: nat, kind: AssetKind)
    requires m <= |job.animationData|
    ensures CountKind(VariantClips(job, g, index, m), kind) == if kind == Clip then m else 0
  {
    if m > 0 {
      VariantClipsCount(job, g, index, m - 1, kind);
      CountKindAppend(VariantClips(job, g, index, m - 1),
                      [ClipFor(job, g, job.animationData[m - 1], index)], kind);
    }
  }

  /** One variant: `m` clips and one animator of the sheet's kind. */
  lemma VariantLogCount(job: SheetJob, g: Grid, index: nat, kind: AssetKind)
    ensures CountKind(VariantLog(job, g, index), kind) ==
      (if kind == Clip then |job.animationData| else 0) + (if kind == AnimatorKind(job.isOverride) then 1 else 0)
  {
    var clips := VariantClips(job, g, index, |job.animationData|);
    var animator := [AnimatorFor(job.queries, job.settings, index, job.isOverride, job.originalFolderPath)];
    CountKindAppend(clips, animator, kind);
    VariantClipsCount(job, g, index, |job.animationData|, kind);
    assert animator[..0] == [];
  }

  /** How many assets of kind `kind` a sheet of `n` grids and `m` entries gets. */
  function ExpectedCount(kind: AssetKind, n: nat, m: nat, isOverride: bool): nat
  {
    match kind
    case Clip => n * m
    case Controller => if isOverride then 0 else n
    case OverrideController => if isOverride then n else 0
  }

  /** One more grid adds `m` clips and one animator of the sheet's kind. */
  lemma ExpectedCountStep(kind: AssetKind, n: nat, m: nat, isOverride: bool)
    requires n > 0
    ensures ExpectedCount(kind, n, m, isOverride) ==
      ExpectedCount(kind, n - 1, m, isOverride) + (if kind == Clip then m else 0)
      + (if kind == AnimatorKind(isOverride) then 1 else 0)
  {
    assert (n - 1) * m + m == n * m;
  }

  /**
   * A sheet with `n` grids and `m` animation entries gets `n * m` clips and
   * `n` animators, all of them override controllers when `isOverride` is set
   * and all plain controllers otherwise.
   */
  lemma {:induction false} SheetLogCounts(job: SheetJob, gs: seq<Grid>, n: nat, kind: AssetKind)
    requires n <= |gs|
    ensures CountKind(SheetLog(job, gs, n), kind) == ExpectedCount(kind, n, |job.animationData|, job.isOverride)
  {
    if n > 0 {
      var m := |job.animationData|;
      var block := VariantLog(job, gs[n - 1], n - 1);
      SheetLogCounts(job, gs, n - 1, kind);
      VariantLogCount(job, gs[n - 1], n - 1, kind);
      CountsStep(SheetLog(job, gs, n - 1), block, SheetLog(job, gs, n), kind, n, m, job.isOverride);
    }
  }

  /** Appending one variant's assets to the log of `n - 1` variants gives the counts of `n`. */
  lemma CountsStep(prev: seq<Asset>, block: seq<Asset>, whole: seq<Asset>, kind: AssetKind,
                   n: nat, m: nat, isOverride: bool)
    requires whole == prev + block && n > 0
    requires CountKind(prev, kind) == ExpectedCount(kind, n - 1, m, isOverride)
    requires CountKind(block, kind) ==
      (if kind == Clip then m else 0) + (if kind == AnimatorKind(isOverride) then 1 else 0)
    ensures CountKind(whole, kind) == ExpectedCount(kind, n, m, isOverride)
  {
    CountKindAppend(prev, block, kind);
    ExpectedCountStep(kind, n, m, isOverride);
  }

  // ------------------------------------------------------------------
  // Generation

  /** `exportSpritesDictionary[(export folder id, sprite sheet id)]`, or what that expression throws. */
  function LookupSheet(sheets: map<(int, int), seq<Grid>>, settings: ExportSettings)
    : (r: Result<seq<Grid>, Exception>)
    ensures r.Success? <==>
      && settings.exportFolder.Some? && settings.spriteSheet.Some?
      && (settings.exportFolder.value.instanceId, settings.spriteSheet.value.instanceId) in sheets
    ensures r.Success? ==>
      r.value == sheets[(settings.exportFolder.value.instanceId, settings.spriteSheet.value.instanceId)]
    ensures r.Failure? ==> r.error == if settings.exportFolder.None? || settings.spriteSheet.None?
      then NullReferenceException else KeyNotFoundException
  {
    if settings.exportFolder.None? || settings.spriteSheet.None? then Failure(NullReferenceException)
    else
      var key := (settings.exportFolder.value.instanceId, settings.spriteSheet.value.instanceId);
      if key in sheets then Success(sheets[key]) else Failure(KeyNotFoundException)
  }

  /**
   * `CreateAnimator`: appends the animator of variant `index`. A plain
   * controller gets every clip of the main export folder as a motion, in
   * load order.
   */
  method CreateAnimator(log: seq<Asset>, settings: ExportSettings, index: nat, isOverride: bool,
                        originalAnimationExportFolderPath: string, queries: AssetQueries)
    returns (log': seq<Asset>)
    ensures log' == log + [AnimatorFor(queries, settings, index, isOverride, originalAnimationExportFolderPath)]
  {
    var animatorSaveLocation := queries.animatorSavePath(settings, index);
    var originalAnimationClips := queries.clipsIn(originalAnimationExportFolderPath, "");
    if !isOverride {
      var motions := [];
      for c := 0 to |originalAnimationClips|
        invariant motions == originalAnimationClips[..c]
      {
        motions := motions + [originalAnimationClips[c]];
      }
      assert originalAnimationClips[..|originalAnimationClips|] == originalAnimationClips;
      return log + [AnimatorControllerAsset(animatorSaveLocation, motions)];
    }
    log' := CreateAnimationOverrideController(log, settings, index, originalAnimationClips,
                                              animatorSaveLocation, originalAnimationExportFolderPath, queries);
  }

  /**
   * `CreateAnimationOverrideController`: appends an override controller on
   * the main folder's controller, pairing the original clips positionally
   * with this folder's clips found by the variant index.
   */
  method CreateAnimationOverrideController(log: seq<Asset>, settings: ExportSettings, index: nat,
                                           originalAnimationClips: seq<string>, animatorSaveLocation: string,
                                           originalAnimationExportFolderPath: string, queries: AssetQueries)
    returns (log': seq<Asset>)
    ensures |log'| == |log| + 1 && log'[..|log|] == log
    ensures log'[|log|].AnimatorOverrideControllerAsset?
    ensures log'[|log|].path == animatorSaveLocation
    ensures log'[|log|].controller == queries.controllerIn(originalAnimationExportFolderPath)
    ensures log'[|log|].overrides ==
      Zip(originalAnimationClips, queries.clipsIn(FolderPath(settings.exportFolder), IntToString(index)))
  {
    var originalAnimator := queries.controllerIn(originalAnimationExportFolderPath);
    var overridenAnimations := queries.clipsIn(FolderPath(settings.exportFolder), IntToString(index));
    var pairs := Zip(originalAnimationClips, overridenAnimations);
    log' := log + [AnimatorOverrideControllerAsset(animatorSaveLocation, originalAnimator, pairs)];
  }

  /**
   * Entry `i` is the first animation entry whose clip cannot be read from
   * `sprites`, and `error` is what reading it throws.
   */
  predicate RowFailsFirstAt(sprites: Grid, job: SheetJob, i: int, error: Exception)
  {
    && 0 <= i < |job.animationData|
    && (forall i' :: 0 <= i' < i ==> RowReadable(sprites, job.animationData[i'].rowOffset, job.length))
    && ClipFault(|sprites.rows|, sprites.width, job.animationData[i].rowOffset, job.length) == Some(error)
  }

  /**
   * One pass of the outer loop of `CreateAnimationsAndAnimatorController`:
   * the clips of variant `index`, one per animation entry in entry order,
   * then the variant's animator. It stops at the first clip that cannot be
   * read, keeping the clips created before it.
   */
  method CreateVariant(log: seq<Asset>, sprites: Grid, job: SheetJob, index: nat)
    returns (outcome: Outcome<Exception>, log': seq<Asset>, ghost failedAt: nat)
    ensures outcome.Pass? <==> RowsReadable(sprites, job)
    ensures outcome.Pass? ==> log' == log + VariantLog(job, sprites, index)
    ensures outcome.Fail? ==>
      && RowFailsFirstAt(sprites, job, failedAt, outcome.error)
      && log' == log + VariantClips(job, sprites, index, failedAt)
  {
    log' := log;
    for i := 0 to |job.animationData|
      invariant forall i' :: 0 <= i' < i ==> RowReadable(sprites, job.animationData[i'].rowOffset, job.length)
      invariant log' == log + VariantClips(job, sprites, index, i)
    {
      var data := job.animationData[i];
      var clipOutcome;
      clipOutcome, log' := CreateAnimationClip(log', sprites, job.settings.animationPrefix, data.animationName,
                                               data.rowOffset, IntToString(index), job.length,
                                               job.settings.exportFolder);
      if clipOutcome.Fail? {
        assert RowFailsFirstAt(sprites, job, i, clipOutcome.error);
        return clipOutcome, log', i;
      }
      AppendAssoc(log, VariantClips(job, sprites, index, i), [ClipFor(job, sprites, data, index)]);
    }
    log' := CreateAnimator(log', job.settings, index, job.isOverride, job.originalFolderPath, job.queries);
    AppendAssoc(log, VariantClips(job, sprites, index, |job.animationData|),
                [AnimatorFor(job.queries, job.settings, index, job.isOverride, job.originalFolderPath)]);
    outcome, failedAt := Pass, 0;
  }

  /**
   * Clip `i` of variant `k` is the first one that cannot be read, in
   * creation order, and `error` is what reading it throws.
   */
  predicate FailsFirstAt(gs: seq<Grid>, job: SheetJob, k: int, i: int, error: Exception)
  {
    && 0 <= k < |gs|
    && ReadableUpTo(gs, job, k)
    && RowFailsFirstAt(gs[k], job, i, error)
  }

  /** The assets created before the clip of entry `i` for variant `k`. */
  function LogBefore(job: SheetJob, gs: seq<Grid>, k: nat, i: nat): seq<Asset>
    requires k < |gs| && i <= |job.animationData|
  {
    SheetLog(job, gs, k) + VariantClips(job, gs[k], k, i)
  }

  /**
   * The outer loop of `CreateAnimationsAndAnimatorController`: the assets of
   * every variant in index order, stopping at the first clip that cannot be
   * read and keeping the assets created before it.
   */
  method CreateSheet(log: seq<Asset>, spritesInMatrix: seq<Grid>, job: SheetJob)
    returns (outcome: Outcome<Exception>, log': seq<Asset>, ghost failedGrid: nat, ghost failedEntry: nat)
    ensures outcome.Pass? <==> ReadableUpTo(spritesInMatrix, job, |spritesInMatrix|)
    ensures outcome.Pass? ==> log' == log + SheetLog(job, spritesInMatrix, |spritesInMatrix|)
    ensures outcome.Fail? ==>
      && FailsFirstAt(spritesInMatrix, job, failedGrid, failedEntry, outcome.error)
      && log' == log + LogBefore(job, spritesInMatrix, failedGrid, failedEntry)
  {
    log' := log;
    for index := 0 to |spritesInMatrix|
      invariant ReadableUpTo(spritesInMatrix, job, index)
      invariant log' == log + SheetLog(job, spritesInMatrix, index)
    {
      var sprites := spritesInMatrix[index];
      outcome, log', failedEntry := CreateVariant(log', sprites, job, index);
      if outcome.Fail? {
        assert FailsFirstAt(spritesInMatrix, job, index, failedEntry, outcome.error);
        AppendAssoc(log, SheetLog(job, spritesInMatrix, index), VariantClips(job, sprites, index, failedEntry));
        failedGrid := index;
        return;
      }
      AppendAssoc(log, SheetLog(job, spritesInMatrix, index), VariantLog(job, sprites, index));
    }
    outcome, failedGrid, failedEntry := Pass, 0, 0;
  }

  // ------------------------------------------------------------------
  // A sheet looked up in the dictionary

  /** The run on sheet `job` goes through: its lookup succeeds and every clip can be read. */
  predicate SheetOk(sheets: map<(int, int), seq<Grid>>, job: SheetJob)
  {
    match LookupSheet(sheets, job.settings)
    case Failure(_) => false
    case Success(gs) => ReadableUpTo(gs, job, |gs|)
  }

  /** What a run on sheet `job` creates when it goes through (a failing lookup creates nothing). */
  function FullSheetLog(sheets: map<(int, int), seq<Grid>>, job: SheetJob): seq<Asset>
  {
    match LookupSheet(sheets, job.settings)
    case Failure(_) => []
    case Success(gs) => SheetLog(job, gs, |gs|)
  }

  /** The run on sheet `job` throws `error`: at the lookup, or at clip `i` of grid `k`. */
  predicate SheetFails(sheets: map<(int, int), seq<Grid>>, job: SheetJob, k: int, i: int, error: Exception)
  {
    match LookupSheet(sheets, job.settings)
    case Failure(e) => error == e
    case Success(gs) => FailsFirstAt(gs, job, k, i, error)
  }

  /** The assets a run on sheet `job` that stops before clip `i` of grid `k` leaves behind. */
  function PartialSheetLog(sheets: map<(int, int), seq<Grid>>, job: SheetJob, k: int, i: int): seq<Asset>
  {
    match LookupSheet(sheets, job.settings)
    case Failure(_) => []
    case Success(gs) =>
      if 0 <= k < |gs| && 0 <= i <= |job.animationData| then LogBefore(job, gs, k, i) else []
  }

  /**
   * `CreateAnimationsAndAnimatorController`: the clips and animators of one
   * sprite sheet. A failing lookup creates nothing; otherwise the grids are
   * processed as `CreateSheet` says.
   */
  method CreateAnimationsAndAnimatorController(
    log: seq<Asset>, settings: ExportSettings, animationData: seq<AnimationData>, isOverride: bool,
    originalAnimationExportFolderPath: string, spriteSheetWidth: int,
    exportSpritesDictionary: map<(int, int), seq<Grid>>, queries: AssetQueries)
    returns (outcome: Outcome<Exception>, log': seq<Asset>, ghost failedGrid: nat, ghost failedEntry: nat)
    ensures var job := SheetJob(settings, animationData, spriteSheetWidth, isOverride,
                                originalAnimationExportFolderPath, queries);
      && (outcome.Pass? <==> SheetOk(exportSpritesDictionary, job))
      && (outcome.Pass? ==> log' == log + FullSheetLog(exportSpritesDictionary, job))
      && (outcome.Fail? ==>
            && SheetFails(exportSpritesDictionary, job, failedGrid, failedEntry, outcome.error)
            && log' == log + PartialSheetLog(exportSpritesDictionary, job, failedGrid, failedEntry))
  {
    var lookup := LookupSheet(exportSpritesDictionary, settings);
    if lookup.Failure? {
      return Fail(lookup.error), log, 0, 0;
    }
    var job := SheetJob(settings, animationData, spriteSheetWidth, isOverride,
                        originalAnimationExportFolderPath, queries);
    outcome, log', failedGrid, failedEntry := CreateSheet(log, lookup.value, job);
  }

  // ------------------------------------------------------------------
  // A list of sheets

  /**
   * The run on each of the `additional` sheets: the common animation
   * entries, clip length, main folder and lookups, with the animator kind
   * `isOverride`.
   */
  function AdditionalJobs(additional: seq<ExportSettings>, animationData: seq<AnimationData>,
                          isOverride: bool, originalFolderPath: string, width: int,
                          queries: AssetQueries): seq<SheetJob>
  {
    seq(|additional|, s requires 0 <= s < |additional| =>
      SheetJob(additional[s], animationData, width, isOverride, originalFolderPath, queries))
  }

  /** The runs on the first `n` sheets all go through. */
  predicate SheetsOkUpTo(sheets: map<(int, int), seq<Grid>>, jobs: seq<SheetJob>, n: nat)
    requires n <= |jobs|
  {
    n == 0 || (SheetsOkUpTo(sheets, jobs, n - 1) && SheetOk(sheets, jobs[n - 1]))
  }

  /** The runs on the first `n` sheets go through exactly when each of them does. */
  lemma {:induction false} SheetsOkUpToEach(sheets: map<(int, int), seq<Grid>>, jobs: seq<SheetJob>, n: nat)
    requires n <= |jobs|
    ensures SheetsOkUpTo(sheets, jobs, n) <==> forall s :: 0 <= s < n ==> SheetOk(sheets, jobs[s])
  {
    if n > 0 {
      SheetsOkUpToEach(sheets, jobs, n - 1);
    }
  }

  /** What the runs on the first `n` sheets create, sheet after sheet. */
  function SheetsLog(sheets: map<(int, int), seq<Grid>>, jobs: seq<SheetJob>, n: nat): seq<Asset>
    requires n <= |jobs|
  {
    if n == 0 then []
    else SheetsLog(sheets, jobs, n - 1) + FullSheetLog(sheets, jobs[n - 1])
  }

  /** How many grids sheet `job` holds: its variant count (none when its lookup fails). */
  function GridCount(sheets: map<(int, int), seq<Grid>>, job: SheetJob): nat
  {
    match LookupSheet(sheets, job.settings)
    case Failure(_) => 0
    case Success(gs) => |gs|
  }

  /** How many variant grids the first `n` sheets hold together. */
  function VariantTotal(sheets: map<(int, int), seq<Grid>>, jobs: seq<SheetJob>, n: nat): nat
    requires n <= |jobs|
  {
    if n == 0 then 0
    else VariantTotal(sheets, jobs, n - 1) + GridCount(sheets, jobs[n - 1])
  }

  /**
   * The loop over the additional sheets: each sheet's run in list order,
   * with the common animation entries, main folder path, clip length and
   * animator kind, stopping at the first exception and keeping what was
   * created before it.
   */
  method CreateForSheets(
    log: seq<Asset>, additionalAnimations: seq<ExportSettings>, animationData: seq<AnimationData>,
    isOverride: bool, originalAnimationExportFolderPath: string, spriteSheetWidth: int,
    exportSpritesDictionary: map<(int, int), seq<Grid>>, queries: AssetQueries)
    returns (outcome: Outcome<Exception>, log': seq<Asset>,
             ghost failedSheet: nat, ghost failedGrid: nat, ghost failedEntry: nat)
    ensures var jobs := AdditionalJobs(additionalAnimations, animationData, isOverride,
                                       originalAnimationExportFolderPath, spriteSheetWidth, queries);
      && (outcome.Pass? <==> SheetsOkUpTo(exportSpritesDictionary, jobs, |jobs|))
      && (outcome.Pass? ==> log' == log + SheetsLog(exportSpritesDictionary, jobs, |jobs|))
      && (outcome.Fail? ==>
            && failedSheet < |jobs| && SheetsOkUpTo(exportSpritesDictionary, jobs, failedSheet)
            && SheetFails(exportSpritesDictionary, jobs[failedSheet], failedGrid, failedEntry, outcome.error)
            && log' == log + SheetsLog(exportSpritesDictionary, jobs, failedSheet)
                           + PartialSheetLog(exportSpritesDictionary, jobs[failedSheet], failedGrid, failedEntry))
  {
    var jobs := AdditionalJobs(additionalAnimations, animationData, isOverride,
                               originalAnimationExportFolderPath, spriteSheetWidth, queries);
    outcome, log', failedSheet, failedGrid, failedEntry := RunSheets(log, exportSpritesDictionary, jobs);
  }

  /** The runs on `jobs` in list order, stopping at the first exception. */
  method RunSheets(log: seq<Asset>, sheets: map<(int, int), seq<Grid>>, jobs: seq<SheetJob>)
    returns (outcome: Outcome<Exception>, log': seq<Asset>,
             ghost failedSheet: nat, ghost failedGrid: nat, ghost failedEntry: nat)
    ensures outcome.Pass? <==> SheetsOkUpTo(sheets, jobs, |jobs|)
    ensures outcome.Pass? ==> log' == log + SheetsLog(sheets, jobs, |jobs|)
    ensures outcome.Fail? ==>
      && failedSheet < |jobs| && SheetsOkUpTo(sheets, jobs, failedSheet)
      && SheetFails(sheets, jobs[failedSheet], failedGrid, failedEntry, outcome.error)
      && log' == log + SheetsLog(sheets, jobs, failedSheet)
                     + PartialSheetLog(sheets, jobs[failedSheet], failedGrid, failedEntry)
  {
    log' := log;
    for s := 0 to |jobs|
      invariant SheetsOkUpTo(sheets, jobs, s)
      invariant log' == log + SheetsLog(sheets, jobs, s)
    {
      outcome, log', failedGrid, failedEntry := CreateNextSheet(log, log', sheets, jobs, s);
      if outcome.Fail? {
        failedSheet := s;
        return;
      }
    }
    outcome, failedSheet, failedGrid, failedEntry := Pass, 0, 0, 0;
  }

  /**
   * One pass of that loop: the run on sheet `s`, which extends the log of
   * the sheets before it by its own assets.
   */
  method CreateNextSheet(ghost log: seq<Asset>, log0: seq<Asset>, sheets: map<(int, int), seq<Grid>>, jobs: seq<SheetJob>, s: nat)
    returns (outcome: Outcome<Exception>, log': seq<Asset>, ghost failedGrid: nat, ghost failedEntry: nat)
    requires s < |jobs| && SheetsOkUpTo(sheets, jobs, s) && log0 == log + SheetsLog(sheets, jobs, s)
    ensures outcome.Pass? <==> SheetOk(sheets, jobs[s])
    ensures outcome.Pass? ==> SheetsOkUpTo(sheets, jobs, s + 1) && log' == log + SheetsLog(sheets, jobs, s + 1)
    ensures outcome.Fail? ==>
      && !SheetsOkUpTo(sheets, jobs, |jobs|)
      && SheetFails(sheets, jobs[s], failedGrid, failedEntry, outcome.error)
      && log' == log + SheetsLog(sheets, jobs, s) + PartialSheetLog(sheets, jobs[s], failedGrid, failedEntry)
  {
    var job := jobs[s];
    assert SheetJob(job.settings, job.animationData, job.length, job.isOverride,
                    job.originalFolderPath, job.queries) == job;
    outcome, log', failedGrid, failedEntry := CreateAnimationsAndAnimatorController(
      log0, job.settings, job.animationData, job.isOverride, job.originalFolderPath, job.length, sheets, job.queries);
    if outcome.Pass? {
      AppendAssoc(log, SheetsLog(sheets, jobs, s), FullSheetLog(sheets, job));
    } else {
      SheetsOkUpToEach(sheets, jobs, |jobs|);
    }
  }

  /**
   * `CreateAnimationsAndAnimatorOverrideController` as written: every
   * additional sheet is run with `isOverride` false, so each of its
   * variants gets a plain animator controller.
   */
  method CreateAnimationsAndAnimatorOverrideController(
    log: seq<Asset>, additionalAnimations: seq<ExportSettings>, animationData: seq<AnimationData>,
    originalAnimationExportFolderPath: string, spriteSheetWidth: int,
    exportSpritesDictionary: map<(int, int), seq<Grid>>, queries: AssetQueries)
    returns (outcome: Outcome<Exception>, log': seq<Asset>)
    ensures var jobs := AdditionalJobs(additionalAnimations, animationData, false,
                                       originalAnimationExportFolderPath, spriteSheetWidth, queries);
      && (outcome.Pass? <==> SheetsOkUpTo(exportSpritesDictionary, jobs, |jobs|))
      && (outcome.Pass? ==> log' == log + SheetsLog(exportSpritesDictionary, jobs, |jobs|))
  {
    ghost var s, k, i;
    outcome, log', s, k, i := CreateForSheets(log, additionalAnimations, animationData, false,
      originalAnimationExportFolderPath, spriteSheetWidth, exportSpritesDictionary, queries);
  }

  /**
   * The additional sheets as the window creates them and as the method's
   * name promises: every variant gets an override controller.
   */
  method CreateAnimationsAndOverrideControllers(
    log: seq<Asset>, additionalAnimations: seq<ExportSettings>, animationData: seq<AnimationData>,
    originalAnimationExportFolderPath: string, spriteSheetWidth: int,
    exportSpritesDictionary: map<(int, int), seq<Grid>>, queries: AssetQueries)
    returns (outcome: Outcome<Exception>, log': seq<Asset>)
    ensures var jobs := AdditionalJobs(additionalAnimations, animationData, true,
                                       originalAnimationExportFolderPath, spriteSheetWidth, queries);
      && (outcome.Pass? <==> SheetsOkUpTo(exportSpritesDictionary, jobs, |jobs|))
      && (outcome.Pass? ==> log' == log + SheetsLog(exportSpritesDictionary, jobs, |jobs|))
  {
    ghost var s, k, i;
    outcome, log', s, k, i := CreateForSheets(log, additionalAnimations, animationData, true,
      originalAnimationExportFolderPath, spriteSheetWidth, exportSpritesDictionary, queries);
  }

  lemma ExpectedCountAdd(kind: AssetKind, a: nat, b: nat, m: nat, isOverride: bool)
    ensures ExpectedCount(kind, a + b, m, isOverride) ==
      ExpectedCount(kind, a, m, isOverride) + ExpectedCount(kind, b, m, isOverride)
  {
    assert (a + b) * m == a * m + b * m;
  }

  /** One sheet's run: `m` clips and one animator of its kind per grid it holds. */
  lemma FullSheetLogCount(sheets: map<(int, int), seq<Grid>>, job: SheetJob, kind: AssetKind)
    ensures CountKind(FullSheetLog(sheets, job), kind) ==
      ExpectedCount(kind, GridCount(sheets, job), |job.animationData|, job.isOverride)
  {
    match LookupSheet(sheets, job.settings)
    case Failure(_) =>
    case Success(gs) => SheetLogCounts(job, gs, |gs|, kind);
  }

  /**
   * Sheets that share the entry count `m` and the animator kind get `m`
   * clips and one animator of that kind per variant, summed over the sheets.
   */
  lemma {:induction false} SheetsLogCounts(sheets: map<(int, int), seq<Grid>>, jobs: seq<SheetJob>,
                                           n: nat, kind: AssetKind, m: nat, isOverride: bool)
    requires n <= |jobs|
    requires forall s :: 0 <= s < |jobs| ==> |jobs[s].animationData| == m && jobs[s].isOverride == isOverride
    ensures CountKind(SheetsLog(sheets, jobs, n), kind) ==
      ExpectedCount(kind, VariantTotal(sheets, jobs, n), m, isOverride)
  {
    if n > 0 {
      var job := jobs[n - 1];
      assert |job.animationData| == m && job.isOverride == isOverride;
      SheetsLogCounts(sheets, jobs, n - 1, kind, m, isOverride);
      FullSheetLogCount(sheets, job, kind);
      CountsAdd(SheetsLog(sheets, jobs, n - 1), FullSheetLog(sheets, job), SheetsLog(sheets, jobs, n), kind,
                VariantTotal(sheets, jobs, n - 1), GridCount(sheets, job), VariantTotal(sheets, jobs, n),
                m, isOverride);
    }
  }

  /** Two logs with the expected counts for `a` and for `b` grids: together, those for `a + b`. */
  lemma CountsAdd(prev: seq<Asset>, next: seq<Asset>, whole: seq<Asset>, kind: AssetKind,
                  a: nat, b: nat, total: nat, m: nat, isOverride: bool)
    requires whole == prev + next && total == a + b
    requires CountKind(prev, kind) == ExpectedCount(kind, a, m, isOverride)
    requires CountKind(next, kind) == ExpectedCount(kind, b, m, isOverride)
    ensures CountKind(whole, kind) == ExpectedCount(kind, total, m, isOverride)
  {
    CountKindAppend(prev, next, kind);
    ExpectedCountAdd(kind, a, b, m, isOverride);
  }

  /**
   * As written, the additional sheets get no override controller at all:
   * one plain controller per variant instead.
   */
  lemma AsWrittenAdditionalSheetsGetPlainControllers(
    sheets: map<(int, int), seq<Grid>>, additional: seq<ExportSettings>,
    animationData: seq<AnimationData>, originalFolderPath: string, width: int, queries: AssetQueries)
    ensures var jobs := AdditionalJobs(additional, animationData, false, originalFolderPath, width, queries);
      && CountKind(SheetsLog(sheets, jobs, |jobs|), OverrideController) == 0
      && CountKind(SheetsLog(sheets, jobs, |jobs|), Controller) == VariantTotal(sheets, jobs, |jobs|)
  {
    var jobs := AdditionalJobs(additional, animationData, false, originalFolderPath, width, queries);
    SheetsLogCounts(sheets, jobs, |jobs|, OverrideController, |animationData|, false);
    SheetsLogCounts(sheets, jobs, |jobs|, Controller, |animationData|, false);
  }

  /** Corrected, every variant of an additional sheet gets an override controller and none a plain one. */
  lemma AdditionalSheetsGetOverrideControllers(
    sheets: map<(int, int), seq<Grid>>, additional: seq<ExportSettings>,
    animationData: seq<AnimationData>, originalFolderPath: string, width: int, queries: AssetQueries)
    ensures var jobs := AdditionalJobs(additional, animationData, true, originalFolderPath, width, queries);
      && CountKind(SheetsLog(sheets, jobs, |jobs|), OverrideController) == VariantTotal(sheets, jobs, |jobs|)
      && CountKind(SheetsLog(sheets, jobs, |jobs|), Controller) == 0
  {
    var jobs := AdditionalJobs(additional, animationData, true, originalFolderPath, width, queries);
    SheetsLogCounts(sheets, jobs, |jobs|, OverrideController, |animationData|, true);
    SheetsLogCounts(sheets, jobs, |jobs|, Controller, |animationData|, true);
  }
}
