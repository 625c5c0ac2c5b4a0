/**
 * `AnimationCreatorWindow`: the editor window that holds the export settings,
 * caches the variant grids of every assigned sprite sheet in a dictionary
 * keyed by `(export folder id, sprite sheet id)`, and creates the clips and
 * animators of the main sheet and of the additional sheets.
 *
 * The window's own `CreateAnimationClip`, `CreateAnimator` and
 * `CreateAnimationOverrideController` do what `AnimationCreator`'s do, so
 * its generation methods run those, with the window's fields as arguments.
 */
module CreatorWindow {
  import opened Wrappers
  import opened EditorData
  import opened ExtensionMethods
  import AnimationCreator

  type SheetKey = (int, int)

  /** `dictSpriteSheets`: the variant grids of each assigned sheet. */
  type SpriteCache = map<SheetKey, seq<Grid>>

  /** The dictionary key of a pair of optional instance ids: there only when both ids are. */
  function KeyOf(ids: (Option<int>, Option<int>)): Option<SheetKey>
  {
    if ids.0.Some? && ids.1.Some? then Some((ids.0.value, ids.1.value)) else None
  }

  /** Looking a settings value up finds exactly the entry under its key. */
  lemma LookupByKey(cache: SpriteCache, settings: ExportSettings)
    ensures KeyOf(InstanceIds(settings)).None? ==>
      AnimationCreator.LookupSheet(cache, settings) == Failure(NullReferenceException)
    ensures KeyOf(InstanceIds(settings)).Some? ==>
      var key := KeyOf(InstanceIds(settings)).value;
      AnimationCreator.LookupSheet(cache, settings) ==
        if key in cache then Success(cache[key]) else Failure(KeyNotFoundException)
  {
  }

  // ------------------------------------------------------------------
  // Regenerating a sheet's grids

  /**
   * `GetAllSpritesFromTexture().Convert1DArrayInto2DArray(width, height)` on
   * a sheet's sprites, each grid taken as its contents.
   */
  function ReshapedSheet(sprites: seq<Sprite>, width: int, height: int): (r: Result<seq<Grid>, Exception>)
    ensures r.Failure? <==> ReshapeFault(|sprites|, width, height).Some?
    ensures r.Failure? ==> ReshapeFault(|sprites|, width, height) == Some(r.error)
    ensures r.Success? ==> |r.value| == GridCount(|sprites|, width, height)
    ensures r.Success? ==> forall k :: 0 <= k < |r.value| ==>
      r.value[k].width == width && |r.value[k].rows| == height
    ensures r.Success? ==> forall k, i, j :: 0 <= k < |r.value| && 0 <= i < height && 0 <= j < width ==>
      0 <= FlatIndex(|r.value|, width, k, i, j) < |sprites| &&
      r.value[k].rows[i][j] == sprites[FlatIndex(|r.value|, width, k, i, j)]
  {
    match Reshape(sprites, width, height)
    case Failure(e) => Failure(e)
    case Success(gs) =>
      Success(seq(|gs|, k requires 0 <= k < |gs| => var g: Grid := GridCells(width as nat, gs[k]); g))
  }

  /** Two grid lists with the same shapes and the same cells are the same. */
  lemma SameGrids(a: seq<Grid>, b: seq<Grid>)
    requires |a| == |b|
    requires forall k :: 0 <= k < |a| ==> a[k].width == b[k].width && |a[k].rows| == |b[k].rows|
    requires forall k, i, j :: 0 <= k < |a| && 0 <= i < |a[k].rows| && 0 <= j < a[k].width ==>
      a[k].rows[i][j] == b[k].rows[i][j]
    ensures a == b
  {
    forall k | 0 <= k < |a| ensures a[k] == b[k] {
      forall i | 0 <= i < |a[k].rows| ensures a[k].rows[i] == b[k].rows[i] {
        assert |a[k].rows[i]| == a[k].width;
      }
    }
  }

  // ------------------------------------------------------------------
  // The dictionary update

  /** As written, the update reshapes the sheet: both ids were and are assigned, and they changed. */
  predicate Rebuilds(previous: (Option<int>, Option<int>), settings: ExportSettings)
  {
    KeyOf(previous).Some? && KeyOf(InstanceIds(settings)).Some? && KeyOf(previous) != KeyOf(InstanceIds(settings))
  }

  /**
   * The dictionary after `UpdateDictionaryIfValueChanged`, as written:
   * `previous` are the ids before the edit, `settings` the values after it
   * and `rebuilt` what reshaping the newly assigned sheet gives. The entry
   * under the old key goes when the ids changed, the new sheet's grids are
   * added when both ids were assigned before, and no other entry changes.
   */
  function CacheAfter(cache: SpriteCache, previous: (Option<int>, Option<int>), settings: ExportSettings,
                      rebuilt: Result<seq<Grid>, Exception>): (c: SpriteCache)
    ensures forall key :: Some(key) != KeyOf(previous) && Some(key) != KeyOf(InstanceIds(settings)) ==>
      (key in c <==> key in cache) && (key in c ==> c[key] == cache[key])
    ensures KeyOf(previous).None? || KeyOf(previous) == KeyOf(InstanceIds(settings)) ==> c == cache
    ensures KeyOf(previous).Some? && KeyOf(previous) != KeyOf(InstanceIds(settings)) ==>
      KeyOf(previous).value !in c
    ensures Rebuilds(previous, settings) && rebuilt.Success? ==>
      var key := KeyOf(InstanceIds(settings)).value;
      key in c && c[key] == rebuilt.value
    ensures Rebuilds(previous, settings) && rebuilt.Failure? ==>
      var key := KeyOf(InstanceIds(settings)).value;
      (key in c <==> key in cache) && (key in c ==> c[key] == cache[key])
  {
    var ids := InstanceIds(settings);
    if previous.0.None? || previous.1.None? then cache
    else
      var oldKey := (previous.0.value, previous.1.value);
      if settings.exportFolder.None? || settings.spriteSheet.None? then cache - {oldKey}
      else if previous.0.value == ids.0.value && previous.1.value == ids.1.value then cache
      else
        var removed := cache - {oldKey};
        match rebuilt
        case Failure(_) => removed
        case Success(gs) => removed[(ids.0.value, ids.1.value) := gs]
  }

  /**
   * As written, a sheet assigned while one of its ids was still unassigned,
   * or whose entry is missing while its ids stay the same (the dictionary is
   * emptied on every `OnEnable`), gets no entry, and the lookup that draws
   * its sprites then throws.
   */
  lemma AsWrittenAssignedSheetStaysUncached(cache: SpriteCache, previous: (Option<int>, Option<int>),
                                            settings: ExportSettings, rebuilt: Result<seq<Grid>, Exception>)
    requires KeyOf(InstanceIds(settings)).Some? && KeyOf(InstanceIds(settings)).value !in cache
    requires KeyOf(previous).None? || KeyOf(previous) == KeyOf(InstanceIds(settings))
    ensures AnimationCreator.LookupSheet(CacheAfter(cache, previous, settings, rebuilt), settings) ==
      Failure(KeyNotFoundException)
  {
    LookupByKey(CacheAfter(cache, previous, settings, rebuilt), settings);
  }

  /**
   * The first case from an empty dictionary: the folder was assigned first
   * (sheet still unassigned), then the sheet; drawing then throws.
   */
  lemma AsWrittenFolderThenSheetExample(stem: string, rebuilt: Result<seq<Grid>, Exception>)
    ensures var settings := ExportSettings(Some(Folder(1, stem)), stem, Some(Texture(2, stem)));
      AnimationCreator.LookupSheet(CacheAfter(map[], (Some(1), None), settings, rebuilt), settings) ==
        Failure(KeyNotFoundException)
  {
    var settings := ExportSettings(Some(Folder(1, stem)), stem, Some(Texture(2, stem)));
    AsWrittenAssignedSheetStaysUncached(map[], (Some(1), None), settings, rebuilt);
  }

  /**
   * Corrected, the update reshapes an assigned sheet when its ids changed
   * from assigned ones (as written) or when its entry is missing.
   */
  predicate FixedRebuilds(cache: SpriteCache, previous: (Option<int>, Option<int>), settings: ExportSettings)
  {
    var key := KeyOf(InstanceIds(settings));
    key.Some? && ((KeyOf(previous).Some? && key != KeyOf(previous)) || key.value !in cache)
  }

  /**
   * The dictionary after the corrected update: as written, except that an
   * assigned sheet without an entry gets one whatever the ids were before;
   * a present entry is kept when a previous id was unassigned.
   */
  function FixedCacheAfter(cache: SpriteCache, previous: (Option<int>, Option<int>), settings: ExportSettings,
                           rebuilt: Result<seq<Grid>, Exception>): (c: SpriteCache)
    ensures forall key :: Some(key) != KeyOf(previous) && Some(key) != KeyOf(InstanceIds(settings)) ==>
      (key in c <==> key in cache) && (key in c ==> c[key] == cache[key])
    ensures KeyOf(previous).Some? && KeyOf(previous) != KeyOf(InstanceIds(settings)) ==>
      KeyOf(previous).value !in c
    ensures FixedRebuilds(cache, previous, settings) && rebuilt.Success? ==>
      var key := KeyOf(InstanceIds(settings)).value;
      key in c && c[key] == rebuilt.value
    ensures FixedRebuilds(cache, previous, settings) && rebuilt.Failure? ==>
      var key := KeyOf(InstanceIds(settings)).value;
      (key in c <==> key in cache) && (key in c ==> c[key] == cache[key])
    ensures !FixedRebuilds(cache, previous, settings) && KeyOf(InstanceIds(settings)).Some? ==> c == cache
  {
    var oldKey, newKey := KeyOf(previous), KeyOf(InstanceIds(settings));
    var removed := if oldKey.Some? && oldKey != newKey then cache - {oldKey.value} else cache;
    if newKey.None? || ((oldKey.None? || newKey == oldKey) && newKey.value in cache) then removed
    else
      match rebuilt
      case Failure(_) => removed
      case Success(gs) => removed[newKey.value := gs]
  }

  /** Corrected, the lookup that draws an assigned sheet finds it unless reshaping it threw. */
  lemma FixedCacheHoldsAssignedSheet(cache: SpriteCache, previous: (Option<int>, Option<int>),
                                     settings: ExportSettings, rebuilt: Result<seq<Grid>, Exception>)
    requires KeyOf(InstanceIds(settings)).Some?
    requires FixedRebuilds(cache, previous, settings) ==> rebuilt.Success?
    ensures AnimationCreator.LookupSheet(FixedCacheAfter(cache, previous, settings, rebuilt), settings).Success?
  {
    LookupByKey(FixedCacheAfter(cache, previous, settings, rebuilt), settings);
  }

  /**
   * The correction only adds the missing entries: wherever the sheet is
   * unassigned, its entry exists, or both old ids were assigned and changed,
   * it is the update as written.
   */
  lemma FixedAgreesWithAsWritten(cache: SpriteCache, previous: (Option<int>, Option<int>),
                                 settings: ExportSettings, rebuilt: Result<seq<Grid>, Exception>)
    requires KeyOf(InstanceIds(settings)).None? || KeyOf(InstanceIds(settings)).value in cache
      || (KeyOf(previous).Some? && KeyOf(InstanceIds(settings)) != KeyOf(previous))
    ensures FixedCacheAfter(cache, previous, settings, rebuilt) == CacheAfter(cache, previous, settings, rebuilt)
    ensures FixedRebuilds(cache, previous, settings) <==> Rebuilds(previous, settings)
  {
  }

  /** The dictionary holds no entry but the one under the key of `ids`. */
  predicate OnlyKeyCached(cache: SpriteCache, ids: (Option<int>, Option<int>))
  {
    forall key :: key in cache ==> Some(key) == KeyOf(ids)
  }

  /**
   * As written, the update keeps the dictionary down to the key of the
   * settings it is given. `DrawMultipleExportSettings` is empty, so only the
   * main settings are ever drawn, and the dictionary never holds more than
   * the main sheet's entry.
   */
  lemma AsWrittenCacheHoldsOnlyMain(cache: SpriteCache, previous: (Option<int>, Option<int>),
                                    settings: ExportSettings, rebuilt: Result<seq<Grid>, Exception>)
    requires OnlyKeyCached(cache, previous)
    ensures OnlyKeyCached(CacheAfter(cache, previous, settings, rebuilt), InstanceIds(settings))
  {
  }

  /**
   * As written, then, an additional sheet assigned under any key but the
   * main sheet's is not in the dictionary: its lookup throws
   * `KeyNotFoundException` and the run on the additional sheets fails.
   */
  lemma AsWrittenAdditionalSheetFails(cache: SpriteCache, main: ExportSettings,
                                      jobs: seq<AnimationCreator.SheetJob>, s: nat)
    requires OnlyKeyCached(cache, InstanceIds(main))
    requires s < |jobs|
    requires KeyOf(InstanceIds(jobs[s].settings)).Some?
    requires KeyOf(InstanceIds(jobs[s].settings)) != KeyOf(InstanceIds(main))
    ensures AnimationCreator.LookupSheet(cache, jobs[s].settings) == Failure(KeyNotFoundException)
    ensures !AnimationCreator.SheetsOkUpTo(cache, jobs, |jobs|)
  {
    LookupByKey(cache, jobs[s].settings);
    AnimationCreator.SheetsOkUpToEach(cache, jobs, |jobs|);
  }

  /**
   * The main settings (folder 1, sheet 2) cached and one additional setting
   * (folder 1, sheet 3): the run on the additional sheet throws at its lookup.
   */
  lemma AsWrittenAdditionalSheetExample(stem: string, grids: seq<Grid>, job: AnimationCreator.SheetJob)
    requires job.settings == ExportSettings(Some(Folder(1, stem)), stem, Some(Texture(3, stem)))
    ensures AnimationCreator.LookupSheet(map[(1, 2) := grids], job.settings) == Failure(KeyNotFoundException)
    ensures !AnimationCreator.SheetsOkUpTo(map[(1, 2) := grids], [job], 1)
  {
    var main := ExportSettings(Some(Folder(1, stem)), stem, Some(Texture(2, stem)));
    AsWrittenAdditionalSheetFails(map[(1, 2) := grids], main, [job], 0);
  }

  /**
   * The corrected update of settings that were not edited never drops or
   * changes an entry, and leaves the sheet's own entry in place or reshaped.
   */
  lemma FixedCacheKeepsEntries(cache: SpriteCache, settings: ExportSettings, rebuilt: Result<seq<Grid>, Exception>)
    ensures var c := FixedCacheAfter(cache, InstanceIds(settings), settings, rebuilt);
      && (forall key :: key in cache ==> key in c && c[key] == cache[key])
      && (KeyOf(InstanceIds(settings)).Some? && (rebuilt.Success? || KeyOf(InstanceIds(settings)).value in cache) ==>
            KeyOf(InstanceIds(settings)).value in c)
  {
  }

  // ------------------------------------------------------------------
  // The window

  class AnimationCreatorWindow {
    var spriteSheetHeight: int
    var spriteSheetWidth: int
    var mainAnimation: ExportSettings
    var additionalAnimations: seq<ExportSettings>
    var animationData: seq<AnimationData>
    var dictSpriteSheets: SpriteCache
    /** The editor's asset lookups and `GetAllSpritesFromTexture`. */
    const queries: AssetQueries

    /** A new window, enabled: the default sheet size 49 x 8, nothing assigned, nothing cached. */
    constructor(queries: AssetQueries)
      ensures spriteSheetHeight == 49 && spriteSheetWidth == 8
      ensures mainAnimation == ExportSettings(None, "", None)
      ensures additionalAnimations == [] && animationData == []
      ensures dictSpriteSheets == map[]
      ensures this.queries == queries
    {
      spriteSheetHeight, spriteSheetWidth := 49, 8;
      mainAnimation := ExportSettings(None, "", None);
      additionalAnimations, animationData := [], [];
      dictSpriteSheets := map[];
      this.queries := queries;
    }

    /** `OnEnable`: the dictionary starts out empty every time the window is enabled. */
    method OnEnable()
      modifies this`dictSpriteSheets
      ensures dictSpriteSheets == map[]
    {
      dictSpriteSheets := map[];
    }

    /** `OriginalAnimatonExportFolderPath`: the asset path of the main export folder. */
    function OriginalFolderPath(): string
      reads this
    {
      FolderPath(mainAnimation.exportFolder)
    }

    /** The grids reshaping `settings`' sheet gives, with the window's sheet size. */
    function Rebuilt(settings: ExportSettings): Result<seq<Grid>, Exception>
      reads this
    {
      if settings.spriteSheet.None? then Failure(NullReferenceException)
      else ReshapedSheet(queries.spritesOf(settings.spriteSheet.value), spriteSheetWidth, spriteSheetHeight)
    }

    /**
     * Regenerates the grids of `settings`' sheet: its sprites, copied into an
     * array and cut by `Convert1DArrayInto2DArray(spriteSheetWidth,
     * spriteSheetHeight)`, each grid taken as its contents.
     */
    method RegenerateSpriteSheets(settings: ExportSettings) returns (r: Result<seq<Grid>, Exception>)
      requires settings.spriteSheet.Some?
      ensures r == Rebuilt(settings)
      ensures r.Success? ==> |r.value| == GridCount(|queries.spritesOf(settings.spriteSheet.value)|,
                                                    spriteSheetWidth, spriteSheetHeight)
    {
      var sprites := queries.spritesOf(settings.spriteSheet.value);
      var elements := new Sprite[|sprites|](i requires 0 <= i < |sprites| => sprites[i]);
      var grids := Convert1DArrayInto2DArray(elements, spriteSheetWidth, spriteSheetHeight);
      if grids.Failure? {
        return Failure(grids.error);
      }
      var arrays := grids.value;
      var gs := seq(|arrays|, k requires 0 <= k < |arrays| reads arrays => Contents(arrays[k]));
      ghost var expected := ReshapedSheet(sprites, spriteSheetWidth, spriteSheetHeight).value;
      forall k, i, j | 0 <= k < |gs| && 0 <= i < |gs[k].rows| && 0 <= j < gs[k].width
        ensures gs[k].rows[i][j] == expected[k].rows[i][j]
      {
        assert gs[k] == Contents(arrays[k]);
        assert gs[k].rows[i][j] == arrays[k][i, j] == elements[FlatIndex(|arrays|, spriteSheetWidth, k, i, j)];
      }
      SameGrids(gs, expected);
      return Success(gs);
    }

    /**
     * `UpdateDictionaryIfValueChanged`, as written: `previous` are the ids
     * the settings had before the inspector edit. The dictionary becomes
     * `CacheAfter` of the old one; the exception of a failed reshape escapes.
     */
    method UpdateDictionaryIfValueChanged(settings: ExportSettings, previous: (Option<int>, Option<int>))
      returns (outcome: Outcome<Exception>)
      modifies this`dictSpriteSheets
      ensures dictSpriteSheets == CacheAfter(old(dictSpriteSheets), previous, settings, Rebuilt(settings))
      ensures outcome.Fail? <==> Rebuilds(previous, settings) && Rebuilt(settings).Failure?
      ensures outcome.Fail? ==> outcome.error == Rebuilt(settings).error
    {
      if previous.0.None? || previous.1.None? {
        return Pass;
      }
      var oldInstanceIdTuple := (previous.0.value, previous.1.value);
      if settings.exportFolder.None? || settings.spriteSheet.None? {
        dictSpriteSheets := dictSpriteSheets - {oldInstanceIdTuple};
        return Pass;
      }
      if previous.0.value == settings.exportFolder.value.instanceId
        && previous.1.value == settings.spriteSheet.value.instanceId {
        return Pass;
      }
      dictSpriteSheets := dictSpriteSheets - {oldInstanceIdTuple};
      var newInstanceIdTuple := (settings.exportFolder.value.instanceId, settings.spriteSheet.value.instanceId);
      var grids := RegenerateSpriteSheets(settings);
      if grids.Failure? {
        return Fail(grids.error);
      }
      dictSpriteSheets := dictSpriteSheets[newInstanceIdTuple := grids.value];
      return Pass;
    }

    /** The update corrected: an assigned sheet whose entry is stale or missing is regenerated. */
    method UpdateDictionaryFixed(settings: ExportSettings, previous: (Option<int>, Option<int>))
      returns (outcome: Outcome<Exception>)
      modifies this`dictSpriteSheets
      ensures dictSpriteSheets == FixedCacheAfter(old(dictSpriteSheets), previous, settings, Rebuilt(settings))
      ensures outcome.Fail? <==> FixedRebuilds(old(dictSpriteSheets), previous, settings) && Rebuilt(settings).Failure?
      ensures outcome.Fail? ==> outcome.error == Rebuilt(settings).error
    {
      var oldKey, newKey := KeyOf(previous), KeyOf(InstanceIds(settings));
      if oldKey.Some? && oldKey != newKey {
        dictSpriteSheets := dictSpriteSheets - {oldKey.value};
      }
      if newKey.None? || ((oldKey.None? || newKey == oldKey) && newKey.value in dictSpriteSheets) {
        return Pass;
      }
      var grids := RegenerateSpriteSheets(settings);
      if grids.Failure? {
        return Fail(grids.error);
      }
      dictSpriteSheets := dictSpriteSheets[newKey.value := grids.value];
      return Pass;
    }

    /**
     * `DrawSingleExportSettings` for the main settings (the only ones it is
     * called with): the inspector edit turns them into `edited`, the
     * dictionary is updated, and then either the help box is shown (`None`,
     * a field unassigned) or the sheet's grids are looked up to be drawn.
     */
    method DrawSingleExportSettings(edited: ExportSettings) returns (r: Result<Option<seq<Grid>>, Exception>)
      modifies this`mainAnimation, this`dictSpriteSheets
      ensures mainAnimation == edited
      ensures dictSpriteSheets ==
        CacheAfter(old(dictSpriteSheets), InstanceIds(old(mainAnimation)), edited, Rebuilt(edited))
      ensures Rebuilds(InstanceIds(old(mainAnimation)), edited) && Rebuilt(edited).Failure? ==>
        r == Failure(Rebuilt(edited).error)
      ensures !(Rebuilds(InstanceIds(old(mainAnimation)), edited) && Rebuilt(edited).Failure?) ==>
        && (KeyOf(InstanceIds(edited)).None? ==> r == Success(None))
        && (KeyOf(InstanceIds(edited)).Some? ==>
              var lookup := AnimationCreator.LookupSheet(dictSpriteSheets, edited);
              r == if lookup.Success? then Success(Some(lookup.value)) else Failure(lookup.error))
      ensures OnlyKeyCached(old(dictSpriteSheets), InstanceIds(old(mainAnimation))) ==>
        OnlyKeyCached(dictSpriteSheets, InstanceIds(mainAnimation))
    {
      var previousValues := InstanceIds(mainAnimation);
      if OnlyKeyCached(dictSpriteSheets, previousValues) {
        AsWrittenCacheHoldsOnlyMain(dictSpriteSheets, previousValues, edited, Rebuilt(edited));
      }
      mainAnimation := edited;
      var update := UpdateDictionaryIfValueChanged(mainAnimation, previousValues);
      if update.Fail? {
        return Failure(update.error);
      }
      if mainAnimation.exportFolder.None? || mainAnimation.spriteSheet.None? {
        return Success(None);
      }
      var lookup := AnimationCreator.LookupSheet(dictSpriteSheets, mainAnimation);
      if lookup.Failure? {
        return Failure(lookup.error);
      }
      return Success(Some(lookup.value));
    }

    /** The draw corrected: an assigned sheet's grids are always found; only a failed reshape throws. */
    method DrawSingleExportSettingsFixed(edited: ExportSettings) returns (r: Result<Option<seq<Grid>>, Exception>)
      modifies this`mainAnimation, this`dictSpriteSheets
      ensures mainAnimation == edited
      ensures dictSpriteSheets ==
        FixedCacheAfter(old(dictSpriteSheets), InstanceIds(old(mainAnimation)), edited, Rebuilt(edited))
      ensures r.Failure? ==> Rebuilt(edited).Failure? && r.error == Rebuilt(edited).error
      ensures r.Success? ==> (r.value.None? <==> KeyOf(InstanceIds(edited)).None?)
      ensures r.Success? && r.value.Some? ==>
        AnimationCreator.LookupSheet(dictSpriteSheets, edited) == Success(r.value.value)
    {
      var previousValues := InstanceIds(mainAnimation);
      mainAnimation := edited;
      var update := UpdateDictionaryFixed(mainAnimation, previousValues);
      if update.Fail? {
        return Failure(update.error);
      }
      if mainAnimation.exportFolder.None? || mainAnimation.spriteSheet.None? {
        return Success(None);
      }
      FixedCacheHoldsAssignedSheet(old(dictSpriteSheets), previousValues, edited, Rebuilt(edited));
      var lookup := AnimationCreator.LookupSheet(dictSpriteSheets, mainAnimation);
      return Success(Some(lookup.value));
    }

    /**
     * `DrawMultipleExportSettings` corrected: each additional setting is
     * drawn as the main one is, with the corrected update and no edit, so a
     * sheet without an entry is reshaped and cached. A reshape that throws
     * stops the drawing; no entry is ever dropped or changed.
     */
    method DrawMultipleExportSettingsFixed() returns (outcome: Outcome<Exception>, ghost failed: nat)
      modifies this`dictSpriteSheets
      ensures forall key :: key in old(dictSpriteSheets) ==>
        key in dictSpriteSheets && dictSpriteSheets[key] == old(dictSpriteSheets)[key]
      ensures outcome.Pass? ==> failed == |additionalAnimations|
      ensures outcome.Fail? ==>
        && failed < |additionalAnimations|
        && Rebuilt(additionalAnimations[failed]).Failure?
        && outcome.error == Rebuilt(additionalAnimations[failed]).error
      ensures forall s :: 0 <= s < failed && KeyOf(InstanceIds(additionalAnimations[s])).Some? ==>
        AnimationCreator.LookupSheet(dictSpriteSheets, additionalAnimations[s]).Success?
    {
      for s := 0 to |additionalAnimations|
        invariant forall key :: key in old(dictSpriteSheets) ==>
          key in dictSpriteSheets && dictSpriteSheets[key] == old(dictSpriteSheets)[key]
        invariant forall t :: 0 <= t < s && KeyOf(InstanceIds(additionalAnimations[t])).Some? ==>
          KeyOf(InstanceIds(additionalAnimations[t])).value in dictSpriteSheets
      {
        var settings := additionalAnimations[s];
        FixedCacheKeepsEntries(dictSpriteSheets, settings, Rebuilt(settings));
        var update := UpdateDictionaryFixed(settings, InstanceIds(settings));
        if update.Fail? {
          outcome, failed := update, s;
          LookupAll(s);
          return;
        }
      }
      outcome, failed := Pass, |additionalAnimations|;
      LookupAll(failed);
    }

    /** Every assigned additional sheet among the first `n` whose key is cached is found by its lookup. */
    lemma LookupAll(n: nat)
      requires n <= |additionalAnimations|
      requires forall t :: 0 <= t < n && KeyOf(InstanceIds(additionalAnimations[t])).Some? ==>
        KeyOf(InstanceIds(additionalAnimations[t])).value in dictSpriteSheets
      ensures forall s :: 0 <= s < n && KeyOf(InstanceIds(additionalAnimations[s])).Some? ==>
        AnimationCreator.LookupSheet(dictSpriteSheets, additionalAnimations[s]).Success?
    {
      forall s | 0 <= s < n && KeyOf(InstanceIds(additionalAnimations[s])).Some? {
        LookupByKey(dictSpriteSheets, additionalAnimations[s]);
      }
    }

    // ----------------------------------------------------------------
    // Generation

    /** The run on one sheet as the window sets it up. */
    function JobFor(settings: ExportSettings, isOverride: bool): AnimationCreator.SheetJob
      reads this
    {
      AnimationCreator.SheetJob(settings, animationData, spriteSheetWidth, isOverride, OriginalFolderPath(), queries)
    }

    /** The runs on the additional sheets: override controllers, as the window sets them up. */
    function AdditionalJobs(): seq<AnimationCreator.SheetJob>
      reads this
    {
      AnimationCreator.AdditionalJobs(additionalAnimations, animationData, true, OriginalFolderPath(),
                                      spriteSheetWidth, queries)
    }

    /**
     * The window's `CreateAnimationsAndAnimatorController`: the clips and
     * animators of one sheet, read from the dictionary, with clips as long
     * as the sheet is wide.
     */
    method CreateAnimationsAndAnimatorController(log: seq<Asset>, settings: ExportSettings, isOverride: bool)
      returns (outcome: Outcome<Exception>, log': seq<Asset>, ghost failedGrid: nat, ghost failedEntry: nat)
      ensures outcome.Pass? <==> AnimationCreator.SheetOk(dictSpriteSheets, JobFor(settings, isOverride))
      ensures outcome.Pass? ==>
        log' == log + AnimationCreator.FullSheetLog(dictSpriteSheets, JobFor(settings, isOverride))
      ensures outcome.Fail? ==>
        && AnimationCreator.SheetFails(dictSpriteSheets, JobFor(settings, isOverride), failedGrid, failedEntry,
                                       outcome.error)
        && log' == log + AnimationCreator.PartialSheetLog(dictSpriteSheets, JobFor(settings, isOverride),
                                                          failedGrid, failedEntry)
    {
      outcome, log', failedGrid, failedEntry := AnimationCreator.CreateAnimationsAndAnimatorController(
        log, settings, animationData, isOverride, OriginalFolderPath(), spriteSheetWidth, dictSpriteSheets, queries);
    }

    /**
     * The window's `CreateAnimationsAndAnimatorOverrideController`: each
     * additional sheet in turn, with override controllers, stopping at the
     * first exception.
     */
    method CreateAnimationsAndAnimatorOverrideController(log: seq<Asset>)
      returns (outcome: Outcome<Exception>, log': seq<Asset>,
               ghost failedSheet: nat, ghost failedGrid: nat, ghost failedEntry: nat)
      ensures var jobs := AdditionalJobs();
        && (outcome.Pass? <==> AnimationCreator.SheetsOkUpTo(dictSpriteSheets, jobs, |jobs|))
        && (outcome.Pass? ==> log' == log + AnimationCreator.SheetsLog(dictSpriteSheets, jobs, |jobs|))
        && (outcome.Fail? ==>
              && failedSheet < |jobs| && AnimationCreator.SheetsOkUpTo(dictSpriteSheets, jobs, failedSheet)
              && AnimationCreator.SheetFails(dictSpriteSheets, jobs[failedSheet], failedGrid, failedEntry,
                                             outcome.error)
              && log' == log + AnimationCreator.SheetsLog(dictSpriteSheets, jobs, failedSheet)
                 + AnimationCreator.PartialSheetLog(dictSpriteSheets, jobs[failedSheet], failedGrid, failedEntry))
    {
      outcome, log', failedSheet, failedGrid, failedEntry :=
        AnimationCreator.RunSheets(log, dictSpriteSheets, AdditionalJobs());
    }

    /**
     * The "Create Animations" button: the main sheet with a plain animator
     * controller per variant, then the additional sheets with override
     * controllers. An exception on the main sheet stops the whole run.
     */
    method CreateAnimations(log: seq<Asset>)
      returns (outcome: Outcome<Exception>, log': seq<Asset>,
               ghost failedSheet: nat, ghost failedGrid: nat, ghost failedEntry: nat)
      ensures var main, jobs := JobFor(mainAnimation, false), AdditionalJobs();
        && (outcome.Pass? <==>
              AnimationCreator.SheetOk(dictSpriteSheets, main)
              && AnimationCreator.SheetsOkUpTo(dictSpriteSheets, jobs, |jobs|))
        && (outcome.Pass? ==> log' == log + AnimationCreator.FullSheetLog(dictSpriteSheets, main)
                                          + AnimationCreator.SheetsLog(dictSpriteSheets, jobs, |jobs|))
        && (!AnimationCreator.SheetOk(dictSpriteSheets, main) ==>
              && outcome.Fail?
              && AnimationCreator.SheetFails(dictSpriteSheets, main, failedGrid, failedEntry, outcome.error)
              && log' == log + AnimationCreator.PartialSheetLog(dictSpriteSheets, main, failedGrid, failedEntry))
        && (AnimationCreator.SheetOk(dictSpriteSheets, main) && outcome.Fail? ==>
              && failedSheet < |jobs| && AnimationCreator.SheetsOkUpTo(dictSpriteSheets, jobs, failedSheet)
              && AnimationCreator.SheetFails(dictSpriteSheets, jobs[failedSheet], failedGrid, failedEntry,
                                             outcome.error)
              && log' == log + AnimationCreator.FullSheetLog(dictSpriteSheets, main)
                 + AnimationCreator.SheetsLog(dictSpriteSheets, jobs, failedSheet)
                 + AnimationCreator.PartialSheetLog(dictSpriteSheets, jobs[failedSheet], failedGrid, failedEntry))
    {
      outcome, log', failedGrid, failedEntry := CreateAnimationsAndAnimatorController(log, mainAnimation, false);
      if outcome.Fail? {
        failedSheet := 0;
        return;
      }
      var mainLog := log';
      outcome, log', failedSheet, failedGrid, failedEntry := CreateAnimationsAndAnimatorOverrideController(mainLog);
    }
  }

  /**
   * What the button creates when it goes through: one plain controller per
   * variant of the main sheet, one override controller per variant of the
   * additional sheets, and one clip per variant and animation entry. The
   * main job is the one `CreateAnimations` builds with `isOverride` false and
   * the additional jobs share its entries with `isOverride` set, as
   * `AdditionalJobs` builds them.
   */
  lemma CreateAnimationsCounts(sheets: SpriteCache, mainJob: AnimationCreator.SheetJob,
                               jobs: seq<AnimationCreator.SheetJob>)
    requires !mainJob.isOverride
    requires forall s :: 0 <= s < |jobs| ==>
      jobs[s].animationData == mainJob.animationData && jobs[s].isOverride
    ensures
      var created := AnimationCreator.FullSheetLog(sheets, mainJob) + AnimationCreator.SheetsLog(sheets, jobs, |jobs|);
      var mainVariants := AnimationCreator.GridCount(sheets, mainJob);
      var otherVariants := AnimationCreator.VariantTotal(sheets, jobs, |jobs|);
      && AnimationCreator.CountKind(created, AnimationCreator.Controller) == mainVariants
      && AnimationCreator.CountKind(created, AnimationCreator.OverrideController) == otherVariants
      && AnimationCreator.CountKind(created, AnimationCreator.Clip) ==
           (mainVariants + otherVariants) * |mainJob.animationData|
  {
    var mainLog, rest := AnimationCreator.FullSheetLog(sheets, mainJob), AnimationCreator.SheetsLog(sheets, jobs, |jobs|);
    var m := |mainJob.animationData|;
    AllKindsOfSheet(sheets, mainJob);
    AllKindsOfSheets(sheets, jobs, m);
    MixedCounts(mainLog, rest, mainLog + rest, AnimationCreator.GridCount(sheets, mainJob),
                AnimationCreator.VariantTotal(sheets, jobs, |jobs|), m);
  }

  /** The jobs the window builds meet the requirements of `CreateAnimationsCounts`. */
  lemma WindowJobsShape(main: ExportSettings, additional: seq<ExportSettings>,
                        animationData: seq<AnimationData>, folderPath: string, width: int, queries: AssetQueries)
    ensures
      var mainJob := AnimationCreator.SheetJob(main, animationData, width, false, folderPath, queries);
      var jobs := AnimationCreator.AdditionalJobs(additional, animationData, true, folderPath, width, queries);
      && |jobs| == |additional|
      && forall s :: 0 <= s < |jobs| ==>
           jobs[s].settings == additional[s] && jobs[s].animationData == mainJob.animationData && jobs[s].isOverride
  {
  }

  /** The asset counts of one sheet, for every kind at once. */
  lemma AllKindsOfSheet(sheets: SpriteCache, job: AnimationCreator.SheetJob)
    ensures forall kind ::
      AnimationCreator.CountKind(AnimationCreator.FullSheetLog(sheets, job), kind) ==
      AnimationCreator.ExpectedCount(kind, AnimationCreator.GridCount(sheets, job), |job.animationData|, job.isOverride)
  {
    forall kind: AnimationCreator.AssetKind {
      AnimationCreator.FullSheetLogCount(sheets, job, kind);
    }
  }

  /** The asset counts of the additional sheets, for every kind at once. */
  lemma AllKindsOfSheets(sheets: SpriteCache, jobs: seq<AnimationCreator.SheetJob>, m: nat)
    requires forall s :: 0 <= s < |jobs| ==> |jobs[s].animationData| == m && jobs[s].isOverride
    ensures forall kind ::
      AnimationCreator.CountKind(AnimationCreator.SheetsLog(sheets, jobs, |jobs|), kind) ==
      AnimationCreator.ExpectedCount(kind, AnimationCreator.VariantTotal(sheets, jobs, |jobs|), m, true)
  {
    forall kind: AnimationCreator.AssetKind {
      AnimationCreator.SheetsLogCounts(sheets, jobs, |jobs|, kind, m, true);
    }
  }

  /**
   * A log made of one plain-controller sheet of `a` variants followed by
   * override sheets of `b` variants in all, each variant with `m` entries.
   */
  lemma MixedCounts(mainLog: seq<Asset>, rest: seq<Asset>,
                    whole: seq<Asset>, a: nat, b: nat, m: nat)
    requires whole == mainLog + rest
    requires forall kind :: AnimationCreator.CountKind(mainLog, kind) == AnimationCreator.ExpectedCount(kind, a, m, false)
    requires forall kind :: AnimationCreator.CountKind(rest, kind) == AnimationCreator.ExpectedCount(kind, b, m, true)
    ensures AnimationCreator.CountKind(whole, AnimationCreator.Controller) == a
    ensures AnimationCreator.CountKind(whole, AnimationCreator.OverrideController) == b
    ensures AnimationCreator.CountKind(whole, AnimationCreator.Clip) == (a + b) * m
  {
    forall kind: AnimationCreator.AssetKind
      ensures AnimationCreator.CountKind(whole, kind) == AnimationCreator.CountKind(mainLog, kind) + AnimationCreator.CountKind(rest, kind)
    {
      AnimationCreator.CountKindAppend(mainLog, rest, kind);
    }
    assert (a + b) * m == a * m + b * m;
  }
}
