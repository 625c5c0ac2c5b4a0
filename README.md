# Sprite-sheet animation extractor, modelled in Dafny

This project models the core of a Unity editor tool that cuts a sprite sheet into per-variant sprite grids and writes animation clips and animators for them:

- **`ExtensionMethods`** models `Convert1DArrayInto2DArray`. It reshapes a flat sprite array into `N = ceil(len / (w*h))` grids of `h` rows by `w` columns. The method works in place on `array2` grids, with the same nested loops and the same `rowOffset` accumulator. Cell `[i, j]` of grid `k` is read from flat index `(i*N + k)*w + j`: each sheet row is cut into `N` blocks of `w` sprites, and block `k` goes to grid `k`. The model also proves:
  - the grid count is a ceiling;
  - the read map is a bijection onto `[0, N*w*h)`;
  - the exception thrown is the one C# would throw, and only then: division by zero, a negative capacity, a negative dimension, or an index past the end.
- **`SpriteNumberPattern`** models the regular expression `_(\d+)(?!.*_\d+)`:
  - a declarative definition of the leftmost, greedy match the engine reports;
  - a scan that finds that match;
  - digit parsing and `int.ToString`.
- **`ExtractedSpriteNumberComparer`** and **`SpriteNameComparer`** model the two comparers. Each orders names by the number after the last `_<digit>`, or by -1 when there is none. The model proves that each is a total preorder and that the two agree on every pair of names.
- **`AnimationCreator`** models the static class that generates clips and animators. The asset database is a log of created assets, and each generation method is proved against a specification function saying which log a run leaves behind:
  - the keyframes of one clip;
  - the clip path format;
  - the variant-major, entry-order emission;
  - the `Zip` pairing of override clips;
  - the number of each kind of asset;
  - the first read that throws and what was created before it.
- **`CreatorWindow`** models the editor window as a class whose fields the methods update:
  - the `(export folder id, sprite sheet id)` dictionary of cached grids and its update;
  - the lookup that draws a sheet;
  - the "Create Animations" button, which runs the main sheet and then the additional sheets.
- **`EditorData`** and **`Wrappers`** hold the plain data types, and C#'s exception kinds and truncating integer division.

The reshape in `ExtensionMethods.cs` lays the variants side by side along each sheet row. It does not cut the array into consecutive `w*h` blocks, one per grid, as a plain row-major split would. The model follows the code (`SideBySideExample` shows the layout on a 4x2 sheet of two variants).

`AnimationData` declares `RowOffset`, but both creators read `data.ColumnOffset` and use it as the row index of a grid. The model names this field `rowOffset`.

## Model

| member | source | states |
|---|---|---|
| Wrappers.TruncDiv | Assets/Scripts/ExtensionMethods.cs:11-12 | C#'s integer division: the remainder is smaller than the divisor in magnitude, and it has the dividend's sign when it is not zero |
| SpriteNumberPattern.DigitRunEnd | Assets/Scripts/ExtractedSpriteNumberComparer.cs:19 | The end of a maximal run of digits: everything before it is a digit and the character at it is not |
| SpriteNumberPattern.LastMarker | Assets/Scripts/ExtractedSpriteNumberComparer.cs:19 | The last `_<digit>` before position `n`, or none when there is none |
| SpriteNumberPattern.FindMatch | Assets/Scripts/ExtractedSpriteNumberComparer.cs:19 | The scan returns a match exactly when some `_` is followed by a digit, and that match is the leftmost, longest match of `_(\d+)(?!.*_\d+)`; with no match, the pattern matches nowhere |
| SpriteNumberPattern.EngineMatchIsFound | Assets/Scripts/ExtractedSpriteNumberComparer.cs:19 | The engine's match is unique, and the scan finds it |
| SpriteNumberPattern.RegexMatch | Assets/Scripts/ExtractedSpriteNumberComparer.cs:19-24 | `Regex.Match`: success iff some `_` is followed by a digit; two groups, the whole match `_` + digits and the capture; they are the engine match's text |
| SpriteNumberPattern.DigitChar | Assets/Scripts/ExtractedSpriteNumberComparer.cs:24 | The digit character of a value below 10, whose value it is |
| SpriteNumberPattern.LeadingZeroIgnored | Assets/Scripts/ExtractedSpriteNumberComparer.cs:24 | `int.Parse` ignores a leading zero |
| SpriteNumberPattern.IntToString | Assets/Scripts/Editor/AnimationCreator.cs:60 | `index.ToString()` is a non-empty run of digits with no leading zero, and parsing it gives the index back |
| SpriteNumberPattern.CompareTo | Assets/Scripts/ExtractedSpriteNumberComparer.cs:13 | `int.CompareTo`: -1, 0 or 1, negative iff less and zero iff equal |
| SpriteNumberPattern.MarkerInTail | Assets/Scripts/ExtractedSpriteNumberComparer.cs:19 | A `_<digit>` past the stem of `stem + tail` is one of the tail, and the other way round |
| SpriteNumberPattern.FindMatchOfSuffix | Assets/Scripts/ExtractedSpriteNumberComparer.cs:19 | In `stem_<digits><tail>` with no `_<digit>` in the tail, the match is that `_<digits>` whatever the stem holds, and it captures exactly those digits |
| ExtractedSpriteNumberComparer.ExtractNumber | Assets/Scripts/ExtractedSpriteNumberComparer.cs:16-26 | -1 exactly when no `_` is followed by a digit, else the value of the captured digits of the engine match |
| ExtractedSpriteNumberComparer.Compare | Assets/Scripts/ExtractedSpriteNumberComparer.cs:11-14 | The sign of the comparison is the order of the extracted numbers |
| ExtractedSpriteNumberComparer.ExtractNumberOfSuffix | Assets/Scripts/ExtractedSpriteNumberComparer.cs:16-26 | The number is read from the last `_<digits>`, whatever comes before it |
| ExtractedSpriteNumberComparer.ExtractNumberAtEnd | Assets/Scripts/ExtractedSpriteNumberComparer.cs:16-26 | A name ending in `_<digits>` gives those digits' value |
| ExtractedSpriteNumberComparer.ExtractNumberExamples | Assets/Scripts/ExtractedSpriteNumberComparer.cs:16-26 | `..._3_10` gives 10, `..._5_b` gives 5, and `sprite` gives -1 |
| ExtractedSpriteNumberComparer.CompareIsTotalPreorder | Assets/Scripts/ExtractedSpriteNumberComparer.cs:11-14 | Reflexive, antisymmetric in sign, transitive and total |
| ExtractedSpriteNumberComparer.UnnumberedNamesFirst | Assets/Scripts/ExtractedSpriteNumberComparer.cs:11-26 | Names without a number tie with each other and sort before every numbered name |
| ExtractedSpriteNumberComparer.LeadingZerosIgnored | Assets/Scripts/ExtractedSpriteNumberComparer.cs:11-26 | `..._05` and `..._5` compare equal |
| ExtractedSpriteNumberComparer.NumericNotLexical | Assets/Scripts/ExtractedSpriteNumberComparer.cs:11-14 | `..._2` sorts before `..._10` |
| SpriteNameComparer.ExtractNumber | Assets/Scripts/SpriteNameComparer.cs:13-20 | -1 exactly when no `_` is followed by a digit, else the value of group 1 of the engine match |
| SpriteNameComparer.Compare | Assets/Scripts/SpriteNameComparer.cs:8-11 | The sign of the comparison is the order of the extracted numbers |
| SpriteNameComparer.AgreesWithExtractedSpriteNumberComparer | Assets/Scripts/SpriteNameComparer.cs:13-20 | `Groups[1]` and `Groups[^1]` are the same group, so both comparers extract the same number and compare every pair alike |
| SpriteNameComparer.CompareIsTotalPreorder | Assets/Scripts/SpriteNameComparer.cs:8-11 | Reflexive, antisymmetric in sign, transitive and total |
| SpriteNameComparer.UnnumberedNamesFirst | Assets/Scripts/SpriteNameComparer.cs:8-20 | Names without a number tie with each other and sort before every numbered name |
| EditorData.Contents | Assets/Scripts/Editor/AnimationCreatorWindow.cs:206-207 | The grid value of a `Sprite[,]`: its dimensions, and cell `[i, j]` in row `i`, column `j` |
| EditorData.InstanceIds | Assets/Scripts/Editor/AnimationCreatorWindow.cs:133 | The null-conditional instance ids: present exactly when the field is assigned, and then the object's id |
| ExtensionMethods.GridCountIsCeiling | Assets/Scripts/ExtensionMethods.cs:9-14 | For positive dimensions the grid count is the least `N` with `len <= N*w*h`, and it is 0 exactly for an empty array |
| ExtensionMethods.CeilingDivision | Assets/Scripts/ExtensionMethods.cs:11-12 | `(len + a - 1) / a` is the ceiling of `len / a` |
| ExtensionMethods.ReshapeFaultForPositiveDimensions | Assets/Scripts/ExtensionMethods.cs:11-25 | For positive dimensions the call throws exactly when `len` is not a multiple of `w*h`, and then it is an index out of range; an empty array throws nothing and gives no grid |
| ExtensionMethods.ReadIndexIsFlatIndex | Assets/Scripts/ExtensionMethods.cs:18-28 | With `rowOffset = i*(N*w - 1)` at row `i`, the index read for `[i, j]` of grid `k` is `(i*N + k)*w + j` |
| ExtensionMethods.FlatIndexInRange | Assets/Scripts/ExtensionMethods.cs:21-25 | Every index read lies in `[0, N*w*h)`, and the last cell of the last grid reads `N*w*h - 1` |
| ExtensionMethods.FlatIndexBijection | Assets/Scripts/ExtensionMethods.cs:11-25 | `(k, i, j) -> (i*N + k)*w + j` is a bijection between the cells of the `N` grids and `[0, N*w*h)`: each element lands in exactly one cell |
| ExtensionMethods.LocateOfFlatIndex | Assets/Scripts/ExtensionMethods.cs:25 | Locating a cell's read index gives the cell back |
| ExtensionMethods.FlatIndexOfLocate | Assets/Scripts/ExtensionMethods.cs:25 | The cell located for an index reads that index |
| ExtensionMethods.OutOfRangeReadIsFault | Assets/Scripts/ExtensionMethods.cs:11-25 | A read past the end happens only when the length is not a multiple of `w*h` |
| ExtensionMethods.InRangeReadsAreNoFault | Assets/Scripts/ExtensionMethods.cs:11-25 | When the last cell's read is in range, nothing is thrown |
| ExtensionMethods.NoFaultCoversArray | Assets/Scripts/ExtensionMethods.cs:9-14 | When the call goes through with at least one grid, the dimensions are positive and the grids cover the array exactly |
| ExtensionMethods.Reshape | Assets/Scripts/ExtensionMethods.cs:7-35 | The reshape as a value: fails exactly when the call throws, with the same exception; otherwise `N` grids of `h` rows of `w` cells, cell `[i, j]` of grid `k` being element `(i*N + k)*w + j` |
| ExtensionMethods.SideBySideExample | Assets/Scripts/ExtensionMethods.cs:25-28 | On 16 sprites cut into two 4x2 grids, grid 0 takes columns 0-3 and grid 1 columns 4-7 of each sheet row |
| ExtensionMethods.FillGrid | Assets/Scripts/ExtensionMethods.cs:18-29 | One grid filled in place: a fresh `h` x `w` array holding element `(i*N + k)*w + j` at `[i, j]`, or the index-out-of-range exception, which happens only when the length is not a multiple of `w*h` |
| ExtensionMethods.Convert1DArrayInto2DArray | Assets/Scripts/ExtensionMethods.cs:7-35 | Throws exactly the exception the reshape defines; otherwise the list of `N` fresh, distinct grids, grid `k` at position `k` holding the cells above; the input array is only read |
| AnimationCreator.ClipPathCarriesIndex | Assets/Scripts/Editor/AnimationCreator.cs:168 | The frame number the comparers read back from a clip path is the variant index in its suffix, whatever the folder, prefix and animation name |
| AnimationCreator.Zip | Assets/Scripts/Editor/AnimationCreator.cs:115-116 | Pair `i` is `(originals[i], overrides[i])`, and the length is the shorter input's, with no mismatch reported |
| AnimationCreator.ZipUnzips | Assets/Scripts/Editor/AnimationCreator.cs:115-116 | Taking the pairs apart gives back both inputs, cut to the shorter length |
| AnimationCreator.ClipFaultIsOutOfBoundsRead | Assets/Scripts/Editor/AnimationCreator.cs:158-165 | A clip's reads throw nothing exactly when the length is non-negative and every cell read lies in the grid |
| AnimationCreator.RowKeyframes | Assets/Scripts/Editor/AnimationCreator.cs:158-165 | A readable row gives `length` keyframes, keyframe `i` showing `sprites[startingIndex, i]` |
| AnimationCreator.CreateAnimationClip | Assets/Scripts/Editor/AnimationCreator.cs:136-172 | Fills the keyframe array in a loop and appends the clip at `folder/prefix_name_suffix.anim`; fails, creating nothing, exactly when the row cannot be read, with the exception the first bad read throws |
| AnimationCreator.VariantClipsAt | Assets/Scripts/Editor/AnimationCreator.cs:54-61 | A variant's clips come in entry order: clip `i` is the one of entry `i` |
| AnimationCreator.VariantLogAt | Assets/Scripts/Editor/AnimationCreator.cs:50-63 | A variant's block is its `m` clips followed by its animator |
| AnimationCreator.SheetLogLength | Assets/Scripts/Editor/AnimationCreator.cs:50-63 | `n` variants create `n*(m + 1)` assets |
| AnimationCreator.SheetLogPrefix | Assets/Scripts/Editor/AnimationCreator.cs:50-63 | What the first `a` variants create is a prefix of what the first `b` create |
| AnimationCreator.SheetLogAt | Assets/Scripts/Editor/AnimationCreator.cs:50-63 | Slot `k*(m + 1) + i` holds slot `i` of variant `k`'s block |
| AnimationCreator.SheetLogLayout | Assets/Scripts/Editor/AnimationCreator.cs:50-63 | Variant-major, then entry order: asset `k*(m + 1) + i` is entry `i`'s clip with suffix `k`, and asset `k*(m + 1) + m` is variant `k`'s animator |
| AnimationCreator.VariantClipsCount | Assets/Scripts/Editor/AnimationCreator.cs:54-61 | A variant creates one clip per entry and nothing else in its clip loop |
| AnimationCreator.VariantLogCount | Assets/Scripts/Editor/AnimationCreator.cs:50-63 | A variant creates `m` clips and one animator of the sheet's kind |
| AnimationCreator.SheetLogCounts | Assets/Scripts/Editor/AnimationCreator.cs:50-63 | A sheet of `n` grids creates `n*m` clips and `n` animators, all override controllers when `isOverride` is set and all plain controllers otherwise |
| AnimationCreator.LookupSheet | Assets/Scripts/Editor/AnimationCreator.cs:44-46 | The dictionary lookup: the cached grids when both fields are assigned and the key is present; a null reference when a field is unassigned; a missing key otherwise |
| AnimationCreator.CreateAnimator | Assets/Scripts/Editor/AnimationCreator.cs:67-90 | Appends variant `index`'s animator: a controller with every clip of the main folder as a motion, in load order, or the override controller |
| AnimationCreator.CreateAnimationOverrideController | Assets/Scripts/Editor/AnimationCreator.cs:92-123 | Appends an override controller at the save path, on the main folder's controller, whose overrides zip the original clips with this folder's clips found by the index |
| AnimationCreator.CreateVariant | Assets/Scripts/Editor/AnimationCreator.cs:52-63 | One variant's loop: goes through iff all its rows are readable, appending its clips and animator; otherwise stops at the first unreadable entry, with that entry's exception, after the clips of the entries before it |
| AnimationCreator.CreateSheet | Assets/Scripts/Editor/AnimationCreator.cs:50-64 | The variant loop: goes through iff every grid is readable, appending the sheet's log; otherwise fails at the first bad grid and entry, having appended exactly the assets created before them |
| AnimationCreator.CreateAnimationsAndAnimatorController | Assets/Scripts/Editor/AnimationCreator.cs:40-65 | Looks the grids up and runs the variant loop: goes through iff the lookup succeeds and every clip is readable, appending the sheet's whole log; on failure it appends only what was created before the throw |
| AnimationCreator.SheetsOkUpToEach | Assets/Scripts/Editor/AnimationCreator.cs:22-32 | The first `n` sheets go through iff each of them does |
| AnimationCreator.CreateForSheets | Assets/Scripts/Editor/AnimationCreator.cs:22-32 | The sheet loop: goes through iff every sheet does, appending their logs in order; otherwise stops at the first failing sheet, after the logs of the sheets before it and that sheet's partial log |
| AnimationCreator.RunSheets | Assets/Scripts/Editor/AnimationCreator.cs:22-32 | The same loop over a given list of jobs |
| AnimationCreator.CreateNextSheet | Assets/Scripts/Editor/AnimationCreator.cs:24-31 | One pass of the sheet loop extends the log by that sheet's log, or fails with its partial log |
| AnimationCreator.CreateAnimationsAndAnimatorOverrideController | Assets/Scripts/Editor/AnimationCreator.cs:17-35 | As written: the additional sheets are generated with `isOverride` false; goes through iff every sheet does, appending their logs |
| AnimationCreator.CreateAnimationsAndOverrideControllers | Assets/Scripts/Editor/AnimationCreator.cs:17-35 | Corrected: the same loop with `isOverride` true |
| AnimationCreator.FullSheetLogCount | Assets/Scripts/Editor/AnimationCreator.cs:40-65 | A sheet that goes through creates `m` clips per grid and one animator of its kind per grid |
| AnimationCreator.SheetsLogCounts | Assets/Scripts/Editor/AnimationCreator.cs:22-32 | Sheets sharing `m` entries and one kind of animator create `m` clips and one such animator per grid, over all their grids |
| AnimationCreator.AsWrittenAdditionalSheetsGetPlainControllers | Assets/Scripts/Editor/AnimationCreator.cs:29 | As written, the additional sheets get no override controller at all, only plain controllers, one per grid |
| AnimationCreator.AdditionalSheetsGetOverrideControllers | Assets/Scripts/Editor/AnimationCreator.cs:29-31 | Corrected, they get one override controller per grid and no plain controller |
| CreatorWindow.LookupByKey | Assets/Scripts/Editor/AnimationCreatorWindow.cs:145-146 | The lookup of a settings value is the dictionary entry under the key of its two ids: a null reference without a key, a missing key without an entry |
| CreatorWindow.ReshapedSheet | Assets/Scripts/Editor/AnimationCreatorWindow.cs:206-207 | Reshaping a sheet's sprites: fails exactly as the reshape does; otherwise the grids of the reshape, with their dimensions and cells |
| CreatorWindow.CacheAfter | Assets/Scripts/Editor/AnimationCreatorWindow.cs:185-208 | As written: unchanged when a previous id was unassigned or both ids are the same; otherwise the old key is dropped; when both ids are assigned and changed, the new key gets the reshaped grids (or stays as it was if the reshape throws); no other key changes |
| CreatorWindow.AsWrittenAssignedSheetStaysUncached | Assets/Scripts/Editor/AnimationCreatorWindow.cs:187 | As written, a sheet that becomes assigned while a previous id was unassigned, or whose entry is missing with unchanged ids, gets no entry, and drawing it throws a missing key |
| CreatorWindow.AsWrittenFolderThenSheetExample | Assets/Scripts/Editor/AnimationCreatorWindow.cs:187 | From an empty dictionary, assigning the folder and then the sheet leaves the sheet uncached, and drawing it throws |
| CreatorWindow.FixedCacheAfter | Assets/Scripts/Editor/AnimationCreatorWindow.cs:185-208 | Corrected: as written, except that an assigned sheet whose entry is missing is reshaped and cached whatever the previous ids were; a present entry is rebuilt only when both previous ids were assigned and changed |
| CreatorWindow.FixedCacheHoldsAssignedSheet | Assets/Scripts/Editor/AnimationCreatorWindow.cs:146 | Corrected, drawing an assigned sheet finds its grids unless reshaping it threw |
| CreatorWindow.FixedAgreesWithAsWritten | Assets/Scripts/Editor/AnimationCreatorWindow.cs:185-208 | The correction changes nothing, and rebuilds exactly when the code does, whenever the sheet is unassigned, its entry is present, or both previous ids were assigned and changed |
| CreatorWindow.AsWrittenCacheHoldsOnlyMain | Assets/Scripts/Editor/AnimationCreatorWindow.cs:185-208 | As written, a dictionary holding at most the previous key's entry holds at most the new key's entry after the update |
| CreatorWindow.AsWrittenAdditionalSheetFails | Assets/Scripts/Editor/AnimationCreatorWindow.cs:127-129 | As written, with only the main sheet's entry cached, an additional sheet assigned under another key is not found (`KeyNotFoundException`), so the run on the additional sheets cannot go through |
| CreatorWindow.AsWrittenAdditionalSheetExample | Assets/Scripts/Editor/AnimationCreatorWindow.cs:127-129 | With the main sheet (folder 1, sheet 2) cached, an additional sheet (folder 1, sheet 3) throws `KeyNotFoundException` at its lookup and its run fails |
| CreatorWindow.FixedCacheKeepsEntries | Assets/Scripts/Editor/AnimationCreatorWindow.cs:185-208 | The corrected update of unedited settings keeps every entry as it was, and leaves the sheet's key cached when it was cached or its reshape succeeds |
| CreatorWindow.AnimationCreatorWindow.DrawMultipleExportSettingsFixed | Assets/Scripts/Editor/AnimationCreatorWindow.cs:127-129 | Corrected: every additional sheet drawn before the first throwing reshape is found by its lookup, all of them when none throws, and no entry is dropped or changed |
| CreatorWindow.AnimationCreatorWindow.constructor | Assets/Scripts/Editor/AnimationCreatorWindow.cs:35-51 | A new window: sheet height 49, width 8, nothing assigned, nothing cached |
| CreatorWindow.AnimationCreatorWindow.OnEnable | Assets/Scripts/Editor/AnimationCreatorWindow.cs:64-71 | Enabling the window empties the dictionary |
| CreatorWindow.AnimationCreatorWindow.RegenerateSpriteSheets | Assets/Scripts/Editor/AnimationCreatorWindow.cs:206-207 | Runs `Convert1DArrayInto2DArray` on the sheet's sprites with the window's width and height, giving the reshaped grids (their number being the ceiling count) or the exception |
| CreatorWindow.AnimationCreatorWindow.UpdateDictionaryIfValueChanged | Assets/Scripts/Editor/AnimationCreatorWindow.cs:185-208 | Leaves the dictionary as `CacheAfter` says, and fails exactly when it rebuilds and the reshape throws |
| CreatorWindow.AnimationCreatorWindow.UpdateDictionaryFixed | Assets/Scripts/Editor/AnimationCreatorWindow.cs:185-208 | Leaves the dictionary as `FixedCacheAfter` says, and fails exactly when it rebuilds and the reshape throws |
| CreatorWindow.AnimationCreatorWindow.DrawSingleExportSettings | Assets/Scripts/Editor/AnimationCreatorWindow.cs:131-147 | Stores the edit, updates the dictionary from the previous ids, then gives nothing for an incomplete setting, or the lookup's grids or exception; a dictionary holding only the main sheet's entry keeps doing so |
| CreatorWindow.AnimationCreatorWindow.DrawSingleExportSettingsFixed | Assets/Scripts/Editor/AnimationCreatorWindow.cs:131-147 | With the corrected update: an assigned sheet is always found, and only a throwing reshape makes drawing fail |
| CreatorWindow.AnimationCreatorWindow.CreateAnimationsAndAnimatorController | Assets/Scripts/Editor/AnimationCreatorWindow.cs:221-244 | One sheet from the window's fields: goes through iff the lookup succeeds and every clip is readable, appending the sheet's log, else its partial log |
| CreatorWindow.AnimationCreatorWindow.CreateAnimationsAndAnimatorOverrideController | Assets/Scripts/Editor/AnimationCreatorWindow.cs:246-258 | Every additional sheet in order, with `isOverride` true: goes through iff each does, else stops at the first failing sheet |
| CreatorWindow.AnimationCreatorWindow.CreateAnimations | Assets/Scripts/Editor/AnimationCreatorWindow.cs:81-85 | The button: the main sheet with plain controllers, then the additional sheets; goes through iff all do, appending their logs in that order; a failing main sheet throws at its first bad grid and entry and leaves only its partial log; a failing additional sheet leaves the main sheet's log, the earlier sheets' logs and its own partial log |
| CreatorWindow.CreateAnimationsCounts | Assets/Scripts/Editor/AnimationCreatorWindow.cs:81-85 | What the button creates: one plain controller per main grid, one override controller per additional grid, and one clip per grid and entry |
| CreatorWindow.WindowJobsShape | Assets/Scripts/Editor/AnimationCreatorWindow.cs:248-254 | The additional sheets' jobs are one per setting, in order, sharing the entries and set to override |

## Left out

- The GUI is not modelled: `OnGUI`, `DisplayFields`, foldouts, scroll views, `DrawAnimationSprites`, `GenerateTextureFromSprite` (pixel copying) and the preview window are presentation and texture I/O. `DrawSingleExportSettings` returns the grids it would draw. `DrawMultipleExportSettings` has an empty body; its consequence is a finding below, and `DrawMultipleExportSettingsFixed` models the drawing it evidently should do, without inspector edits.
- Floating-point values are left out: keyframe times `i / frameRate`, the frame rate, progress-bar fractions and `spacing`. A keyframe records its frame number instead of its time. The progress bar itself is not modelled.
- Calls into the Unity editor are given as inputs rather than modelled. `AssetQueries` stands for the clip lists that `LoadAllAssetsOfTypeFromFolder` finds (the `FindAssets` query and its order are library behaviour), the first controller of a folder, `GetAnimatorSavePath` and `GetAllSpritesFromTexture`. The source of the last two is not part of this model. The clip lists are fixed functions of the folder and query, so they do not reflect the clips the run itself creates: in the editor a folder's list, loaded after each variant's clips are created (AnimationCreator.cs:71-77), grows from variant to variant, while here every variant's controller gets the same list.
- `AssetDatabase.CreateAsset` appends to an asset log. `SaveAssets`, `Refresh`, the clip's loop settings and the curve binding are not modelled.
- `GetAssetPath` of an unassigned folder is taken to be the empty path.
- The dictionary holds the contents of the grids, not references to the `Sprite[,]` arrays, so aliasing between cached grids is not modelled. `Convert1DArrayInto2DArray` itself returns fresh, distinct `array2` objects.
- Sprites are abstract values; names are strings of characters. The regular expression's Unicode `\d` and the fact that `.` does not match a newline are not modelled: digits are `0`-`9`, and a newline in a name is treated like any other character.
- 32-bit `int` arithmetic is unbounded here: `width * height`, the grid count, the flat index and `int.Parse`, which would throw on a digit run above `int.MaxValue`, all have no overflow in the model.
- `SpriteSheetAnimationExportSettings.ValidateConfiguration` always returns false, is never called, and is not modelled.
- Each loop over variants, entries and sheets is a `for` loop in its own method (`CreateVariant`, `CreateSheet`, `RunSheets`, with `CreateNextSheet` as one pass of the sheet loop), so that each method reasons about one loop.
- The window's own `CreateAnimationClip`, `CreateAnimator` and `CreateAnimationOverrideController` (AnimationCreatorWindow.cs:266-360) do what `AnimationCreator`'s do with the window's fields as arguments, so the window's generation methods call `AnimationCreator`'s methods instead of repeating them.
- AnimationCreator.CreateAnimationsAndAnimatorOverrideController: on failure its contract does not say which log is left; `CreateForSheets` states that.
- AnimationCreator.CreateAnimationsAndOverrideControllers: on failure its contract does not say which log is left; `RunSheets` states that.
- AnimationCreator.RowKeyframes: for a row that cannot be read it gives no keyframes, because the source throws before creating the clip.

## Findings

| source | as written | input that shows it | evidently intended | confidence | as-written member | corrected member |
|---|---|---|---|---|---|---|
| Assets/Scripts/Editor/AnimationCreator.cs:29 | `CreateAnimationsAndAnimatorOverrideController` passes `isOverride = false`, so the additional sheets get plain animator controllers | any additional sheet with at least one grid: its log holds one plain controller per grid and no override controller | pass `true`, as the window does at AnimationCreatorWindow.cs:254, so each grid gets an override controller | not executed | AnimationCreator.AsWrittenAdditionalSheetsGetPlainControllers, AnimationCreator.CreateAnimationsAndAnimatorOverrideController | AnimationCreator.AdditionalSheetsGetOverrideControllers, AnimationCreator.CreateAnimationsAndOverrideControllers |
| Assets/Scripts/Editor/AnimationCreatorWindow.cs:187 | `UpdateDictionaryIfValueChanged` returns early when a previous id was unassigned, and also leaves a missing entry alone when the ids did not change (lines 199-200), so an assigned sheet can stay uncached and the lookup at line 146 throws `KeyNotFoundException` | an empty dictionary; previous ids (folder 1, no sheet); the sheet (id 2) is then assigned | reshape and cache an assigned sheet whose entry is missing, whatever the previous ids were; a present entry is rebuilt, as written, only when both previous ids were assigned and changed | not executed | CreatorWindow.AsWrittenFolderThenSheetExample, CreatorWindow.AsWrittenAssignedSheetStaysUncached, CreatorWindow.AnimationCreatorWindow.UpdateDictionaryIfValueChanged | CreatorWindow.FixedCacheHoldsAssignedSheet, CreatorWindow.AnimationCreatorWindow.UpdateDictionaryFixed, CreatorWindow.AnimationCreatorWindow.DrawSingleExportSettingsFixed |
| Assets/Scripts/Editor/AnimationCreatorWindow.cs:127-129 | `DrawMultipleExportSettings` has an empty body, so the additional sheets are never reshaped or cached: the dictionary holds at most the main sheet's entry, and the lookup at line 224 throws `KeyNotFoundException` for any additional sheet under another key | the main settings (folder 1, sheet 2) cached, and one additional setting (folder 1, sheet 3): its run throws at the lookup | draw each additional setting as the main one is drawn, so its sheet is reshaped and cached | not executed | CreatorWindow.AsWrittenAdditionalSheetExample, CreatorWindow.AsWrittenAdditionalSheetFails, CreatorWindow.AsWrittenCacheHoldsOnlyMain, CreatorWindow.AnimationCreatorWindow.DrawSingleExportSettings | CreatorWindow.AnimationCreatorWindow.DrawMultipleExportSettingsFixed, CreatorWindow.FixedCacheKeepsEntries |
