/**
 * The Unity objects the animation generator works with, reduced to what the
 * generator reads from them, and the assets it writes.
 *
 * An object reference that the inspector may leave unassigned (`null` in C#)
 * is an `Option`. The asset database is modelled by what the generator adds
 * to it: a log of the created assets in creation order, which every creating
 * operation takes and returns extended.
 */
module EditorData {
  import opened Wrappers

  /** A sprite cut out of a sprite sheet; only its identity matters here. */
  datatype Sprite = Sprite(name: string)

  /**
   * The cells of a grid of sprites: `|rows|` rows of `width` sprites each.
   * A `Grid` is the contents of one `Sprite[,]` that the reshape built; the
   * generator only reads such arrays, so it is handed their contents.
   */
  datatype GridCells = GridCells(width: nat, rows: seq<seq<Sprite>>)

  type Grid = g: GridCells | forall r :: 0 <= r < |g.rows| ==> |g.rows[r]| == g.width
    witness GridCells(0, [])

  /** The contents of a `Sprite[,]`: row `i`, column `j` is `sprites[i, j]`. */
  function Contents(sprites: array2<Sprite>): (g: Grid)
    reads sprites
    ensures |g.rows| == sprites.Length0 && g.width == sprites.Length1
    ensures forall i, j :: 0 <= i < sprites.Length0 && 0 <= j < sprites.Length1 ==>
      g.rows[i][j] == sprites[i, j]
  {
    GridCells(sprites.Length1,
      seq(sprites.Length0, i reads sprites requires 0 <= i < sprites.Length0 =>
        seq(sprites.Length1, j reads sprites requires 0 <= j < sprites.Length1 => sprites[i, j])))
  }

  /**
   * `AnimationData`: the animation's name (`walk_down`, ...) and the row of
   * every variant grid that holds its frames.
   */
  datatype AnimationData = AnimationData(animationName: string, rowOffset: int)

  /** A folder asset (`DefaultAsset`): its instance id and its asset path. */
  datatype Folder = Folder(instanceId: int, path: string)

  /**
   * `AssetDatabase.GetAssetPath` of an optional folder: its asset path, and
   * the empty path for an unassigned one.
   */
  function FolderPath(folder: Option<Folder>): string
  {
    if folder.Some? then folder.value.path else ""
  }

  /** A sprite-sheet texture: its instance id and its name. */
  datatype Texture = Texture(instanceId: int, name: string)

  /** `SpriteSheetAnimationExportSettings`: unassigned object fields are `None`. */
  datatype ExportSettings = ExportSettings(
    exportFolder: Option<Folder>,
    animationPrefix: string,
    spriteSheet: Option<Texture>)

  /** The instance ids of the two object fields, `None` where unassigned. */
  function InstanceIds(settings: ExportSettings): (ids: (Option<int>, Option<int>))
    ensures ids.0.Some? <==> settings.exportFolder.Some?
    ensures ids.1.Some? <==> settings.spriteSheet.Some?
    ensures ids.0.Some? ==> ids.0.value == settings.exportFolder.value.instanceId
    ensures ids.1.Some? ==> ids.1.value == settings.spriteSheet.value.instanceId
  {
    (if settings.exportFolder.Some? then Some(settings.exportFolder.value.instanceId) else None,
     if settings.spriteSheet.Some? then Some(settings.spriteSheet.value.instanceId) else None)
  }

  /**
   * `ObjectReferenceKeyframe`: keyframe number `frame` of a clip shows
   * `sprite` (at time `frame / frameRate`).
   */
  datatype Keyframe = Keyframe(frame: nat, sprite: Sprite)

  /** An asset written to the project; clips are referred to by asset path. */
  datatype Asset =
    | AnimationClipAsset(path: string, keyframes: seq<Keyframe>)
    | AnimatorControllerAsset(path: string, motions: seq<string>)
    | AnimatorOverrideControllerAsset(
        path: string, controller: Option<string>, overrides: seq<(string, string)>)

  /**
   * What the editor's asset lookups answer, taken as given:
   * `clipsIn(folderPath, query)` lists the clip paths that
   * `LoadAllAssetsOfTypeFromFolder<AnimationClip>` finds, `controllerIn`
   * the first animator controller in a folder, `animatorSavePath` is
   * `GetAnimatorSavePath`, and `spritesOf` is `GetAllSpritesFromTexture`,
   * the sprites cut from a sheet in their stored order.
   */
  datatype AssetQueries = AssetQueries(
    clipsIn: (string, string) -> seq<string>,
    controllerIn: string -> Option<string>,
    animatorSavePath: (ExportSettings, int) -> string,
    spritesOf: Texture -> seq<Sprite>)
}
