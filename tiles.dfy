/**
 * The three dock tile shapes that the profile builder appends to a dock payload
 * (dock-profile.py, addStaticApp, addStaticOther and addRelativeOther).
 *
 * A tile is a property-list dictionary; each shape has its own set of keys, so the
 * shapes are the variants of `TileData`. Keys whose values are fixed by the source
 * (`mcx_typehint`, `tile-type`, `_CFURLStringType`, `file-type`, `arrangement`,
 * `displayas`, `showas`) are kept as fields so that their values are part of the model.
 */
module Tiles {
  import opened Wrappers

  /** Which of the three tile shapes a tile has. */
  datatype Kind = App | AbsoluteOther | RelativeOther

  /** What a tile stands for: its shape, its caption (the `file-label`) and its path. */
  datatype Item = Item(kind: Kind, caption: string, path: string)

  /** The `file-data` dictionary: `_CFURLString` and `_CFURLStringType`. */
  datatype FileData = FileData(urlString: string, urlStringType: int)

  /** The `tile-data` dictionary, one variant per key set. */
  datatype TileData =
    | FileTileData(fileLabel: string, fileData: FileData)
    | DirectoryTileData(fileLabel: string, fileData: FileData, fileType: int)
    | RelativeTileData(fileLabel: string, homeDirectoryRelative: string,
                       arrangement: int, displayAs: int, showAs: int)

  /** One entry of `static-apps` or `static-others`. */
  datatype Tile = Tile(mcxTypehint: int, tileType: string, tileData: TileData)

  const FileTileType := "file-tile"
  const DirectoryTileType := "directory-tile"

  /**
   * Reads a tile back as the item it stands for. Only the exact shapes the builder
   * produces are recognised; any other dictionary reads as None.
   */
  function Decode(t: Tile): Option<Item> {
    match t.tileData
    case FileTileData(caption, fd) =>
      if t.mcxTypehint == 1 && t.tileType == FileTileType && fd.urlStringType == 0
      then Some(Item(App, caption, fd.urlString))
      else None
    case DirectoryTileData(caption, fd, fileType) =>
      if t.mcxTypehint == 2 && t.tileType == DirectoryTileType && fd.urlStringType == 0
         && fileType == 2
      then Some(Item(AbsoluteOther, caption, fd.urlString))
      else None
    case RelativeTileData(caption, relative, arrangement, displayAs, showAs) =>
      if t.mcxTypehint == 2 && t.tileType == DirectoryTileType
         && arrangement == 2 && displayAs == 2 && showAs == 1
      then Some(Item(RelativeOther, caption, relative))
      else None
  }

  /** The tile reads back as an item of kind `k`. */
  predicate HasKind(t: Tile, k: Kind) {
    Decode(t).Some? && Decode(t).value.kind == k
  }

  /** The application tile built by addStaticApp. */
  function AppTile(caption: string, path: string): (t: Tile)
    ensures Decode(t) == Some(Item(App, caption, path))
    ensures t.tileType == FileTileType && t.tileData.FileTileData?
  {
    Tile(1, FileTileType, FileTileData(caption, FileData(path, 0)))
  }

  /** The absolute directory tile built by addStaticOther. */
  function StaticOtherTile(caption: string, path: string): (t: Tile)
    ensures Decode(t) == Some(Item(AbsoluteOther, caption, path))
    ensures t.tileType == DirectoryTileType && t.tileData.DirectoryTileData?
  {
    Tile(2, DirectoryTileType, DirectoryTileData(caption, FileData(path, 0), 2))
  }

  /** The home-relative directory tile built by addRelativeOther: no `file-data` at all. */
  function RelativeOtherTile(caption: string, path: string): (t: Tile)
    ensures Decode(t) == Some(Item(RelativeOther, caption, path))
    ensures t.tileType == DirectoryTileType && t.tileData.RelativeTileData?
  {
    Tile(2, DirectoryTileType, RelativeTileData(caption, path, 2, 2, 1))
  }

  /** The tile for an item, dispatched on its kind. */
  function Build(item: Item): (t: Tile)
    ensures Decode(t) == Some(item)
  {
    match item.kind
    case App => AppTile(item.caption, item.path)
    case AbsoluteOther => StaticOtherTile(item.caption, item.path)
    case RelativeOther => RelativeOtherTile(item.caption, item.path)
  }

  /** Decoding loses nothing: a recognised tile is exactly the tile built from what it reads as. */
  lemma BuildDecode(t: Tile)
    requires Decode(t).Some?
    ensures Build(Decode(t).value) == t
  {
  }

  /** Two tiles that read as the same item are the same tile. */
  lemma DecodeInjective(t1: Tile, t2: Tile)
    requires Decode(t1).Some? && Decode(t1) == Decode(t2)
    ensures t1 == t2
  {
    BuildDecode(t1);
    BuildDecode(t2);
  }
}
