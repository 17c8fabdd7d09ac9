/**
 * The parsed JSON input of the profile builder and the tiles it stands for
 * (dock-profile.py, addItemsToProfile).
 *
 * The input is a JSON object whose keys are category names and whose values map a
 * caption to a path. It is modelled as the sequence of its categories, each with the
 * sequence of its entries, in the order the builder iterates them. The functions here
 * say which tiles the builder appends for such an input; the lemmas say how many,
 * of which shape, in which order, and that unknown categories add nothing.
 */
module Categories {
  import opened Wrappers
  import opened Tiles

  /** One `caption: path` pair of a category's JSON object. */
  type Entry = (string, string)

  /** One key of the input object with its entries. */
  datatype Category = Category(name: string, entries: seq<Entry>)

  /** The input object, as the builder iterates it. */
  type Input = seq<Category>

  const StaticAppsKey := "static-apps"
  const RelativeOthersKey := "relative-others"
  const StaticOthersKey := "static-others"

  /** The category name whose entries become tiles of kind `k`. */
  function KeyOf(k: Kind): string {
    match k
    case App => StaticAppsKey
    case RelativeOther => RelativeOthersKey
    case AbsoluteOther => StaticOthersKey
  }

  /** One of the three category names the builder dispatches on. */
  predicate Recognised(name: string) {
    name == StaticAppsKey || name == RelativeOthersKey || name == StaticOthersKey
  }

  /** The tiles of kind `kind` for `entries`, in entry order. */
  function TilesFor(kind: Kind, entries: seq<Entry>): (r: seq<Tile>)
    ensures |r| == |entries|
    ensures forall j :: 0 <= j < |r| ==> Decode(r[j]) == Some(Item(kind, entries[j].0, entries[j].1))
  {
    if entries == [] then []
    else
      var last := entries[|entries| - 1];
      TilesFor(kind, entries[..|entries| - 1]) + [Build(Item(kind, last.0, last.1))]
  }

  /** Taking one more entry appends that entry's tile. */
  lemma TilesForStep(kind: Kind, entries: seq<Entry>, j: nat)
    requires j < |entries|
    ensures TilesFor(kind, entries[..j + 1])
            == TilesFor(kind, entries[..j]) + [Build(Item(kind, entries[j].0, entries[j].1))]
  {
    assert entries[..j + 1][..j] == entries[..j];
  }

  /** The number of entries under categories named `key`. */
  function EntryCount(input: Input, key: string): nat {
    if input == [] then 0
    else
      var c := input[|input| - 1];
      EntryCount(input[..|input| - 1], key) + (if c.name == key then |c.entries| else 0)
  }

  /** The tiles of kind `kind` that one category contributes. */
  function CategoryTiles(c: Category, kind: Kind): seq<Tile> {
    if c.name == KeyOf(kind) then TilesFor(kind, c.entries) else []
  }

  /**
   * All tiles of kind `kind` for the input, category after category. For `App`
   * these are what the builder appends to `static-apps`.
   */
  function TilesUnder(input: Input, kind: Kind): (r: seq<Tile>)
    ensures |r| == EntryCount(input, KeyOf(kind))
    ensures forall j :: 0 <= j < |r| ==> HasKind(r[j], kind)
  {
    if input == [] then []
    else TilesUnder(input[..|input| - 1], kind) + CategoryTiles(input[|input| - 1], kind)
  }

  /** The tiles one category contributes to `static-others`. */
  function OtherTiles(c: Category): seq<Tile> {
    if c.name == RelativeOthersKey then TilesFor(RelativeOther, c.entries)
    else if c.name == StaticOthersKey then TilesFor(AbsoluteOther, c.entries)
    else []
  }

  /**
   * What the builder appends to `static-others`: the home-relative and the absolute
   * directory tiles, both in this one list, category after category.
   */
  function OthersOf(input: Input): (r: seq<Tile>)
    ensures |r| == EntryCount(input, RelativeOthersKey) + EntryCount(input, StaticOthersKey)
    ensures forall j :: 0 <= j < |r| ==> HasKind(r[j], RelativeOther) || HasKind(r[j], AbsoluteOther)
  {
    if input == [] then []
    else OthersOf(input[..|input| - 1]) + OtherTiles(input[|input| - 1])
  }

  /** Taking one more category of the input appends that category's tiles. */
  lemma PrefixStep(input: Input, i: nat)
    requires i < |input|
    ensures TilesUnder(input[..i + 1], App) == TilesUnder(input[..i], App) + CategoryTiles(input[i], App)
    ensures OthersOf(input[..i + 1]) == OthersOf(input[..i]) + OtherTiles(input[i])
  {
    assert input[..i + 1][..i] == input[..i];
  }

  /** The tiles of `tiles` that read as kind `kind`, in order. */
  function Select(tiles: seq<Tile>, kind: Kind): seq<Tile> {
    if tiles == [] then []
    else Select(tiles[..|tiles| - 1], kind)
         + (if HasKind(tiles[|tiles| - 1], kind) then [tiles[|tiles| - 1]] else [])
  }

  lemma {:induction false} TilesUnderConcat(a: Input, b: Input, kind: Kind)
    ensures TilesUnder(a + b, kind) == TilesUnder(a, kind) + TilesUnder(b, kind)
  {
    if b != [] {
      var b' := b[..|b| - 1];
      assert (a + b)[..|a + b| - 1] == a + b';
      TilesUnderConcat(a, b', kind);
    } else {
      assert a + b == a;
    }
  }

  lemma {:induction false} OthersOfConcat(a: Input, b: Input)
    ensures OthersOf(a + b) == OthersOf(a) + OthersOf(b)
  {
    if b != [] {
      var b' := b[..|b| - 1];
      assert (a + b)[..|a + b| - 1] == a + b';
      OthersOfConcat(a, b');
    } else {
      assert a + b == a;
    }
  }

  /** A category with any other name adds no tile to either list, wherever it stands. */
  lemma UnknownCategoryIgnored(a: Input, c: Category, b: Input)
    requires !Recognised(c.name)
    ensures TilesUnder(a + [c] + b, App) == TilesUnder(a + b, App)
    ensures OthersOf(a + [c] + b) == OthersOf(a + b)
  {
    assert [c][..0] == [];
    var apps := TilesUnder(a + [c], App);
    assert apps == TilesUnder(a, App) by {
      assert (a + [c])[..|a|] == a;
    }
    TilesUnderConcat(a + [c], b, App);
    TilesUnderConcat(a, b, App);
    var others := OthersOf(a + [c]);
    assert others == OthersOf(a) by {
      assert (a + [c])[..|a|] == a;
    }
    OthersOfConcat(a + [c], b);
    OthersOfConcat(a, b);
  }

  lemma {:induction false} SelectConcat(s: seq<Tile>, t: seq<Tile>, kind: Kind)
    ensures Select(s + t, kind) == Select(s, kind) + Select(t, kind)
  {
    if t != [] {
      var t' := t[..|t| - 1];
      assert (s + t)[..|s + t| - 1] == s + t';
      SelectConcat(s, t', kind);
    } else {
      assert s + t == s;
    }
  }

  /** Selecting a kind keeps a list of that kind whole and drops a list of another kind. */
  lemma {:induction false} SelectUniform(s: seq<Tile>, k: Kind, kind: Kind)
    requires forall j :: 0 <= j < |s| ==> HasKind(s[j], k)
    ensures Select(s, kind) == if k == kind then s else []
  {
    if s != [] {
      SelectUniform(s[..|s| - 1], k, kind);
    }
  }

  /** From one category's folder tiles, each kind selects exactly that category's tiles of the kind. */
  lemma SelectOtherTiles(c: Category)
    ensures Select(OtherTiles(c), RelativeOther) == CategoryTiles(c, RelativeOther)
    ensures Select(OtherTiles(c), AbsoluteOther) == CategoryTiles(c, AbsoluteOther)
  {
    if c.name == RelativeOthersKey {
      SelectUniform(OtherTiles(c), RelativeOther, RelativeOther);
      SelectUniform(OtherTiles(c), RelativeOther, AbsoluteOther);
    } else if c.name == StaticOthersKey {
      SelectUniform(OtherTiles(c), AbsoluteOther, RelativeOther);
      SelectUniform(OtherTiles(c), AbsoluteOther, AbsoluteOther);
    }
  }

  /**
   * Within `static-others`, the home-relative tiles are exactly those of the
   * `relative-others` categories and the absolute ones exactly those of the
   * `static-others` categories, each in its own order; how the two interleave
   * is left open.
   */
  lemma {:induction false} OthersByKind(input: Input)
    ensures Select(OthersOf(input), RelativeOther) == TilesUnder(input, RelativeOther)
    ensures Select(OthersOf(input), AbsoluteOther) == TilesUnder(input, AbsoluteOther)
  {
    if input != [] {
      var init, c := input[..|input| - 1], input[|input| - 1];
      OthersByKind(init);
      SelectConcat(OthersOf(init), OtherTiles(c), RelativeOther);
      SelectConcat(OthersOf(init), OtherTiles(c), AbsoluteOther);
      SelectOtherTiles(c);
    }
  }

  /**
   * The input with one application under `static-apps` gives that one app tile and
   * no directory tile.
   */
  lemma FinderExample()
    ensures
      var input := [Category(StaticAppsKey, [("Finder", "/System/Library/CoreServices/Finder.app")])];
      TilesUnder(input, App) == [AppTile("Finder", "/System/Library/CoreServices/Finder.app")]
      && OthersOf(input) == []
  {
    var input := [Category(StaticAppsKey, [("Finder", "/System/Library/CoreServices/Finder.app")])];
    assert input[..0] == [];
  }

  /**
   * The input with one `relative-others` entry gives one home-relative directory tile
   * and no app tile.
   */
  lemma DownloadsExample()
    ensures
      var input := [Category(RelativeOthersKey, [("Downloads", "Downloads")])];
      TilesUnder(input, App) == [] && OthersOf(input) == [RelativeOtherTile("Downloads", "Downloads")]
  {
    var input := [Category(RelativeOthersKey, [("Downloads", "Downloads")])];
    assert input[..0] == [];
  }
}
