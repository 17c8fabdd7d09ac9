/**
 * The configuration profile and the operations that build it (dock-profile.py,
 * createProfile, addStaticApp, addStaticOther, addRelativeOther, addItemsToProfile
 * and updateProfile).
 *
 * A profile is a dictionary with top-level identity keys and a one-element
 * `PayloadContent` list whose element holds the dock settings and the two tile lists.
 * The builder changes that element in place, so the in-memory profile is the class
 * `Profile`; `Document` is its value, as it is built from scratch or read from disk
 * and as it is written out.
 */
module Profiles {
  import opened Tiles
  import opened Categories

  /** The top-level keys of the profile. */
  datatype Header = Header(
    identifier: string, removalDisallowed: bool, scope: string, payloadType: string,
    uuid: string, organization: string, version: int, displayName: string,
    description: string)

  /** The identity keys of `PayloadContent[0]`. */
  datatype PayloadHeader = PayloadHeader(
    payloadType: string, version: int, identifier: string, enabled: bool,
    uuid: string, displayName: string)

  /** The dock settings of `PayloadContent[0]`. */
  datatype DockSettings = DockSettings(
    tileSize: int, sizeImmutable: bool, magnification: bool, largeSize: int,
    magnifyImmutable: bool, magsizeImmutable: bool, orientation: string,
    positionImmutable: bool, minEffect: string, minEffectImmutable: bool,
    launchAnim: bool, launchAnimImmutable: bool, autoHide: bool,
    showProcessIndicators: bool, showProcessIndicatorsImmutable: bool,
    contentsImmutable: bool, staticOnly: bool)

  /** A whole profile: `staticApps` and `staticOthers` are the two lists of `PayloadContent[0]`. */
  datatype Document = Document(
    header: Header, payload: PayloadHeader, settings: DockSettings,
    staticApps: seq<Tile>, staticOthers: seq<Tile>)

  /** The fixed dock settings of every new profile. */
  const ManagedDock := DockSettings(
    64, true, false, 64, true, true, "bottom", true, "genie", true,
    true, true, false, false, true, true, true)

  /** `static-apps` holds only app tiles and `static-others` only directory tiles. */
  predicate WellKinded(apps: seq<Tile>, others: seq<Tile>) {
    && (forall i :: 0 <= i < |apps| ==> HasKind(apps[i], App))
    && (forall i :: 0 <= i < |others| ==> HasKind(others[i], RelativeOther) || HasKind(others[i], AbsoluteOther))
  }

  lemma AppendAssociates(a: seq<Tile>, b: seq<Tile>, c: seq<Tile>)
    ensures a + b + c == a + (b + c)
  {
  }

  /** Appending app tiles and directory tiles keeps the lists well kinded, and only then. */
  lemma WellKindedAppend(apps: seq<Tile>, others: seq<Tile>, moreApps: seq<Tile>, moreOthers: seq<Tile>)
    requires forall i :: 0 <= i < |moreApps| ==> HasKind(moreApps[i], App)
    requires forall i :: 0 <= i < |moreOthers| ==> HasKind(moreOthers[i], RelativeOther) || HasKind(moreOthers[i], AbsoluteOther)
    ensures WellKinded(apps + moreApps, others + moreOthers) == WellKinded(apps, others)
  {
    if WellKinded(apps + moreApps, others + moreOthers) {
      forall i | 0 <= i < |apps| ensures HasKind(apps[i], App) {
        assert apps[i] == (apps + moreApps)[i];
      }
      forall i | 0 <= i < |others| ensures HasKind(others[i], RelativeOther) || HasKind(others[i], AbsoluteOther) {
        assert others[i] == (others + moreOthers)[i];
      }
    }
  }

  /**
   * The skeleton built by createProfile for `identifier`, with the two UUIDs it
   * would draw at random. Its other two parameters are never read by the source.
   */
  function NewDocument(identifier: string, profileUUID: string, payloadUUID: string): (d: Document)
    ensures d.staticApps == [] && d.staticOthers == []
    ensures d.header.version == 1 && d.payload.version == 1
    ensures d.header.identifier == identifier && d.payload.identifier == identifier
    ensures d.header.uuid == profileUUID && d.payload.uuid == payloadUUID
    ensures d.settings == ManagedDock
    ensures WellKinded(d.staticApps, d.staticOthers)
  {
    Document(
      Header(identifier, false, "User", "Configuration", profileUUID, "Lafayette College",
             1, "Dock Profile", "Dock settings"),
      PayloadHeader("com.apple.dock", 1, identifier, true, payloadUUID, "Dock"),
      ManagedDock, [], [])
  }

  /** A profile dictionary held in memory while the builder changes it. */
  class Profile {
    var header: Header
    var payload: PayloadHeader
    var settings: DockSettings
    var staticApps: seq<Tile>
    var staticOthers: seq<Tile>

    /** The profile's current value. */
    function Snapshot(): Document
      reads this
    {
      Document(header, payload, settings, staticApps, staticOthers)
    }

    /** Both tile lists hold only tiles of the shapes that belong there. */
    predicate Valid()
      reads this
    {
      WellKinded(staticApps, staticOthers)
    }

    /** Holds `d` in memory: a skeleton from createProfile or a profile read from disk. */
    constructor (d: Document)
      ensures Snapshot() == d
    {
      header := d.header;
      payload := d.payload;
      settings := d.settings;
      staticApps := d.staticApps;
      staticOthers := d.staticOthers;
    }

    /** Appends one app tile to `static-apps`; nothing else changes. */
    method AddStaticApp(caption: string, path: string)
      modifies this`staticApps
      ensures staticApps == old(staticApps) + [AppTile(caption, path)]
      ensures Valid() == old(Valid())
    {
      WellKindedAppend(staticApps, staticOthers, [AppTile(caption, path)], []);
      staticApps := staticApps + [AppTile(caption, path)];
      assert staticOthers + [] == staticOthers;
    }

    /** Appends one absolute directory tile to `static-others`; nothing else changes. */
    method AddStaticOther(caption: string, path: string)
      modifies this`staticOthers
      ensures staticOthers == old(staticOthers) + [StaticOtherTile(caption, path)]
      ensures Valid() == old(Valid())
    {
      WellKindedAppend(staticApps, staticOthers, [], [StaticOtherTile(caption, path)]);
      staticOthers := staticOthers + [StaticOtherTile(caption, path)];
      assert staticApps + [] == staticApps;
    }

    /** Appends one home-relative directory tile to `static-others`; nothing else changes. */
    method AddRelativeOther(caption: string, path: string)
      modifies this`staticOthers
      ensures staticOthers == old(staticOthers) + [RelativeOtherTile(caption, path)]
      ensures Valid() == old(Valid())
    {
      WellKindedAppend(staticApps, staticOthers, [], [RelativeOtherTile(caption, path)]);
      staticOthers := staticOthers + [RelativeOtherTile(caption, path)];
      assert staticApps + [] == staticApps;
    }

    /** The inner loop over a `static-apps` category: one app tile per entry, in entry order. */
    method AddApps(entries: seq<Entry>)
      modifies this`staticApps
      ensures staticApps == old(staticApps) + TilesFor(App, entries)
    {
      var j := 0;
      while j < |entries|
        invariant 0 <= j <= |entries|
        invariant staticApps == old(staticApps) + TilesFor(App, entries[..j])
      {
        var (caption, path) := entries[j];
        TilesForStep(App, entries, j);
        AddStaticApp(caption, path);
        j := j + 1;
      }
      assert entries[..j] == entries;
    }

    /** The inner loop over a `relative-others` category: one home-relative tile per entry, in entry order. */
    method AddRelativeOthers(entries: seq<Entry>)
      modifies this`staticOthers
      ensures staticOthers == old(staticOthers) + TilesFor(RelativeOther, entries)
    {
      var j := 0;
      while j < |entries|
        invariant 0 <= j <= |entries|
        invariant staticOthers == old(staticOthers) + TilesFor(RelativeOther, entries[..j])
      {
        var (caption, path) := entries[j];
        TilesForStep(RelativeOther, entries, j);
        AddRelativeOther(caption, path);
        j := j + 1;
      }
      assert entries[..j] == entries;
    }

    /** The inner loop over a `static-others` category: one absolute folder tile per entry, in entry order. */
    method AddStaticOthers(entries: seq<Entry>)
      modifies this`staticOthers
      ensures staticOthers == old(staticOthers) + TilesFor(AbsoluteOther, entries)
    {
      var j := 0;
      while j < |entries|
        invariant 0 <= j <= |entries|
        invariant staticOthers == old(staticOthers) + TilesFor(AbsoluteOther, entries[..j])
      {
        var (caption, path) := entries[j];
        TilesForStep(AbsoluteOther, entries, j);
        AddStaticOther(caption, path);
        j := j + 1;
      }
      assert entries[..j] == entries;
    }

    /**
     * One pass of the outer loop of addItemsToProfile: appends one tile per entry
     * when the category's name is one of the three recognised ones, and nothing
     * otherwise.
     */
    method AddCategory(category: Category)
      modifies this`staticApps, this`staticOthers
      ensures staticApps == old(staticApps) + CategoryTiles(category, App)
      ensures staticOthers == old(staticOthers) + OtherTiles(category)
    {
      if category.name == StaticAppsKey {
        AddApps(category.entries);
      }
      if category.name == RelativeOthersKey {
        AddRelativeOthers(category.entries);
      }
      if category.name == StaticOthersKey {
        AddStaticOthers(category.entries);
      }
      if !Recognised(category.name) {
        assert staticApps + [] == staticApps && staticOthers + [] == staticOthers;
      }
    }

    /**
     * Walks the categories of `input` and appends one tile per entry of a recognised
     * category; other categories are skipped. Only the two tile lists change.
     */
    method AddItems(input: Input)
      modifies this`staticApps, this`staticOthers
      ensures staticApps == old(staticApps) + TilesUnder(input, App)
      ensures staticOthers == old(staticOthers) + OthersOf(input)
      ensures Valid() == old(Valid())
    {
      var i := 0;
      while i < |input|
        invariant 0 <= i <= |input|
        invariant staticApps == old(staticApps) + TilesUnder(input[..i], App)
        invariant staticOthers == old(staticOthers) + OthersOf(input[..i])
      {
        AddCategory(input[i]);
        PrefixStep(input, i);
        AppendAssociates(old(staticApps), TilesUnder(input[..i], App), CategoryTiles(input[i], App));
        AppendAssociates(old(staticOthers), OthersOf(input[..i]), OtherTiles(input[i]));
        i := i + 1;
      }
      assert input[..i] == input;
      WellKindedAppend(old(staticApps), old(staticOthers), TilesUnder(input, App), OthersOf(input));
    }

    /**
     * Empties both tile lists, bumps the version of `PayloadContent[0]` by one and
     * appends the tiles of `input`. Nothing of the old lists survives, and the
     * top-level version, the UUIDs, the identifiers and the settings are untouched.
     */
    method Update(input: Input)
      modifies this`staticApps, this`staticOthers, this`payload
      ensures staticApps == TilesUnder(input, App)
      ensures staticOthers == OthersOf(input)
      ensures payload == old(payload).(version := old(payload).version + 1)
      ensures Valid()
    {
      staticApps := [];
      staticOthers := [];
      payload := payload.(version := payload.version + 1);
      AddItems(input);
    }
  }
}
