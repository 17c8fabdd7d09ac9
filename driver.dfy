/**
 * The command-line driver of the profile builder (dock-profile.py, main).
 *
 * Argument parsing, the file system and the property-list and JSON readers are
 * outside the model: the options arrive as `Args`, every question the driver asks
 * the file system arrives as a boolean of `FileSystem`, the JSON reader's result as
 * a `JsonLoad`, the profile read back from disk as an `Option<Document>`, and the
 * two random UUIDs as strings. The error helper, which prints a banner and exits,
 * becomes the outcome `Exit`; an exception nobody catches becomes `Crashed`.
 */
module Driver {
  import opened Wrappers
  import opened Tiles
  import opened Categories
  import opened Profiles

  /** The four options; an option left off the command line is None. */
  datatype Args = Args(isNew: bool, identifier: Option<string>, profile: Option<string>,
                       input: Option<string>)

  /** An option counts as given when it is present and not empty (Python truthiness). */
  predicate Given(arg: Option<string>) {
    arg.Some? && arg.value != ""
  }

  /** The conditions the driver reports through its error helper. */
  datatype Failure =
    | MissingArgument
    | InputNotFound
    | ProfileAlreadyExists
    | MissingIdentifier
    | ProfileNotFound
    | InputUnreadable
    | InputMalformed
    | WriteFailed

  /** What the driver's checks decide before any profile is built. */
  datatype Decision = Reject(failure: Failure) | CreateNew(identifier: string) | UpdateExisting

  /** Both paths are given and the input file exists. */
  predicate InputReady(args: Args, inputIsFile: bool) {
    Given(args.input) && Given(args.profile) && inputIsFile
  }

  /**
   * The checks of main, in their order: the two paths, the input file, and then,
   * with `--new`, an existing profile before a missing identifier; without `--new`,
   * the identifier is never looked at.
   */
  function Decide(args: Args, inputIsFile: bool, profileIsFile: bool): (d: Decision)
    ensures d == Reject(MissingArgument) <==> !Given(args.input) || !Given(args.profile)
    ensures d == Reject(InputNotFound) <==> Given(args.input) && Given(args.profile) && !inputIsFile
    ensures d == Reject(ProfileAlreadyExists) <==> InputReady(args, inputIsFile) && args.isNew && profileIsFile
    ensures d == Reject(MissingIdentifier)
            <==> InputReady(args, inputIsFile) && args.isNew && !profileIsFile && !Given(args.identifier)
    ensures d.CreateNew?
            <==> InputReady(args, inputIsFile) && args.isNew && !profileIsFile && Given(args.identifier)
    ensures d.CreateNew? ==> d.identifier == args.identifier.value
    ensures d == UpdateExisting <==> InputReady(args, inputIsFile) && !args.isNew && profileIsFile
    ensures d == Reject(ProfileNotFound) <==> InputReady(args, inputIsFile) && !args.isNew && !profileIsFile
  {
    if !Given(args.input) || !Given(args.profile) then Reject(MissingArgument)
    else if !inputIsFile then Reject(InputNotFound)
    else if args.isNew then
      if profileIsFile then Reject(ProfileAlreadyExists)
      else if !Given(args.identifier) then Reject(MissingIdentifier)
      else CreateNew(args.identifier.value)
    else if profileIsFile then UpdateExisting
    else Reject(ProfileNotFound)
  }

  /** Without `--new`, the decision does not depend on `--identifier`. */
  lemma IdentifierIgnoredWithoutNew(args: Args, identifier: Option<string>, inputIsFile: bool, profileIsFile: bool)
    requires !args.isNew
    ensures Decide(args.(identifier := identifier), inputIsFile, profileIsFile)
            == Decide(args, inputIsFile, profileIsFile)
  {
  }

  /** One past the last '/' of `p`, or 0 when there is none: `p.rfind('/') + 1`. */
  function AfterLastSlash(p: string): (i: nat)
    ensures i <= |p|
    ensures i == 0 <==> '/' !in p
    ensures i > 0 ==> p[i - 1] == '/'
    ensures '/' !in p[i..]
  {
    if p == [] then 0
    else if p[|p| - 1] == '/' then |p|
    else
      var i := AfterLastSlash(p[..|p| - 1]);
      assert p[i..] == p[..|p| - 1][i..] + [p[|p| - 1]];
      assert '/' in p ==> p[|p| - 1] == '/' || '/' in p[..|p| - 1];
      i
  }

  predicate AllSlashes(s: string) {
    forall k :: 0 <= k < |s| ==> s[k] == '/'
  }

  /** `s.rstrip('/')`: the longest prefix of `s` that does not end in '/'. */
  function StripTrailingSlashes(s: string): (r: string)
    ensures r <= s
    ensures r == [] <==> AllSlashes(s)
    ensures r != [] ==> r[|r| - 1] != '/'
    ensures forall k :: |r| <= k < |s| ==> s[k] == '/'
  {
    if s == [] || s[|s| - 1] != '/' then s
    else
      var r := StripTrailingSlashes(s[..|s| - 1]);
      assert AllSlashes(s[..|s| - 1]) ==> AllSlashes(s);
      r
  }

  /**
   * `os.path.dirname(p)` on a POSIX system: everything up to the last '/', with the
   * trailing slashes removed unless that part is all slashes.
   */
  function DirName(p: string): (d: string)
    ensures d == "" <==> '/' !in p
    ensures d <= p
  {
    var head := p[..AfterLastSlash(p)];
    if head != "" && !AllSlashes(head) then StripTrailingSlashes(head) else head
  }

  /**
   * How writing the profile ends: it succeeds, raises an I/O error (which the
   * create branch catches), or is rejected by the property-list writer with an
   * error that is not an I/O error (a string holding control characters, a
   * null value), which no branch catches.
   */
  datatype WriteResult = WriteOk | WriteIOError | WriteRejected

  /** The answers the file system gives the driver during one run. */
  datatype FileSystem = FileSystem(
    inputIsFile: bool,        // the input path names a regular file
    profileIsFile: bool,      // the profile path names a regular file
    parentExists: bool,       // the (non-empty) parent directory of the profile path exists
    makedirsSucceeds: bool,   // creating that (non-empty) parent directory succeeds
    write: WriteResult)       // how writing the profile ends

  /**
   * The directory step of create mode as written: the parent is created unless
   * `os.path.exists` reports it, and `os.path.exists("")` is false, so a profile
   * path without a '/' reaches `os.makedirs("")`, which raises an error nothing
   * catches. True when the run goes on to the write.
   */
  function PrepareParentAsWritten(profile: string, fs: FileSystem): (proceeds: bool)
    ensures '/' !in profile ==> !proceeds
    ensures proceeds <==> DirName(profile) != "" && (fs.parentExists || fs.makedirsSucceeds)
  {
    var dir := DirName(profile);
    var parentReported := dir != "" && fs.parentExists;
    if parentReported then true
    else dir != "" && fs.makedirsSucceeds
  }

  /**
   * The directory step as intended: a profile path without a directory part names a
   * file in the working directory, which needs no directory to be created.
   */
  function PrepareParent(profile: string, fs: FileSystem): (proceeds: bool)
    ensures '/' !in profile ==> proceeds
    ensures !proceeds <==> DirName(profile) != "" && !fs.parentExists && !fs.makedirsSucceeds
  {
    var dir := DirName(profile);
    dir == "" || fs.parentExists || fs.makedirsSucceeds
  }

  /** Which directory step a run takes: the script's own, or the corrected one. */
  datatype DirectoryStep = AsWritten | Corrected

  /** The outcome of the directory step `step` for the profile path: true when the run goes on. */
  function ParentReady(step: DirectoryStep, profile: string, fs: FileSystem): bool {
    match step
    case AsWritten => PrepareParentAsWritten(profile, fs)
    case Corrected => PrepareParent(profile, fs)
  }

  /** The create run with `--profile Dock.mobileconfig` stops at the directory step as written. */
  lemma BareProfileNameCrashesAsWritten(fs: FileSystem)
    ensures !PrepareParentAsWritten("Dock.mobileconfig", fs)
    ensures PrepareParent("Dock.mobileconfig", fs)
  {
    assert '/' !in "Dock.mobileconfig";
  }

  /** The correction changes the directory step only for a path without a '/'. */
  lemma PrepareParentCorrectionIsLocal(profile: string, fs: FileSystem)
    requires '/' in profile
    ensures PrepareParent(profile, fs) == PrepareParentAsWritten(profile, fs)
  {
  }

  /** The JSON reader's result: the parsed categories, an I/O error or a syntax error. */
  datatype JsonLoad = Parsed(input: Input) | Unreadable | Malformed

  /** How one run ends. */
  datatype Outcome = Exit(failure: Failure) | Crashed | Written(doc: Document)

  /**
   * One run of the driver. `stored` is the profile read back from disk in update
   * mode (None when it cannot be read); `profileUUID` and `payloadUUID` are the UUIDs
   * a new profile receives. With `step == AsWritten` this is main as the script has
   * it; with `step == Corrected` the directory step of create mode is the corrected one.
   */
  method Run(args: Args, fs: FileSystem, json: JsonLoad, stored: Option<Document>,
             profileUUID: string, payloadUUID: string, step: DirectoryStep) returns (out: Outcome)
    ensures var d := Decide(args, fs.inputIsFile, fs.profileIsFile);
      && (d.Reject? ==> out == Exit(d.failure))
      && (d.CreateNew? && json.Parsed? ==>
            (out.Written? <==> ParentReady(step, args.profile.value, fs) && fs.write == WriteOk))
      && (d.CreateNew? && json.Parsed? && ParentReady(step, args.profile.value, fs) && fs.write == WriteIOError ==>
            out == Exit(WriteFailed))
      && (d.CreateNew? && out.Written? ==>
            (json.Parsed?
             && out.doc == NewDocument(d.identifier, profileUUID, payloadUUID).(
                  staticApps := TilesUnder(json.input, App), staticOthers := OthersOf(json.input))))
      && (d.UpdateExisting? ==> (out.Written? <==> stored.Some? && json.Parsed? && fs.write == WriteOk))
      && (d.UpdateExisting? && out.Written? ==>
            (stored.Some? && json.Parsed?
             && out.doc == stored.value.(
                  payload := stored.value.payload.(version := stored.value.payload.version + 1),
                  staticApps := TilesUnder(json.input, App), staticOthers := OthersOf(json.input))))
      && (d.CreateNew? || (d.UpdateExisting? && stored.Some?) ==>
            (json.Unreadable? ==> out == Exit(InputUnreadable))
            && (json.Malformed? ==> out == Exit(InputMalformed)))
      && (out == Crashed <==>
            (d.CreateNew? && json.Parsed?
             && (!ParentReady(step, args.profile.value, fs) || fs.write == WriteRejected))
            || (d.UpdateExisting? && (stored.None? || (json.Parsed? && fs.write != WriteOk))))
    ensures out.Written? ==> WellKinded(out.doc.staticApps, out.doc.staticOthers)
    ensures Decide(args, fs.inputIsFile, fs.profileIsFile).CreateNew? && json.Parsed?
            && '/' !in args.profile.value && fs.write != WriteRejected ==>
              (out == Crashed <==> step == AsWritten)
  {
    var decision := Decide(args, fs.inputIsFile, fs.profileIsFile);
    match decision {
      case Reject(failure) =>
        out := Exit(failure);
      case CreateNew(identifier) =>
        var profile := new Profile(NewDocument(identifier, profileUUID, payloadUUID));
        match json {
          case Unreadable => out := Exit(InputUnreadable);
          case Malformed => out := Exit(InputMalformed);
          case Parsed(input) =>
            profile.AddItems(input);
            if !ParentReady(step, args.profile.value, fs) {
              out := Crashed;
            } else {
              match fs.write {
                case WriteOk => out := Written(profile.Snapshot());
                case WriteIOError => out := Exit(WriteFailed);
                case WriteRejected => out := Crashed;
              }
            }
        }
      case UpdateExisting =>
        match stored {
          case None => out := Crashed;
          case Some(doc) =>
            var profile := new Profile(doc);
            match json {
              case Unreadable => out := Exit(InputUnreadable);
              case Malformed => out := Exit(InputMalformed);
              case Parsed(input) =>
                profile.Update(input);
                if fs.write == WriteOk {
                  out := Written(profile.Snapshot());
                } else {
                  out := Crashed;
                }
            }
        }
    }
  }

  const FinderPath := "/System/Library/CoreServices/Finder.app"

  /**
   * A create run as written, into `/Library/Profiles`, from an input with one
   * `static-apps` entry: the profile written has version 1 at both levels, the one
   * Finder app tile and no folder tile.
   */
  method FinderCreateRun() returns (out: Outcome)
    ensures out.Written?
    ensures out.doc.header.version == 1 && out.doc.payload.version == 1
    ensures out.doc.header.identifier == "com.example.dock"
    ensures out.doc.staticApps == [AppTile("Finder", FinderPath)] && out.doc.staticOthers == []
  {
    var input := [Category(StaticAppsKey, [("Finder", FinderPath)])];
    var profilePath := "/Library/Profiles/Dock.mobileconfig";
    assert profilePath[0] == '/';
    FinderExample();
    out := Run(Args(true, Some("com.example.dock"), Some(profilePath), Some("dock.json")),
               FileSystem(true, false, true, true, WriteOk), Parsed(input), None,
               "profile-uuid", "payload-uuid", AsWritten);
  }

  /**
   * An update run as written of a stored profile whose payload is at version 3 and
   * which holds an app tile, from an input with one `relative-others` entry: the
   * profile written has payload version 4, the top-level version and UUIDs it had,
   * no app tile and the one home-relative Downloads tile.
   */
  method DownloadsUpdateRun() returns (out: Outcome)
    ensures out.Written?
    ensures out.doc.payload.version == 4 && out.doc.header.version == 1
    ensures out.doc.header.uuid == "profile-uuid" && out.doc.payload.uuid == "payload-uuid"
    ensures out.doc.staticApps == []
    ensures out.doc.staticOthers == [RelativeOtherTile("Downloads", "Downloads")]
  {
    var input := [Category(RelativeOthersKey, [("Downloads", "Downloads")])];
    var created := NewDocument("com.example.dock", "profile-uuid", "payload-uuid");
    var stored := created.(payload := created.payload.(version := 3),
                         staticApps := [AppTile("Finder", FinderPath)]);
    DownloadsExample();
    out := Run(Args(false, None, Some("Dock.mobileconfig"), Some("dock.json")),
               FileSystem(true, true, false, false, WriteOk), Parsed(input), Some(stored),
               "unused-uuid", "unused-uuid", AsWritten);
  }
}
