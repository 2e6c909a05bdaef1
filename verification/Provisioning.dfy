/**
 Provisioning the location endpoint (internal/linkcore/location_http.go, config.go): a credentials file, a
 connection document and the profile, written in this order under arbitrary failures of the file system.
 */
module Provisioning {
  import opened Common

  type Path = string

  type Files = map<Path, Content>

  /** What the written documents say; the certificate and the key are one opaque identity. */
  datatype LocationConfig = LocationConfig(listen: string, credentials: Path)

  datatype Config = Config(location: Option<LocationConfig>, rest: string)

  datatype Content =
    | Credentials(identity: nat, token: string)
    | Connection(url: string, identity: nat, token: string)
    | Profile(config: Config)
    | Partial
    | Other(id: nat)

  // ----- One file at a time

  /** How creating and writing a file turns out; a failed close may or may not have lost the data. */
  datatype WriteFault = NoFault | OpenFails | WriteFails | CloseFails(lost: bool)

  /** Everything that may go wrong in WriteConfig, and the name CreateTemp picks. */
  datatype ConfigFaults = ConfigFaults(
    valid: bool,
    creates: bool,
    temporary: Path,
    protects: bool,
    encodes: bool,
    syncs: bool,
    closes: bool,
    renames: bool,
    removes: bool)

  predicate CommitWorks(f: ConfigFaults) {
    f.valid && f.creates && f.protects && f.encodes && f.syncs && f.closes && f.renames
  }

  /** A failed commit leaves no temporary file behind. */
  predicate CommitClean(f: ConfigFaults) {
    !f.valid || !f.creates || f.removes
  }

  function WriteEffect(files: Files, path: Path, content: Content, fault: WriteFault): Files {
    if path in files || fault.OpenFails? then files
    else files[path := if fault.NoFault? || (fault.CloseFails? && !fault.lost) then content else Partial]
  }

  function RemoveEffect(files: Files, path: Path, works: bool): Files {
    if works then files - {path} else files
  }

  function CommitEffect(files: Files, path: Path, config: Config, f: ConfigFaults): Files {
    if !IsAbsolute(path) then files
    else if CommitWorks(f) then files[path := Profile(config)]
    else if CommitClean(f) then files
    else if f.protects && f.encodes && f.syncs && f.closes then files[f.temporary := Profile(config)]
    else files[f.temporary := Partial]
  }

  class FileSystem {
    var files: Files

    constructor ()
      ensures files == map[]
    {
      files := map[];
    }

    /** writeLocationFile: created only where nothing is, and complete when there is no error. */
    method WriteNew(path: Path, content: Content, fault: WriteFault) returns (ok: bool)
      modifies this
      ensures ok <==> path !in old(files) && fault.NoFault?
      ensures files == WriteEffect(old(files), path, content, fault)
      ensures ok ==> files == old(files)[path := content]
    {
      if path in files || fault.OpenFails? {
        return false;
      }
      files := files[path := Partial];
      if fault.WriteFails? {
        return false;
      }
      if !(fault.CloseFails? && fault.lost) {
        files := files[path := content];
      }
      ok := fault.NoFault?;
    }

    /** os.Remove, whose error nobody looks at. */
    method Remove(path: Path, works: bool)
      modifies this
      ensures files == RemoveEffect(old(files), path, works)
    {
      if works {
        files := files - {path};
      }
    }

    /** WriteConfig: the profile is replaced by one rename, or not at all. */
    method WriteConfig(path: Path, config: Config, f: ConfigFaults) returns (ok: bool)
      requires f.temporary !in files && f.temporary != path
      modifies this
      ensures ok <==> IsAbsolute(path) && CommitWorks(f)
      ensures files == CommitEffect(old(files), path, config, f)
      ensures path in old(files) ==>
                path in files && files[path] == if ok then Profile(config) else old(files)[path]
    {
      var committed := false;
      if !IsAbsolute(path) || !f.valid || !f.creates {
        return false;
      }
      files := files[f.temporary := Partial];
      if f.protects && f.encodes && f.syncs && f.closes {
        files := files[f.temporary := Profile(config)];
        if f.renames {
          files := (files - {f.temporary})[path := Profile(config)];
          committed := true;
        }
      }
      if !committed {
        Remove(f.temporary, f.removes);
      }
      ok := committed;
    }
  }

  // ----- The three files together

  /** The path up to its last slash, that one included. */
  function DirOf(path: Path): (r: string)
    ensures r <= path
    ensures path != "" && path[0] == '/' ==> r != ""
  {
    if path == "" || path[|path| - 1] == '/' then path else DirOf(path[..|path| - 1])
  }

  /** Beside the profile, and absolute exactly when the profile is. */
  function CredentialsPath(profile: Path): (r: Path)
    ensures IsAbsolute(r) <==> IsAbsolute(profile)
  {
    DirOf(profile) + "ios-ota-location.json"
  }

  /** All the failures of one run. */
  datatype Faults = Faults(
    listenIsValid: bool,
    secrets: Option<(nat, string)>,
    credentials: WriteFault,
    output: WriteFault,
    config: ConfigFaults,
    removesCredentials: bool,
    removesOutput: bool)

  /** One run: its arguments, what LoadConfig read, and its failures. */
  datatype Request = Request(profile: Path, listen: string, output: Path, load: Option<Config>, faults: Faults)

  /** The profile is what was read, and CreateTemp picks a name nobody uses. */
  predicate Fits(files: Files, r: Request) {
    var temporary := r.faults.config.temporary;
    && (r.load.Some? ==> r.profile in files && files[r.profile] == Profile(r.load.value))
    && temporary !in files
    && temporary != r.profile
    && temporary != r.output
    && temporary != CredentialsPath(r.profile)
  }

  /** The run gets as far as its first write. */
  predicate Starts(r: Request) {
    && r.load.Some?
    && r.load.value.location.None?
    && r.faults.listenIsValid && IsAbsolute(CredentialsPath(r.profile))
    && r.faults.secrets.Some?
  }

  predicate Succeeds(files: Files, r: Request) {
    && Starts(r)
    && CredentialsPath(r.profile) !in files
    && r.faults.credentials.NoFault?
    && r.output !in files
    && r.output != CredentialsPath(r.profile)
    && r.faults.output.NoFault?
    && CommitWorks(r.faults.config)
  }

  /** A run that fails leaves nothing of its own behind. */
  predicate RollsBack(files: Files, r: Request) {
    var c, f := CredentialsPath(r.profile), r.faults;
    if !Starts(r) || c in files || f.credentials.OpenFails? then true
    else if !f.credentials.NoFault? then false
    else if r.output in files || r.output == c || f.output.OpenFails? then f.removesCredentials
    else if !f.output.NoFault? then false
    else f.removesCredentials && f.removesOutput && CommitClean(f.config)
  }

  /** Nothing that was there before is touched, and what is new has one of the given names. */
  predicate OnlyAdds(before: Files, after: Files, names: set<Path>) {
    && (forall p :: p in before ==> p in after && after[p] == before[p])
    && forall p :: p in after && p !in before ==> p in names
  }

  function NewConfig(r: Request): Config
    requires r.load.Some?
  {
    r.load.value.(location := Some(LocationConfig(r.listen, CredentialsPath(r.profile))))
  }

  /** The three files of a complete run. */
  function Provisioned(files: Files, r: Request): Files
    requires r.load.Some? && r.faults.secrets.Some?
  {
    var (identity, token) := r.faults.secrets.value;
    files[CredentialsPath(r.profile) := Credentials(identity, token)]
         [r.output := Connection("https://" + r.listen, identity, token)]
         [r.profile := Profile(NewConfig(r))]
  }

  function ConfigureEffect(files: Files, r: Request): Files {
    if !Starts(r) then files
    else
      var c, f, (identity, token) := CredentialsPath(r.profile), r.faults, r.faults.secrets.value;
      var one := WriteEffect(files, c, Credentials(identity, token), f.credentials);
      if c in files || !f.credentials.NoFault? then one
      else
        var two := WriteEffect(one, r.output, Connection("https://" + r.listen, identity, token), f.output);
        if r.output in one || !f.output.NoFault? then RemoveEffect(two, c, f.removesCredentials)
        else
          var three := CommitEffect(two, r.profile, NewConfig(r), f.config);
          if CommitWorks(f.config) then three
          else RemoveEffect(RemoveEffect(three, c, f.removesCredentials), r.output, f.removesOutput)
  }

  /** ConfigureLocation. */
  method ConfigureLocation(fs: FileSystem, r: Request) returns (ok: bool)
    requires Fits(fs.files, r)
    modifies fs
    ensures ok <==> Succeeds(old(fs.files), r)
    ensures fs.files == ConfigureEffect(old(fs.files), r)
  {
    var f := r.faults;
    if r.load.None? || r.load.value.location.Some? {
      return false;
    }
    var credentialsPath := CredentialsPath(r.profile);
    if !f.listenIsValid || !IsAbsolute(credentialsPath) || f.secrets.None? {
      return false;
    }
    var (identity, token) := f.secrets.value;
    ok := fs.WriteNew(credentialsPath, Credentials(identity, token), f.credentials);
    if !ok {
      return;
    }
    ok := fs.WriteNew(r.output, Connection("https://" + r.listen, identity, token), f.output);
    if !ok {
      fs.Remove(credentialsPath, f.removesCredentials);
      return;
    }
    ok := fs.WriteConfig(r.profile, NewConfig(r), f.config);
    if !ok {
      fs.Remove(credentialsPath, f.removesCredentials);
      fs.Remove(r.output, f.removesOutput);
    }
  }

  /** Success: all three files, written completely, the same token in both new ones, neither replacing a file. */
  lemma SuccessProvisions(files: Files, r: Request)
    requires Fits(files, r) && Succeeds(files, r)
    ensures ConfigureEffect(files, r) == Provisioned(files, r)
    ensures CredentialsPath(r.profile) !in files && r.output !in files && r.output != CredentialsPath(r.profile)
    ensures var after := Provisioned(files, r);
            var c := CredentialsPath(r.profile);
            && after[r.profile] == Profile(NewConfig(r))
            && NewConfig(r) == Config(Some(LocationConfig(r.listen, c)), r.load.value.rest)
            && after[c].Credentials?
            && after[r.output].Connection?
            && after[r.output].url == "https://" + r.listen
            && (forall p :: p in files && p != r.profile ==> p in after && after[p] == files[p])
            && after.Keys == files.Keys + {c, r.output}
            && after[c].token == after[r.output].token
            && after[c].identity == after[r.output].identity
  {
  }

  /** Failure: the profile and every other file that existed are as they were. */
  lemma FailureTouchesNothing(files: Files, r: Request)
    requires Fits(files, r) && !Succeeds(files, r)
    ensures OnlyAdds(files, ConfigureEffect(files, r),
                     {CredentialsPath(r.profile), r.output, r.faults.config.temporary})
  {
  }

  /** And the rollback is complete exactly when the failing write left nothing and the removals worked. */
  lemma RollbackIsComplete(files: Files, r: Request)
    requires Fits(files, r) && !Succeeds(files, r)
    ensures ConfigureEffect(files, r) == files <==> RollsBack(files, r)
  {
    var after := ConfigureEffect(files, r);
    var c := CredentialsPath(r.profile);
    if RollsBack(files, r) {
      assert after.Keys == files.Keys;
    } else {
      assert c in after || r.output in after || r.faults.config.temporary in after;
    }
  }

  /** The credentials lie beside the profile, whatever directory that is in. */
  lemma {:induction false} BesideTheProfile(directory: Path, name: string)
    requires '/' !in name
    ensures CredentialsPath(directory + "/" + name) == directory + "/ios-ota-location.json"
    ensures CredentialsPath(name) == "ios-ota-location.json"
    decreases |name|
  {
    DirectoryOf(directory, name);
    assert directory + "/" + "ios-ota-location.json" == directory + "/ios-ota-location.json";
    assert "" + "ios-ota-location.json" == "ios-ota-location.json";
  }

  lemma {:induction false} DirectoryOf(directory: Path, name: string)
    requires '/' !in name
    ensures DirOf(directory + "/" + name) == directory + "/" && DirOf(name) == ""
    decreases |name|
  {
    var path := directory + "/" + name;
    if name == "" {
      assert path == directory + "/";
    } else {
      var front := name[..|name| - 1];
      assert path[..|path| - 1] == directory + "/" + front;
      assert path[|path| - 1] == name[|name| - 1];
      DirectoryOf(directory, front);
    }
  }

  lemma ProfileDirectory()
    ensures CredentialsPath("/p") == "/ios-ota-location.json"
  {
    assert "/p"[..1] == "/";
    assert DirOf("/p"[..1]) == "/";
    assert "/" + "ios-ota-location.json" == "/ios-ota-location.json";
  }

  /** The rollback can be incomplete: the first write fails halfway and its file stays. */
  lemma PartialCredentialsStay()
    ensures exists files, r ::
              && Fits(files, r)
              && !Succeeds(files, r)
              && !RollsBack(files, r)
              && ConfigureEffect(files, r) == files[CredentialsPath(r.profile) := Partial]
              && CredentialsPath(r.profile) !in files
  {
    ProfileDirectory();
    var config := Config(None, "");
    var files: Files := map["/p" := Profile(config)];
    var commit := ConfigFaults(true, true, "/t", true, true, true, true, true, true);
    var faults := Faults(true, Some((1, "token")), WriteFails, NoFault, commit, true, true);
    var r := Request("/p", "100.64.0.1:4443", "/out", Some(config), faults);
    assert "/t" != "/p" && "/t" != "/out" by { assert "/t"[1] != "/p"[1] && "/t"[1] != "/out"[1]; }
    assert |"/ios-ota-location.json"| != |"/t"| && |"/ios-ota-location.json"| != |"/p"|;
    hide DirOf;
    assert ConfigureEffect(files, r) == files[CredentialsPath(r.profile) := Partial];
  }
}
