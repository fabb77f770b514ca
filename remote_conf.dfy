/**
 * `RemoteTargetConf`: the directory a configuration was found in, together with the
 * `DEFAULT` section of that configuration, and the typed accessors over it.
 */
module RemoteConf {
  import opened Wrappers
  import opened Paths
  import opened Locator
  import opened Text
  import opened Interpolation

  /**
   * The `DEFAULT` section as configparser holds it, after interpolation. configparser
   * folds option names to lower case when it stores and when it looks them up, so the
   * keys below are the folded forms of `Hostname`, `Username`, `Password`,
   * `PrivateKey` and `RemoteDir`.
   */
  type Section = map<string, string>

  const HostnameKey: string := "hostname"
  const UsernameKey: string := "username"
  const PasswordKey: string := "password"
  const PrivateKeyKey: string := "privatekey"
  const RemoteDirKey: string := "remotedir"

  /** The exceptions the operations raise. */
  datatype ConfError =
    | FileNotFound(path: Path)   // FileNotFoundError from `load`
    | FileExists(path: Path)     // FileExistsError from `create_default`
    | MissingKey(key: string)    // KeyError from a required accessor
    | BadInterpolation(value: string)  // ValueError from basic interpolation's syntax check

  /** The dataclass: `local_root` and the configuration; neither changes after construction. */
  datatype RemoteTargetConf = RemoteTargetConf(localRoot: Path, defaults: Section)

  /** The placeholder host name written by `create_default`. */
  const DefaultHostname: string := "url/to/server"
  /** The remote directory written by `create_default`. */
  const DefaultRemoteDir: string := "/tmp"

  /**
   * `load`: refuse a target that is not a regular file; otherwise the configuration
   * read from it, rooted at the directory that holds it. `parsed` is the `DEFAULT`
   * section configparser reads from the file.
   */
  function Load(files: Files, target: Path, parsed: Section): (r: Result<RemoteTargetConf, ConfError>)
    ensures r.Err? <==> target !in files
    ensures r.Err? ==> r.error == FileNotFound(target)
    ensures r.Ok? ==> r.value.defaults == parsed
    ensures r.Ok? && target != [] ==> r.value.localRoot + [target[|target| - 1]] == target
  {
    if target !in files then Err(FileNotFound(target))
    else Ok(RemoteTargetConf(Parent(target), parsed))
  }

  /** The home directory `create_default` uses: `HOME`, unless it is unset or empty. */
  function HomeDir(home: Option<string>, user: string): (r: string)
    ensures r != ""
    ensures home.Some? && home.value != "" ==> r == home.value
    ensures home.None? || home.value == "" ==> r == "/home/" + user
  {
    match home
    case Some(h) => if h == "" then "/home/" + user else h
    case None => "/home/" + user
  }

  /** The private-key path `create_default` suggests under the home directory `home`. */
  function KeyFile(home: string): string
  {
    home + "/.ssh/id_rsa"
  }

  /**
   * The scaffold `create_default` writes for `home` and `user`: exactly the four options
   * Hostname, Username, PrivateKey and RemoteDir, and no password.
   */
  function DefaultSection(home: string, user: string): (r: Section)
    ensures r.Keys == {HostnameKey, UsernameKey, PrivateKeyKey, RemoteDirKey}
    ensures PasswordKey !in r
    ensures r[HostnameKey] == DefaultHostname && r[UsernameKey] == user
    ensures r[PrivateKeyKey] == KeyFile(home) && r[RemoteDirKey] == DefaultRemoteDir
  {
    map[HostnameKey := DefaultHostname,
        UsernameKey := user,
        PrivateKeyKey := KeyFile(home),
        RemoteDirKey := DefaultRemoteDir]
  }

  /** The regular files of the local file system, which `create_default` adds to. */
  class FileSystem {
    var files: Files

    constructor (initial: Files)
      ensures files == initial
    {
      files := initial;
    }
  }

  /**
   * `create_default`: refuse a target that is already a regular file. Otherwise store
   * the scaffold (with `HOME` and the user name given as `home` and `user`); storing
   * checks each value's interpolation syntax in the order Hostname, Username,
   * PrivateKey, RemoteDir and raises on the first bad one, before any file is opened.
   * If all are accepted, write the file and return the configuration rooted at the
   * target's directory.
   */
  method CreateDefault(fs: FileSystem, target: Path, home: Option<string>, user: string)
    returns (r: Result<RemoteTargetConf, ConfError>)
    modifies fs
    ensures target in old(fs.files) ==> r == Err(FileExists(target)) && fs.files == old(fs.files)
    ensures target !in old(fs.files) && !SetAccepts(user) ==>
              r == Err(BadInterpolation(user)) && fs.files == old(fs.files)
    ensures target !in old(fs.files) && SetAccepts(user) && !SetAccepts(KeyFile(HomeDir(home, user))) ==>
              r == Err(BadInterpolation(KeyFile(HomeDir(home, user)))) && fs.files == old(fs.files)
    ensures target !in old(fs.files) && SetAccepts(user) && SetAccepts(KeyFile(HomeDir(home, user))) ==>
              fs.files == old(fs.files) + {target} &&
              r == Ok(RemoteTargetConf(Parent(target), DefaultSection(HomeDir(home, user), user)))
  {
    if target in fs.files {
      return Err(FileExists(target));
    }
    var homeDir := HomeDir(home, user);
    // The placeholder host name and `/tmp` hold no `%`, so only these two can be refused.
    PlainAccepted(DefaultHostname);
    PlainAccepted(DefaultRemoteDir);
    if !SetAccepts(user) {
      return Err(BadInterpolation(user));
    }
    if !SetAccepts(KeyFile(homeDir)) {
      return Err(BadInterpolation(KeyFile(homeDir)));
    }
    var defaults := DefaultSection(homeDir, user);
    fs.files := fs.files + {target};
    r := Ok(RemoteTargetConf(Parent(target), defaults));
  }

  /** A required option: its value, or a `KeyError` when the section lacks it. */
  function Required(s: Section, key: string): Result<string, ConfError>
  {
    if key in s then Ok(s[key]) else Err(MissingKey(key))
  }

  /** An optional option: its value, or `None` when the section lacks it. */
  function Optional(s: Section, key: string): Option<string>
  {
    if key in s then Some(s[key]) else None
  }

  /** The `hostname` property: required. */
  function Hostname(c: RemoteTargetConf): (r: Result<string, ConfError>)
    ensures r.Ok? <==> HostnameKey in c.defaults
    ensures r.Ok? ==> r.value == c.defaults[HostnameKey]
    ensures r.Err? ==> r.error == MissingKey(HostnameKey)
  {
    Required(c.defaults, HostnameKey)
  }

  /** The `username` property: required. */
  function Username(c: RemoteTargetConf): (r: Result<string, ConfError>)
    ensures r.Ok? <==> UsernameKey in c.defaults
    ensures r.Ok? ==> r.value == c.defaults[UsernameKey]
    ensures r.Err? ==> r.error == MissingKey(UsernameKey)
  {
    Required(c.defaults, UsernameKey)
  }

  /** The `password` property: optional, `None` when no password is configured. */
  function Password(c: RemoteTargetConf): (r: Option<string>)
    ensures r.Some? <==> PasswordKey in c.defaults
    ensures r.Some? ==> r.value == c.defaults[PasswordKey]
  {
    Optional(c.defaults, PasswordKey)
  }

  /** The `private_key` property: optional, `None` when no key file is configured. */
  function PrivateKey(c: RemoteTargetConf): (r: Option<string>)
    ensures r.Some? <==> PrivateKeyKey in c.defaults
    ensures r.Some? ==> r.value == c.defaults[PrivateKeyKey]
  {
    Optional(c.defaults, PrivateKeyKey)
  }

  /** The `remote_directory` property: required. */
  function RemoteDirectory(c: RemoteTargetConf): (r: Result<string, ConfError>)
    ensures r.Ok? <==> RemoteDirKey in c.defaults
    ensures r.Ok? ==> r.value == c.defaults[RemoteDirKey]
    ensures r.Err? ==> r.error == MissingKey(RemoteDirKey)
  {
    Required(c.defaults, RemoteDirKey)
  }

  /** How an f-string renders an optional value: Python's `None` prints as `None`. */
  function Show(o: Option<string>): string
  {
    match o
    case Some(v) => v
    case None => "None"
  }

  /**
   * `__repr__`: the five fields, one per line, in the order hostname, username,
   * password, private_key, remote_directory. The f-string evaluates the fields in
   * that order, so it fails exactly when a required option is missing, and then names
   * the first one missing in the order hostname, username, remote directory.
   */
  function Repr(c: RemoteTargetConf): (r: Result<string, ConfError>)
    ensures r.Ok? <==>
              HostnameKey in c.defaults && UsernameKey in c.defaults && RemoteDirKey in c.defaults
    ensures HostnameKey !in c.defaults ==> r == Err(MissingKey(HostnameKey))
    ensures HostnameKey in c.defaults && UsernameKey !in c.defaults ==>
              r == Err(MissingKey(UsernameKey))
    ensures HostnameKey in c.defaults && UsernameKey in c.defaults && RemoteDirKey !in c.defaults ==>
              r == Err(MissingKey(RemoteDirKey))
  {
    match Hostname(c)
    case Err(e) => Err(e)
    case Ok(hostname) =>
      match Username(c)
      case Err(e) => Err(e)
      case Ok(username) =>
        var password := Password(c);
        var privateKey := PrivateKey(c);
        match RemoteDirectory(c)
        case Err(e) => Err(e)
        case Ok(remoteDir) =>
          Ok(Unlines(["hostname: " + hostname,
                      "username: " + username,
                      "password: " + Show(password),
                      "private_key: " + Show(privateKey),
                      "remote_directory: " + remoteDir]))
  }

  /** A text without line breaks. */
  predicate SingleLine(s: string)
  {
    '\n' !in s
  }

  /**
   * When no value spans several lines, the rendering reads back as exactly five lines,
   * labelled in the fixed order, each carrying its field's value; and the rendering is
   * exactly those lines, each ended by a newline.
   */
  lemma ReprLines(c: RemoteTargetConf)
    requires Repr(c).Ok?
    requires forall key :: key in c.defaults ==> SingleLine(c.defaults[key])
    ensures Lines(Repr(c).value) ==
              ["hostname: " + Hostname(c).value,
               "username: " + Username(c).value,
               "password: " + Show(Password(c)),
               "private_key: " + Show(PrivateKey(c)),
               "remote_directory: " + RemoteDirectory(c).value]
    ensures Unlines(Lines(Repr(c).value)) == Repr(c).value
  {
    var l1 := "hostname: " + Hostname(c).value;
    var l2 := "username: " + Username(c).value;
    var l3 := "password: " + Show(Password(c));
    var l4 := "private_key: " + Show(PrivateKey(c));
    var l5 := "remote_directory: " + RemoteDirectory(c).value;
    LinesUnlines([l1, l2, l3, l4, l5]);
  }

  /**
   * The configuration `create_default` returns: the placeholder host, the user, no
   * password, the user's default key file under the home directory, and `/tmp`.
   */
  lemma DefaultConfAccessors(root: Path, home: Option<string>, user: string)
    ensures var c := RemoteTargetConf(root, DefaultSection(HomeDir(home, user), user));
            Hostname(c) == Ok(DefaultHostname) &&
            Username(c) == Ok(user) &&
            Password(c) == None &&
            PrivateKey(c) == Some(KeyFile(HomeDir(home, user))) &&
            RemoteDirectory(c) == Ok(DefaultRemoteDir) &&
            Repr(c).Ok?
  {
  }

  /**
   * `info` and `push` load the file the upward search finds: the load succeeds, and
   * the local root is the nearest ancestor-or-self of the start directory holding it.
   */
  lemma LoadFoundTarget(files: Files, start: Path, parsed: Section)
    requires Find(files, start).Some?
    ensures var r := Load(files, Find(files, start).value, parsed);
            r.Ok? && r.value.localRoot <= start &&
            NearestMarked(files, start, |r.value.localRoot|)
  {
    var t := Find(files, start).value;
    var d := t[..|t| - 1];
    assert Parent(t) == d;
    assert start[..|d|] == d;
    FindNearest(files, start, |d|);
  }

  /**
   * `init` followed by `info` in the same directory: after `create_default` writes
   * `dir/.remote_target`, the upward search from `dir` finds that file, and loading it
   * (with configparser reading back the scaffold that was written) gives exactly the
   * configuration `create_default` returned.
   */
  lemma InitThenLoad(files: Files, dir: Path, home: Option<string>, user: string)
    requires !HasMarker(files, dir)
    ensures var files' := files + {Marker(dir)};
            var defaults := DefaultSection(HomeDir(home, user), user);
            Find(files', dir) == Some(Marker(dir)) &&
            Load(files', Marker(dir), defaults) == Ok(RemoteTargetConf(dir, defaults))
  {
    assert Parent(Marker(dir)) == dir;
  }
}
