/**
 * The release pipeline of the generator in release/index.js, as pure functions
 * over the run state.  Each step of the generator is a function from the state
 * before it to an outcome and the state after it; `RunSteps` runs a list of
 * steps in order and stops at the first failure, as the generator's run loop
 * does when a step throws.
 */
module Release {
  import opened Wrappers
  import opened Semver

  // ---------------------------------------------------------------------
  // Files

  /** A JSON value in a parsed file: a string, `null`, or any other JSON (kept as its text). */
  datatype Value = Str(s: string) | Null | Other(json: string)

  /** A parsed JSON object. */
  type Config = map<string, Value>

  /**
   * The working directory: a path that is present names a file; its entry is
   * `Some(config)` when the file parses as a JSON object and `None` otherwise.
   */
  type FileSystem = map<string, Option<Config>>

  const SNAPSHOT_PATH := ".generator-release"
  const BOWER_PATH := "bower.json"
  const PACKAGE_PATH := "package.json"
  const VERSION_KEY := "version"

  /** The manifest at `path`, when it exists and parses. */
  function Loaded(fs: FileSystem, path: string): (c: Option<Config>)
    ensures c.Some? <==> path in fs && fs[path].Some?
  {
    if path in fs then fs[path] else None
  }

  /** A string-valued field; any other value, `null` or a missing key reads as absent. */
  function StringField(c: Config, key: string): Option<string> {
    if key in c && c[key].Str? then Some(c[key].s) else None
  }

  /** JavaScript truthiness of a string that may be `undefined` or `null`. */
  predicate Truthy(v: Option<string>) {
    v.Some? && v.value != ""
  }

  /** `String(v)` for a string that may be `null`. */
  function JsText(v: Option<string>): string {
    if v.Some? then v.value else "null"
  }

  /** The commit message and tag label of a release: `'v' + version`. */
  function Label(version: Option<string>): string {
    "v" + JsText(version)
  }

  // ---------------------------------------------------------------------
  // Collaborators

  /** The functions of the git helper library, whose source is not part of this model. */
  datatype GitOp =
    | EnsureClean | EnsureFetched | OriginName | FindFirstCommit | CommitTime | FindChanges
    | AddCommit | Tag | Push | PingPullRequests

  /** How a spawned process ends: an exit code, a kill by a signal (code `null`), or a spawn error. */
  datatype Exit = Exited(code: int) | Signalled | SpawnError

  /**
   * What the outside world answers during one run: which git calls fail, how
   * `npm test` and `grunt version` end, and whether the project's grunt file
   * registers a `version` task.
   */
  datatype World = World(failingGit: set<GitOp>, npmTest: Exit, hasVersionTask: bool, gruntVersion: Exit)

  /** An external call the generator makes, in the order it makes them. */
  datatype Effect =
    | GitCall(op: GitOp)
    | CommitCall(files: Option<seq<string>>, message: string)
    | TagCall(name: string)
    | Spawn(command: string, args: seq<string>)

  datatype Error =
    | MissingIncrement              // no positional argument and nothing usable in the snapshot
    | SnapshotUnreadable            // the snapshot file is not a JSON object
    | UnknownIncrement(given: string)
    | InvalidCustomVersion(version: Option<string>)
    | GitFailed(op: GitOp)
    | SpawnFailed(command: string)
    | TestsFailed
    | NoManifest                    // reading `.version` of `undefined`
    | NoConfigFilesWritten
    | VersionUpdateFailed

  // ---------------------------------------------------------------------
  // Construction (release/index.js:12-41)

  /** The increment and version the constructor reads, before validation. */
  datatype Raw = Raw(increment: string, version: Option<string>)

  /** A validated request: what the constructor leaves in `increment` and `version`. */
  datatype Request = Request(increment: Increment, version: Option<string>)

  /** JavaScript line terminators, which `.` in a regular expression does not match. */
  predicate IsLineTerminator(c: char) {
    c == '\n' || c == '\r' || c == '\U{2028}' || c == '\U{2029}'
  }

  /** `/^v(.*)$/` matches: a leading 'v' followed by a single line. */
  predicate HasVPrefix(s: string) {
    |s| > 0 && s[0] == 'v' && forall i :: 1 <= i < |s| ==> !IsLineTerminator(s[i])
  }

  /** Replaces a snapshot version matching `/^v(.*)$/` by its capture group. */
  function StripLeadingV(v: Option<string>): (r: Option<string>)
    ensures r.Some? <==> v.Some?
    ensures r != v <==> v.Some? && HasVPrefix(v.value)
    ensures r != v ==> v.value == "v" + r.value
  {
    match v
    case Some(s) => if HasVPrefix(s) then Some(s[1..]) else v
    case None => None
  }

  /**
   * Where the increment and version come from: the first positional argument,
   * or, when there is none and the snapshot file exists, the snapshot's
   * `increment` and `version`.  A missing increment fails as Yeoman does for a
   * required argument that was not given.
   */
  function ReadArguments(args: seq<string>, fs: FileSystem): Result<Raw, Error> {
    if |args| == 0 && SNAPSHOT_PATH in fs then
      match fs[SNAPSHOT_PATH]
      case None => Failure(SnapshotUnreadable)
      case Some(options) =>
        var increment := StringField(options, "increment");
        var version := StripLeadingV(StringField(options, "version"));
        if Truthy(increment) then Success(Raw(increment.value, version)) else Failure(MissingIncrement)
    else if |args| == 0 then Failure(MissingIncrement)
    else Success(Raw(args[0], None))
  }

  /**
   * The constructor's checks: `custom` needs a version `semver.valid` accepts;
   * every other increment must be one of the four release types.
   */
  function Validate(raw: Raw, lib: Library): (r: Result<Request, Error>)
    ensures r.Success? <==>
      ParseIncrement(raw.increment).Some?
      && (raw.increment == "custom" ==> raw.version.Some? && lib.valid(raw.version.value))
    ensures r.Success? ==> Keyword(r.value.increment) == raw.increment && r.value.version == raw.version
    ensures r.Failure? && raw.increment == "custom" ==> r.error == InvalidCustomVersion(raw.version)
    ensures r.Failure? && raw.increment != "custom" ==> r.error == UnknownIncrement(raw.increment)
  {
    if raw.increment == "custom" then
      if raw.version.Some? && lib.valid(raw.version.value) then Success(Request(Custom, raw.version))
      else Failure(InvalidCustomVersion(raw.version))
    else
      match ParseIncrement(raw.increment)
      case Some(k) => Success(Request(k, raw.version))
      case None => Failure(UnknownIncrement(raw.increment))
  }

  /** The whole constructor: read the arguments, then validate them. */
  function Resolve(args: seq<string>, fs: FileSystem, lib: Library): Result<Request, Error> {
    match ReadArguments(args, fs)
    case Success(raw) => Validate(raw, lib)
    case Failure(e) => Failure(e)
  }

  // ---------------------------------------------------------------------
  // Run state

  /** The fields the generator's steps share on `this`, the files, and the calls made so far. */
  datatype RunState = RunState(
    increment: Increment,
    version: Option<string>,
    skipTests: bool,
    bowerConfig: Option<Config>,
    packageConfig: Option<Config>,
    priorVersion: Option<string>,
    firstCommit: Option<string>,
    modifiedFiles: Option<seq<string>>,
    fs: FileSystem,
    log: seq<Effect>)

  /** The state right after a successful construction. */
  function Initial(req: Request, skipTests: bool, fs: FileSystem): RunState {
    RunState(req.increment, req.version, skipTests, None, None, None, None, None, fs, [])
  }

  /** A step's outcome and the state it leaves. */
  datatype Transition = Transition(outcome: Outcome<Error>, next: RunState)

  // ---------------------------------------------------------------------
  // Steps

  /** The generator's prototype methods, one per step. */
  datatype Step =
    | Git(op: GitOp)      // a method taken over from the git helper library
    | RunTest | ReadVersions | IncrementVersion | ProjectUpdate | Commit | TagRelease | Cleanup | Notes

  /** The steps in the order the prototype methods are declared (release/index.js:45-161). */
  const STEPS: seq<Step> := [
    Git(EnsureClean), Git(EnsureFetched), RunTest, ReadVersions,
    Git(OriginName), Git(FindFirstCommit), Git(CommitTime), Git(FindChanges),
    IncrementVersion, ProjectUpdate, Commit, TagRelease,
    Git(Push), Git(PingPullRequests), Cleanup, Notes]

  const INCREMENT_INDEX := 8
  const COMMIT_INDEX := 10
  const CLEANUP_INDEX := 14

  /** The outcome of a git helper call. */
  function GitOutcome(w: World, op: GitOp): (o: Outcome<Error>)
    ensures o.Fail? <==> op in w.failingGit
  {
    if op in w.failingGit then Fail(GitFailed(op)) else Pass
  }

  /** How a spawned process's end is read: an `error` event throws, a truthy exit code fails. */
  function ExitOutcome(e: Exit, command: string, failure: Error): (o: Outcome<Error>)
    ensures o.Pass? <==> e == Exited(0) || e == Signalled
  {
    match e
    case SpawnError => Fail(SpawnFailed(command))
    case Signalled => Pass
    case Exited(code) => if code != 0 then Fail(failure) else Pass
  }

  function GitStep(op: GitOp, s: RunState, w: World): Transition {
    Transition(GitOutcome(w, op), s.(log := s.log + [GitCall(op)]))
  }

  /** `runTest`: `npm test`, unless `package.json` is absent or tests are skipped. */
  function RunTestStep(s: RunState, w: World): Transition {
    if PACKAGE_PATH !in s.fs || s.skipTests then Transition(Pass, s)
    else Transition(ExitOutcome(w.npmTest, "npm", TestsFailed), s.(log := s.log + [Spawn("npm", ["test"])]))
  }

  /** A manifest that loads replaces the field; one that does not leaves it as it was. */
  function Reload(fs: FileSystem, path: string, previous: Option<Config>): Option<Config> {
    if Loaded(fs, path).Some? then Loaded(fs, path) else previous
  }

  /** The next version: `semver.inc(priorVersion, increment)` unless the increment is custom. */
  function NextVersion(increment: Increment, prior: Option<string>, current: Option<string>, lib: Library): Option<string> {
    if increment == Custom then current
    else if prior.Some? then lib.inc(prior.value, increment)
    else None
  }

  /** `firstCommit`: the tag of the prior version, when it is present and not "0.0.0". */
  function FirstCommit(prior: Option<string>, current: Option<string>): Option<string> {
    if Truthy(prior) && prior.value != "0.0.0" then Some("v" + prior.value) else current
  }

  /**
   * `readVersions`: load the manifests; take the prior version from the bower
   * manifest when it loaded and from the package manifest otherwise.
   */
  function ReadVersionsStep(s: RunState, lib: Library): Transition {
    var bower := Reload(s.fs, BOWER_PATH, s.bowerConfig);
    var pkg := Reload(s.fs, PACKAGE_PATH, s.packageConfig);
    var loaded := s.(bowerConfig := bower, packageConfig := pkg);
    var source := if bower.Some? then bower else pkg;
    if source.None? then Transition(Fail(NoManifest), loaded)
    else
      var prior := StringField(source.value, VERSION_KEY);
      Transition(Pass, loaded.(
        priorVersion := prior,
        version := NextVersion(s.increment, prior, s.version, lib),
        firstCommit := FirstCommit(prior, s.firstCommit)))
  }

  /** The JSON written for the version field (`null` when `semver.inc` gave `null`). */
  function VersionValue(v: Option<string>): Value {
    if v.Some? then Str(v.value) else Null
  }

  /** A loaded manifest with its version set. */
  function SetVersion(c: Option<Config>, v: Option<string>): (r: Option<Config>)
    ensures r.Some? <==> c.Some?
    ensures r.Some? ==> r.value.Keys == c.value.Keys + {VERSION_KEY} && r.value[VERSION_KEY] == VersionValue(v)
    ensures r.Some? ==> forall k :: k in c.value && k != VERSION_KEY ==> r.value[k] == c.value[k]
  {
    if c.Some? then Some(c.value[VERSION_KEY := VersionValue(v)]) else None
  }

  /** Writes a manifest back when it was loaded. */
  function WriteBack(fs: FileSystem, path: string, c: Option<Config>): FileSystem {
    if c.Some? then fs[path := c] else fs
  }

  /** The manifests `incrementVersion` writes, in the order it writes them. */
  function WrittenFiles(bower: Option<Config>, pkg: Option<Config>): seq<string> {
    (if bower.Some? then [BOWER_PATH] else []) + (if pkg.Some? then [PACKAGE_PATH] else [])
  }

  /** `incrementVersion`: set the new version in every loaded manifest and write it back. */
  function IncrementVersionStep(s: RunState): Transition {
    var bower := SetVersion(s.bowerConfig, s.version);
    var pkg := SetVersion(s.packageConfig, s.version);
    var files := WrittenFiles(bower, pkg);
    var written := s.(bowerConfig := bower, packageConfig := pkg,
                      fs := WriteBack(WriteBack(s.fs, BOWER_PATH, bower), PACKAGE_PATH, pkg));
    if |files| > 0 then Transition(Pass, written.(modifiedFiles := Some(files)))
    else Transition(Fail(NoConfigFilesWritten), written)
  }

  /** `projectUpdate`: `grunt version --ver=<version>` when the project registers that task. */
  function ProjectUpdateStep(s: RunState, w: World): Transition {
    if !w.hasVersionTask then Transition(Pass, s)
    else
      Transition(ExitOutcome(w.gruntVersion, "grunt", VersionUpdateFailed),
                 s.(log := s.log + [Spawn("grunt", ["version", "--ver=" + JsText(s.version)])]))
  }

  /** `commit`: commit the modified manifests with the release label as message. */
  function CommitStep(s: RunState, w: World): Transition {
    Transition(GitOutcome(w, AddCommit), s.(log := s.log + [CommitCall(s.modifiedFiles, Label(s.version))]))
  }

  /** `tag`: tag the release with its label. */
  function TagStep(s: RunState, w: World): Transition {
    Transition(GitOutcome(w, Tag), s.(log := s.log + [TagCall(Label(s.version))]))
  }

  /** `cleanup`: delete the snapshot file when it exists. */
  function CleanupStep(s: RunState): Transition {
    if SNAPSHOT_PATH in s.fs then Transition(Pass, s.(fs := s.fs - {SNAPSHOT_PATH}))
    else Transition(Pass, s)
  }

  /** One step of the generator. `notes` only prints. */
  function Exec(step: Step, s: RunState, w: World, lib: Library): Transition {
    match step
    case Git(op) => GitStep(op, s, w)
    case RunTest => RunTestStep(s, w)
    case ReadVersions => ReadVersionsStep(s, lib)
    case IncrementVersion => IncrementVersionStep(s)
    case ProjectUpdate => ProjectUpdateStep(s, w)
    case Commit => CommitStep(s, w)
    case TagRelease => TagStep(s, w)
    case Cleanup => CleanupStep(s)
    case Notes => Transition(Pass, s)
  }

  /** How a run of steps ends: its outcome, how many steps started, and the final state. */
  datatype Finished = Finished(outcome: Outcome<Error>, executed: nat, final: RunState)

  /** Runs `steps` in order, stopping right after the first step that fails. */
  function RunSteps(steps: seq<Step>, s: RunState, w: World, lib: Library): (r: Finished)
    ensures r.executed <= |steps|
    ensures r.outcome.Pass? ==> r.executed == |steps|
    ensures r.outcome.Fail? ==> r.executed > 0
    decreases |steps|
  {
    if steps == [] then Finished(Pass, 0, s)
    else
      var t := Exec(steps[0], s, w, lib);
      if t.outcome.Fail? then Finished(t.outcome, 1, t.next)
      else
        var r := RunSteps(steps[1..], t.next, w, lib);
        r.(executed := r.executed + 1)
  }

  /** How one invocation of the generator ends. */
  datatype Invocation = Invocation(outcome: Outcome<Error>, fs: FileSystem, log: seq<Effect>)

  /** Construct the generator from the command line and the files, then run every step. */
  function Invoke(args: seq<string>, skipTests: bool, fs: FileSystem, w: World, lib: Library): Invocation {
    match Resolve(args, fs, lib)
    case Failure(e) => Invocation(Fail(e), fs, [])
    case Success(req) =>
      var r := RunSteps(STEPS, Initial(req, skipTests, fs), w, lib);
      Invocation(r.outcome, r.final.fs, r.final.log)
  }
}
