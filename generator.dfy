/**
 * The generator object of release/index.js.  Its fields are the ones the
 * prototype methods share on `this`, together with the working directory and
 * the external calls made so far.  Every method is proved to change the
 * object's state exactly as the matching step function of `Release` says.
 */
module Generator {
  import opened Wrappers
  import opened Semver
  import opened Release

  class ReleaseGenerator {
    const lib: Library
    const world: World
    const skipTests: bool

    var increment: Increment
    var version: Option<string>
    var bowerConfig: Option<Config>
    var packageConfig: Option<Config>
    var priorVersion: Option<string>
    var firstCommit: Option<string>
    var modifiedFiles: Option<seq<string>>
    var fs: FileSystem
    var log: seq<Effect>

    /** The abstract run state of this generator. */
    function State(): RunState
      reads this
    {
      RunState(increment, version, skipTests, bowerConfig, packageConfig, priorVersion,
               firstCommit, modifiedFiles, fs, log)
    }

    /** The object a successful construction leaves. */
    constructor (req: Request, skipTests: bool, fs: FileSystem, world: World, lib: Library)
      ensures State() == Initial(req, skipTests, fs)
      ensures this.world == world && this.lib == lib
    {
      this.lib := lib;
      this.world := world;
      this.skipTests := skipTests;
      increment := req.increment;
      version := req.version;
      bowerConfig := None;
      packageConfig := None;
      priorVersion := None;
      firstCommit := None;
      modifiedFiles := None;
      this.fs := fs;
      log := [];
    }

    /**
     * The constructor of release/index.js: take the increment from the first
     * positional argument or from the snapshot, strip a leading 'v' from the
     * snapshot's version, and validate both.
     */
    static method Create(args: seq<string>, skipTests: bool, fs: FileSystem, world: World, lib: Library)
      returns (r: Result<ReleaseGenerator, Error>)
      ensures r.Failure? <==> Resolve(args, fs, lib).Failure?
      ensures r.Failure? ==> r.error == Resolve(args, fs, lib).error
      ensures r.Success? ==>
        fresh(r.value) && r.value.world == world && r.value.lib == lib
        && r.value.State() == Initial(Resolve(args, fs, lib).value, skipTests, fs)
    {
      var increment: Option<string> := None;
      var version: Option<string> := None;
      if |args| == 0 && SNAPSHOT_PATH in fs {
        if fs[SNAPSHOT_PATH].None? {
          return Failure(SnapshotUnreadable);
        }
        var options := fs[SNAPSHOT_PATH].value;
        increment := StringField(options, "increment");
        version := StringField(options, "version");
        if version.Some? && HasVPrefix(version.value) {
          version := Some(version.value[1..]);
        }
      }
      if !Truthy(increment) {
        if |args| == 0 {
          return Failure(MissingIncrement);
        }
        increment := Some(args[0]);
      }
      assert ReadArguments(args, fs) == Success(Raw(increment.value, version));
      var kind := ParseIncrement(increment.value);
      if increment.value == "custom" {
        if !(version.Some? && lib.valid(version.value)) {
          return Failure(InvalidCustomVersion(version));
        }
      } else if kind.None? {
        return Failure(UnknownIncrement(increment.value));
      }
      var g := new ReleaseGenerator(Request(kind.value, version), skipTests, fs, world, lib);
      r := Success(g);
    }

    /** A method taken over from the git helper library: one opaque call. */
    method GitCommand(op: GitOp) returns (o: Outcome<Error>)
      modifies this
      ensures Transition(o, State()) == GitStep(op, old(State()), world)
    {
      log := log + [GitCall(op)];
      o := GitOutcome(world, op);
    }

    /** `runTest` (release/index.js:48-66). */
    method RunTest() returns (o: Outcome<Error>)
      modifies this
      ensures Transition(o, State()) == RunTestStep(old(State()), world)
    {
      if PACKAGE_PATH !in fs || skipTests {
        return Pass;
      }
      log := log + [Spawn("npm", ["test"])];
      o := ExitOutcome(world.npmTest, "npm", TestsFailed);
    }

    /** `readVersions` (release/index.js:68-88). */
    method ReadVersions() returns (o: Outcome<Error>)
      modifies this
      ensures Transition(o, State()) == ReadVersionsStep(old(State()), lib)
    {
      if Loaded(fs, BOWER_PATH).Some? {
        bowerConfig := Loaded(fs, BOWER_PATH);
      }
      if Loaded(fs, PACKAGE_PATH).Some? {
        packageConfig := Loaded(fs, PACKAGE_PATH);
      }
      var source := if bowerConfig.Some? then bowerConfig else packageConfig;
      if source.None? {
        return Fail(NoManifest);
      }
      priorVersion := StringField(source.value, VERSION_KEY);
      if increment != Custom {
        version := if priorVersion.Some? then lib.inc(priorVersion.value, increment) else None;
      }
      if Truthy(priorVersion) && priorVersion.value != "0.0.0" {
        firstCommit := Some("v" + priorVersion.value);
      }
      o := Pass;
    }

    /** `incrementVersion` (release/index.js:95-115). */
    method IncrementVersion() returns (o: Outcome<Error>)
      modifies this
      ensures Transition(o, State()) == IncrementVersionStep(old(State()))
    {
      ghost var before := State();
      var files: seq<string> := [];
      if bowerConfig.Some? {
        bowerConfig := Some(bowerConfig.value[VERSION_KEY := VersionValue(version)]);
        fs := fs[BOWER_PATH := bowerConfig];
        files := files + [BOWER_PATH];
      }
      if packageConfig.Some? {
        packageConfig := Some(packageConfig.value[VERSION_KEY := VersionValue(version)]);
        fs := fs[PACKAGE_PATH := packageConfig];
        files := files + [PACKAGE_PATH];
      }
      assert bowerConfig == SetVersion(before.bowerConfig, before.version);
      assert packageConfig == SetVersion(before.packageConfig, before.version);
      assert files == WrittenFiles(bowerConfig, packageConfig);
      assert fs == WriteBack(WriteBack(before.fs, BOWER_PATH, bowerConfig), PACKAGE_PATH, packageConfig);
      if |files| > 0 {
        modifiedFiles := Some(files);
        o := Pass;
      } else {
        o := Fail(NoConfigFilesWritten);
      }
    }

    /** `projectUpdate` (release/index.js:117-138). */
    method ProjectUpdate() returns (o: Outcome<Error>)
      modifies this
      ensures Transition(o, State()) == ProjectUpdateStep(old(State()), world)
    {
      if world.hasVersionTask {
        log := log + [Spawn("grunt", ["version", "--ver=" + JsText(version)])];
        o := ExitOutcome(world.gruntVersion, "grunt", VersionUpdateFailed);
      } else {
        o := Pass;
      }
    }

    /** `commit` (release/index.js:140-144). */
    method Commit() returns (o: Outcome<Error>)
      modifies this
      ensures Transition(o, State()) == CommitStep(old(State()), world)
    {
      log := log + [CommitCall(modifiedFiles, Label(version))];
      o := GitOutcome(world, AddCommit);
    }

    /** `tag` (release/index.js:146-148). */
    method TagRelease() returns (o: Outcome<Error>)
      modifies this
      ensures Transition(o, State()) == TagStep(old(State()), world)
    {
      log := log + [TagCall(Label(version))];
      o := GitOutcome(world, Tag);
    }

    /** `cleanup` (release/index.js:153-157). */
    method Cleanup() returns (o: Outcome<Error>)
      modifies this
      ensures Transition(o, State()) == CleanupStep(old(State()))
    {
      if SNAPSHOT_PATH in fs {
        fs := fs - {SNAPSHOT_PATH};
      }
      o := Pass;
    }

    /** Runs one step. */
    method RunStep(step: Step) returns (o: Outcome<Error>)
      modifies this
      ensures Transition(o, State()) == Exec(step, old(State()), world, lib)
    {
      match step
      case Git(op) => o := GitCommand(op);
      case RunTest => o := RunTest();
      case ReadVersions => o := ReadVersions();
      case IncrementVersion => o := IncrementVersion();
      case ProjectUpdate => o := ProjectUpdate();
      case Commit => o := Commit();
      case TagRelease => o := TagRelease();
      case Cleanup => o := Cleanup();
      case Notes => o := Pass;
    }

    /** Runs the steps in declaration order and stops at the first one that fails. */
    method Run() returns (outcome: Outcome<Error>, executed: nat)
      modifies this
      ensures Finished(outcome, executed, State()) == RunSteps(STEPS, old(State()), world, lib)
    {
      ghost var start := State();
      var i := 0;
      while i < |STEPS|
        invariant 0 <= i <= |STEPS|
        invariant var r := RunSteps(STEPS[i..], State(), world, lib);
          r.(executed := r.executed + i) == RunSteps(STEPS, start, world, lib)
      {
        ghost var before := State();
        assert STEPS[i..][0] == STEPS[i] && STEPS[i..][1..] == STEPS[i + 1..];
        var o := RunStep(STEPS[i]);
        if o.Fail? {
          return o, i + 1;
        }
        i := i + 1;
      }
      outcome, executed := Pass, |STEPS|;
    }

    /** One invocation: construct the generator, then run it. */
    static method Execute(args: seq<string>, skipTests: bool, fs: FileSystem, world: World, lib: Library)
      returns (outcome: Outcome<Error>, files: FileSystem, log: seq<Effect>)
      ensures Invocation(outcome, files, log) == Invoke(args, skipTests, fs, world, lib)
    {
      var created := Create(args, skipTests, fs, world, lib);
      if created.Failure? {
        return Fail(created.error), fs, [];
      }
      var g := created.value;
      var executed;
      outcome, executed := g.Run();
      files, log := g.fs, g.log;
    }
  }
}
