/** Properties of the release pipeline, proved about the step functions of `Release`. */
module ReleaseProperties {
  import opened Wrappers
  import opened Semver
  import opened Release

  // ---------------------------------------------------------------------
  // Construction

  /** A constructed generator holds one of the five kinds, and a custom one holds a valid version. */
  lemma ConstructionValidates(args: seq<string>, fs: FileSystem, lib: Library)
    ensures Resolve(args, fs, lib).Success? <==>
      ReadArguments(args, fs).Success?
      && ParseIncrement(ReadArguments(args, fs).value.increment).Some?
      && (ReadArguments(args, fs).value.increment == "custom" ==>
            ReadArguments(args, fs).value.version.Some? && lib.valid(ReadArguments(args, fs).value.version.value))
    ensures Resolve(args, fs, lib).Success? ==>
      var req := Resolve(args, fs, lib).value;
      Keyword(req.increment) == ReadArguments(args, fs).value.increment
      && (req.increment == Custom ==> req.version.Some? && lib.valid(req.version.value))
  {
  }

  /** Any positional argument other than the five keywords is rejected. */
  lemma UnknownIncrementRejected(args: seq<string>, fs: FileSystem, lib: Library)
    requires |args| > 0
    requires forall k: Increment :: Keyword(k) != args[0]
    ensures Resolve(args, fs, lib) == Failure(UnknownIncrement(args[0]))
  {
  }

  /** `custom` on the command line comes without a version, so construction always fails. */
  lemma CustomArgumentAlwaysFails(args: seq<string>, fs: FileSystem, lib: Library)
    requires |args| > 0 && args[0] == "custom"
    ensures Resolve(args, fs, lib) == Failure(InvalidCustomVersion(None))
  {
  }

  /** With a positional argument the snapshot is never consulted. */
  lemma SnapshotIgnoredWithArguments(args: seq<string>, fs1: FileSystem, fs2: FileSystem, lib: Library)
    requires |args| > 0
    ensures Resolve(args, fs1, lib) == Resolve(args, fs2, lib)
  {
  }

  /** Without arguments or snapshot, construction fails for the missing increment. */
  lemma NoArgumentsNoSnapshotFails(fs: FileSystem, lib: Library)
    requires SNAPSHOT_PATH !in fs
    ensures Resolve([], fs, lib) == Failure(MissingIncrement)
  {
  }

  /**
   * Resuming from a snapshot: its increment and its version are used, the
   * version with one leading 'v' removed and the rest of the text kept.
   */
  lemma SnapshotResume(fs: FileSystem, increment: string, rest: string, lib: Library)
    requires SNAPSHOT_PATH in fs && fs[SNAPSHOT_PATH].Some?
    requires var options := fs[SNAPSHOT_PATH].value;
      "increment" in options && options["increment"] == Str(increment)
      && "version" in options && options["version"] == Str("v" + rest)
    requires increment != ""
    requires forall i :: 0 <= i < |rest| ==> !IsLineTerminator(rest[i])
    ensures ReadArguments([], fs) == Success(Raw(increment, Some(rest)))
  {
    var v := "v" + rest;
    assert forall i :: 1 <= i < |v| ==> v[i] == rest[i - 1];
    assert HasVPrefix(v) && v[1..] == rest;
  }

  /** Only one 'v' is stripped: "vv1.0.0" becomes "v1.0.0". */
  lemma StripsOnce()
    ensures StripLeadingV(Some("vv1.0.0")) == Some("v1.0.0")
    ensures StripLeadingV(Some("1.0.0")) == Some("1.0.0")
    ensures StripLeadingV(None) == None
  {
    assert HasVPrefix("vv1.0.0");
  }

  /** A version that spans two lines does not match `/^v(.*)$/` and is kept. */
  lemma MultiLineVersionKept()
    ensures StripLeadingV(Some("v1.0.0\n")) == Some("v1.0.0\n")
  {
    var s := "v1.0.0\n";
    assert IsLineTerminator(s[6]);
  }

  // ---------------------------------------------------------------------
  // readVersions

  /**
   * The prior version comes from the bower manifest whenever it loaded, even
   * without a version field; otherwise from the package manifest; with
   * neither, the step fails and changes nothing.
   */
  lemma PriorVersionPrecedence(s: RunState, lib: Library)
    requires s.bowerConfig.None? && s.packageConfig.None?
    ensures var t := ReadVersionsStep(s, lib);
      && (Loaded(s.fs, BOWER_PATH).Some? ==>
            t.outcome.Pass? && t.next.priorVersion == StringField(Loaded(s.fs, BOWER_PATH).value, VERSION_KEY))
      && (Loaded(s.fs, BOWER_PATH).None? && Loaded(s.fs, PACKAGE_PATH).Some? ==>
            t.outcome.Pass? && t.next.priorVersion == StringField(Loaded(s.fs, PACKAGE_PATH).value, VERSION_KEY))
      && (Loaded(s.fs, BOWER_PATH).None? && Loaded(s.fs, PACKAGE_PATH).None? ==>
            t == Transition(Fail(NoManifest), s))
      && t.next.bowerConfig == Loaded(s.fs, BOWER_PATH) && t.next.packageConfig == Loaded(s.fs, PACKAGE_PATH)
      && t.next.fs == s.fs && t.next.log == s.log
  {
  }

  /** The next version is `inc(priorVersion, increment)`, or the custom version exactly as given. */
  lemma VersionDerivation(s: RunState, lib: Library)
    requires ReadVersionsStep(s, lib).outcome.Pass?
    ensures var t := ReadVersionsStep(s, lib);
      && (s.increment != Custom && t.next.priorVersion.Some? ==>
            t.next.version == lib.inc(t.next.priorVersion.value, s.increment))
      && (s.increment != Custom && t.next.priorVersion.None? ==> t.next.version == None)
      && (s.increment == Custom ==> t.next.version == s.version)
  {
  }

  /** `firstCommit` is set, to 'v' + priorVersion, exactly when the prior version is present and not "0.0.0". */
  lemma FirstCommitIff(s: RunState, lib: Library)
    requires s.firstCommit.None?
    requires ReadVersionsStep(s, lib).outcome.Pass?
    ensures var t := ReadVersionsStep(s, lib);
      && (t.next.firstCommit.Some? <==> Truthy(t.next.priorVersion) && t.next.priorVersion.value != "0.0.0")
      && (t.next.firstCommit.Some? ==> t.next.firstCommit.value == "v" + t.next.priorVersion.value)
  {
  }

  /** Bumping minor on a bower manifest at 1.2.3 gives 1.3.0 and the changelog anchor v1.2.3. */
  lemma MinorScenario(s: RunState, fallback: Library, bower: Config)
    requires s.increment == Minor && s.bowerConfig.None? && s.firstCommit.None?
    requires BOWER_PATH in s.fs && s.fs[BOWER_PATH] == Some(bower)
    requires VERSION_KEY in bower && bower[VERSION_KEY] == Str("1.2.3")
    ensures var t := ReadVersionsStep(s, Plain(fallback));
      t.outcome.Pass? && t.next.version == Some("1.3.0") && t.next.firstCommit == Some("v1.2.3")
  {
    MinorExample(fallback);
    assert "v" + "1.2.3" == "v1.2.3";
  }

  /** Bumping patch on 0.0.0 gives 0.0.1 and leaves `firstCommit` unset. */
  lemma PatchFromZeroScenario(s: RunState, fallback: Library, pkg: Config)
    requires s.increment == Patch && s.bowerConfig.None? && s.firstCommit.None?
    requires Loaded(s.fs, BOWER_PATH).None?
    requires PACKAGE_PATH in s.fs && s.fs[PACKAGE_PATH] == Some(pkg)
    requires VERSION_KEY in pkg && pkg[VERSION_KEY] == Str("0.0.0")
    ensures var t := ReadVersionsStep(s, Plain(fallback));
      t.outcome.Pass? && t.next.version == Some("0.0.1") && t.next.firstCommit.None?
  {
    PatchExample(fallback);
  }

  // ---------------------------------------------------------------------
  // incrementVersion

  /**
   * Every loaded manifest gets the new version, keeps its other keys and is
   * written back; no other file changes; `modifiedFiles` lists the written
   * manifests, bower before package; with none loaded the step fails and
   * changes nothing.
   */
  lemma IncrementVersionWrites(s: RunState)
    ensures var t := IncrementVersionStep(s);
      && (forall path :: path != BOWER_PATH && path != PACKAGE_PATH ==>
            (path in t.next.fs <==> path in s.fs) && (path in s.fs ==> t.next.fs[path] == s.fs[path]))
      && (s.bowerConfig.Some? ==>
            BOWER_PATH in t.next.fs && t.next.fs[BOWER_PATH] == t.next.bowerConfig
            && t.next.bowerConfig.Some? && t.next.bowerConfig.value[VERSION_KEY] == VersionValue(s.version)
            && forall k :: k in s.bowerConfig.value && k != VERSION_KEY ==> t.next.bowerConfig.value[k] == s.bowerConfig.value[k])
      && (s.packageConfig.Some? ==>
            PACKAGE_PATH in t.next.fs && t.next.fs[PACKAGE_PATH] == t.next.packageConfig
            && t.next.packageConfig.Some? && t.next.packageConfig.value[VERSION_KEY] == VersionValue(s.version)
            && forall k :: k in s.packageConfig.value && k != VERSION_KEY ==> t.next.packageConfig.value[k] == s.packageConfig.value[k])
      && (s.bowerConfig.None? ==>
            (BOWER_PATH in t.next.fs <==> BOWER_PATH in s.fs)
            && (BOWER_PATH in s.fs ==> t.next.fs[BOWER_PATH] == s.fs[BOWER_PATH]))
      && (s.packageConfig.None? ==>
            (PACKAGE_PATH in t.next.fs <==> PACKAGE_PATH in s.fs)
            && (PACKAGE_PATH in s.fs ==> t.next.fs[PACKAGE_PATH] == s.fs[PACKAGE_PATH]))
      && (t.outcome.Pass? <==> s.bowerConfig.Some? || s.packageConfig.Some?)
      && (t.outcome.Pass? ==> t.next.modifiedFiles == Some(WrittenFiles(s.bowerConfig, s.packageConfig)))
      && (t.outcome.Fail? ==> t == Transition(Fail(NoConfigFilesWritten), s))
      && t.next.log == s.log && t.next.version == s.version
  {
  }

  /** With both manifests loaded, both carry the new version and are listed bower first. */
  lemma BothManifestsScenario(s: RunState)
    requires s.bowerConfig.Some? && s.packageConfig.Some?
    ensures var t := IncrementVersionStep(s);
      t.outcome.Pass?
      && t.next.modifiedFiles == Some([BOWER_PATH, PACKAGE_PATH])
      && t.next.bowerConfig.value[VERSION_KEY] == t.next.packageConfig.value[VERSION_KEY] == VersionValue(s.version)
  {
    assert [BOWER_PATH] + [PACKAGE_PATH] == [BOWER_PATH, PACKAGE_PATH];
  }

  // ---------------------------------------------------------------------
  // runTest, commit and tag

  /** No process is spawned when `package.json` is absent or tests are skipped. */
  lemma SkippedTestsSpawnNothing(s: RunState, w: World)
    requires PACKAGE_PATH !in s.fs || s.skipTests
    ensures RunTestStep(s, w) == Transition(Pass, s)
  {
  }

  /** Otherwise `npm test` runs once; a non-zero exit code fails, exit code 0 continues. */
  lemma TestExitCode(s: RunState, w: World)
    requires PACKAGE_PATH in s.fs && !s.skipTests
    ensures var t := RunTestStep(s, w);
      && t.next == s.(log := s.log + [Spawn("npm", ["test"])])
      && (w.npmTest.Exited? && w.npmTest.code != 0 ==> t.outcome == Fail(TestsFailed))
      && (w.npmTest == Exited(0) ==> t.outcome == Pass)
      && (w.npmTest == SpawnError ==> t.outcome == Fail(SpawnFailed("npm")))
      && (w.npmTest == Signalled ==> t.outcome == Pass)
  {
  }

  /**
   * The commit message and the tag label are both 'v' + version, where a
   * `null` version reads "null"; each step fails exactly when its git call does.
   */
  lemma CommitAndTagLabels(s: RunState, w: World)
    ensures CommitStep(s, w).next == s.(log := s.log + [CommitCall(s.modifiedFiles, "v" + JsText(s.version))])
    ensures TagStep(s, w).next == s.(log := s.log + [TagCall("v" + JsText(s.version))])
    ensures s.version.None? ==> TagStep(s, w).next.log == s.log + [TagCall("vnull")]
    ensures CommitStep(s, w).outcome.Pass? <==> AddCommit !in w.failingGit
    ensures TagStep(s, w).outcome.Pass? <==> Tag !in w.failingGit
  {
    assert "v" + "null" == "vnull";
  }

  // ---------------------------------------------------------------------
  // Resuming

  /**
   * The manifests keep what `incrementVersion` wrote: a later `readVersions`
   * over those files starts from the new version and bumps once more.  A run
   * resumed before the commit usually stops earlier, at `ensureClean`, on the
   * uncommitted manifests.
   */
  lemma ResumeReadsWrittenVersion(s: RunState, resumed: RunState, v: string, lib: Library)
    requires s.bowerConfig.Some? || s.packageConfig.Some?
    requires s.version == Some(v)
    requires Loaded(s.fs, BOWER_PATH).Some? ==> s.bowerConfig.Some?
    requires resumed.fs == IncrementVersionStep(s).next.fs
    requires resumed.bowerConfig.None? && resumed.packageConfig.None?
    ensures ReadVersionsStep(resumed, lib).outcome.Pass?
    ensures ReadVersionsStep(resumed, lib).next.priorVersion == Some(v)
    ensures resumed.increment != Custom ==> ReadVersionsStep(resumed, lib).next.version == lib.inc(v, resumed.increment)
  {
  }

  /** Resuming `minor` after a run that wrote 1.3.0 releases 1.4.0. */
  lemma ResumeBumpsAgainScenario(s: RunState, resumed: RunState, fallback: Library)
    requires s.bowerConfig.Some? && s.version == Some("1.3.0")
    requires resumed.fs == IncrementVersionStep(s).next.fs
    requires resumed.increment == Minor && resumed.bowerConfig.None? && resumed.packageConfig.None?
    ensures ReadVersionsStep(resumed, Plain(fallback)).next.version == Some("1.4.0")
  {
    ResumeReadsWrittenVersion(s, resumed, "1.3.0", Plain(fallback));
    assert Format(Triple(1, 3, 0)) == "1.3.0";
    assert Format(Triple(1, 4, 0)) == "1.4.0";
    PlainIncrements(fallback, Triple(1, 3, 0), Minor);
  }

  /**
   * A custom version from the snapshot is accepted when valid, and the
   * generator built from it keeps it verbatim through `readVersions`.
   */
  lemma CustomVersionKept(fs: FileSystem, lib: Library, skipTests: bool)
    requires SNAPSHOT_PATH in fs && fs[SNAPSHOT_PATH] == Some(map["increment" := Str("custom"), "version" := Str("2.0.0-beta.1")])
    requires lib.valid("2.0.0-beta.1")
    ensures Resolve([], fs, lib) == Success(Request(Custom, Some("2.0.0-beta.1")))
    ensures ReadVersionsStep(Initial(Resolve([], fs, lib).value, skipTests, fs), lib).next.version == Some("2.0.0-beta.1")
  {
    assert !HasVPrefix("2.0.0-beta.1");
  }

  /** An invocation whose construction fails changes no file and calls nothing. */
  lemma FailedConstructionTouchesNothing(args: seq<string>, skipTests: bool, fs: FileSystem, w: World, lib: Library)
    requires Resolve(args, fs, lib).Failure?
    ensures Invoke(args, skipTests, fs, w, lib) == Invocation(Fail(Resolve(args, fs, lib).error), fs, [])
  {
  }

  // ---------------------------------------------------------------------
  // The pipeline

  /** Running `a + b` runs `a`, then, unless `a` failed, `b` from where `a` left off. */
  lemma {:induction false} RunAppend(a: seq<Step>, b: seq<Step>, s: RunState, w: World, lib: Library)
    ensures RunSteps(a + b, s, w, lib) ==
      var r := RunSteps(a, s, w, lib);
      if r.outcome.Fail? then r
      else var q := RunSteps(b, r.final, w, lib); q.(executed := q.executed + |a|)
    decreases |a|
  {
    if a == [] {
      assert a + b == b;
    } else {
      assert (a + b)[0] == a[0] && (a + b)[1..] == a[1..] + b;
      var t := Exec(a[0], s, w, lib);
      if t.outcome.Pass? {
        RunAppend(a[1..], b, t.next, w, lib);
      }
    }
  }

  /**
   * An abort stops the run: every step before the failing one succeeded, and
   * the final state is the one the failing step left.
   */
  lemma {:induction false} AbortStopsRun(steps: seq<Step>, s: RunState, w: World, lib: Library)
    requires RunSteps(steps, s, w, lib).outcome.Fail?
    ensures var r := RunSteps(steps, s, w, lib);
      var before := RunSteps(steps[..r.executed - 1], s, w, lib);
      before.outcome.Pass? && Exec(steps[r.executed - 1], before.final, w, lib) == Transition(r.outcome, r.final)
    decreases |steps|
  {
    var t := Exec(steps[0], s, w, lib);
    if t.outcome.Fail? {
      assert steps[..0] == [];
    } else {
      AbortStopsRun(steps[1..], t.next, w, lib);
      var inner := RunSteps(steps[1..], t.next, w, lib);
      var k := inner.executed;
      var prefix := steps[..k];
      assert prefix[0] == steps[0] && prefix[1..] == steps[1..][..k - 1];
      assert steps[k] == steps[1..][k - 1];
    }
  }

  lemma {:induction false} SnapshotSurvives(steps: seq<Step>, s: RunState, w: World, lib: Library)
    requires SNAPSHOT_PATH in s.fs
    requires Cleanup !in steps
    ensures SNAPSHOT_PATH in RunSteps(steps, s, w, lib).final.fs
    decreases |steps|
  {
    if steps != [] {
      assert steps[0] in steps;
      var t := Exec(steps[0], s, w, lib);
      if t.outcome.Pass? {
        assert forall x :: x in steps[1..] ==> x in steps;
        SnapshotSurvives(steps[1..], t.next, w, lib);
      }
    }
  }

  /** Where `cleanup`, `incrementVersion` and `commit` sit in the step list. */
  lemma StepsLayout()
    ensures STEPS[..CLEANUP_INDEX] + [Cleanup, Notes] == STEPS
    ensures Cleanup !in STEPS[..CLEANUP_INDEX]
    ensures STEPS[..INCREMENT_INDEX] + [IncrementVersion, ProjectUpdate] + STEPS[COMMIT_INDEX..] == STEPS
    ensures |STEPS[..INCREMENT_INDEX]| == INCREMENT_INDEX
  {
  }

  lemma SnapshotDeletedOnlyAfterAllOf(early: seq<Step>, s: RunState, w: World, lib: Library)
    requires SNAPSHOT_PATH in s.fs
    requires Cleanup !in early
    ensures var r := RunSteps(early + [Cleanup, Notes], s, w, lib);
      && (SNAPSHOT_PATH !in r.final.fs <==> r.outcome.Pass?)
      && (r.outcome.Pass? <==> RunSteps(early, s, w, lib).outcome.Pass?)
  {
    RunAppend(early, [Cleanup, Notes], s, w, lib);
    SnapshotSurvives(early, s, w, lib);
    var p := RunSteps(early, s, w, lib);
    if p.outcome.Pass? {
      var c := CleanupStep(p.final);
      assert [Cleanup, Notes][1..] == [Notes];
      assert RunSteps([Notes], c.next, w, lib) == Finished(Pass, 1, c.next);
    }
  }

  /**
   * The snapshot is deleted exactly when every step before `cleanup`
   * succeeded, which is exactly when the whole run succeeds; a failed run
   * leaves it in place for the next invocation.
   */
  lemma SnapshotDeletedOnlyOnSuccess(s: RunState, w: World, lib: Library)
    requires SNAPSHOT_PATH in s.fs
    ensures var r := RunSteps(STEPS, s, w, lib);
      && (SNAPSHOT_PATH !in r.final.fs <==> r.outcome.Pass?)
      && (r.outcome.Pass? <==> RunSteps(STEPS[..CLEANUP_INDEX], s, w, lib).outcome.Pass?)
  {
    StepsLayout();
    SnapshotDeletedOnlyAfterAllOf(STEPS[..CLEANUP_INDEX], s, w, lib);
  }

  lemma ModifiedFilesAfterIncrement(first: seq<Step>, rest: seq<Step>, s: RunState, w: World, lib: Library)
    requires RunSteps(first + [IncrementVersion, ProjectUpdate] + rest, s, w, lib).executed > |first| + 2
    ensures var before := RunSteps(first + [IncrementVersion, ProjectUpdate], s, w, lib);
      before.outcome.Pass? && before.final.modifiedFiles.Some? && |before.final.modifiedFiles.value| > 0
  {
    var early := first + [IncrementVersion, ProjectUpdate];
    RunAppend(early, rest, s, w, lib);
    RunAppend(first, [IncrementVersion, ProjectUpdate], s, w, lib);
    var p := RunSteps(first, s, w, lib);
    assert [IncrementVersion, ProjectUpdate][1..] == [ProjectUpdate];
  }

  /** When the commit step runs, `modifiedFiles` is set and not empty. */
  lemma CommitSeesModifiedFiles(s: RunState, w: World, lib: Library)
    ensures RunSteps(STEPS, s, w, lib).executed > COMMIT_INDEX ==>
      var before := RunSteps(STEPS[..COMMIT_INDEX], s, w, lib);
      before.outcome.Pass? && before.final.modifiedFiles.Some? && |before.final.modifiedFiles.value| > 0
  {
    if RunSteps(STEPS, s, w, lib).executed > COMMIT_INDEX {
      StepsLayout();
      assert STEPS[..COMMIT_INDEX] == STEPS[..INCREMENT_INDEX] + [IncrementVersion, ProjectUpdate];
      ModifiedFilesAfterIncrement(STEPS[..INCREMENT_INDEX], STEPS[COMMIT_INDEX..], s, w, lib);
    }
  }

  /** A failing test run aborts before `readVersions`, touching no file. */
  lemma TestFailureStopsEarly(req: Request, fs: FileSystem, w: World, lib: Library)
    requires PACKAGE_PATH in fs
    requires EnsureClean !in w.failingGit && EnsureFetched !in w.failingGit
    requires w.npmTest.Exited? && w.npmTest.code != 0
    ensures var s := Initial(req, false, fs);
      RunSteps(STEPS, s, w, lib)
      == Finished(Fail(TestsFailed), 3,
                  s.(log := [GitCall(EnsureClean), GitCall(EnsureFetched), Spawn("npm", ["test"])]))
  {
    var s := Initial(req, false, fs);
    assert STEPS == [Git(EnsureClean), Git(EnsureFetched), RunTest] + STEPS[3..];
    RunAppend([Git(EnsureClean), Git(EnsureFetched), RunTest], STEPS[3..], s, w, lib);
  }
}

module ReleaseScenarios {
  import opened Wrappers
  import opened Semver
  import opened Release
  import opened ReleaseProperties

  /** A world in which every collaborator succeeds and no grunt `version` task exists. */
  function Smooth(): World {
    World({}, Exited(0), false, Exited(0))
  }

  const CHECKS := [Git(EnsureClean), Git(EnsureFetched), RunTest, ReadVersions]
  const DISCOVERY := [Git(OriginName), Git(FindFirstCommit), Git(CommitTime), Git(FindChanges)]
  const UPDATE := [IncrementVersion, ProjectUpdate, Commit, TagRelease]
  const PUBLISH := [Git(Push), Git(PingPullRequests), Cleanup, Notes]

  lemma ScenarioLayout()
    ensures CHECKS + DISCOVERY + UPDATE + PUBLISH == STEPS
  {
  }

  lemma ScenarioReadVersions(s: RunState, bower: Config, pkg: Config, fallback: Library)
    requires s.increment == Minor && s.bowerConfig.None? && s.packageConfig.None? && s.firstCommit.None?
    requires BOWER_PATH in s.fs && s.fs[BOWER_PATH] == Some(bower)
    requires PACKAGE_PATH in s.fs && s.fs[PACKAGE_PATH] == Some(pkg)
    requires VERSION_KEY in bower && bower[VERSION_KEY] == Str("1.2.3")
    ensures ReadVersionsStep(s, Plain(fallback)) == Transition(Pass, s.(
      bowerConfig := Some(bower), packageConfig := Some(pkg), priorVersion := Some("1.2.3"),
      version := Some("1.3.0"), firstCommit := Some("v1.2.3")))
  {
    MinorExample(fallback);
    assert "v" + "1.2.3" == "v1.2.3";
  }

  lemma ScenarioChecks(s0: RunState, bower: Config, pkg: Config, fallback: Library)
    requires s0 == Initial(Request(Minor, None), false, s0.fs)
    requires BOWER_PATH in s0.fs && s0.fs[BOWER_PATH] == Some(bower)
    requires PACKAGE_PATH in s0.fs && s0.fs[PACKAGE_PATH] == Some(pkg)
    requires VERSION_KEY in bower && bower[VERSION_KEY] == Str("1.2.3")
    ensures RunSteps(CHECKS, s0, Smooth(), Plain(fallback))
      == Finished(Pass, 4, s0.(bowerConfig := Some(bower), packageConfig := Some(pkg), priorVersion := Some("1.2.3"),
                               version := Some("1.3.0"), firstCommit := Some("v1.2.3"),
                               log := [GitCall(EnsureClean), GitCall(EnsureFetched), Spawn("npm", ["test"])]))
  {
    var lib := Plain(fallback);
    var s3 := s0.(log := [GitCall(EnsureClean), GitCall(EnsureFetched), Spawn("npm", ["test"])]);
    ScenarioPreliminaries(s0, lib);
    ScenarioReadVersions(s3, bower, pkg, fallback);
    assert CHECKS == [Git(EnsureClean), Git(EnsureFetched), RunTest] + [ReadVersions];
    RunAppend([Git(EnsureClean), Git(EnsureFetched), RunTest], [ReadVersions], s0, Smooth(), lib);
  }

  lemma ScenarioPreliminaries(s: RunState, lib: Library)
    requires PACKAGE_PATH in s.fs && !s.skipTests
    ensures RunSteps([Git(EnsureClean), Git(EnsureFetched), RunTest], s, Smooth(), lib)
      == Finished(Pass, 3, s.(log := s.log + [GitCall(EnsureClean), GitCall(EnsureFetched), Spawn("npm", ["test"])]))
  {
    var steps := [Git(EnsureClean), Git(EnsureFetched), RunTest];
    assert steps[1..] == [Git(EnsureFetched), RunTest];
    assert steps[1..][1..] == [RunTest];
    assert s.log + [GitCall(EnsureClean)] + [GitCall(EnsureFetched)] + [Spawn("npm", ["test"])]
        == s.log + [GitCall(EnsureClean), GitCall(EnsureFetched), Spawn("npm", ["test"])];
  }

  lemma ScenarioDiscovery(s: RunState, lib: Library)
    ensures RunSteps(DISCOVERY, s, Smooth(), lib) == Finished(Pass, 4, s.(log := s.log +
      [GitCall(OriginName), GitCall(FindFirstCommit), GitCall(CommitTime), GitCall(FindChanges)]))
  {
    assert DISCOVERY[1..] == [Git(FindFirstCommit), Git(CommitTime), Git(FindChanges)];
    assert DISCOVERY[1..][1..] == [Git(CommitTime), Git(FindChanges)];
    assert DISCOVERY[1..][1..][1..] == [Git(FindChanges)];
  }

  lemma ScenarioUpdate(s: RunState, bower: Config, pkg: Config, lib: Library)
    requires s.bowerConfig == Some(bower) && s.packageConfig == Some(pkg) && s.version == Some("1.3.0")
    ensures var b := Some(bower[VERSION_KEY := Str("1.3.0")]);
      var p := Some(pkg[VERSION_KEY := Str("1.3.0")]);
      RunSteps(UPDATE, s, Smooth(), lib) == Finished(Pass, 4, s.(
        bowerConfig := b, packageConfig := p,
        fs := s.fs[BOWER_PATH := b][PACKAGE_PATH := p],
        modifiedFiles := Some([BOWER_PATH, PACKAGE_PATH]),
        log := s.log + [CommitCall(Some([BOWER_PATH, PACKAGE_PATH]), "v1.3.0"), TagCall("v1.3.0")]))
  {
    assert [BOWER_PATH] + [PACKAGE_PATH] == [BOWER_PATH, PACKAGE_PATH];
    assert UPDATE[1..] == [ProjectUpdate, Commit, TagRelease];
    assert UPDATE[1..][1..] == [Commit, TagRelease];
    assert UPDATE[1..][1..][1..] == [TagRelease];
    assert Label(Some("1.3.0")) == "v1.3.0";
  }

  lemma ScenarioPublish(s: RunState, lib: Library)
    ensures RunSteps(PUBLISH, s, Smooth(), lib) == Finished(Pass, 4, s.(
      fs := s.fs - {SNAPSHOT_PATH}, log := s.log + [GitCall(Push), GitCall(PingPullRequests)]))
  {
    assert PUBLISH[1..] == [Git(PingPullRequests), Cleanup, Notes];
    assert PUBLISH[1..][1..] == [Cleanup, Notes];
    assert PUBLISH[1..][1..][1..] == [Notes];
    assert SNAPSHOT_PATH !in s.fs ==> s.fs - {SNAPSHOT_PATH} == s.fs;
  }

  lemma ConcatCalls<T>(a: T, b: T, c: T, d: T, e: T, f: T, g: T, h: T, i: T, j: T, k: T)
    ensures [a, b, c] + [d, e, f, g] + [h, i] + [j, k] == [a, b, c, d, e, f, g, h, i, j, k]
  {
  }

  /** Four chunks that each succeed run as one. */
  lemma RunFourChunks(a: seq<Step>, b: seq<Step>, c: seq<Step>, d: seq<Step>, s: RunState, w: World, lib: Library)
    requires RunSteps(a, s, w, lib).outcome.Pass?
    requires RunSteps(b, RunSteps(a, s, w, lib).final, w, lib).outcome.Pass?
    requires RunSteps(c, RunSteps(b, RunSteps(a, s, w, lib).final, w, lib).final, w, lib).outcome.Pass?
    ensures var s3 := RunSteps(c, RunSteps(b, RunSteps(a, s, w, lib).final, w, lib).final, w, lib).final;
      RunSteps(a + b + c + d, s, w, lib) ==
        var r := RunSteps(d, s3, w, lib); r.(executed := r.executed + |a| + |b| + |c|)
  {
    RunAppend(a, b, s, w, lib);
    RunAppend(a + b, c, s, w, lib);
    RunAppend(a + b + c, d, s, w, lib);
  }

  /** The sixteen steps from the constructed state, chunk by chunk. */
  lemma ScenarioRun(s0: RunState, bower: Config, pkg: Config, fallback: Library)
    requires s0 == Initial(Request(Minor, None), false, s0.fs)
    requires BOWER_PATH in s0.fs && s0.fs[BOWER_PATH] == Some(bower)
    requires PACKAGE_PATH in s0.fs && s0.fs[PACKAGE_PATH] == Some(pkg)
    requires VERSION_KEY in bower && bower[VERSION_KEY] == Str("1.2.3")
    ensures var r := RunSteps(CHECKS + DISCOVERY + UPDATE + PUBLISH, s0, Smooth(), Plain(fallback));
      && r.outcome.Pass?
      && r.final.fs == s0.fs[BOWER_PATH := Some(bower[VERSION_KEY := Str("1.3.0")])]
                            [PACKAGE_PATH := Some(pkg[VERSION_KEY := Str("1.3.0")])] - {SNAPSHOT_PATH}
      && r.final.log == [GitCall(EnsureClean), GitCall(EnsureFetched), Spawn("npm", ["test"]),
                         GitCall(OriginName), GitCall(FindFirstCommit), GitCall(CommitTime), GitCall(FindChanges),
                         CommitCall(Some([BOWER_PATH, PACKAGE_PATH]), "v1.3.0"), TagCall("v1.3.0"),
                         GitCall(Push), GitCall(PingPullRequests)]
  {
    var lib := Plain(fallback);
    var w := Smooth();
    ScenarioChecks(s0, bower, pkg, fallback);
    var s1 := RunSteps(CHECKS, s0, w, lib).final;
    ScenarioDiscovery(s1, lib);
    var s2 := RunSteps(DISCOVERY, s1, w, lib).final;
    ScenarioUpdate(s2, bower, pkg, lib);
    var s3 := RunSteps(UPDATE, s2, w, lib).final;
    ScenarioPublish(s3, lib);
    var s4 := RunSteps(PUBLISH, s3, w, lib).final;
    RunFourChunks(CHECKS, DISCOVERY, UPDATE, PUBLISH, s0, w, lib);
    assert s2.fs == s1.fs == s0.fs;
    assert s3.fs == s0.fs[BOWER_PATH := Some(bower[VERSION_KEY := Str("1.3.0")])]
                         [PACKAGE_PATH := Some(pkg[VERSION_KEY := Str("1.3.0")])];
    assert s4.fs == s3.fs - {SNAPSHOT_PATH};
    assert s4.log == s3.log + [GitCall(Push), GitCall(PingPullRequests)];
    assert s3.log == s2.log + [CommitCall(Some([BOWER_PATH, PACKAGE_PATH]), "v1.3.0"), TagCall("v1.3.0")];
    assert s2.log == s1.log + [GitCall(OriginName), GitCall(FindFirstCommit), GitCall(CommitTime), GitCall(FindChanges)];
    ConcatCalls(GitCall(EnsureClean), GitCall(EnsureFetched), Spawn("npm", ["test"]),
                GitCall(OriginName), GitCall(FindFirstCommit), GitCall(CommitTime), GitCall(FindChanges),
                CommitCall(Some([BOWER_PATH, PACKAGE_PATH]), "v1.3.0"), TagCall("v1.3.0"),
                GitCall(Push), GitCall(PingPullRequests));
  }

  /**
   * Releasing `minor` from 1.2.3 with both manifests present: both manifests
   * end at 1.3.0, the commit covers both and is labelled v1.3.0 like the tag,
   * and the snapshot is gone.
   */
  lemma MinorReleaseScenario(fs: FileSystem, bower: Config, pkg: Config, fallback: Library)
    requires BOWER_PATH in fs && fs[BOWER_PATH] == Some(bower)
    requires PACKAGE_PATH in fs && fs[PACKAGE_PATH] == Some(pkg)
    requires VERSION_KEY in bower && bower[VERSION_KEY] == Str("1.2.3")
    ensures Invoke(["minor"], false, fs, Smooth(), Plain(fallback)) == Invocation(
      Pass,
      fs[BOWER_PATH := Some(bower[VERSION_KEY := Str("1.3.0")])]
        [PACKAGE_PATH := Some(pkg[VERSION_KEY := Str("1.3.0")])] - {SNAPSHOT_PATH},
      [GitCall(EnsureClean), GitCall(EnsureFetched), Spawn("npm", ["test"]),
       GitCall(OriginName), GitCall(FindFirstCommit), GitCall(CommitTime), GitCall(FindChanges),
       CommitCall(Some([BOWER_PATH, PACKAGE_PATH]), "v1.3.0"), TagCall("v1.3.0"),
       GitCall(Push), GitCall(PingPullRequests)])
  {
    assert Resolve(["minor"], fs, Plain(fallback)) == Success(Request(Minor, None));
    ScenarioLayout();
    ScenarioRun(Initial(Request(Minor, None), false, fs), bower, pkg, fallback);
  }
}
