# generator-release: a Dafny model of the release pipeline

`release/index.js` is a Yeoman generator that cuts a release. Its
constructor decides which version bump to make. The increment kind comes
from the first command-line argument or, when there is none, from a
`.generator-release` snapshot left by an earlier invocation. A custom kind
also needs a version from that snapshot, and the constructor validates both.
The generator's prototype methods then run in the order they are declared:
- `ensureClean`, `ensureFetched`, `runTest` and `readVersions`;
- the four git change-discovery helpers;
- `incrementVersion`, `projectUpdate`, `commit` and `tag`;
- `push`, `pingPullRequests`, `cleanup` and `notes`.

An exception in any step ends the run. The snapshot therefore survives every
run that does not reach `cleanup`, and the next invocation can resume from it.

The model has five modules:

- `Wrappers` (`wrappers.dfy`): `Option`, `Result` and `Outcome`.
- `Semver` (`semver.dfy`): the five increment kinds and a `Library` holding the two `semver` calls the generator makes (`valid` and `inc`). The pipeline is parametric in the `Library`. `Semver.Plain` is a concrete library for plain `MAJOR.MINOR.PATCH` versions, following items 2, 6, 7, 8 and 11 of Semantic Versioning 2.0.0. It has decimal text conversion, parsing and round-trip proofs. A prerelease version, a version with build metadata or a prefixed version, and the `prerelease` increment, are passed on to an abstract fallback library.
- `Release` (`release.dfy`): the run state, meaning the fields the methods share on `this`, plus the working directory as a map from path to parsed JSON object and the list of external calls made so far. It defines each step as a pure function from the state before the step to an outcome and the state after it, with the 16 steps in declaration order (`STEPS`). `RunSteps` runs steps in order and stops after the first failure. `Invoke` is one whole invocation.
- `Generator` (`generator.dfy`): class `ReleaseGenerator`, with the source's fields and one imperative method per prototype method. Each method is proved to change the object exactly as its step function says. `Run` is the driver loop over `STEPS`, and `Execute` constructs the generator and then runs it.
- `ReleaseProperties` and `ReleaseScenarios` (`properties.dfy`): the properties of the pipeline and worked scenarios.

Git, npm and grunt are outside the model. A `World` value supplies their
answers for one run:
- which git helper calls fail;
- how `npm test` and `grunt version` end (an exit code, killed by a signal, or a spawn error);
- whether the grunt file registers a `version` task.

Behaviour of the code that the model keeps, although a reader might expect otherwise:

- `readVersions` does not check what `semver.inc` returns. For a non-custom kind on a missing or malformed prior version, `version` becomes `null`. The run then goes on: it writes `"version": null` into the manifests and commits and tags `vnull`. So a malformed prior version is not a failure of its own.
- With no manifest loaded, the run fails in `readVersions`, because it reads `.version` of `undefined`. It does not get as far as `incrementVersion`.
- `runTest` checks only that `package.json` exists, not that it parses.
- A test or version process killed by a signal reports exit code `null`. The code treats that as success.
- Resuming after a failure in `tag`, `push` or `pingPullRequests` reads the manifests the committed release already bumped, and bumps them again. Nothing in this file prevents that double bump. `ReleaseProperties.ResumeReadsWrittenVersion` states the step-level fact: `readVersions` over the written manifests starts from the new version. After a failure in `projectUpdate` or `commit`, the bumped manifests are uncommitted, so a resumed run normally stops at `ensureClean`, before `readVersions`. The model keeps `ensureClean` opaque and does not derive this.
- `pingPullRequests` is the git helper itself, so the generator does not swallow its failures. When it reports one, the model stops the run as for any other step.

## Model

| member | source | states |
|---|---|---|
| `Semver.ParseKeyword` | release/index.js:34-40 | each of the five kinds is recognised from exactly its own keyword |
| `Semver.BumpIncreases` | release/index.js:83 | a major, minor or patch bump of a plain version has strictly higher precedence |
| `Semver.ParseFormat` | release/index.js:35 | the plain model of `semver.valid` accepts the text of every plain version and parses it back to the same version |
| `Semver.FormatParse` | release/index.js:35 | every text the plain model accepts is the canonical text of its version: no leading zeros, nothing extra |
| `Semver.PlainIncrements` | release/index.js:83 | on a plain version, `inc` bumps by items 6 to 8, which resets the lower fields, and the result parses to a higher version |
| `Semver.MinorExample` | release/index.js:83 | `inc("1.2.3", minor)` is `"1.3.0"` |
| `Semver.PatchExample` | release/index.js:83 | `inc("0.0.0", patch)` is `"0.0.1"` |
| `Release.StripLeadingV` | release/index.js:26-28 | a version is changed exactly when it matches `/^v(.*)$/`, and then only its first character, a `v`, is removed; a missing version stays missing |
| `Release.Validate` | release/index.js:34-40 | succeeds exactly when the increment is one of the five keywords and, for `custom`, the version is present and `semver.valid`; otherwise it fails with the matching error |
| `Release.ExitOutcome` | release/index.js:55-65 | a spawned process lets the run continue exactly when its exit code is 0 or `null` (killed by a signal) |
| `Release.SetVersion` | release/index.js:99-108 | a loaded manifest gets the new version and keeps every other key and value |
| `Release.RunSteps` | release/index.js:45-161 | a run that succeeds has started every step; a failed run has started at least one |
| `Generator.ReleaseGenerator.constructor` | release/index.js:12-19 | a constructed generator holds the validated kind and version and the skip-tests flag, with every other field unset |
| `Generator.ReleaseGenerator.Create` | release/index.js:12-41 | construction fails exactly when `Release.Resolve` fails, with the same error; otherwise the fresh object holds the resolved request |
| `Generator.ReleaseGenerator.GitCommand` | release/index.js:45-46 | a git helper step records its call and fails exactly when the helper fails |
| `Generator.ReleaseGenerator.RunTest` | release/index.js:48-66 | the new state and outcome are those of `Release.RunTestStep` (no spawn when skipped or without `package.json`) |
| `Generator.ReleaseGenerator.ReadVersions` | release/index.js:68-88 | the new state and outcome are those of `Release.ReadVersionsStep` |
| `Generator.ReleaseGenerator.IncrementVersion` | release/index.js:95-115 | the new state and outcome are those of `Release.IncrementVersionStep`, with the file list built by pushes |
| `Generator.ReleaseGenerator.ProjectUpdate` | release/index.js:117-138 | `grunt version --ver=<version>` runs only when the task exists; a non-zero exit code fails |
| `Generator.ReleaseGenerator.Commit` | release/index.js:140-144 | commits `modifiedFiles` with the release label |
| `Generator.ReleaseGenerator.TagRelease` | release/index.js:146-148 | tags with the release label |
| `Generator.ReleaseGenerator.Cleanup` | release/index.js:153-157 | deletes the snapshot when it exists and leaves everything else unchanged |
| `Generator.ReleaseGenerator.RunStep` | release/index.js:45-161 | one step changes the object exactly as `Release.Exec` says |
| `Generator.ReleaseGenerator.Run` | release/index.js:45-161 | the loop runs the declared steps in order and stops after the first failure; its outcome, step count and final state are those of `Release.RunSteps` |
| `Generator.ReleaseGenerator.Execute` | release/index.js:12-161 | one invocation ends with the outcome, files and calls of `Release.Invoke` |
| `ReleaseProperties.ConstructionValidates` | release/index.js:31-40 | construction succeeds exactly when the increment read is one of the five keywords and a custom one carries a valid version |
| `ReleaseProperties.UnknownIncrementRejected` | release/index.js:38-39 | a positional argument that is none of the keywords fails with the unknown-kind error |
| `ReleaseProperties.CustomArgumentAlwaysFails` | release/index.js:34-37 | `custom` on the command line has no version and always fails |
| `ReleaseProperties.SnapshotIgnoredWithArguments` | release/index.js:21 | with a positional argument, the snapshot's contents do not matter |
| `ReleaseProperties.NoArgumentsNoSnapshotFails` | release/index.js:31-33 | with no argument and no snapshot, construction fails for the missing increment |
| `ReleaseProperties.SnapshotResume` | release/index.js:21-29 | the snapshot's increment is used, and its version with one leading `v` removed and the rest kept |
| `ReleaseProperties.StripsOnce` | release/index.js:26-28 | `vv1.0.0` becomes `v1.0.0`; a version without `v`, or a missing one, is unchanged |
| `ReleaseProperties.MultiLineVersionKept` | release/index.js:26 | a version that spans two lines does not match the pattern and is kept |
| `ReleaseProperties.PriorVersionPrecedence` | release/index.js:68-80 | the prior version comes from `bower.json` whenever it loaded, even without a version field, and otherwise from `package.json`; with neither, the step fails and changes nothing |
| `ReleaseProperties.VersionDerivation` | release/index.js:82-84 | for a non-custom kind the version is `inc(priorVersion, kind)`, or `null` without a prior version; a custom version is kept exactly |
| `ReleaseProperties.FirstCommitIff` | release/index.js:85-87 | `firstCommit` is set, to `'v' + priorVersion`, if and only if the prior version is present and not `0.0.0` |
| `ReleaseProperties.MinorScenario` | release/index.js:80-87 | bumping minor from a bower manifest at 1.2.3 gives 1.3.0 and the changelog anchor `v1.2.3` |
| `ReleaseProperties.PatchFromZeroScenario` | release/index.js:80-87 | bumping patch from 0.0.0 gives 0.0.1 and leaves `firstCommit` unset |
| `ReleaseProperties.IncrementVersionWrites` | release/index.js:95-115 | every loaded manifest gets the version, keeps its other keys and is written back; no other file changes; `modifiedFiles` lists them bower first; with none loaded the step fails and changes nothing |
| `ReleaseProperties.BothManifestsScenario` | release/index.js:98-111 | with both manifests, both hold the same new version and `modifiedFiles` is `[bower.json, package.json]` |
| `ReleaseProperties.SkippedTestsSpawnNothing` | release/index.js:49-51 | without `package.json`, or with tests skipped, nothing is spawned and nothing changes |
| `ReleaseProperties.TestExitCode` | release/index.js:53-65 | otherwise `npm test` is spawned once; a non-zero exit fails with "Tests failed", exit 0 or a kill by a signal continues, and a spawn error aborts |
| `ReleaseProperties.CommitAndTagLabels` | release/index.js:140-148 | the commit message and the tag label are both `'v' + version` (`vnull` for a `null` version); only the call log changes; each step fails exactly when its git call does |
| `ReleaseProperties.ResumeReadsWrittenVersion` | release/index.js:68-115 | a later `readVersions` over the files `incrementVersion` wrote reads back the new version and bumps from it |
| `ReleaseProperties.ResumeBumpsAgainScenario` | release/index.js:68-115 | resuming `minor` after a run that wrote 1.3.0 releases 1.4.0 |
| `ReleaseProperties.CustomVersionKept` | release/index.js:21-88 | a valid custom `2.0.0-beta.1` from the snapshot is accepted, and the generator constructed from it keeps it verbatim through `readVersions` |
| `ReleaseProperties.FailedConstructionTouchesNothing` | release/index.js:12-41 | when construction throws, no step runs: no file changes and nothing is called |
| `ReleaseProperties.RunAppend` | release/index.js:45-161 | running two lists of steps one after the other is running them as one list, stopping at the first failure |
| `ReleaseProperties.AbortStopsRun` | release/index.js:45-161 | after an abort, every earlier step succeeded and the final state is the one the failing step left: nothing after it ran |
| `ReleaseProperties.SnapshotDeletedOnlyOnSuccess` | release/index.js:153-157 | an existing snapshot is deleted exactly when every step before `cleanup` succeeded, which is exactly when the whole run succeeds |
| `ReleaseProperties.CommitSeesModifiedFiles` | release/index.js:110-144 | whenever the commit step runs, `modifiedFiles` is set and not empty |
| `ReleaseProperties.TestFailureStopsEarly` | release/index.js:45-66 | a failing `npm test` aborts the run as its third step, before `readVersions`; no file and no field changes |
| `ReleaseScenarios.MinorReleaseScenario` | release/index.js:12-161 | `minor` from 1.2.3 with both manifests: both end at 1.3.0; the commit covers both and is labelled `v1.3.0` like the tag; the snapshot is gone; the full list of external calls is fixed |

## Left out

- The git helper library (`ensureClean`, `ensureFetched`, `originName`, `findFirstCommit`, `commitTime`, `findChanges`, `addCommit`, `tag`, `push`, `pingPullRequests`) is not part of this model. Each call is an opaque success or failure taken from `World`. What the helpers read from or store on the generator is not modelled.
- Processes are spawned asynchronously with `this.async()` callbacks. Here each spawn is a blocking call that ends in an exit code, a kill by a signal, or a spawn error.
- Grunt task discovery in `projectUpdate` becomes a boolean in `World`.
- The internals of `semver.valid` and `semver.inc` are foreign library code. The pipeline takes them as parameters. The concrete `Semver.Plain` covers only plain versions and gives every other text, and the `prerelease` increment, to an abstract fallback.
- `Semver.Plain` uses unbounded naturals for the version fields. The `semver` library stores them as JavaScript numbers, which lose precision above 2^53, and later releases reject fields above `Number.MAX_SAFE_INTEGER`. The model does not capture either.
- JSON parsing, the two-space pretty-printing with a trailing newline, and the `fs` calls are abstracted as a map from path to parsed object. A file that does not parse as a JSON object is present but not loaded. The model assumes writes and deletes always succeed.
- A non-string value in the snapshot, or in a manifest's `version` field, is read as absent. In the source, a truthy non-string increment fails with the unknown-kind message instead of the missing-argument one. Construction fails either way.
- Of the Yeoman `option` and `argument` framework, only the effect is kept: the first positional argument, the failure for a required argument that was not given, and a boolean `skip-tests`.
- Console output, `chalk` colouring and the message `notes` prints are not modelled. `notes` is a step that changes nothing.
- `World` gives one answer per collaborator per run. This is enough because each collaborator is called at most once in a run.
