# Installer builder of meteor-desktop, modelled in Dafny

`InstallerBuilder.build()` wraps the electron-builder packaging engine. Before it
packages the desktop app it moves the app's `node_modules` directory out of the way.
It then reads the desktop settings and requires a `builderOptions` entry in them.
It forces two packaging options on that entry and resolves one architecture and a
list of platforms from the command-line flags and the host OS. Finally it calls
the engine once and moves `node_modules` back, whether the engine succeeded or threw.

The model has three modules:

- `Targets` (targets.dfy): architecture and platform resolution. The pure rules
  are functions (`ArchFor`, `PlatformsFor`). The two reassignments of `arch` and the
  pushes onto `targets` are methods (`ResolveArch`, `ResolvePlatforms`) proved
  equal to those functions.
- `BuilderSettings` (builder_settings.dfy): the settings object as a class whose
  `values` map is updated in place. It also holds the two forced options,
  `asar = false` and `npmRebuild = true`.
- `InstallerBuilder` (installer_builder.dfy): the build routine.
  - The function `Run` describes one run: the trace of effects (stage, exit, engine
    call, restore), where `node_modules` ends up, how the run ends, and the patched
    settings.
  - The class `Builder` keeps the location of `node_modules`, the number of engine
    calls and the outcome as fields. Its `Build` method performs the steps in the
    source's order, and its contract ties the new state to `Run`.
  - The function `Replay` recomputes the location from the recorded moves alone.
    The lemma `RunTraceAgrees` proves that this matches the location the run reports.

The packaging engine's result is a parameter of `Build` and `Run`. Every contract
therefore holds for both a successful and a throwing engine.

The ordering is modelled as the code has it. The move at line 24 happens before the
`builderOptions` check at line 30. So when the entry is missing, the process exits
with status 1 and `node_modules` is left at its temporary location (`Run`'s
`Aborted` case). A design that checks the configuration before staging anything
would not leave it there. The code does not do that, and the model follows the code.

The model also covers one more path. The routine runs as strict-mode module code. If
`builderOptions` exists but is not an object (for example `null` or a string),
the assignment at line 38 throws a TypeError. That assignment sits outside the
`try`, so the error escapes `build()`, the engine is never called, and
`node_modules` also stays at its temporary location (outcome `OverrideThrew`).

## Model

| member | source | states |
|---|---|---|
| `Targets.ArchFor` | lib/installerBuilder.js:41-43 | the architecture is `all` exactly when `allArchs` is set; otherwise `ia32` exactly when `ia32` is set, and `x64` otherwise |
| `Targets.AllArchsIgnoresIa32` | lib/installerBuilder.js:41-43 | with `allArchs` set, flipping `ia32` does not change the architecture, which is `all` |
| `Targets.ResolveArch` | lib/installerBuilder.js:41-43 | the two successive assignments to `arch` yield `ArchFor` of the options |
| `Targets.Keep` | lib/installerBuilder.js:47-55 | the kept platforms are exactly the flagged members of the input, and the input's order survives |
| `Targets.Requested` | lib/installerBuilder.js:45-55 | the platforms pushed from the flags are exactly the flagged ones, in the order windows, linux, mac, and there are none exactly when no flag is set |
| `Targets.Fallback` | lib/installerBuilder.js:57-65 | the host fallback is windows exactly on a Windows host, linux exactly on a non-Windows Linux host, mac otherwise |
| `Targets.PlatformsFor` | lib/installerBuilder.js:45-65 | the platform list is never empty, is in the fixed order and has no duplicates; with a flag set, its members are exactly the flagged platforms; with none set, it is the single host fallback |
| `Targets.HostIgnoredWhenFlagged` | lib/installerBuilder.js:57 | when any platform flag is set, the host OS does not affect the list |
| `Targets.OrderedListsWithSameMembersAreEqual` | lib/installerBuilder.js:45-55 | two platform lists in the fixed order with the same members are equal, so order and membership determine the list |
| `Targets.FlaggedPlatformsExactly` | lib/installerBuilder.js:45-55 | with a flag set, the list is the only ordered list of the flagged platforms |
| `Targets.ResolvePlatforms` | lib/installerBuilder.js:45-65 | the conditional pushes onto `targets`, then the fallback push when it is still empty, produce `PlatformsFor` |
| `BuilderSettings.WithForcedOverrides` | lib/installerBuilder.js:38-39 | after the overrides `asar` is false and `npmRebuild` is true; every other key of `builderOptions` keeps its value and no other key is added |
| `BuilderSettings.Settings.ForceOverrides` | lib/installerBuilder.js:38-39 | the assignments succeed exactly when `builderOptions` is an object, and then only that entry changes, to its overridden form; otherwise nothing changes |
| `InstallerBuilder.Run` | lib/installerBuilder.js:21-89 | staging is always the first effect; without `builderOptions` (the presence test at line 30) the effects are exactly the move and an exit with status 1, the engine is never called and `node_modules` stays staged; with a `builderOptions` that is not an object, the move is the only effect, the run ends `OverrideThrew` and the settings are untouched; with an object `builderOptions` the engine is called exactly once with the patched options and the resolved targets, then `node_modules` is restored and the routine returns normally whatever the engine did |
| `InstallerBuilder.RunTraceAgrees` | lib/installerBuilder.js:24-88 | replaying a run's recorded moves, from wherever `node_modules` started, gives the location the run reports; the engine is called exactly once when `builderOptions` is an object and never otherwise |
| `InstallerBuilder.ReplayAppend` | lib/installerBuilder.js:24-27 | replaying two traces one after the other gives the same location as replaying their concatenation |
| `InstallerBuilder.InvocationsAppend` | lib/installerBuilder.js:70 | engine calls in a concatenated trace add up |
| `InstallerBuilder.Builder.constructor` | lib/installerBuilder.js:16-19 | a new builder has `node_modules` in place, no engine calls and an empty trace |
| `InstallerBuilder.Builder.StageNodeModules` | lib/installerBuilder.js:24-27 | the move puts `node_modules` at the temporary location and records it, changing nothing else |
| `InstallerBuilder.Builder.RestoreNodeModules` | lib/installerBuilder.js:82-88 | the move back puts `node_modules` at its own location and records it, changing nothing else |
| `InstallerBuilder.Builder.CallEngine` | lib/installerBuilder.js:69-81 | one engine call is recorded; a throwing engine is caught and becomes `BuildFailed` with its error; the location is untouched |
| `InstallerBuilder.Builder.ExitProcess` | lib/installerBuilder.js:30-34 | the exit is recorded and the outcome becomes `Aborted` with the given status; the location of `node_modules` and the engine calls are untouched |
| `InstallerBuilder.Builder.PackageAndRestore` | lib/installerBuilder.js:41-88 | with the patched options, exactly one engine call is recorded with the resolved targets, followed by the move back; `node_modules` ends in place on either engine result |
| `InstallerBuilder.Builder.Build` | lib/installerBuilder.js:21-89 | the new trace, location, outcome, call count and settings are exactly those of `Run`, and the fields stay consistent with the recorded effects |

## Left out

- electron-builder's `build` and `createTargets`. The engine's behaviour is reduced to the result it reports, which is a parameter. The target list is an uninterpreted pair of platforms and architecture.
- The file system. `shell.mv` is reduced to the location of `node_modules`, and each move always succeeds. The code never checks the result of `mv`. A run that starts with the directory already staged is not told apart from one that starts in place.
- The output directory built with `path.join`, and the app root passed to the engine. These are paths only, with no decision in them.
- Logging through `Log`. It has no behaviour to state.
- `process.exit`. It is the terminal outcome `Aborted(1)`. `Build` cannot be called again after it.
- `async`/`await`. The single engine call is one atomic step.
- Reading the settings through the desktop's settings lookup. The settings object is an input to `Build`.
- JSON arrays and fractional numbers in settings values. The routine never looks inside any value except the `builderOptions` object.
