# lttng-ivc build and runtime harness, modelled in Dafny

lttng-ivc is an inter-version compatibility harness for the LTTng tracer.
It builds many versions of lttng-modules, lttng-ust, lttng-tools and
babeltrace from git, each in its own directory. The builds depend on each
other; for example, an lttng-tools installation is built against an
lttng-ust installation. The harness caches the built projects as pickles
and runs tests in a sandbox that owns a tracer home directory and the
daemons the test spawns.

This project models the core of the harness and proves its behaviour:

- the `Project` build graph, with its recursive flag and path accessors,
  the environment `get_env` composes, and the guarded lifecycle steps
  (`configure`, `build`, `install`, `rpath_strip` and `autobuild`), both
  in `lttng_ivc` and in the older `lttng_b_test` variant;
- the project factory (`get_fresh`, `get_precook` and the pickle check
  `_validate_pickle`);
- the `Runtime` sandbox: the attached projects, the process table, the
  commands it ran, and `close`;
- the marker-table scripts `bootstrap.py` and `launch.py`;
- the helpers of `utils.py`, including `relayd_spawn`.

Modules, one per file:

- `Base` (`base.dfy`): string and sequence helpers: `Join`, `PathJoin`, `Dirname`, `Dedup`, infixes.
- `Environment` (`env.dfy`): environment maps and the strict merge that raises on a name already present.
- `BuildGraph` (`graph.dfy`): what `lttng_ivc/utils/project.py` computes without changing state:
  - the pickled `Snapshot` tree;
  - the accessors;
  - `get_env` (`EnvSpec`);
  - the external commands.
- `Lifecycle` (`lifecycle.dfy`): each lifecycle step as a function from a snapshot, the outside `World` and the environment to the new snapshot, the commands started and the result, with the properties proved there.
- `IvcProject` (`project.dfy`): the `Project` class. Its methods change its fields and are proved equal to the `Lifecycle` functions.
- `LegacyProject` (`legacy_project.dfy`): the `Project` class of `lttng_b_test/utils/project.py`.
- `Factory` (`factory.dfy`): `ProjectFactory.py`. The pickle store is a map from label to `Snapshot`.
- `Sandbox` (`runtime.dfy`): `runtime.py`. The `Runtime` class carries the project list, the process and handle tables, the run counter, and the log of runs.
- `MarkerTable` (`markers.dfy`): `bootstrap.py` and `launch.py`.
- `Utils` (`utils.dfy`): `utils.py` except `relayd_spawn`.
- `Relayd` (`relayd.dfy`): `relayd_spawn`.

External effects are values given as parameters:

- git, `subprocess`, chrpath: `World.Succeeds`, the set of commands that fail;
- the process environment, the ccache path, `os.walk` trees and the CPU count: `World` fields;
- the exit codes of spawned processes and of commands, whether the home directory exists, and the free port gdbserver gets: a `Host` value;
- the git remotes: a `Repo` value per remote path;
- the url-to-directory digest: a parameter;
- the successive texts of a log file and the sequence of ports the system offers: sequences.

## Model

| member | source | states |
|---|---|---|
| Base.JoinFlatten | lttng_ivc/utils/project.py:91-120 | Joining a group that was itself joined with the same delimiter is the same as joining its items: nested accessor results flatten into one list. |
| Base.JoinContainsItem | lttng_ivc/utils/runtime.py:237-259 | Every item of a join occurs in the joined string. |
| Base.DedupMeaning | lttng_ivc/utils/utils.py:133-139 | The deduplicated sequence has no repeats and holds exactly the elements of the input. |
| Base.DedupPrefix | lttng_ivc/utils/utils.py:134-138 | Deduplicating a longer prefix only appends: when ports are drawn one by one, the ports already kept stay in place. |
| Base.Dirname | lttng_ivc/utils/project.py:412 | `os.path.dirname` returns a prefix of its argument. |
| Base.PathJoin | lttng_ivc/utils/project.py:64-66 | `os.path.join` with a relative component starts with the directory and ends with the component. |
| Environment.AddStrict | lttng_ivc/utils/runtime.py:278-284 | The loop that adds variables and raises on a name already present succeeds exactly when the two key sets are disjoint, whatever the visiting order. On success it yields the union. |
| Environment.StrictMergeAllMeaning | lttng_ivc/utils/runtime.py:278-293 | Merging several sources in order succeeds exactly when no name is defined twice (`NoCollision`). It then yields every definition. |
| Environment.UnionAllAt | lttng_ivc/utils/runtime.py:286-293 | When no name is in two sources, the union holds each source's value of each of its names. |
| Environment.StrictMergeAllAppend | lttng_ivc/utils/project.py:145-154 | Merging `a` and then `b` is merging `a + b`; a collision in `a` stops the whole merge. |
| BuildGraph.DepsWellFormedMeaning | lttng_ivc/utils/project.py:52 | A snapshot's dependencies from position `i` on are well formed exactly when each one is: dict keys are distinct at every level. |
| BuildGraph.Installs | lttng_ivc/utils/project.py:91-120 | The preorder of installation directories starts with the project's own directory. |
| BuildGraph.PathsPreorder | lttng_ivc/utils/project.py:91-120 | Each of the five accessors equals its own item applied to the preorder of install paths (own path first, then each dependency in dict order), joined once with " " for flags and ":" for paths. |
| BuildGraph.PathsOwnFirst | lttng_ivc/utils/project.py:91-120 | An accessor's result starts with the project's own item, and each direct dependency's result occurs inside it. |
| BuildGraph.ComputePaths | lttng_ivc/utils/project.py:91-120 | The loop over the dependencies, each asked for its own recursive result, equals the preorder definition `Paths`. |
| BuildGraph.AddOwnSpecials | lttng_ivc/utils/project.py:132-143 | The loop over the own special variables ends as `OwnMerge`, whatever order it visits them in. An existing LD_LIBRARY_PATH gets ":" and the value after it; CPPFLAGS, CFLAGS and LDFLAGS get " " and the value; any other existing name fails. |
| BuildGraph.SetPath | lttng_ivc/utils/project.py:156-160 | Setting a path variable adds that one name and keeps every other name's value. |
| BuildGraph.ComputeEnv | lttng_ivc/utils/project.py:122-162 | `get_env` with its loops equals `EnvSpec`, the staged definition: own special variables, then each dependency's, then the four path variables. |
| BuildGraph.EnvSpecFails | lttng_ivc/utils/project.py:132-154 | `get_env` succeeds exactly when every own special variable that meets an existing name is appendable, and no dependency's special variable meets a name already defined (including equal values). |
| BuildGraph.EnvSpecPathVariable | lttng_ivc/utils/project.py:156-160 | CPPFLAGS, LDFLAGS, LD_LIBRARY_PATH and PKG_CONFIG_PATH hold the accessor result, followed by the delimiter and whatever value an earlier stage gave the name. See also lines 124-128. |
| BuildGraph.EnvSpecOtherVariable | lttng_ivc/utils/project.py:156-162 | Every other name is defined and valued as the earlier stages left it. |
| BuildGraph.PriorOwnVariable | lttng_ivc/utils/project.py:132-143 | An own special variable gets its value, or extends the process value of an appendable name; a process value that is not overridden stays. |
| BuildGraph.PriorDependencyVariable | lttng_ivc/utils/project.py:145-154 | When `get_env` succeeds, a dependency's special variable is in neither the process environment nor the project's own, and keeps its value. |
| BuildGraph.EnvSpecLayout | lttng_ivc/utils/project.py:122-162 | `get_env` reads only the install location, the special variables and the dependencies: the build-state flags do not change it. |
| BuildGraph.StepsManuallyTriggered | lttng_ivc/utils/project.py:178-179 | `isConfigured ^ isBuilt ^ isInstalled` holds exactly when an odd number of the three flags are set. |
| BuildGraph.PlannedCommands | lttng_ivc/utils/project.py:181-206 | The planned commands of a project's own autobuild are its kind's steps, in order, each owned by the project. See also lines 362-391. |
| BuildGraph.FindMiXsd | lttng_ivc/utils/project.py:424-431 | The Lttng_tools loop over the schema names stops at the first name `find_file` finds. It returns None exactly when no name is found. |
| BuildGraph.FirstXsdNone | lttng_ivc/utils/project.py:425-430 | No schema is found exactly when `find_file` finds none of the names. |
| Lifecycle.ImmutableRefused | lttng_ivc/utils/project.py:240-241 | On an immutable project, configure, build and install raise `Immutable` before running anything or changing any field. See also lines 278-279, 308-309, 369-370. |
| Lifecycle.ConfigureNeedsDeps | lttng_ivc/utils/project.py:243-247 | configure never runs while a dependency is flagged not installed: it runs nothing, changes nothing, and raises. |
| Lifecycle.ConfigureSetsFlag | lttng_ivc/utils/project.py:269-270 | configure changes only `isConfigured`. It becomes true exactly when configure succeeds; for Lttng_modules it never does. See also lines 365-366. |
| Lifecycle.BuildSetsFlag | lttng_ivc/utils/project.py:299-300 | build changes only `isBuilt`, which becomes true exactly when build succeeds. |
| Lifecycle.InstallSetsFlag | lttng_ivc/utils/project.py:321-322 | install changes only `isInstalled` and, for Lttng_ust, PYTHONPATH. The flag is set once its commands succeed, even when adding PYTHONPATH then raises. PYTHONPATH is added only when it was not defined yet. See also lines 407-413. |
| Lifecycle.ModulesInstallSetsFlag | lttng_ivc/utils/project.py:368-382 | Lttng_modules install changes only `isInstalled`, which becomes true exactly when modules_install and depmod both succeed. |
| Lifecycle.ProjectInstallSetsFlag | lttng_ivc/utils/project.py:303-323 | make install changes only `isInstalled`, which becomes true exactly when make install succeeds. |
| Lifecycle.ExportStepAdds | lttng_ivc/utils/project.py:409-413 | Lttng_ust adds PYTHONPATH and nothing else, only when it was absent. Its only error is a duplicate special variable. |
| Lifecycle.RpathStripKeeps | lttng_ivc/utils/project.py:325-347 | rpath_strip changes no field. |
| Lifecycle.StepsRunOwnCommands | lttng_ivc/utils/project.py:260-268 | Every command a step runs belongs to the project and carries that step's name. A successful install ran one command, or two for Lttng_modules. See also lines 285-298, 315-320, 342-346. |
| Lifecycle.ConfigureRan | lttng_ivc/utils/project.py:240-268 | A successful configure got past immutability, the dependency check and `get_env`. It ran `./configure --prefix=<install>` with the configure flags; for Lttng_modules it ran nothing. |
| Lifecycle.BuildRan | lttng_ivc/utils/project.py:278-298 | A successful build got past immutability and `get_env`, and ran `make -j <cpus> V=1`. |
| Lifecycle.InstallRan | lttng_ivc/utils/project.py:308-320 | A successful install ran `make install`, or for Lttng_modules modules_install and then depmod. See also lines 369-381. |
| Lifecycle.StepsKeepEnv | lttng_ivc/utils/project.py:122-162 | configure and build leave `get_env`'s result unchanged. |
| Lifecycle.OwnAutobuildPlanned | lttng_ivc/utils/project.py:172-206 | When the project's own autobuild succeeds, it was not immutable, not manually triggered, and (except Lttng_modules) had every dependency installed. It ran exactly the planned commands and set its flags; Lttng_modules never sets `isConfigured`. The dependencies are untouched. |
| Lifecycle.OwnAutobuildParts | lttng_ivc/utils/project.py:180-206 | A successful own autobuild is configure, build, install and rpath_strip, one after the other, each succeeding. |
| Lifecycle.OwnAutobuildGrows | lttng_ivc/utils/project.py:178-206 | The own autobuild never clears a step flag and leaves the dependencies and `skip` alone. On the XOR it is exactly the "manually triggered" error with nothing run and nothing changed. |
| Lifecycle.OwnAutobuildFailureShown | lttng_ivc/utils/project.py:180-206 | When the own autobuild raises `CommandFailed(owner, step)`, a command of its run with that owner and step fails. |
| Lifecycle.OwnAutobuildSucceeds | lttng_ivc/utils/project.py:172-206 | Conversely, for every kind but Lttng_modules: with the guards passed (mutable, not manually triggered, dependencies installed, get_env succeeding) and every planned command succeeding, the own autobuild succeeds. The exception is Lttng_ust exporting PYTHONPATH when it is already defined. |
| Lifecycle.PlannedEndsRun | lttng_ivc/utils/project.py:175-206 | Whatever the dependencies ran before, the planned commands end the trace with the project's own steps in order. |
| IvcProject.Project.constructor | lttng_ivc/utils/project.py:37-78 | A new project has the base configure flags (ccache CC/CXX, then CFLAGS), no dependencies, no special variables and every flag false. |
| IvcProject.Project.Create | lttng_ivc/utils/project.py:37-82 | The constructor of each kind: checkout, then bootstrap except for Lttng_modules, stopping at the first failure. Then the kind's configure flags and special variable. Lttng_tools raises `MiXsdNotFound` exactly when no schema is found. See also lines 356-360, 394-405, 417-431. |
| IvcProject.Project.AddSpecialEnvVariable | lttng_ivc/utils/project.py:84-89 | A name already present raises and leaves the map unchanged. Otherwise the map gains exactly that name and value, and nothing else in the project changes. |
| IvcProject.Project.SetDependency | lttng_ivc/utils/ProjectFactory.py:131 | `dependencies[label] = d`: a new label goes last and an existing label keeps its place. |
| IvcProject.Project.Restore | lttng_ivc/utils/ProjectFactory.py:119-120 | `pickle.load` makes a fresh, valid graph whose snapshot is the stored one. |
| IvcProject.Project.SnapshotWellFormed | lttng_ivc/utils/project.py:52 | The snapshot of a valid graph has distinct dependency labels at every level. |
| IvcProject.Project.GetPaths | lttng_ivc/utils/project.py:91-120 | The accessors on the live graph equal `Paths` of its snapshot. |
| IvcProject.Project.GetEnv | lttng_ivc/utils/project.py:122-162 | `get_env` on the live graph equals `EnvSpec` of its snapshot. |
| IvcProject.Project.RunCheckout | lttng_ivc/utils/project.py:208-216 | On an immutable project, checkout raises and runs nothing. Otherwise it runs the clone-and-checkout command, failing when that command fails. |
| IvcProject.Project.RunBootstrap | lttng_ivc/utils/project.py:218-233 | Lttng_modules has no bootstrap. Otherwise an immutable project raises, and a mutable one runs `./bootstrap`, failing when it fails. See also lines 362-363. |
| IvcProject.Project.CheckDepsInstalled | lttng_ivc/utils/project.py:244-247 | The loop is true exactly when every dependency is flagged installed. |
| IvcProject.Project.RunConfigure | lttng_ivc/utils/project.py:235-271 | configure on the object's fields: the new snapshot, the commands and the result are `ConfigureStep` of the old snapshot. See also lines 365-366. |
| IvcProject.Project.RunBuild | lttng_ivc/utils/project.py:273-301 | build: the new state, the commands and the result are `BuildStep` of the old state. |
| IvcProject.Project.RunInstall | lttng_ivc/utils/project.py:303-323 | install of each kind: the new state, the commands and the result are `InstallStep` of the old state. See also lines 368-382, 407-413. |
| IvcProject.Project.RunRpathStrip | lttng_ivc/utils/project.py:325-347 | rpath_strip: the commands and the result are `RpathStripStep`. See also lines 390-391. |
| IvcProject.Project.AutobuildOwn | lttng_ivc/utils/project.py:178-206 | The own part of autobuild: the new state, the commands and the result are `OwnAutobuild` of the old state. |
| IvcProject.Project.AutobuildAfterDeps | lttng_ivc/utils/project.py:178-206 | The commands and the result are exactly `OwnAutobuild` of the state after the dependencies. On success the XOR check passed, the flags of the own steps are set and those steps end the run. On the XOR it raises `ManuallyTriggered`, runs nothing and changes nothing. No flag that was set is cleared, and a `CommandFailed` it raises names a command of its run that fails. |
| IvcProject.Project.AutobuildDeps | lttng_ivc/utils/project.py:175-176 | When the loop over the dependencies gets through, every dependency is done. No project of the graph stops being done. A `CommandFailed` it raises names a command of its run that fails. When every dependency had its three flags set already, nothing runs and nothing changes. |
| IvcProject.Project.AutobuildDep | lttng_ivc/utils/project.py:176 | One `dep.autobuild()`: on success that dependency is done, nothing done stops being done, and a dependency with its three flags set runs nothing and changes nothing. |
| IvcProject.Project.Autobuild | lttng_ivc/utils/project.py:164-206 | In order: a no-op once the three flags are set; `Immutable` when immutable, touching nothing; otherwise every dependency in dict order, then the own steps. When a dependency is left not done, or on the XOR of the three flags, the project's own flags and special variables are untouched and the call raises, unless Lttng_modules caught a failed command. When every dependency had its flags set already, the run and the result are exactly `OwnAutobuild` of the old state, with Lttng_modules turning a `CommandFailed` into success, and the XOR there is `ManuallyTriggered` with nothing run and nothing changed. A `CommandFailed` raised names a command of the run that fails. `skip` changes only for Lttng_modules, and only when a command of the run failed. On success the project is done; without a skip it was not manually triggered, its flags are set, and its own steps end the run. No project of the graph stops being done. See also lines 384-388. |
| IvcProject.Project.ModulesAutobuild | lttng_ivc/utils/project.py:384-388 | Lttng_modules.autobuild: the same points as `Autobuild` for this kind; no `CommandFailed` escapes, and `skip` is newly set only after a failed command of the run. See also lines 164-206. |
| IvcProject.Project.ModulesAutobuildCommon | lttng_ivc/utils/project.py:384-388 | Past the first two checks, Lttng_modules runs the common part and catches a failed command: no `CommandFailed` escapes, a new `skip` follows a failed command of the run, and with every dependency finished already the run and the result are `OwnAutobuild` with `CommandFailed` turned into success. See also lines 175-206. |
| IvcProject.Project.CatchFailure | lttng_ivc/utils/project.py:385-388 | `except CalledProcessError: self.skip = True`: exactly a `CommandFailed` becomes success and sets `skip`; any other result passes through and leaves `skip` as it was. |
| IvcProject.Project.ProjectAutobuild | lttng_ivc/utils/project.py:164-206 | Project.autobuild on its own: the same points as `Autobuild`, with every early stop raising, `skip` of this project untouched, and success meaning built and installed. |
| IvcProject.Project.AutobuildCommon | lttng_ivc/utils/project.py:175-206 | Past the first two checks: the dependencies, then the own part. A dependency not done or the XOR leaves the own flags and special variables alone and raises; with every dependency finished already, the run and the result are exactly `OwnAutobuild`; success means the own steps ended the run. |
| Factory.ConstructorKindName | lttng_ivc/utils/ProjectFactory.py:32-37 | The constructor table maps exactly the four registered names, each to its own kind. |
| Factory.NoUrcuConstructor | lttng_ivc/utils/ProjectFactory.py:32-37 | No name maps to Urcu. A "urcu" marker fails the constructor lookup. |
| Factory.FindDep | lttng_ivc/utils/ProjectFactory.py:85 | Finds the first dependency stored under a label, or None exactly when there is none. |
| Factory.ValidateAccepted | lttng_ivc/utils/ProjectFactory.py:62-95 | On a pickled graph, `_validate_pickle` is true exactly when the pickle is `Accepted`. Accepted means: same checksum, label and sha1 as the marker; as many dependencies as the marker declares; and each declared label stored and accepted recursively under its own label. |
| Factory.ValidateDepsAccepted | lttng_ivc/utils/ProjectFactory.py:84-95 | The loop over the declared dependencies is true exactly when each of them from `i` on is present and accepted. |
| Factory.AcceptedDepsMatch | lttng_ivc/utils/ProjectFactory.py:79-89 | With distinct declared labels, an accepted pickle stores exactly the declared dependencies. |
| Factory.RepeatedDepsRejected | lttng_ivc/utils/ProjectFactory.py:79-83 | When a marker declares a dependency twice, the project built for it holds the dependency once. The length check then rejects its pickle on every call. See also lines 129-131. |
| Factory.ProjectFactory.constructor | lttng_ivc/utils/ProjectFactory.py:39-47 | The factory starts with the marker table, the checksum, the cache folder and the stored pickles, and nothing removed. |
| Factory.ProjectFactory.GetFresh | lttng_ivc/utils/ProjectFactory.py:50-59 | An unknown label raises `LabelNotPresent`; an unknown project name raises the constructor lookup error; neither runs anything. Otherwise the result is a fresh, unbuilt, mutable project for the marker's path and sha1, in `tmpdir`. |
| Factory.ProjectFactory.GetPrecook | lttng_ivc/utils/ProjectFactory.py:98-138 | The error cases run nothing and change nothing: an unknown label; an unknown project; a marker without deps. An accepted pickle is returned as stored, with nothing built. A rejected pickle first has its source and install directories removed. A rebuilt project is stored and precooked: its declared dependencies are attached in order, it is built, and it is immutable. A label asked for while it is itself being rebuilt, through a cycle of dependencies, fails. When the label is rebuilt and that fails, it has no pickle left. On success no stored label is lost. |
| Factory.ProjectFactory.Rebuild | lttng_ivc/utils/ProjectFactory.py:127-138 | The rebuild path fails when the label is already being rebuilt further out, and when it fails the label has no pickle. On success it yields a fresh project that is stored and precooked, and no stored label is lost. |
| Factory.ProjectFactory.Enter | lttng_ivc/utils/project.py:68-70 | The constructor's rmtree of the cache directory removes the label's pickle, and only that one; the label is then being rebuilt. |
| Factory.ProjectFactory.Assemble | lttng_ivc/utils/ProjectFactory.py:129-138 | After the dependencies are set the label is no longer being rebuilt. It fails when the label was being rebuilt further out; when it fails the label has no pickle; on success the project is stored and precooked. |
| Factory.ProjectFactory.Finish | lttng_ivc/utils/ProjectFactory.py:133-136 | Once the prepared project's autobuild succeeds, the project is immutable and built, and stored under its label. Other stored labels stay; when autobuild fails, nothing is stored. |
| Factory.ProjectFactory.Dump | lttng_ivc/utils/ProjectFactory.py:135-136 | pickle.dump replaces the stored snapshot of that label and no other. |
| Factory.ProjectFactory.AttachPrecooked | lttng_ivc/utils/ProjectFactory.py:129-131 | After the loop, the dependency labels are the declared ones, deduplicated, in declaration order. None of them is being rebuilt, and no stored label was lost. |
| Factory.DepKeysStep | lttng_ivc/utils/ProjectFactory.py:131 | Setting one more label on the dict grows its keys as deduplication of the declared labels does. |
| Sandbox.NatToStringInjective | lttng_ivc/utils/runtime.py:199-207 | Distinct run numbers give distinct names. |
| Sandbox.RunLogsDistinct | lttng_ivc/utils/runtime.py:206-207 | Two runs never share a log file. |
| Sandbox.ProcId | lttng_ivc/utils/runtime.py:156 | A process id ends with "-" and its uuid. |
| Sandbox.Basename | lttng_ivc/utils/runtime.py:156 | `os.path.basename` returns a suffix of its argument that holds no '/'. |
| Sandbox.Aggregates | lttng_ivc/utils/runtime.py:237-259 | Each of the four runtime aggregates joins the attached projects' accessor results, in attachment order, with its delimiter. See also lines 267-271. |
| Sandbox.FetchValues | lttng_ivc/utils/runtime.py:262-276 | The environment sets LTTNG_HOME to the home directory and LD_BIND_NOW to "enabled". Each path variable is set to its aggregate, the delimiter, and the prior value (or ""). Every other process variable is kept. |
| Sandbox.FetchKeys | lttng_ivc/utils/runtime.py:262-276 | The environment before the special variables has the process names plus the six fixed names. |
| Sandbox.RuntimeEnvFails | lttng_ivc/utils/runtime.py:261-294 | The runtime's `get_env` raises exactly when one of these names is already present: a runtime special variable; or a project special variable, present from the fixed names, the runtime specials or an earlier project. Equal values count. |
| Sandbox.SharedSpecialRaises | lttng_ivc/utils/runtime.py:286-293 | Two attached projects defining the same special variable always make `get_env` raise. |
| Sandbox.RuntimeEnvValues | lttng_ivc/utils/runtime.py:261-294 | When `get_env` succeeds, it holds every fetched, runtime-special and project-special definition with its value, and nothing else. |
| Sandbox.CloseFailuresNone | lttng_ivc/utils/runtime.py:309-314 | close collects no failure exactly when every terminated process exits with 0. It collects at most one failure per process. |
| Sandbox.RemoveFirst | lttng_ivc/utils/runtime.py:99-100 | `list.remove` drops exactly the first occurrence, keeping the order of the rest. |
| Sandbox.RunArgs | lttng_ivc/utils/runtime.py:193-196 | The command ends with the given words. It is two words longer exactly when gdbserver is asked for. |
| Sandbox.RunEnvOverrides | lttng_ivc/utils/runtime.py:186-192 | `ld_preload`, `classpath` and `ld_debug` override LD_PRELOAD, CLASSPATH and LD_DEBUG when given; every other name keeps its value. |
| Sandbox.Runtime.constructor | lttng_ivc/utils/runtime.py:55-94 | A new runtime has no projects, processes or runs, and the four default special variables. |
| Sandbox.Runtime.New | lttng_ivc/utils/runtime.py:87-91 | Construction raises exactly when the home path is longer than 88 characters. |
| Sandbox.Runtime.AddProject | lttng_ivc/utils/runtime.py:96-97 | Appends the project. |
| Sandbox.Runtime.RemoveProject | lttng_ivc/utils/runtime.py:99-100 | Raises exactly when the project is not attached; otherwise removes its first occurrence. |
| Sandbox.Runtime.GetAggregate | lttng_ivc/utils/runtime.py:237-259 | The aggregation loop equals `Aggregate` over the attached projects. |
| Sandbox.Runtime.GetEnv | lttng_ivc/utils/runtime.py:261-294 | The loops of `get_env` equal `RuntimeEnv`. |
| Sandbox.Runtime.AddSpecials | lttng_ivc/utils/runtime.py:278-293 | The two special-variable loops equal the strict merge of the runtime's and then each project's special variables. |
| Sandbox.Runtime.Signal | lttng_ivc/utils/runtime.py:102-103 | Raises exactly when the id is not registered. |
| Sandbox.Runtime.Spawn | lttng_ivc/utils/runtime.py:149-174 | In order: `get_env` errors propagate; a missing home raises; an empty command raises. Otherwise the id is the basename of the executable, "-", and the uuid, and that same id is registered as running in the process table and as open in the handle table. On error nothing changes. |
| Sandbox.Runtime.OutputPath | lttng_ivc/utils/runtime.py:141-147 | Raises exactly for an unregistered id. Otherwise the path is in the subprocess log directory and ends with the id and ".out" or ".err". |
| Sandbox.Runtime.Terminate | lttng_ivc/utils/runtime.py:105-119 | An unknown id raises. Otherwise the process is terminated and its handles closed; on a wait timeout the result is the kill's, with no return-code check. Otherwise a nonzero exit raises when `check_return` is set. |
| Sandbox.Runtime.Kill | lttng_ivc/utils/runtime.py:121-128 | Kills a running process and closes its handles, returning the kill exit code; a process already reaped raises. |
| Sandbox.Runtime.Wait | lttng_ivc/utils/runtime.py:130-139 | Waits for the process, closes its handles, and raises on a nonzero exit when `check_return` is set. |
| Sandbox.Runtime.Run | lttng_ivc/utils/runtime.py:176-235 | A `get_env` error propagates and nothing is counted. An empty command line (after the gdbserver prefix) moves the counter, records nothing and raises `EmptyCommand`, the IndexError of `subprocess.run([])`. Otherwise the run uses the counter as its id, increments it, and records the command, its environment with the overrides, and its exit code. A nonzero exit then raises when `check_return` is set; otherwise the log paths of that id are returned. |
| Sandbox.Runtime.LoadTestModule | lttng_ivc/utils/runtime.py:296-299 | Fails exactly when `get_env` fails or `modprobe lttng-test` exits nonzero; the flag is set only on success, and a run is recorded only for the modprobe. |
| Sandbox.Runtime.UnloadTestModule | lttng_ivc/utils/runtime.py:301-304 | Runs the removal command only when the module was loaded, and fails only then. |
| Sandbox.Runtime.Close | lttng_ivc/utils/runtime.py:306-326 | Every process ever registered is terminated without a check, and every output file ends closed. Then the first error wins: the unload's `get_env` error, then `HomeMissing` when the home is not a directory (copytree lists it before creating the copy), then an existing home copy. Otherwise the home is copied, and the result is one `SubProcessError` holding every nonzero exit in spawn order, or success when there is none. |
| Sandbox.Runtime.CloseAfter | lttng_ivc/utils/runtime.py:48-51 | The `finally: runtime.close()` after a body that ended with some result: a body error stays an error; close's own error, read off the closed runtime, replaces it: the unload's `get_env` error, `HomeMissing` with the home left uncopied, or the `SubProcessError` of the nonzero exits; on success every process exited with 0. See also lines 306-326. |
| Sandbox.Runtime.TerminateAll | lttng_ivc/utils/runtime.py:309-314 | The loop terminates every registered process and collects exactly `CloseFailures`. |
| Sandbox.Runtime.Finalize | lttng_ivc/utils/runtime.py:317-326 | The unload without a check, then the home copy, which raises `HomeMissing` (nothing copied) when the home is not a directory and `HomeCopyExists` when the copy exists, then the aggregated error. |
| Sandbox.Runtime.Exec | lttng_ivc/utils/runtime.py:48-49 | The body of a `with get_runtime(...)` block; an operation that raises ends it with an error. |
| Sandbox.CloseFailuresTerminated | lttng_ivc/utils/runtime.py:309-314 | Terminating keeps each exit code, so the failures close collects are the same read off the table before or after it. |
| Sandbox.ExitedZero | lttng_ivc/utils/runtime.py:309-314 | When close collects no failure from a table of exited processes, each of them exited with 0. |
| Sandbox.GetRuntime | lttng_ivc/utils/runtime.py:45-51 | No runtime exists exactly when the home path is too long. Otherwise every process of the runtime is reaped and every output file closed whatever the body does, and a raising step makes the result an error. An error of close replaces the body's: the unload's `get_env` error when the test module was loaded, leaving the home uncopied; then `HomeMissing` when the home is not a directory, again uncopied; otherwise the home is copied and, when a process exited nonzero, the result is the `SubProcessError` of exactly those exits. On success every process exited with 0. See also lines 306-326. |
| MarkerTable.Items | lttng_ivc/bootstrap.py:75-76 | A project whose marker list is None contributes no marker. |
| MarkerTable.NamesOf | lttng_ivc/bootstrap.py:73-78 | Every marker's name is in the set of declared names. |
| MarkerTable.DeclaredNames | lttng_ivc/bootstrap.py:73-78 | The loop collects exactly the names of every marker of every project. |
| MarkerTable.CheckPrecookDeps | lttng_ivc/bootstrap.py:80-87 | Succeeds exactly when every precook dependency of every marker is a declared name. On failure, the reported label is undeclared and some marker lists it. |
| MarkerTable.UndefinedDep | lttng_ivc/bootstrap.py:84-87 | Finds an undeclared dependency of one marker, or None exactly when it has none. |
| MarkerTable.RemotesOf | lttng_ivc/bootstrap.py:91-99 | The remotes map has exactly the urls of the markers as keys. Each maps to the remote folder joined with that url's digest. |
| MarkerTable.Remotes | lttng_ivc/bootstrap.py:91-99 | The loop builds exactly that map. |
| MarkerTable.ResolveRef | lttng_ivc/bootstrap.py:136-146 | A ref resolves exactly when it names a remote branch, a tag or a commit, preferring the branch, then the tag. |
| MarkerTable.EntryOf | lttng_ivc/bootstrap.py:128-131 | A row records the project, sha1, url and path, and deps defaulting to [] in bootstrap; launch rows have no deps. See also lines 154-160. |
| MarkerTable.RunnableMeaning | lttng_ivc/bootstrap.py:120-160 | The table is built exactly when every marker's remote and ref resolve and no two markers share a name. It then has exactly the marker names as keys, and each maps to its marker's row. |
| MarkerTable.RunnableFailure | lttng_ivc/bootstrap.py:133 | A duplicate error names two markers with that name. With every url in the remotes map, no missing-remote error arises. See also lines 150-152. |
| MarkerTable.RunnableMarkers | lttng_ivc/bootstrap.py:120-160 | The nested loops compute `Runnable` of the flattened configuration. |
| MarkerTable.Bootstrap | lttng_ivc/bootstrap.py:68-160 | When every precook dependency is declared: a remote whose path exists and is not a folder stops the script; otherwise the result is the runnable table over the remotes just built. An undeclared dependency is an undefined-dependency error. A url is never missing from the remotes. |
| MarkerTable.FetchRemotes | lttng_ivc/bootstrap.py:107-117 | The fetch loop stops exactly when some remote's path exists and is not a folder. |
| MarkerTable.Launch | lttng_ivc/launch.py:66-133 | A remote whose path exists and is not a folder stops the script; otherwise the runnable table without deps, over the remotes just built. A url is never missing from them. |
| Utils.LinesConcat | lttng_ivc/utils/utils.py:31-36 | The lines of a text, concatenated, give the text back as read in text mode; a text without '\r' comes back unchanged. |
| Utils.NewlinesKeep | lttng_ivc/utils/utils.py:33 | Reading in text mode leaves a text without '\r' as it is. |
| Utils.NewlinesIdempotent | lttng_ivc/utils/utils.py:33 | A text as read reads the same a second time. |
| Utils.CarriageReturnLines | lttng_ivc/utils/utils.py:33-35 | A lone '\r' and "\r\n" each end a line, read as '\n'. |
| Utils.LinesShape | lttng_ivc/utils/utils.py:34 | Lines are non-empty, hold no '\n' except at their end, and every line but the last ends with '\n'. |
| Utils.LineCount | lttng_ivc/utils/utils.py:31-36 | The counting loop returns the number of lines of the file. |
| Utils.WaitForFile | lttng_ivc/utils/utils.py:49-56 | Returns at the first poll at which the path exists, if one exists within polls 0 to 60. Otherwise it raises `Timeout`. |
| Utils.CreateEmptyFile | lttng_ivc/utils/utils.py:60-63 | Raises exactly when the path exists. Otherwise it adds that one path, empty, and keeps every other file. |
| Utils.CreateEmptyFileOnce | lttng_ivc/utils/utils.py:60-63 | A second creation of the same path fails, and the new file has no line. |
| Utils.FindMultipleFreePort | lttng_ivc/utils/utils.py:128-139 | A negative count fails the assertion. Otherwise the result is the first `number` distinct offered ports, in offer order, pairwise distinct; it fails only when fewer distinct ports are offered. |
| Utils.FileContains | lttng_ivc/utils/utils.py:142-147 | True exactly when some line contains some element of the collection. |
| Utils.Chars | lttng_ivc/utils/utils.py:145 | Iterating a string gives its characters, each as a one-character string. |
| Utils.MentionsSingle | lttng_ivc/utils/utils.py:142-147 | With a one-element list, the test is "some line contains the string". |
| Utils.LastMatchPosition | lttng_ivc/utils/utils.py:150-171 | The position of the last visited match: none exactly when there is no match, and every match is visited no later. |
| Utils.FindLast | lttng_ivc/utils/utils.py:150-171 | `find_dir` and `find_file` return the path at the last visited name that ends with `name`, or None. |
| Relayd.ArgsSpellCommand | lttng_ivc/utils/utils.py:90-95 | The words the relayd is started with are its command line, blank-separated. |
| Relayd.ReadyMeans | lttng_ivc/utils/utils.py:103 | The intended readiness test holds exactly when some line contains the whole cue. See also lines 142-147. |
| Relayd.AwaitReady | lttng_ivc/utils/utils.py:106-111 | Ready exactly when one of the 60 polls sees the cue; it stops at the first one, and before it no poll saw it. |
| Relayd.Spawn | lttng_ivc/utils/utils.py:81-117 | Fails for lack of ports exactly when fewer than three distinct ports are offered; it succeeds exactly when there are three, the environment builds, the home exists and some poll within 60 sees the whole cue. Otherwise data, ctrl and live are the third, second and first ports drawn, pairwise distinct. The relayd is registered with their command line and joins the registration order unless its id was registered already. Ready exactly when some poll within 60 sees a line holding the whole cue; otherwise the timeout error. |
| Relayd.StrayLineReady | lttng_ivc/utils/utils.py:108 | The test as written accepts a log whose only line is "L", which does not hold the cue. See also lines 142-147. |
| Relayd.ReadyAsWrittenEarlier | lttng_ivc/utils/utils.py:108 | The test as written fires whenever the intended one does, so it is never later. See also lines 142-147. |
| LegacyProject.PathVar.Piece | lttng_b_test/utils/project.py:72-74 | What one dependency adds to a path variable is never empty. |
| LegacyProject.AccumulatedEmpty | lttng_b_test/utils/project.py:85-96 | A path variable accumulates something exactly when there is a dependency. |
| LegacyProject.AccumulatedHolds | lttng_b_test/utils/project.py:70-74 | Every direct dependency's piece occurs in the accumulated value, at that dependency's place. |
| LegacyProject.AccumulatedToPrefix | lttng_b_test/utils/project.py:72-74 | The loop's value after the first n dependencies is the accumulated value of those n. |
| LegacyProject.LegacyEnvFails | lttng_b_test/utils/project.py:61-82 | `get_env` raises exactly when a special variable name is defined twice. This covers the process environment against the project or a dependency, and any two of those. |
| LegacyProject.LegacyEnvNoDeps | lttng_b_test/utils/project.py:85-96 | Without dependencies the environment is the process environment plus the special variables; CPPFLAGS, LDFLAGS and LD_LIBRARY_PATH stay as they were. |
| LegacyProject.LegacyEnvWithDeps | lttng_b_test/utils/project.py:70-96 | With dependencies, each of the three variables keeps its earlier value in front and holds every direct dependency's piece. |
| LegacyProject.LegacyEnvKeepsOthers | lttng_b_test/utils/project.py:59-82 | Every other name keeps the value the process environment or a special variable gave it. |
| LegacyProject.ManuallyTriggeredOdd | lttng_b_test/utils/project.py:107-108 | The XOR holds exactly when an odd number of `isCheckedOut`, `isBuilt`, `isConfigured` and `isInstalled` are set: `isBootStrapped` cancels out. |
| LegacyProject.RebuildRefused | lttng_b_test/utils/project.py:107-112 | After an autobuild that set three flags, the next autobuild is refused. |
| LegacyProject.ModulesRebuildAllowed | lttng_b_test/utils/project.py:107 | Lttng_modules never sets `isConfigured`, so its autobuild can run again; so can a new project's. See also lines 205-220. |
| LegacyProject.Project.constructor | lttng_b_test/utils/project.py:10-38 | A new project has every flag false, no dependencies, no special variables, and the ccache flags; Lttng_ust adds `--disable-man-pages`. See also lines 223-227. |
| LegacyProject.Project.Create | lttng_b_test/utils/project.py:40-42 | Checkout, then bootstrap except for Lttng_modules, stopping at the first failure; neither sets a flag. See also lines 114-130, 202-203. |
| LegacyProject.Project.AddDependency | lttng_b_test/utils/project.py:23 | Appends the dependency. |
| LegacyProject.Project.GetEnv | lttng_b_test/utils/project.py:53-97 | The loops of `get_env` equal `LegacyEnv`, whose properties are the lemmas above. |
| LegacyProject.Project.MergeDeps | lttng_b_test/utils/project.py:70-82 | The dependency loop merges each dependency's special variables as the strict merge does. When it succeeds, the three accumulated values are `Accumulated` over the installation directories. |
| LegacyProject.Project.MergeLoop | lttng_b_test/utils/project.py:70-82 | Over the dependencies in order: a collision anywhere makes the whole strict merge fail; otherwise the merge is complete and each accumulated value has one piece per dependency. |
| LegacyProject.Project.MergeDep | lttng_b_test/utils/project.py:71-82 | One dependency: its piece is appended to each of the three values and its special variables merged, or the whole merge fails. |
| LegacyProject.Project.CheckDepsInstalled | lttng_b_test/utils/project.py:138-141 | True exactly when every dependency is flagged installed. |
| LegacyProject.Project.RunConfigure | lttng_b_test/utils/project.py:132-154 | Lttng_modules does nothing. Otherwise a dependency not installed raises with nothing run, and a `get_env` error propagates. Otherwise it runs `./configure --prefix=<install>` with the flags, setting `isConfigured` exactly on success. See also lines 205-206. |
| LegacyProject.Project.RunBuild | lttng_b_test/utils/project.py:156-177 | Runs `make -j <cpus>` with CFLAGS forced to "-g -O0"; `isBuilt` is set exactly on success. It does not look at `isConfigured`. |
| LegacyProject.Project.RunInstall | lttng_b_test/utils/project.py:179-192 | `make install`, or modules_install then depmod for Lttng_modules; `isInstalled` is set exactly when all succeed. See also lines 208-220. |
| LegacyProject.Project.AutobuildOwn | lttng_b_test/utils/project.py:107-112 | Raises "manually triggered" exactly on the XOR. It succeeds exactly when the steps all succeed, and then ran exactly configure, build and install and set their flags. |
| LegacyProject.Project.RunSteps | lttng_b_test/utils/project.py:110-112 | configure, build and install, every time, stopping at the first that raises. |
| LegacyProject.OwnCommandsSplit | lttng_b_test/utils/project.py:110-112 | The own commands are three: configure first except for Lttng_modules, then `make -j`, then the kind's install commands. They all succeed exactly when configure (unless Lttng_modules), build and every install command succeed. |
| LegacyProject.Project.AutobuildDeps | lttng_b_test/utils/project.py:104-105 | When the loop over the dependencies gets through, every dependency is installed; no project of the graph stops being installed. |
| LegacyProject.Project.AutobuildDep | lttng_b_test/utils/project.py:105 | One `dep.autobuild()`: on success that dependency is installed, and no project of the graph stops being installed. |
| LegacyProject.Project.Autobuild | lttng_b_test/utils/project.py:99-112 | Dependencies first. It raises whenever the flags' XOR holds (the `ManuallyTriggered` test on the state after the dependencies). On success the run ends with the project's own three steps, which rerun even when they ran before. |

## Left out

- I/O and logging are not modelled: log files, `pprint`, `cmd.map` and `runtime.log` contents, `os.makedirs`, `os.chdir`, and `shutil.rmtree`; only the directories `cleanup` removes are recorded.
- Processes, git and chrpath are outcome oracles (`World.Succeeds`, `Host` exit codes); waiting, timeouts and `time.sleep` are the poll count.
- A command that cannot be started at all (a missing executable, which makes `subprocess.run` or `Popen` raise `FileNotFoundError`/`OSError`) is not a case of the model: every command starts, and a start failure is folded into a failed exit. The members below are where this changes an outcome.
- IvcProject.Project.ModulesAutobuild: a start failure in the dependencies' or the modules' own steps is an `OSError`, which the source's `except subprocess.CalledProcessError` lets escape; the model sees only a failed command, turns it into `CommandFailed`, and `CatchFailure` sets `skip` instead of raising.
- Sandbox.Runtime.Spawn: `Popen` on a command that cannot start raises after the environment, command and log files are written; the model registers the process (its later exit code comes from `Host`) instead of raising.
- `sha256_checksum` and the sha1 digest of bootstrap are opaque: the checksum is a string parameter and the url digest a map.
- `shlex.split` is modelled for command lines without quotes or blanks inside a word (`Relayd.RelaydArgs`).
- `pickle` is a value copy: `Snapshot` is what is stored, and `Project.Restore` rebuilds the object graph; object identity across pickles is not modelled.
- `rpath_strip` is one command per project over `bin/` and `lib/`; the per-file `magic` ELF test and one chrpath per file are not modelled.
- `sessiond_spawn`, `find_free_port`, `validate` and `xpath_query` are left out: they are signals, sockets and lxml, foreign to the model.
- Factory.ProjectFactory.GetPrecook: when it fails, the model promises only that a label it rebuilt has no pickle; the pickles of other labels whose rebuild started and failed further down are gone too, and which stored labels remain is not stated.
- Factory.ProjectFactory.GetPrecook: a `fuel` bound stands for Python's recursion limit on a cycle of precook dependencies (`RecursionLimit`).
- Utils.FindMultipleFreePort: the source never runs out of ports, since `find_free_port` is called until `number` distinct ports are held; the model draws from a finite offer list, so `PortsExhausted` (and `NoPorts` in `Relayd.Spawn`) stands only for an offer list with too few distinct ports.
- Relayd.Spawn: the log file's text at each poll is a sequence given in advance (`LogAt`), not produced by the process.
- Sandbox.Runtime.Close: `shutil.copytree` is a flag, not a file copy; a second close finds the copy and raises, and a home that is not a directory raises `HomeMissing` without telling FileNotFoundError from NotADirectoryError.
- Sandbox.Runtime.Exec: only states that a raising operation ends the body with an error; what each operation does is its own method's contract.
- Sandbox.Runtime.Run: the `cwd` and `timeout` arguments are not modelled. A command is run in the caller's directory and never times out; the source's `TimeoutExpired`, raised after the counter moved and `cmd.map` was written, is not a case of the model. For an empty command the `cmd.map` line and the log files written before `subprocess.run` raises are not recorded, since `runs` holds only commands that ran. A non-empty command that cannot start raises in the source even with `check_return` false, after the counter moved; the model records it as run with the `Host` exit code.
- Sandbox.GetRuntime: when close raises nothing, the result is the body's own; of that the model states only that a raising step makes it an error.
- LegacyProject.Project.Autobuild: states the own part of the run and the XOR refusal; what each dependency's autobuild did is not restated.
- IvcProject.Project.Autobuild: when a dependency still had work to do, which dependency raised and what each one ran is not restated; a raised `CommandFailed` is only shown to name a failing command of the run.
- Sandbox.Runtime.AddProject: the runtime keeps the state a project had when it was attached (a `Snapshot` value), where the source keeps a reference. A special variable added to the project later is not seen by `get_env`, and `remove_project` removes the first equal snapshot, not the same object.
- Utils.FindLast and MarkerTable.RemotePath: `os.path.abspath` is not modelled. A path is kept as joined, which is the absolute path when the walk root or the remote folder is absolute and normalised.
- MarkerTable.FetchRemotes: `exit()` ends the script with status 0, which the model returns as `NotAFolder`; the remote path that stops it is only logged, so the error carries none; the clones and fetches before it are outside the model.
- The model follows the code where the documentation differs. The Factory table has no `urcu` entry, so an `urcu` marker is a lookup error. `lttng_b_test` never sets `isCheckedOut` or `isBootStrapped`.

## Findings

| source | as written | input that shows it | evidently intended | confidence | as-written member | corrected member |
|---|---|---|---|---|---|---|
| lttng_ivc/utils/utils.py:108, 142-147 | `relayd_spawn` passes the ready cue as a plain string to `file_contains`, which iterates it character by character, so any line holding any character of the cue counts as ready | relayd output whose only line is "L" | look for the whole cue: `file_contains(log_path, [ready_cue])` | not executed | Relayd.StrayLineReady | Relayd.Spawn |
