# Codenerix ERP charm, modelled in Dafny

This project models the control core of the Juju charm `DjangoCodenerixCharm` (`src/charm.py`):

- the event router of `CharmAutoBase.__init__`, which binds every `_on_<event>` function of the
  class dictionary to the framework event `<event>`;
- the five handlers, seen as a state machine over the unit status;
- the install pipeline's fixed sequence of status writes, shell commands, moves and `os.mkdir`;
- the `cd` and `virtualenv` context managers;
- the `logdecorate` wrapper.

The modules:

- `results.dfy` (`Results`): `Result` and `Outcome` (whether a handler completed or raised).
- `paths.dfy` (`Paths`): an abstract filesystem as a set of component paths.
  - `Move` is `shutil.move` and `MakeDir` is `os.mkdir`, with their error cases.
- `process.dfy` (`Process`): the handler's process state. It holds the working directory, the
  filesystem, and a trace of the command lines passed to `os.system`.
  - Each trace entry records the directory the line ran in.
  - The host's shell is a parameter (`Shell`). It maps a directory, a command line and a
    filesystem to an exit status and a new filesystem.
  - A `with cd(...)` block is a sequence of `Action`s. `Cd` and `Virtualenv` give its meaning.
- `decorate.dfy` (`Decorate`): `logdecorate`.
- `status.dfy` (`Status`): unit statuses, the status icons, and the storage-attached message.
- `router.dfy` (`Router`): the router loop over an arbitrary class dictionary.
- `charm.dfy` (`Charm`):
  - the handlers as functions of a `Unit` (the specification);
  - the properties proved about them;
  - the class `DjangoCodenerixCharm`. Its fields are `status`, `published`, `cwd`, `trace`,
    `paths`, `bindings` and `shell`. Each handler method is proved to leave exactly the state
    that the matching function describes.

The unit keeps every status written in the field `published`. The framework shows only the
latest one. The history exists so that the order of writes can be stated.

## Model

| member | source | states |
|---|---|---|
| Paths.Move | src/charm.py:183-186 | `shutil.move` succeeds exactly when the source exists, the target (inside an existing destination directory) is absent and not inside the source, and the target's parent exists; an existing target and a missing source give their own errors |
| Paths.MoveFrame | src/charm.py:183-186 | after a successful move the target exists, every path outside the source's tree is kept, every path below the source reappears at the same place below the target, and every other path lies under the target |
| Paths.MoveExact | src/charm.py:183-186 | nothing else appears: every path after a successful move is a kept path or the image of a path below the source |
| Paths.MoveRemovesSource | src/charm.py:183-186 | on a tree, a successful move leaves nothing at or below the source |
| Paths.MoveKeepsTree | src/charm.py:183-186 | a successful move keeps every entry's parent present |
| Paths.MakeDir | src/charm.py:187 | `os.mkdir` succeeds exactly when the path is absent and its parent exists; an existing path raises; on success exactly that path is added and a tree stays a tree |
| Process.Issue | src/charm.py:143 | `os.system` appends the line, with the current directory, to the trace and keeps the directory |
| Process.MoveIn | src/charm.py:183-186 | a move issues no command, keeps the directory, and changes nothing when it raises |
| Process.MkdirIn | src/charm.py:187 | the same for `os.mkdir` |
| Process.Perform | src/charm.py:175-187 | a shell statement never raises and appends exactly its line; any other statement issues nothing; a raising statement changes nothing |
| Process.RunAll | src/charm.py:51-52 | a block keeps the directory and only appends to the trace, all in that directory |
| Process.RunAllAppend | src/charm.py:51-52 | two blocks in a row behave as their concatenation, up to the first statement that raises |
| Process.RunAllIgnoresExitStatus | src/charm.py:143-177 | two shells that leave the same filesystems give the same run of any block: exit statuses are never looked at |
| Process.ShellEffectIgnoresExitStatus | src/charm.py:143-177 | the filesystem a sequence of commands leaves does not depend on exit statuses |
| Process.RunShellBody | src/charm.py:175-177 | a block of `os.system` calls always completes and issues exactly its lines, in order, in the current directory |
| Process.Cd | src/charm.py:47-54 | a missing directory raises before the body runs and changes nothing; otherwise the body runs in `newdir`, with its outcome, and the previous directory is restored whether the body completed or raised |
| Process.VirtualenvShell | src/charm.py:57-69 | a shell block under `virtualenv(path)` runs exactly when `path` and its activation script exist, issuing its lines inside `path`; otherwise it raises naming the missing one and changes nothing; the directory is restored in both cases |
| Decorate.LogDecorate | src/charm.py:72-90 | the wrapper returns exactly what the wrapped function returns, for every argument |
| Router.ObserveHandlers | src/charm.py:104-110 | the loop registers the observers of the class dictionary exactly as the router's specification does, stopping at the first unknown event |
| Router.RouteSucceedsIff | src/charm.py:104-110 | construction succeeds exactly when every function named `_on_...` names a known event |
| Router.RouteBindsHandlers | src/charm.py:104-110 | on success, the bound events are exactly the handlers' events (dropping the first four characters), each bound to its handler, with nothing else bound |
| Router.RouteFailsAtFirstUnknown | src/charm.py:108 | on failure, the error names the first handler's event that is unknown, and every earlier handler's event is known |
| Status.AttachedMessage | src/charm.py:129-134 | the attached message contains `<name>/<index>` and ` at <location> bind mount.` |
| Status.ParseNatToString | src/charm.py:132 | the index's decimal text reads back as the index |
| Status.NatToStringInjective | src/charm.py:132 | different indices give different texts |
| Status.MediaZeroAttached | src/charm.py:129-134 | storage `media`, index 0, at `/mnt/media` is reported as `media/0` at `/mnt/media` |
| Charm.MoveAll | src/charm.py:183-186 | the four moves issue no command and keep the directory |
| Charm.CopyErp | src/charm.py:183-187 | the copy stage issues no command and keeps the directory |
| Charm.MoveAllRelocated | src/charm.py:183-186 | the copy stage's moves are the four statements in their order, each skipped once one has raised |
| Charm.SetupHost | src/charm.py:143-174 | the four setup commands are issued in order in the hook's directory, whatever their exit statuses |
| Charm.PipStage | src/charm.py:174-177 | after setup, entering `/code` raises, naming `/code` or its activation script, exactly when that is missing; otherwise both pip commands run inside `/code` |
| Charm.InstallRaisesBeforeCopy | src/charm.py:136-177 | without a usable virtualenv, install raises after the four setup commands and the first four statuses |
| Charm.InstallReachesCopy | src/charm.py:136-190 | with a usable virtualenv, install issues the pip commands and ends as the copy stage does, with five or six statuses written according to its outcome |
| Charm.InstallStages | src/charm.py:136-190 | both cases together: the stage structure of install |
| Charm.InstallStatusOrder | src/charm.py:140-190 | install writes a prefix of at least four of Git, Clonning Codenerix ERP, System packages, Python packages, Copy ERP, Ready (installed), in that order, all Maintenance, and ends at the last one written |
| Charm.InstallReadyIff | src/charm.py:189-190 | install completes exactly when all six statuses were written, and ends at "Ready (installed)" exactly then |
| Charm.InstallCommandOrder | src/charm.py:143-177 | install issues the four setup commands in the hook's directory, then both pip commands inside `/code` when the virtualenv can be entered, and nothing else; the working directory is the hook's own afterwards |
| Charm.InstallCommandLines | src/charm.py:143-177 | the issued trace entries written out: apt git, clone, apt packages, virtualenv, then the two pip lines |
| Charm.MoveAllNeedsSources | src/charm.py:183-186 | a missing source makes one of the moves raise |
| Charm.CopyErpNeedsSources | src/charm.py:183-187 | a missing source makes the copy stage raise |
| Charm.MoveAllKeepsCode | src/charm.py:183-186 | the moves keep every path inside `/code` in place, an existing `/code/static` among them |
| Charm.CopyErpNeedsNoStatic | src/charm.py:187 | an existing `/code/static` makes the copy stage raise at `os.mkdir` |
| Charm.CopyStep | src/charm.py:183-186 | one move of the copy stage succeeds from a copy state and yields the next copy state |
| Charm.MoveAllSucceeds | src/charm.py:183-186 | from a copy state, moving the rest in order completes and moves every one into `/code` |
| Charm.MakeStatic | src/charm.py:187 | once every entry is moved, `os.mkdir("/code/static")` succeeds and ends the stage |
| Charm.CopyErpSucceeds | src/charm.py:183-187 | with `/code` present, all four sources present and no target present, the copy stage completes; the four entries and `/code/static` are then in `/code`, nothing is left below the sources, and the filesystem is still a tree |
| Charm.MoveAllCarriesContents | src/charm.py:183-186 | when the moves into an existing `/code` complete, everything below each moved entry of `/erp/erp` is at the same place below `/code/<entry>` |
| Charm.CopyErpCarriesContents | src/charm.py:183-187 | the same for the whole copy stage |
| Charm.InstallNeedsSources | src/charm.py:183-190 | a source missing by the time copying starts makes install raise, and "Ready (installed)" is never written |
| Charm.InstallNeedsNoStatic | src/charm.py:187-190 | an existing `/code/static` makes install raise, and "Ready (installed)" is never written |
| Charm.InstallSucceeds | src/charm.py:136-190 | with a usable virtualenv and a clean copy state, install completes at Maintenance "Ready (installed)" with the four entries and `/code/static` in `/code` |
| Charm.InstallCarriesContents | src/charm.py:136-190 | when `/code` is still there after the pip commands, a completed install has carried everything below the four entries of `/erp/erp` to the same place below `/code` |
| Charm.InstallIgnoresExitStatus | src/charm.py:143-177 | two shells that leave the same filesystems give the same install: a failing command never stops later stages |
| Charm.ConfigChangedResult | src/charm.py:192-206 | config-changed writes "Config changed", then, when the virtualenv can be entered, runs migrate and touch inside `/code` and ends at "Ready (config changed)"; otherwise it raises after the first status and changes nothing else; the directory is restored either way |
| Charm.ConfigChangedForgetsStatus | src/charm.py:198-206 | config-changed ends the same way whatever the prior status |
| Charm.ConfigChangedTwice | src/charm.py:198-206 | two runs in a row with the virtualenv in place end at the same status and outcome, and the second issues just the two manage.py commands again |
| Charm.StartResult | src/charm.py:208-211 | start writes Active "Start", never raises and leaves the process untouched |
| Charm.AttachedResult | src/charm.py:121-134 | storage-attached writes an Active status naming `<name>/<index>` and the location, never raises and leaves the process untouched |
| Charm.DetachingResult | src/charm.py:213-219 | storage-detaching writes the fixed Active message and changes nothing else |
| Charm.ClassDictionaryEntries | src/charm.py:104-107 | in this class's dictionary, the first four entries are filtered out and the five handlers name the events media_storage_attached, install, config_changed, start and media_storage_detaching |
| Charm.ClassDictionaryHandlers | src/charm.py:104-108 | the handlers' events are exactly those five |
| Charm.CharmRouting | src/charm.py:98-110 | constructing the charm succeeds exactly when the framework knows all five events |
| Charm.ClassDictionaryBindings | src/charm.py:104-110 | on success each handler entry is bound under its event |
| Charm.CharmBindings | src/charm.py:104-110 | on success exactly the five events are bound, each to `_on_<event>` |
| Charm.CharmRoutingFailsFirst | src/charm.py:108 | without the storage-attached event, construction fails naming it, the first handler in the dictionary |
| Charm.DjangoCodenerixCharm.constructor | src/charm.py:118-119 | a new charm holds the bindings, the shell and the given status, with an empty trace and history |
| Charm.DjangoCodenerixCharm.Create | src/charm.py:98-110 | construction runs the router loop; an unknown event fails construction with that event's name, otherwise the charm holds exactly the router's bindings |
| Charm.DjangoCodenerixCharm.SetStatus | src/charm.py:140 | a status write replaces the status and appends it to the history |
| Charm.DjangoCodenerixCharm.System | src/charm.py:143 | `os.system` changes the state as `Issue` says and returns the shell's exit status |
| Charm.DjangoCodenerixCharm.MoveEntry | src/charm.py:183 | `shutil.move` changes the state and raises as `MoveIn` says |
| Charm.DjangoCodenerixCharm.MakeDirectory | src/charm.py:187 | `os.mkdir` changes the state and raises as `MkdirIn` says |
| Charm.DjangoCodenerixCharm.Perform | src/charm.py:175-187 | one statement changes the state as `Process.Perform` says |
| Charm.DjangoCodenerixCharm.Cd | src/charm.py:47-54 | the loop runs the block until a statement raises, leaving the state and outcome `Process.Cd` gives; the working directory is the previous one afterwards |
| Charm.DjangoCodenerixCharm.Virtualenv | src/charm.py:57-69 | the state and outcome of `Process.Virtualenv` |
| Charm.DjangoCodenerixCharm.OnInstall | src/charm.py:136-190 | the unit afterwards and the outcome are those of `Install` |
| Charm.DjangoCodenerixCharm.OnConfigChanged | src/charm.py:192-206 | the unit afterwards and the outcome are those of `ConfigChanged` |
| Charm.DjangoCodenerixCharm.OnStart | src/charm.py:208-211 | the unit afterwards is that of `Start` |
| Charm.DjangoCodenerixCharm.OnMediaStorageAttached | src/charm.py:121-134 | the unit afterwards is that of `MediaStorageAttached` |
| Charm.DjangoCodenerixCharm.OnMediaStorageDetaching | src/charm.py:213-219 | the unit afterwards is that of `MediaStorageDetaching` |

## Left out

- The commands themselves: apt, git, virtualenv, pip and manage.py are not modelled. The shell is
  a parameter that gives an exit status and the filesystem afterwards. The model states what is
  issued, in which directory, and what follows from the filesystem the commands leave.
- Executing `activate_this.py`. `virtualenv()` is modelled as `cd(path)` followed by reading the
  script, which raises when the script is missing. What the script does to the interpreter is not
  modelled.
- Logging: the `logger` calls and the debug lines of `logdecorate` are output only. The emoji that
  prefix log lines, and the duplicated icon definitions, are not modelled. The two icons that
  appear in status messages are.
- The operator framework (`CharmBase`, `framework.observe`, `main`, event dispatch). The event
  registry is a set of names, and `observe` records a binding from event name to handler name.
  `getattr(self, name)` always succeeds for a name taken from the class dictionary.
- The class dictionary is `__module__`, `__doc__`, `URL`, `__init__` and the five handlers, in
  definition order. Python 3.13 also stores `__firstlineno__` and `__static_attributes__` there.
  They are not functions and the filter drops them, so the model leaves them out.
- `os.path.expanduser` in `cd`: every directory the charm passes is absolute, so it is the identity
  here.
- `os.chdir(prevdir)` in `cd`'s `finally` is taken to succeed. The model does not capture a body
  that removes the previous directory.
- Paths.Move: requires the target's parent to exist, as a rename of a file source does. For a
  directory source `shutil.move` falls back to copying the tree, which creates missing parents; the
  model raises instead. The charm never reaches this case: its destination is always `/code`.
- Files and directories are not told apart. An existing destination of `shutil.move` is treated as a
  directory. There are no permissions, and no cross-device or same-file behaviour of `shutil.move`.
- The package command is written as one literal string. It is not computed by joining the eleven
  package names; the text is the same.
- Not in the code, so not modelled:
  - relation handlers and their credential exchange;
  - halting the install pipeline on a failed command, with a blocked status;
  - an `os.mkdir` that tolerates an existing directory.
  In the code a failed command never stops install (`Charm.InstallIgnoresExitStatus`). An existing
  `/code/static` makes install raise (`Charm.InstallNeedsNoStatic`).
