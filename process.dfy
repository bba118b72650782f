/**
 * The process a handler runs in: its working directory, the shell it hands command lines to,
 * and the filesystem. Shell commands are recorded in a trace in the order they are issued,
 * together with the directory they were issued in.
 */
module Process {
  import opened Results
  import opened Paths

  /** A command line passed to `os.system`, with the working directory it ran in. */
  datatype Issued = Issued(dir: Path, line: string)

  /** What running a command line does: its exit status and the filesystem afterwards. */
  datatype ShellRun = ShellRun(exitStatus: int, paths: set<Path>)

  /**
   * The host's shell (apt, git, virtualenv, pip, manage.py), which the model cannot see:
   * given the working directory, the command line and the filesystem it returns the exit
   * status and the filesystem after the command.
   */
  type Shell = (Path, string, set<Path>) -> ShellRun

  /** One statement of a block run under `cd`. */
  datatype Action =
    | Sh(line: string)              // os.system(line)
    | MoveTo(src: Path, dst: Path)  // shutil.move(src, dst)
    | Mkdir(path: Path)             // os.mkdir(path)
    | Activate(script: Path)        // open(script) in virtualenv(), which raises if it is missing

  /** The process state a handler changes besides the unit status. */
  datatype Host = Host(cwd: Path, trace: seq<Issued>, paths: set<Path>)

  /** The state after running something, and whether it completed or raised. */
  datatype Run = Run(host: Host, outcome: Outcome<FsError>)

  /** `trace` starts with `before`: a trace is only ever appended to. */
  predicate Extends(before: seq<Issued>, trace: seq<Issued>) {
    |before| <= |trace| && trace[..|before|] == before
  }

  /** Every entry appended to `before` to give `trace` was issued in `dir`. */
  predicate IssuedIn(before: seq<Issued>, trace: seq<Issued>, dir: Path) {
    forall k | |before| <= k < |trace| :: trace[k].dir == dir
  }

  /** `os.system(line)`: the line is run in the working directory and recorded. */
  function Issue(shell: Shell, h: Host, line: string): (r: Host)
    ensures r.cwd == h.cwd && r.trace == h.trace + [Issued(h.cwd, line)]
  {
    h.(trace := h.trace + [Issued(h.cwd, line)], paths := shell(h.cwd, line, h.paths).paths)
  }

  /** `shutil.move(src, dst)`, which raises with the filesystem unchanged when it fails. */
  function MoveIn(h: Host, src: Path, dst: Path): (r: Run)
    ensures r.host.cwd == h.cwd && r.host.trace == h.trace
    ensures r.outcome.Fail? ==> r.host == h
  {
    match Move(h.paths, src, dst)
    case Ok(fs) => Run(h.(paths := fs), Pass)
    case Err(e) => Run(h, Fail(e))
  }

  /** `os.mkdir(p)`. */
  function MkdirIn(h: Host, p: Path): (r: Run)
    ensures r.host.cwd == h.cwd && r.host.trace == h.trace
    ensures r.outcome.Fail? ==> r.host == h
  {
    match MakeDir(h.paths, p)
    case Ok(fs) => Run(h.(paths := fs), Pass)
    case Err(e) => Run(h, Fail(e))
  }

  /** One statement. `os.system` never raises: its exit status is returned and nothing else. */
  function Perform(shell: Shell, h: Host, a: Action): (r: Run)
    ensures r.host.cwd == h.cwd
    ensures a.Sh? ==> r.outcome.Pass? && r.host.trace == h.trace + [Issued(h.cwd, a.line)]
    ensures !a.Sh? ==> r.host.trace == h.trace
    ensures r.outcome.Fail? ==> r.host == h
  {
    match a
    case Sh(line) => Run(Issue(shell, h, line), Pass)
    case MoveTo(src, dst) => MoveIn(h, src, dst)
    case Mkdir(p) => MkdirIn(h, p)
    case Activate(script) =>
      if Exists(h.paths, script) then Run(h, Pass) else Run(h, Fail(NotFound(script)))
  }

  /** A block of statements: each runs in turn, and the first one that raises ends the block. */
  function RunAll(shell: Shell, h: Host, body: seq<Action>): (r: Run)
    ensures r.host.cwd == h.cwd
    ensures Extends(h.trace, r.host.trace) && IssuedIn(h.trace, r.host.trace, h.cwd)
    decreases |body|
  {
    if body == [] then Run(h, Pass)
    else
      var first := Perform(shell, h, body[0]);
      if first.outcome.Fail? then first else RunAll(shell, first.host, body[1..])
  }

  /** Running two blocks one after the other is running their concatenation. */
  lemma {:induction false} RunAllAppend(shell: Shell, h: Host, a: seq<Action>, b: seq<Action>)
    ensures RunAll(shell, h, a + b) ==
      var r := RunAll(shell, h, a); if r.outcome.Fail? then r else RunAll(shell, r.host, b)
    decreases |a|
  {
    if a == [] {
      assert a + b == b;
    } else {
      assert (a + b)[0] == a[0];
      assert (a + b)[1..] == a[1..] + b;
      var first := Perform(shell, h, a[0]);
      if first.outcome.Pass? {
        RunAllAppend(shell, first.host, a[1..], b);
      }
    }
  }

  /** Exit statuses never steer a block: two shells that leave the same filesystems give the same run. */
  lemma {:induction false} RunAllIgnoresExitStatus(s1: Shell, s2: Shell, h: Host, body: seq<Action>)
    requires forall d, line, fs :: s1(d, line, fs).paths == s2(d, line, fs).paths
    ensures RunAll(s1, h, body) == RunAll(s2, h, body)
    decreases |body|
  {
    if body != [] {
      var first := Perform(s1, h, body[0]);
      assert Perform(s2, h, body[0]) == first;
      if first.outcome.Pass? {
        RunAllIgnoresExitStatus(s1, s2, first.host, body[1..]);
      }
    }
  }

  /** A block made of `os.system` calls only. */
  function ShellBody(lines: seq<string>): (body: seq<Action>)
    ensures |body| == |lines|
  {
    if lines == [] then [] else [Sh(lines[0])] + ShellBody(lines[1..])
  }

  /** The trace entries for `lines` issued in `dir`, in order. */
  function Commands(dir: Path, lines: seq<string>): (cmds: seq<Issued>)
    ensures |cmds| == |lines|
  {
    if lines == [] then [] else [Issued(dir, lines[0])] + Commands(dir, lines[1..])
  }

  /** The filesystem after the shell has run `lines` in `dir`, in order. */
  function ShellEffect(shell: Shell, dir: Path, lines: seq<string>, fs: set<Path>): set<Path>
    decreases |lines|
  {
    if lines == [] then fs else ShellEffect(shell, dir, lines[1..], shell(dir, lines[0], fs).paths)
  }

  /** Issuing one line and then `lines` is issuing `[line] + lines`. */
  lemma IssueThen(shell: Shell, h: Host, line: string, lines: seq<string>)
    ensures var next := Issue(shell, h, line);
      && next.trace + Commands(h.cwd, lines) == h.trace + Commands(h.cwd, [line] + lines)
      && ShellEffect(shell, h.cwd, lines, next.paths) == ShellEffect(shell, h.cwd, [line] + lines, h.paths)
  {
    assert ([line] + lines)[0] == line && ([line] + lines)[1..] == lines;
  }

  /** The filesystem a run of lines leaves does not depend on exit statuses. */
  lemma {:induction false} ShellEffectIgnoresExitStatus(s1: Shell, s2: Shell, dir: Path, lines: seq<string>, fs: set<Path>)
    requires forall d, line, fs :: s1(d, line, fs).paths == s2(d, line, fs).paths
    ensures ShellEffect(s1, dir, lines, fs) == ShellEffect(s2, dir, lines, fs)
    decreases |lines|
  {
    if lines != [] {
      ShellEffectIgnoresExitStatus(s1, s2, dir, lines[1..], s1(dir, lines[0], fs).paths);
    }
  }

  /**
   * A block of `os.system` calls always completes, whatever the exit statuses: it issues exactly
   * its lines, in order, in the working directory.
   */
  lemma {:induction false} RunShellBody(shell: Shell, h: Host, lines: seq<string>)
    ensures var r := RunAll(shell, h, ShellBody(lines));
      && r.outcome == Pass
      && r.host.cwd == h.cwd
      && r.host.trace == h.trace + Commands(h.cwd, lines)
      && r.host.paths == ShellEffect(shell, h.cwd, lines, h.paths)
    decreases |lines|
  {
    if lines == [] {
      assert h.trace + [] == h.trace;
    } else {
      var first := Perform(shell, h, Sh(lines[0]));
      RunShellBodyStep(shell, h, lines);
      RunShellBody(shell, first.host, lines[1..]);
      assert Commands(h.cwd, lines) == [Issued(h.cwd, lines[0])] + Commands(h.cwd, lines[1..]);
      assert h.trace + Commands(h.cwd, lines) ==
        (h.trace + [Issued(h.cwd, lines[0])]) + Commands(h.cwd, lines[1..]);
    }
  }

  lemma RunShellBodyStep(shell: Shell, h: Host, lines: seq<string>)
    requires lines != []
    ensures RunAll(shell, h, ShellBody(lines)) ==
      RunAll(shell, Perform(shell, h, Sh(lines[0])).host, ShellBody(lines[1..]))
  {
    var body := ShellBody(lines);
    assert body[0] == Sh(lines[0]) && body[1..] == ShellBody(lines[1..]);
  }

  /**
   * `with cd(newdir): body`. The directory change happens before the `try`, so a missing `newdir`
   * raises before the body runs; otherwise the body runs in `newdir` and the `finally` clause
   * changes back to the previous directory whether the body completed or raised.
   */
  function Cd(shell: Shell, h: Host, newdir: Path, body: seq<Action>): (r: Run)
    ensures r.host.cwd == h.cwd
    ensures !Exists(h.paths, newdir) ==> r == Run(h, Fail(NotFound(newdir)))
    ensures Exists(h.paths, newdir) ==> r.outcome == RunAll(shell, h.(cwd := newdir), body).outcome
    ensures Extends(h.trace, r.host.trace) && IssuedIn(h.trace, r.host.trace, newdir)
  {
    if !Exists(h.paths, newdir) then Run(h, Fail(NotFound(newdir)))
    else
      var inner := RunAll(shell, h.(cwd := newdir), body);
      Run(inner.host.(cwd := h.cwd), inner.outcome)
  }

  /** The script that `virtualenv(path)` executes to activate the environment. */
  function ActivateScript(path: Path): Path {
    path + ["venv", "bin", "activate_this.py"]
  }

  /**
   * `with virtualenv(path): body`: `cd(path)`, then read the activation script (which raises
   * when it is missing), then the body. What the script does when executed is not modelled.
   */
  function Virtualenv(shell: Shell, h: Host, path: Path, body: seq<Action>): Run {
    Cd(shell, h, path, [Activate(ActivateScript(path))] + body)
  }

  /**
   * A block of `os.system` calls under `virtualenv(path)` runs exactly when the directory and its
   * activation script exist; it then issues its lines in `path`, and otherwise changes nothing.
   * The working directory is the previous one afterwards in both cases.
   */
  lemma VirtualenvShell(shell: Shell, h: Host, path: Path, lines: seq<string>)
    ensures var r := Virtualenv(shell, h, path, ShellBody(lines));
      && r.host.cwd == h.cwd
      && (r.outcome.Pass? <==> Exists(h.paths, path) && Exists(h.paths, ActivateScript(path)))
      && (r.outcome.Pass? ==>
            r.host == Host(h.cwd, h.trace + Commands(path, lines), ShellEffect(shell, path, lines, h.paths)))
      && (r.outcome.Fail? ==> r.host == h)
      && (!Exists(h.paths, path) ==> r.outcome == Fail(NotFound(path)))
      && (Exists(h.paths, path) && !Exists(h.paths, ActivateScript(path)) ==>
            r.outcome == Fail(NotFound(ActivateScript(path))))
  {
    if Exists(h.paths, path) {
      var inside := h.(cwd := path);
      RunAllAppend(shell, inside, [Activate(ActivateScript(path))], ShellBody(lines));
      if Exists(h.paths, ActivateScript(path)) {
        RunShellBody(shell, inside, lines);
      }
    }
  }
}
