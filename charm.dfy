/**
 * The Codenerix ERP charm: its handlers as functions of the unit's state (the specification)
 * and the charm object whose methods carry them out step by step.
 */
module Charm {
  import opened Results
  import opened Paths
  import opened Process
  import opened Status
  import opened Router

  /** The unit as the handlers see it: the status, every status written so far, and the process. */
  datatype Unit = Unit(status: UnitStatus, published: seq<UnitStatus>, host: Host)

  /** A handler's effect: the unit afterwards, and whether the handler returned or raised. */
  datatype Step = Step(unit: Unit, outcome: Outcome<FsError>)

  function Maint(message: string): UnitStatus {
    UnitStatus(Maintenance, message)
  }

  // ---------------------------------------------------------------------------------------
  // The fixed data of the install pipeline
  // ---------------------------------------------------------------------------------------

  const URL: string := "https://github.com/codenerix/codenerix-erp"

  const GitLine: string := "apt -y install git"
  const CloneLine: string := "git clone " + URL + " /erp"
  /** The eleven system packages in their order, joined by single spaces. */
  const PackagesLine: string := "apt -y install libmariadb-dev python3 python3-fabric python3-mysqldb"
    + " python3-pip python3-uwsgidecorators python3-virtualenv uwsgi uwsgi-plugin-python3"
    + " uwsgi-extra uwsgi-plugins-all"
  const VenvLine: string := "virtualenv -p python3 /code/venv"
  const PipUpgradeLine: string := "pip install --upgrade pip"
  const PipRequirementsLine: string := "pip install -r /erp/erp/requirements.txt"
  const MigrateLine: string := "./manage.py migrate"
  const TouchLine: string := "./manage.py touch"

  /** The command lines install issues in the hook's own directory, and then inside /code. */
  const SetupLines: seq<string> := [GitLine, CloneLine, PackagesLine, VenvLine]
  const PipLines: seq<string> := [PipUpgradeLine, PipRequirementsLine]
  /** The command lines config-changed issues inside /code. */
  const ManageLines: seq<string> := [MigrateLine, TouchLine]

  /** The deployment directory `/code` and the fetched source tree `/erp/erp`. */
  const Code: Path := ["code"]
  const Source: Path := ["erp", "erp"]
  /** What the last install stage moves from /erp/erp into /code, in order. */
  const Relocated: seq<string> := ["start.sh", "erp", "manage.py", "conf"]
  const Static: Path := ["code", "static"]

  /** The statuses install writes, in order. */
  const InstallStatuses: seq<UnitStatus> := [
    Maint("Git"), Maint("Clonning Codenerix ERP"), Maint("System packages"),
    Maint("Python packages"), Maint("Copy ERP"), Maint("Ready (installed)")]

  // ---------------------------------------------------------------------------------------
  // The handlers as functions of the unit
  // ---------------------------------------------------------------------------------------

  /** `self.unit.status = s`. */
  function Publish(u: Unit, s: UnitStatus): Unit {
    u.(status := s, published := u.published + [s])
  }

  /** `os.system(line)`, its exit status dropped. */
  function RunCommand(shell: Shell, u: Unit, line: string): Unit {
    u.(host := Issue(shell, u.host, line))
  }

  /**
   * The four `shutil.move`s of the last install stage, one entry of /erp/erp after the other
   * into /code; the first one that raises ends the stage.
   */
  function MoveAll(h: Host, names: seq<string>): (r: Run)
    ensures r.host.cwd == h.cwd && r.host.trace == h.trace
    decreases |names|
  {
    if names == [] then Run(h, Pass)
    else
      var first := MoveIn(h, Source + [names[0]], Code);
      if first.outcome.Fail? then first else MoveAll(first.host, names[1..])
  }

  /** The last install stage: the four moves, then `os.mkdir("/code/static")`. */
  function CopyErp(h: Host): (r: Run)
    ensures r.host.cwd == h.cwd && r.host.trace == h.trace
  {
    var moved := MoveAll(h, Relocated);
    if moved.outcome.Fail? then moved else MkdirIn(moved.host, Static)
  }

  /** The next move, unless an earlier statement raised. */
  function ThenMove(r: Run, src: Path, dst: Path): Run {
    if r.outcome.Fail? then r else MoveIn(r.host, src, dst)
  }

  /** The four moves written out as the statements they are. */
  lemma MoveAllRelocated(h: Host)
    ensures MoveAll(h, Relocated) == ThenMove(ThenMove(ThenMove(MoveIn(h,
      Source + ["start.sh"], Code), Source + ["erp"], Code), Source + ["manage.py"], Code), Source + ["conf"], Code)
  {
    var r1 := MoveIn(h, Source + ["start.sh"], Code);
    var r2 := ThenMove(r1, Source + ["erp"], Code);
    var r3 := ThenMove(r2, Source + ["manage.py"], Code);
    var r4 := ThenMove(r3, Source + ["conf"], Code);
    assert Relocated[1..] == ["erp", "manage.py", "conf"];
    assert Relocated[1..][1..] == ["manage.py", "conf"];
    assert Relocated[1..][1..][1..] == ["conf"];
    if r1.outcome.Pass? && r2.outcome.Pass? && r3.outcome.Pass? {
      assert MoveAll(r3.host, ["conf"]) == r4;
    }
  }

  /** `_on_install`. */
  function Install(shell: Shell, u: Unit): Step {
    var u := RunCommand(shell, Publish(u, Maint("Git")), GitLine);
    var u := RunCommand(shell, Publish(u, Maint("Clonning Codenerix ERP")), CloneLine);
    var u := RunCommand(shell, Publish(u, Maint("System packages")), PackagesLine);
    var u := RunCommand(shell, Publish(u, Maint("Python packages")), VenvLine);
    var venv := Virtualenv(shell, u.host, Code, [Sh(PipUpgradeLine), Sh(PipRequirementsLine)]);
    var u := u.(host := venv.host);
    if venv.outcome.Fail? then Step(u, venv.outcome)
    else
      var u := Publish(u, Maint("Copy ERP"));
      var copied := CopyErp(u.host);
      var u := u.(host := copied.host);
      if copied.outcome.Fail? then Step(u, copied.outcome)
      else Step(Publish(u, Maint("Ready (installed)")), Pass)
  }

  /** `_on_config_changed`. */
  function ConfigChanged(shell: Shell, u: Unit): Step {
    var u := Publish(u, Maint("Config changed"));
    var venv := Virtualenv(shell, u.host, Code, [Sh(MigrateLine), Sh(TouchLine)]);
    var u := u.(host := venv.host);
    if venv.outcome.Fail? then Step(u, venv.outcome)
    else Step(Publish(u, Maint("Ready (config changed)")), Pass)
  }

  /** `_on_start`. */
  function Start(u: Unit): Step {
    Step(Publish(u, UnitStatus(Active, "Start")), Pass)
  }

  /** `_on_media_storage_attached` for the storage instance the event carries. */
  function MediaStorageAttached(u: Unit, name: string, index: nat, location: string): Step {
    Step(Publish(u, UnitStatus(Active, AttachedMessage(name, index, location))), Pass)
  }

  /** `_on_media_storage_detaching`. */
  function MediaStorageDetaching(u: Unit): Step {
    Step(Publish(u, UnitStatus(Active, DetachedMessage)), Pass)
  }

  // ---------------------------------------------------------------------------------------
  // What the install handler does
  // ---------------------------------------------------------------------------------------

  /** The filesystem install has when it enters /code, and when it starts copying. */
  function SetupPaths(shell: Shell, u: Unit): set<Path> {
    ShellEffect(shell, u.host.cwd, SetupLines, u.host.paths)
  }

  function CopyStartPaths(shell: Shell, u: Unit): set<Path> {
    ShellEffect(shell, Code, PipLines, SetupPaths(shell, u))
  }

  /** The virtualenv under /code can be entered. */
  predicate VenvReady(fs: set<Path>) {
    Exists(fs, Code) && Exists(fs, ActivateScript(Code))
  }

  lemma ShellBodyPair(a: string, b: string)
    ensures ShellBody([a, b]) == [Sh(a), Sh(b)]
  {
    assert [a, b][1..] == [b];
    assert [b][1..] == [];
  }

  /** The four setup commands, issued one after the other in the hook's directory. */
  lemma SetupHost(shell: Shell, h: Host)
    ensures var h1 := Issue(shell, h, GitLine);
      var h2 := Issue(shell, h1, CloneLine);
      var h3 := Issue(shell, h2, PackagesLine);
      Issue(shell, h3, VenvLine) ==
        Host(h.cwd, h.trace + Commands(h.cwd, SetupLines), ShellEffect(shell, h.cwd, SetupLines, h.paths))
  {
    var h1 := Issue(shell, h, GitLine);
    var h2 := Issue(shell, h1, CloneLine);
    var h3 := Issue(shell, h2, PackagesLine);
    var h4 := Issue(shell, h3, VenvLine);
    IssueThen(shell, h3, VenvLine, []);
    IssueThen(shell, h2, PackagesLine, [VenvLine]);
    IssueThen(shell, h1, CloneLine, [PackagesLine, VenvLine]);
    IssueThen(shell, h, GitLine, [CloneLine, PackagesLine, VenvLine]);
    assert [VenvLine] + [] == [VenvLine];
    assert [PackagesLine] + [VenvLine] == [PackagesLine, VenvLine];
    assert [CloneLine] + [PackagesLine, VenvLine] == [CloneLine, PackagesLine, VenvLine];
    assert [GitLine] + [CloneLine, PackagesLine, VenvLine] == SetupLines;
    assert h4.trace + Commands(h.cwd, []) == h4.trace;
  }

  /** Writing the install statuses one by one extends the history by a prefix of them. */
  lemma InstallStatusChain(base: seq<UnitStatus>)
    ensures var p4 := base + [Maint("Git")] + [Maint("Clonning Codenerix ERP")]
        + [Maint("System packages")] + [Maint("Python packages")];
      && p4 == base + InstallStatuses[..4]
      && p4 + [Maint("Copy ERP")] == base + InstallStatuses[..5]
      && p4 + [Maint("Copy ERP")] + [Maint("Ready (installed)")] == base + InstallStatuses[..6]
  {
    var s := InstallStatuses;
    assert s[..4] == [s[0], s[1], s[2], s[3]];
    assert s[..5] == s[..4] + [s[4]];
    assert s[..6] == s[..5] + [s[5]];
  }

  /** The host after the four setup commands. */
  function SetupDone(shell: Shell, h: Host): Host {
    Issue(shell, Issue(shell, Issue(shell, Issue(shell, h, GitLine), CloneLine), PackagesLine), VenvLine)
  }

  /**
   * Entering the virtualenv after setup: it raises when /code or its activation script is
   * missing and changes nothing then; otherwise the two pip commands run inside /code.
   */
  lemma PipStage(shell: Shell, u: Unit)
    ensures var fs := SetupPaths(shell, u);
      var setup := Host(u.host.cwd, u.host.trace + Commands(u.host.cwd, SetupLines), fs);
      var venv := Virtualenv(shell, SetupDone(shell, u.host), Code, [Sh(PipUpgradeLine), Sh(PipRequirementsLine)]);
      && (!VenvReady(fs) ==>
            venv == Run(setup, Fail(NotFound(if !Exists(fs, Code) then Code else ActivateScript(Code)))))
      && (VenvReady(fs) ==>
            venv == Run(Host(u.host.cwd, setup.trace + Commands(Code, PipLines), CopyStartPaths(shell, u)), Pass))
  {
    var h := u.host;
    SetupHost(shell, h);
    var h4 := Host(h.cwd, h.trace + Commands(h.cwd, SetupLines), SetupPaths(shell, u));
    ShellBodyPair(PipUpgradeLine, PipRequirementsLine);
    VirtualenvShell(shell, h4, Code, PipLines);
  }

  /**
   * When /code or its activation script is missing after the four setup commands, install raises
   * on entering the virtualenv: it has then issued just those commands, whatever their exit
   * statuses, and written the first four statuses.
   */
  lemma InstallRaisesBeforeCopy(shell: Shell, u: Unit)
    requires !VenvReady(SetupPaths(shell, u))
    ensures var r := Install(shell, u);
      var fs := SetupPaths(shell, u);
      && r.outcome == Fail(NotFound(if !Exists(fs, Code) then Code else ActivateScript(Code)))
      && r.unit.host == Host(u.host.cwd, u.host.trace + Commands(u.host.cwd, SetupLines), fs)
      && r.unit.published == u.published + InstallStatuses[..4]
      && r.unit.status == InstallStatuses[3]
  {
    PipStage(shell, u);
    InstallStatusChain(u.published);
  }

  /**
   * When the virtualenv can be entered, install issues the two pip commands inside /code and
   * then ends as the copy stage does, from the filesystem the commands left.
   */
  lemma InstallReachesCopy(shell: Shell, u: Unit)
    requires VenvReady(SetupPaths(shell, u))
    ensures var r := Install(shell, u);
      var setup := u.host.trace + Commands(u.host.cwd, SetupLines);
      var copyStart := Host(u.host.cwd, setup + Commands(Code, PipLines), CopyStartPaths(shell, u));
      && r.outcome == CopyErp(copyStart).outcome
      && r.unit.host == CopyErp(copyStart).host
      && r.unit.published == u.published + InstallStatuses[..if r.outcome.Pass? then 6 else 5]
      && r.unit.status == InstallStatuses[if r.outcome.Pass? then 5 else 4]
  {
    PipStage(shell, u);
    InstallStatusChain(u.published);
  }

  /**
   * The stage structure of install: the four setup commands always run, whatever their exit
   * statuses; the pipeline raises before copying exactly when /code or its activation script is
   * then missing, and otherwise ends as the copy stage does.
   */
  lemma InstallStages(shell: Shell, u: Unit)
    ensures var r := Install(shell, u);
      var fs := SetupPaths(shell, u);
      var setup := u.host.trace + Commands(u.host.cwd, SetupLines);
      var copyStart := Host(u.host.cwd, setup + Commands(Code, PipLines), CopyStartPaths(shell, u));
      && (!VenvReady(fs) ==>
            && r.outcome == Fail(NotFound(if !Exists(fs, Code) then Code else ActivateScript(Code)))
            && r.unit.host == Host(u.host.cwd, setup, fs)
            && r.unit.published == u.published + InstallStatuses[..4])
      && (VenvReady(fs) ==>
            && r.outcome == CopyErp(copyStart).outcome
            && r.unit.host == CopyErp(copyStart).host
            && r.unit.published == u.published + InstallStatuses[..if r.outcome.Pass? then 6 else 5])
  {
    if VenvReady(SetupPaths(shell, u)) {
      InstallReachesCopy(shell, u);
    } else {
      InstallRaisesBeforeCopy(shell, u);
    }
  }

  /** A history extended by the first `k` install statuses gained only Maintenance statuses. */
  lemma InstallStatusesAppended(base: seq<UnitStatus>, published: seq<UnitStatus>, k: nat)
    requires k <= |InstallStatuses| && published == base + InstallStatuses[..k]
    ensures |published| - |base| == k
    ensures published[|base|..] == InstallStatuses[..k]
    ensures forall s | s in published[|base|..] :: s.phase == Maintenance
  {
    assert forall i | 0 <= i < |InstallStatuses| :: InstallStatuses[i].phase == Maintenance;
  }

  /**
   * Install writes its statuses in the fixed order, all of them Maintenance, and the status it
   * ends with is the last one written.
   */
  lemma InstallStatusOrder(shell: Shell, u: Unit)
    ensures var r := Install(shell, u);
      var k := |r.unit.published| - |u.published|;
      && 4 <= k <= 6
      && r.unit.published == u.published + InstallStatuses[..k]
      && r.unit.status == InstallStatuses[k - 1]
      && forall s | s in r.unit.published[|u.published|..] :: s.phase == Maintenance
  {
    var r := Install(shell, u);
    if VenvReady(SetupPaths(shell, u)) {
      InstallReachesCopy(shell, u);
      InstallStatusesAppended(u.published, r.unit.published, if r.outcome.Pass? then 6 else 5);
    } else {
      InstallRaisesBeforeCopy(shell, u);
      InstallStatusesAppended(u.published, r.unit.published, 4);
    }
  }

  /**
   * Install completes exactly when it writes all six statuses, and it ends at
   * "Ready (installed)" exactly then.
   */
  lemma InstallReadyIff(shell: Shell, u: Unit)
    ensures var r := Install(shell, u);
      && (r.outcome.Pass? <==> |r.unit.published| == |u.published| + 6)
      && (r.unit.status == Maint("Ready (installed)") <==> r.outcome.Pass?)
  {
    if VenvReady(SetupPaths(shell, u)) {
      InstallReachesCopy(shell, u);
    } else {
      InstallRaisesBeforeCopy(shell, u);
    }
  }

  /**
   * Install issues its commands in the fixed order: the two apt commands, the clone and the
   * virtualenv command in the hook's directory, then both pip commands inside /code when the
   * environment can be entered. The working directory is the hook's own afterwards.
   */
  lemma InstallCommandOrder(shell: Shell, u: Unit)
    ensures var r := Install(shell, u);
      var setup := u.host.trace + Commands(u.host.cwd, SetupLines);
      && r.unit.host.cwd == u.host.cwd
      && (VenvReady(SetupPaths(shell, u)) ==> r.unit.host.trace == setup + Commands(Code, PipLines))
      && (!VenvReady(SetupPaths(shell, u)) ==> r.unit.host.trace == setup)
  {
    InstallStages(shell, u);
  }

  /** The trace entries of install's command lines, written out. */
  lemma InstallCommandLines(dir: Path)
    ensures Commands(dir, SetupLines) == [
      Issued(dir, GitLine), Issued(dir, CloneLine), Issued(dir, PackagesLine), Issued(dir, VenvLine)]
    ensures Commands(Code, PipLines) == [Issued(Code, PipUpgradeLine), Issued(Code, PipRequirementsLine)]
  {
    assert SetupLines[1..] == [CloneLine, PackagesLine, VenvLine];
    assert SetupLines[1..][1..] == [PackagesLine, VenvLine];
    assert SetupLines[1..][1..][1..] == [VenvLine];
    assert Commands(dir, [VenvLine]) == [Issued(dir, VenvLine)];
    assert Commands(dir, [PackagesLine, VenvLine]) == [Issued(dir, PackagesLine), Issued(dir, VenvLine)];
    assert PipLines[1..] == [PipRequirementsLine];
  }

  // ---------------------------------------------------------------------------------------
  // The copy stage
  // ---------------------------------------------------------------------------------------

  /** A move into /code places nothing outside /code. */
  lemma MoveIntoCodeStaysInCode(fs: set<Path>, src: Path, p: Path)
    requires Move(fs, src, Code).Ok? && p in Move(fs, src, Code).value && p !in fs
    ensures p != [] && p[0] == "code"
  {
    var target := MoveTarget(fs, src, Code);
    MoveFrame(fs, src, Code);
    assert target[0] == "code";
    assert IsPrefix(target, p);
    assert p[..|target|][0] == p[0];
  }

  /** A source entry missing before a move of another entry into /code is still missing after it. */
  lemma MoveKeepsSourceAbsent(fs: set<Path>, m: string, n: string)
    requires Move(fs, Source + [m], Code).Ok? && !Exists(fs, Source + [n])
    ensures !Exists(Move(fs, Source + [m], Code).value, Source + [n])
  {
    var fs' := Move(fs, Source + [m], Code).value;
    assert (Source + [n])[0] == "erp";
    if Source + [n] in fs' {
      MoveIntoCodeStaysInCode(fs, Source + [m], Source + [n]);
    }
  }

  /** A source that is missing before the moves makes one of them raise. */
  lemma {:induction false} MoveAllNeedsSources(h: Host, names: seq<string>, n: string)
    requires n in names && !Exists(h.paths, Source + [n])
    ensures MoveAll(h, names).outcome.Fail?
    decreases |names|
  {
    var first := MoveIn(h, Source + [names[0]], Code);
    if names[0] != n && first.outcome.Pass? {
      assert n in names[1..] by {
        assert names == [names[0]] + names[1..];
      }
      MoveKeepsSourceAbsent(h.paths, names[0], n);
      MoveAllNeedsSources(first.host, names[1..], n);
    }
  }

  /** A source that is missing when copying starts makes the copy stage raise. */
  lemma CopyErpNeedsSources(h: Host, n: string)
    requires n in Relocated && !Exists(h.paths, Source + [n])
    ensures CopyErp(h).outcome.Fail?
  {
    MoveAllNeedsSources(h, Relocated, n);
  }

  /** Moving entries of /erp/erp keeps every path inside /code, /code/static among them. */
  lemma {:induction false} MoveAllKeepsCode(h: Host, names: seq<string>, p: Path)
    requires p in h.paths && p != [] && p[0] == "code"
    ensures MoveAll(h, names).outcome.Pass? ==> p in MoveAll(h, names).host.paths
    decreases |names|
  {
    if names != [] {
      var first := MoveIn(h, Source + [names[0]], Code);
      if first.outcome.Pass? {
        CodeIsNotSource(names[0], p);
        MoveFrame(h.paths, Source + [names[0]], Code);
        MoveAllKeepsCode(first.host, names[1..], p);
      }
    }
  }

  /** An existing /code/static makes the copy stage raise: `os.mkdir` does not tolerate it. */
  lemma CopyErpNeedsNoStatic(h: Host)
    requires Exists(h.paths, Static)
    ensures CopyErp(h).outcome.Fail?
  {
    MoveAllKeepsCode(h, Relocated, Static);
  }

  /**
   * Where the copy stage stands: the entries of `done` are in /code and nothing is left below
   * their sources; the entries of `rest` are still at their sources and absent from /code.
   */
  predicate CopyState(fs: set<Path>, done: seq<string>, rest: seq<string>) {
    && Tree(fs) && Exists(fs, Code) && !Exists(fs, Static)
    && (forall n | n in rest :: Exists(fs, Source + [n]) && !Exists(fs, Code + [n]))
    && (forall n | n in done :: Code + [n] in fs)
    && (forall n, p | n in done && p in fs :: !IsPrefix(Source + [n], p))
  }

  /** A path inside /code is not below any source entry. */
  lemma CodeIsNotSource(m: string, p: Path)
    requires p != [] && p[0] == "code"
    ensures !IsPrefix(Source + [m], p)
  {
    assert (Source + [m])[0] == "erp";
    DifferentFirst(Source + [m], p);
  }

  /** The move of `n` is possible and lands at /code/n. */
  lemma CopyStepMoves(fs: set<Path>, done: seq<string>, n: string, rest: seq<string>)
    requires CopyState(fs, done, [n] + rest)
    ensures MoveTarget(fs, Source + [n], Code) == Code + [n]
    ensures Move(fs, Source + [n], Code).Ok?
  {
    var src := Source + [n];
    assert n in [n] + rest;
    assert Basename(src) == n;
    CodeIsNotSource(n, Code + [n]);
    assert Parent(Code + [n]) == Code;
  }

  /** One move of the copy stage: `n` goes from the rest to the done entries. */
  lemma CopyStep(fs: set<Path>, done: seq<string>, n: string, rest: seq<string>)
    requires CopyState(fs, done, [n] + rest) && n !in rest && n != "static"
    ensures Move(fs, Source + [n], Code).Ok?
    ensures CopyState(Move(fs, Source + [n], Code).value, done + [n], rest)
  {
    var src := Source + [n];
    CopyStepMoves(fs, done, n, rest);
    var fs' := Move(fs, src, Code).value;
    MoveFrame(fs, src, Code);
    MoveKeepsTree(fs, src, Code);
    MoveRemovesSource(fs, src, Code);
    assert Code in fs;
    CodeIsNotSource(n, Code);
    assert Static == Code + ["static"];
    SiblingsApart(Code, n, "static");
    forall p | p in fs' && p !in fs ensures IsPrefix(Code + [n], p) && p[0] == "code" {
      MoveIntoCodeStaysInCode(fs, src, p);
    }
    forall m | m in rest ensures Exists(fs', Source + [m]) && !Exists(fs', Code + [m]) {
      assert m in [n] + rest;
      SiblingsApart(Source, n, m);
      SiblingsApart(Code, n, m);
    }
    forall m | m in done + [n] ensures Code + [m] in fs' {
      if m != n {
        assert m in done;
        CodeIsNotSource(n, Code + [m]);
      }
    }
    forall m, p | m in done + [n] && p in fs' ensures !IsPrefix(Source + [m], p) {
      if p !in fs {
        CodeIsNotSource(m, p);
      } else if m != n {
        assert m in done;
      }
    }
  }

  /** No name occurs twice. */
  predicate Distinct(names: seq<string>) {
    forall i, j | 0 <= i < j < |names| :: names[i] != names[j]
  }

  /** A successful first move hands the rest of the moves the filesystem it left. */
  lemma MoveAllStep(h: Host, names: seq<string>)
    requires names != [] && Move(h.paths, Source + [names[0]], Code).Ok?
    ensures MoveAll(h, names) ==
      MoveAll(h.(paths := Move(h.paths, Source + [names[0]], Code).value), names[1..])
  {
  }

  /** Dropping the first of distinct names leaves distinct names, none equal to the first. */
  lemma DistinctTail(names: seq<string>)
    requires names != [] && Distinct(names)
    ensures Distinct(names[1..]) && names[0] !in names[1..]
  {
    forall j | 0 <= j < |names[1..]| ensures names[1..][j] != names[0] {
      assert names[1..][j] == names[j + 1];
    }
    forall i, j | 0 <= i < j < |names[1..]| ensures names[1..][i] != names[1..][j] {
      assert names[1..][i] == names[i + 1] && names[1..][j] == names[j + 1];
    }
  }

  /** From a copy state, moving the rest in order completes and moves every one of them. */
  lemma {:induction false} MoveAllSucceeds(h: Host, done: seq<string>, rest: seq<string>)
    requires CopyState(h.paths, done, rest) && Distinct(rest) && "static" !in rest
    ensures MoveAll(h, rest).outcome.Pass?
    ensures CopyState(MoveAll(h, rest).host.paths, done + rest, [])
    decreases |rest|
  {
    if rest == [] {
      assert done + rest == done;
    } else {
      var n := rest[0];
      assert rest == [n] + rest[1..];
      DistinctTail(rest);
      assert "static" !in rest[1..] && n != "static";
      CopyStep(h.paths, done, n, rest[1..]);
      MoveAllStep(h, rest);
      var next := h.(paths := Move(h.paths, Source + [n], Code).value);
      MoveAllSucceeds(next, done + [n], rest[1..]);
      assert done + [n] + rest[1..] == done + rest;
    }
  }

  /** The end state of the copy stage: everything in /code, nothing left below the sources. */
  predicate CopyDone(fs: set<Path>, names: seq<string>) {
    && Tree(fs)
    && (forall n | n in names :: Code + [n] in fs)
    && Static in fs
    && (forall n, p | n in names && p in fs :: !IsPrefix(Source + [n], p))
  }

  /** The entry names differ in length, hence from each other and from "static". */
  lemma RelocatedDistinct()
    ensures Distinct(Relocated) && "static" !in Relocated
  {
    var lengths := [8, 3, 9, 4];
    assert forall i | 0 <= i < 4 :: |Relocated[i]| == lengths[i];
  }

  /** Once every entry is moved, `os.mkdir("/code/static")` succeeds and ends the stage. */
  lemma MakeStatic(fs: set<Path>, names: seq<string>)
    requires CopyState(fs, names, [])
    ensures MakeDir(fs, Static) == Ok(fs + {Static})
    ensures CopyDone(fs + {Static}, names)
  {
    assert Parent(Static) == Code;
    forall n | n in names ensures !IsPrefix(Source + [n], Static) {
      CodeIsNotSource(n, Static);
    }
  }

  /**
   * On a tree with /code present, all four sources present and none of the five targets present,
   * the copy stage completes: each relocated entry and /code/static is then in /code, nothing is
   * left at or below the four sources, and the filesystem is still a tree.
   */
  lemma CopyErpSucceeds(h: Host)
    requires CopyState(h.paths, [], Relocated)
    ensures CopyErp(h).outcome.Pass?
    ensures CopyDone(CopyErp(h).host.paths, Relocated)
  {
    RelocatedDistinct();
    MoveAllSucceeds(h, [], Relocated);
    assert [] + Relocated == Relocated;
    MakeStatic(MoveAll(h, Relocated).host.paths, Relocated);
  }

  /** The trees of two different source entries are disjoint. */
  lemma SourceTreesApart(m: string, n: string, q: Path)
    requires m != n && IsPrefix(Source + [n], q)
    ensures !IsPrefix(Source + [m], q)
  {
    assert (Source + [m])[2] == m && (Source + [n])[2] == n;
    assert q[..3][2] == q[2];
  }

  /**
   * The moves carry contents along: everything below a moved source entry reappears at the same
   * place below its new home in /code.
   */
  lemma {:induction false} MoveAllCarriesContents(h: Host, names: seq<string>)
    requires Exists(h.paths, Code) && Distinct(names)
    ensures MoveAll(h, names).outcome.Pass? ==>
      forall n, q | n in names && q in h.paths && IsPrefix(Source + [n], q) ::
        Code + [n] + q[|Source + [n]|..] in MoveAll(h, names).host.paths
    decreases |names|
  {
    if names != [] {
      var n0 := names[0];
      var src := Source + [n0];
      if Move(h.paths, src, Code).Ok? {
        MoveFrame(h.paths, src, Code);
        assert Basename(src) == n0;
        var next := h.(paths := Move(h.paths, src, Code).value);
        MoveAllStep(h, names);
        DistinctTail(names);
        CodeIsNotSource(n0, Code);
        MoveAllCarriesContents(next, names[1..]);
        var final := MoveAll(h, names);
        if final.outcome.Pass? {
          forall n, q | n in names && q in h.paths && IsPrefix(Source + [n], q)
            ensures Code + [n] + q[|Source + [n]|..] in final.host.paths
          {
            if n == n0 {
              var p := Code + [n0] + q[|src|..];
              assert p[0] == "code";
              MoveAllKeepsCode(next, names[1..], p);
            } else {
              assert n in names[1..] by { assert names == [n0] + names[1..]; }
              SourceTreesApart(n0, n, q);
            }
          }
        }
      }
    }
  }

  /** The copy stage carries the contents of the four entries into /code. */
  lemma CopyErpCarriesContents(h: Host)
    requires Exists(h.paths, Code)
    ensures CopyErp(h).outcome.Pass? ==>
      forall n, q | n in Relocated && q in h.paths && IsPrefix(Source + [n], q) ::
        Code + [n] + q[|Source + [n]|..] in CopyErp(h).host.paths
  {
    RelocatedDistinct();
    MoveAllCarriesContents(h, Relocated);
  }

  /**
   * When /code is still there once the pip commands have run, a completed install has carried
   * everything below the four entries of /erp/erp to the same place below /code.
   */
  lemma InstallCarriesContents(shell: Shell, u: Unit)
    requires VenvReady(SetupPaths(shell, u)) && Exists(CopyStartPaths(shell, u), Code)
    ensures Install(shell, u).outcome.Pass? ==>
      forall n, q | n in Relocated && q in CopyStartPaths(shell, u) && IsPrefix(Source + [n], q) ::
        Code + [n] + q[|Source + [n]|..] in Install(shell, u).unit.host.paths
  {
    InstallReachesCopy(shell, u);
    var setup := u.host.trace + Commands(u.host.cwd, SetupLines);
    var copyStart := Host(u.host.cwd, setup + Commands(Code, PipLines), CopyStartPaths(shell, u));
    CopyErpCarriesContents(copyStart);
  }

  /**
   * When a source is missing by the time install starts copying, install raises and
   * "Ready (installed)" is never written.
   */
  lemma InstallNeedsSources(shell: Shell, u: Unit, n: string)
    requires VenvReady(SetupPaths(shell, u))
    requires n in Relocated && !Exists(CopyStartPaths(shell, u), Source + [n])
    ensures Install(shell, u).outcome.Fail?
    ensures Maint("Ready (installed)") !in Install(shell, u).unit.published[|u.published|..]
  {
    InstallReachesCopy(shell, u);
    var setup := u.host.trace + Commands(u.host.cwd, SetupLines);
    var copyStart := Host(u.host.cwd, setup + Commands(Code, PipLines), CopyStartPaths(shell, u));
    CopyErpNeedsSources(copyStart, n);
    InstallStatusesAppended(u.published, Install(shell, u).unit.published, 5);
    ReadyIsLast();
  }

  /**
   * When /code/static already exists by the time install starts copying, `os.mkdir` raises and
   * "Ready (installed)" is never written.
   */
  lemma InstallNeedsNoStatic(shell: Shell, u: Unit)
    requires VenvReady(SetupPaths(shell, u)) && Exists(CopyStartPaths(shell, u), Static)
    ensures Install(shell, u).outcome.Fail?
    ensures Maint("Ready (installed)") !in Install(shell, u).unit.published[|u.published|..]
  {
    InstallReachesCopy(shell, u);
    var setup := u.host.trace + Commands(u.host.cwd, SetupLines);
    var copyStart := Host(u.host.cwd, setup + Commands(Code, PipLines), CopyStartPaths(shell, u));
    CopyErpNeedsNoStatic(copyStart);
    InstallStatusesAppended(u.published, Install(shell, u).unit.published, 5);
    ReadyIsLast();
  }

  /**
   * When the virtualenv can be entered and the copy stage finds its sources and none of its
   * targets, install completes at Maintenance "Ready (installed)" with everything in /code.
   */
  lemma InstallSucceeds(shell: Shell, u: Unit)
    requires VenvReady(SetupPaths(shell, u)) && CopyState(CopyStartPaths(shell, u), [], Relocated)
    ensures Install(shell, u).outcome == Pass
    ensures Install(shell, u).unit.status == Maint("Ready (installed)")
    ensures CopyDone(Install(shell, u).unit.host.paths, Relocated)
  {
    InstallReachesCopy(shell, u);
    var setup := u.host.trace + Commands(u.host.cwd, SetupLines);
    var copyStart := Host(u.host.cwd, setup + Commands(Code, PipLines), CopyStartPaths(shell, u));
    CopyErpSucceeds(copyStart);
  }

  /** "Ready (installed)" is the last install status and none of the first five. */
  lemma ReadyIsLast()
    ensures InstallStatuses[5] == Maint("Ready (installed)")
    ensures Maint("Ready (installed)") !in InstallStatuses[..5]
  {
    var lengths := [3, 22, 15, 15, 8];
    assert forall i | 0 <= i < 5 :: |InstallStatuses[i].message| == lengths[i];
  }

  /**
   * Exit statuses are never looked at: two shells that leave the same filesystems behind give
   * the same install.
   */
  lemma InstallIgnoresExitStatus(s1: Shell, s2: Shell, u: Unit)
    requires forall d, line, fs :: s1(d, line, fs).paths == s2(d, line, fs).paths
    ensures Install(s1, u) == Install(s2, u)
  {
    ShellEffectIgnoresExitStatus(s1, s2, u.host.cwd, SetupLines, u.host.paths);
    ShellEffectIgnoresExitStatus(s1, s2, Code, PipLines, SetupPaths(s1, u));
    InstallStages(s1, u);
    InstallStages(s2, u);
    InstallStatusOrder(s1, u);
    InstallStatusOrder(s2, u);
  }

  // ---------------------------------------------------------------------------------------
  // The other handlers
  // ---------------------------------------------------------------------------------------

  /**
   * Config-changed writes "Config changed", runs the two manage.py commands inside /code and ends
   * at "Ready (config changed)" when the virtualenv can be entered; otherwise it raises after the
   * first status and changes nothing else. The working directory is restored either way.
   */
  lemma ConfigChangedResult(shell: Shell, u: Unit)
    ensures var r := ConfigChanged(shell, u);
      && r.unit.host.cwd == u.host.cwd
      && (r.outcome.Pass? <==> VenvReady(u.host.paths))
      && (VenvReady(u.host.paths) ==>
            && r.unit.published == u.published + [Maint("Config changed"), Maint("Ready (config changed)")]
            && r.unit.status == Maint("Ready (config changed)")
            && r.unit.host.trace == u.host.trace + Commands(Code, ManageLines)
            && r.unit.host.paths == ShellEffect(shell, Code, ManageLines, u.host.paths))
      && (!VenvReady(u.host.paths) ==>
            && r.unit.published == u.published + [Maint("Config changed")]
            && r.unit.status == Maint("Config changed")
            && r.unit.host == u.host)
  {
    ShellBodyPair(MigrateLine, TouchLine);
    VirtualenvShell(shell, u.host, Code, ManageLines);
  }

  /** The prior status plays no part: config-changed ends the same way from any status. */
  lemma ConfigChangedForgetsStatus(shell: Shell, u: Unit, v: Unit)
    requires u.host == v.host
    ensures ConfigChanged(shell, u).outcome == ConfigChanged(shell, v).outcome
    ensures ConfigChanged(shell, u).unit.status == ConfigChanged(shell, v).unit.status
    ensures ConfigChanged(shell, u).unit.host == ConfigChanged(shell, v).unit.host
  {
  }

  /**
   * Running config-changed twice while the virtualenv stays in place gives the same final status
   * and outcome, and the second run issues just the two manage.py commands again: no move and no
   * directory creation is ever attempted.
   */
  lemma ConfigChangedTwice(shell: Shell, u: Unit)
    requires VenvReady(u.host.paths)
    requires VenvReady(ConfigChanged(shell, u).unit.host.paths)
    ensures var r1 := ConfigChanged(shell, u);
      var r2 := ConfigChanged(shell, r1.unit);
      && r2.outcome == r1.outcome == Pass
      && r2.unit.status == r1.unit.status
      && r2.unit.host.cwd == r1.unit.host.cwd
      && r2.unit.host.trace == r1.unit.host.trace + Commands(Code, ManageLines)
  {
    ConfigChangedResult(shell, u);
    ConfigChangedResult(shell, ConfigChanged(shell, u).unit);
  }

  /** Start writes Active "Start", never raises and leaves the process untouched. */
  lemma StartResult(u: Unit)
    ensures var r := Start(u);
      && r.outcome.Pass? && r.unit.host == u.host && r.unit.status == UnitStatus(Active, "Start")
      && r.unit.published == u.published + [r.unit.status]
  {
  }

  /**
   * Storage-attached writes an Active status naming the storage instance as name/index and its
   * location, never raises and leaves the process untouched.
   */
  lemma AttachedResult(u: Unit, name: string, index: nat, location: string)
    ensures var r := MediaStorageAttached(u, name, index, location);
      && r.outcome.Pass? && r.unit.host == u.host && r.unit.status.phase == Active
      && r.unit.published == u.published + [r.unit.status]
      && Contains(r.unit.status.message, name + "/" + NatToString(index))
      && Contains(r.unit.status.message, " at " + location + " bind mount.")
  {
  }

  /** Storage-detaching writes the same Active message whatever the state, and nothing else. */
  lemma DetachingResult(u: Unit)
    ensures var r := MediaStorageDetaching(u);
      && r.outcome.Pass? && r.unit.host == u.host
      && r.unit.status == UnitStatus(Active, CrossMarkButton + " Detached MEDIA storage.")
      && r.unit.published == u.published + [r.unit.status]
  {
  }

  // ---------------------------------------------------------------------------------------
  // The router applied to this charm's class dictionary
  // ---------------------------------------------------------------------------------------

  /**
   * `DjangoCodenerixCharm.__dict__`, in definition order (the decorated handlers are functions;
   * "_on_install" is written as the prefix followed by "install", and so on).
   */
  const ClassDictionary: seq<Entry> := [
    Entry("__module__", Other), Entry("__doc__", Other), Entry("URL", Other),
    Entry("__init__", Function),
    Entry(HandlerPrefix + "media_storage_attached", Function), Entry(HandlerPrefix + "install", Function),
    Entry(HandlerPrefix + "config_changed", Function), Entry(HandlerPrefix + "start", Function),
    Entry(HandlerPrefix + "media_storage_detaching", Function)]

  /** The events this charm handles. */
  const CharmEvents: set<string> :=
    {"media_storage_attached", "install", "config_changed", "start", "media_storage_detaching"}

  /** A function named the prefix followed by a non-empty event name is that event's handler. */
  lemma PrefixedHandler(event: string)
    requires event != ""
    ensures IsHandler(Entry(HandlerPrefix + event, Function))
    ensures EventName(HandlerPrefix + event) == event
  {
    assert (HandlerPrefix + event)[..|HandlerPrefix|] == HandlerPrefix;
    assert (HandlerPrefix + event)[|HandlerPrefix|..] == event;
  }

  /** Which dictionary entries the filter keeps, and the events they are named after. */
  lemma ClassDictionaryEntries()
    ensures var d := ClassDictionary;
      && |d| == 9
      && (forall i | 0 <= i < 4 :: !IsHandler(d[i]))
      && IsHandler(d[4]) && EventName(d[4].name) == "media_storage_attached"
      && IsHandler(d[5]) && EventName(d[5].name) == "install"
      && IsHandler(d[6]) && EventName(d[6].name) == "config_changed"
      && IsHandler(d[7]) && EventName(d[7].name) == "start"
      && IsHandler(d[8]) && EventName(d[8].name) == "media_storage_detaching"
  {
    var d := ClassDictionary;
    assert d[3].name[..4][1] != HandlerPrefix[1];
    PrefixedHandler("media_storage_attached");
    PrefixedHandler("install");
    PrefixedHandler("config_changed");
    PrefixedHandler("start");
    PrefixedHandler("media_storage_detaching");
  }

  lemma ClassDictionaryHandlers()
    ensures HandlerEvents(ClassDictionary) == CharmEvents
  {
    var d := ClassDictionary;
    ClassDictionaryEntries();
    forall x | x in HandlerEvents(d) ensures x in CharmEvents {
      var e :| e in d && IsHandler(e) && x == EventName(e.name);
      var i :| 0 <= i < |d| && d[i] == e;
    }
    assert d[4] in d && d[5] in d && d[6] in d && d[7] in d && d[8] in d;
  }

  /** The dictionary's names are distinct; here they even differ in length. */
  lemma ClassDictionaryDistinct()
    ensures DistinctNames(ClassDictionary)
  {
    var d := ClassDictionary;
    var lengths := [10, 7, 3, 8, 26, 11, 18, 9, 27];
    assert forall i | 0 <= i < 9 :: |d[i].name| == lengths[i];
  }

  /** Constructing the charm succeeds exactly when the framework knows all five events. */
  lemma CharmRouting(registry: set<string>)
    ensures Route(ClassDictionary, registry).Ok? <==> CharmEvents <= registry
  {
    ClassDictionaryHandlers();
    RouteSucceedsIff(ClassDictionary, registry, map[]);
  }

  /** The router's bindings for this dictionary, entry by entry. */
  lemma ClassDictionaryBindings(registry: set<string>)
    requires Route(ClassDictionary, registry).Ok?
    ensures var m := Route(ClassDictionary, registry).value;
      && m.Keys == HandlerEvents(ClassDictionary)
      && forall i | 0 <= i < |ClassDictionary| && IsHandler(ClassDictionary[i]) ::
           m[EventName(ClassDictionary[i].name)] == ClassDictionary[i].name
  {
    ClassDictionaryDistinct();
    RouteBindsHandlers(ClassDictionary, registry, map[]);
  }

  /** A successful construction binds each of the five events to its handler and nothing else. */
  lemma CharmBindings(registry: set<string>)
    requires CharmEvents <= registry
    ensures Route(ClassDictionary, registry).Ok?
    ensures var m := Route(ClassDictionary, registry).value;
      && m.Keys == CharmEvents
      && forall event | event in CharmEvents :: m[event] == HandlerPrefix + event
  {
    CharmRouting(registry);
    ClassDictionaryHandlers();
    ClassDictionaryBindings(registry);
    ClassDictionaryEntries();
  }

  /**
   * Without a "media" storage the framework has no storage events, and construction fails at
   * the first handler in the dictionary, the attached handler.
   */
  lemma CharmRoutingFailsFirst(registry: set<string>)
    requires "media_storage_attached" !in registry
    ensures Route(ClassDictionary, registry) == Err("media_storage_attached")
  {
    var d := ClassDictionary;
    ClassDictionaryEntries();
    ClassDictionaryHandlers();
    RouteSucceedsIff(d, registry, map[]);
    RouteFailsAtFirstUnknown(d, registry, map[]);
    var i :| 0 <= i < |d| && IsHandler(d[i]) && EventName(d[i].name) !in registry
      && Route(d, registry).error == EventName(d[i].name) && HandlerEvents(d[..i]) <= registry;
    assert i > 4 ==> d[4] in d[..i];
  }

  // ---------------------------------------------------------------------------------------
  // The charm object
  // ---------------------------------------------------------------------------------------

  /**
   * `DjangoCodenerixCharm`: the unit status it writes, the process state its handlers change,
   * and the observers its construction registered.
   */
  class DjangoCodenerixCharm {
    var status: UnitStatus
    var published: seq<UnitStatus>
    var cwd: Path
    var trace: seq<Issued>
    var paths: set<Path>
    const bindings: map<string, string>
    const shell: Shell

    function State(): Unit
      reads this
    {
      Unit(status, published, Host(cwd, trace, paths))
    }

    constructor (bindings: map<string, string>, shell: Shell, status: UnitStatus, cwd: Path, paths: set<Path>)
      ensures this.bindings == bindings && this.shell == shell
      ensures State() == Unit(status, [], Host(cwd, [], paths))
    {
      this.bindings := bindings;
      this.shell := shell;
      this.status := status;
      this.published := [];
      this.cwd := cwd;
      this.trace := [];
      this.paths := paths;
    }

    /**
     * Constructing the charm: the router walks the class dictionary and registers the observers;
     * an unknown event makes construction fail with that event's name.
     */
    static method Create(registry: set<string>, shell: Shell, status: UnitStatus, cwd: Path, paths: set<Path>)
      returns (r: Result<DjangoCodenerixCharm, string>)
      ensures Route(ClassDictionary, registry).Err? ==> r == Err(Route(ClassDictionary, registry).error)
      ensures Route(ClassDictionary, registry).Ok? ==>
        && r.Ok? && fresh(r.value)
        && r.value.bindings == Route(ClassDictionary, registry).value && r.value.shell == shell
        && r.value.State() == Unit(status, [], Host(cwd, [], paths))
    {
      var routed := ObserveHandlers(ClassDictionary, registry);
      if routed.Err? {
        return Err(routed.error);
      }
      var charm := new DjangoCodenerixCharm(routed.value, shell, status, cwd, paths);
      return Ok(charm);
    }

    /** `self.unit.status = s`. */
    method SetStatus(s: UnitStatus)
      modifies this
      ensures State() == Publish(old(State()), s)
    {
      status := s;
      published := published + [s];
    }

    /** `os.system(line)`: the command runs in the working directory; its exit status is returned. */
    method System(line: string) returns (exitStatus: int)
      modifies this
      ensures State() == RunCommand(shell, old(State()), line)
      ensures exitStatus == shell(old(cwd), line, old(paths)).exitStatus
    {
      var run := shell(cwd, line, paths);
      trace := trace + [Issued(cwd, line)];
      paths := run.paths;
      exitStatus := run.exitStatus;
    }

    /** `shutil.move(src, dst)`. */
    method MoveEntry(src: Path, dst: Path) returns (o: Outcome<FsError>)
      modifies this
      ensures State() == old(State()).(host := MoveIn(old(State()).host, src, dst).host)
      ensures o == MoveIn(old(State()).host, src, dst).outcome
    {
      var moved := Move(paths, src, dst);
      if moved.Ok? {
        paths := moved.value;
        o := Pass;
      } else {
        o := Fail(moved.error);
      }
    }

    /** `os.mkdir(p)`. */
    method MakeDirectory(p: Path) returns (o: Outcome<FsError>)
      modifies this
      ensures State() == old(State()).(host := MkdirIn(old(State()).host, p).host)
      ensures o == MkdirIn(old(State()).host, p).outcome
    {
      var made := MakeDir(paths, p);
      if made.Ok? {
        paths := made.value;
        o := Pass;
      } else {
        o := Fail(made.error);
      }
    }

    /** One statement: a shell command, a move, a directory creation or the activation read. */
    method Perform(a: Action) returns (o: Outcome<FsError>)
      modifies this
      ensures State() == old(State()).(host := Process.Perform(shell, old(State()).host, a).host)
      ensures o == Process.Perform(shell, old(State()).host, a).outcome
    {
      match a
      case Sh(line) =>
        var _ := System(line);
        o := Pass;
      case MoveTo(src, dst) =>
        o := MoveEntry(src, dst);
      case Mkdir(p) =>
        o := MakeDirectory(p);
      case Activate(script) =>
        o := if Exists(paths, script) then Pass else Fail(NotFound(script));
    }

    /**
     * `with cd(newdir): body`: change directory, run the body's statements until one raises,
     * and change back to the previous directory whether or not one did.
     */
    method Cd(newdir: Path, body: seq<Action>) returns (o: Outcome<FsError>)
      modifies this
      ensures State() == old(State()).(host := Process.Cd(shell, old(State()).host, newdir, body).host)
      ensures o == Process.Cd(shell, old(State()).host, newdir, body).outcome
      ensures cwd == old(cwd)
    {
      if !Exists(paths, newdir) {
        return Fail(NotFound(newdir));
      }
      var prevdir := cwd;
      cwd := newdir;
      ghost var start := Host(cwd, trace, paths);
      o := Pass;
      var i := 0;
      while i < |body| && o.Pass?
        invariant 0 <= i <= |body|
        invariant cwd == newdir && status == old(status) && published == old(published)
        invariant o.Pass? ==> RunAll(shell, start, body) == RunAll(shell, Host(cwd, trace, paths), body[i..])
        invariant o.Fail? ==> RunAll(shell, start, body) == Run(Host(cwd, trace, paths), o)
      {
        assert body[i..][0] == body[i] && body[i..][1..] == body[i + 1..];
        o := Perform(body[i]);
        i := i + 1;
      }
      cwd := prevdir;
    }

    /** `with virtualenv(path): body`. */
    method Virtualenv(path: Path, body: seq<Action>) returns (o: Outcome<FsError>)
      modifies this
      ensures State() == old(State()).(host := Process.Virtualenv(shell, old(State()).host, path, body).host)
      ensures o == Process.Virtualenv(shell, old(State()).host, path, body).outcome
    {
      o := Cd(path, [Activate(ActivateScript(path))] + body);
    }

    method OnInstall() returns (o: Outcome<FsError>)
      modifies this
      ensures State() == Install(shell, old(State())).unit
      ensures o == Install(shell, old(State())).outcome
    {
      SetStatus(Maint("Git"));
      var _ := System(GitLine);
      SetStatus(Maint("Clonning Codenerix ERP"));
      var _ := System(CloneLine);
      SetStatus(Maint("System packages"));
      var _ := System(PackagesLine);
      SetStatus(Maint("Python packages"));
      var _ := System(VenvLine);
      o := Virtualenv(Code, [Sh(PipUpgradeLine), Sh(PipRequirementsLine)]);
      if o.Fail? {
        return;
      }
      SetStatus(Maint("Copy ERP"));
      ghost var copyStart := State().host;
      o := MoveEntry(Source + ["start.sh"], Code);
      if o.Pass? {
        o := MoveEntry(Source + ["erp"], Code);
        if o.Pass? {
          o := MoveEntry(Source + ["manage.py"], Code);
          if o.Pass? {
            o := MoveEntry(Source + ["conf"], Code);
            if o.Pass? {
              o := MakeDirectory(Static);
            }
          }
        }
      }
      MoveAllRelocated(copyStart);
      if o.Fail? {
        return;
      }
      SetStatus(Maint("Ready (installed)"));
    }

    method OnConfigChanged() returns (o: Outcome<FsError>)
      modifies this
      ensures State() == ConfigChanged(shell, old(State())).unit
      ensures o == ConfigChanged(shell, old(State())).outcome
    {
      SetStatus(Maint("Config changed"));
      o := Virtualenv(Code, [Sh(MigrateLine), Sh(TouchLine)]);
      if o.Fail? {
        return;
      }
      SetStatus(Maint("Ready (config changed)"));
    }

    method OnStart()
      modifies this
      ensures State() == Start(old(State())).unit
    {
      SetStatus(UnitStatus(Active, "Start"));
    }

    method OnMediaStorageAttached(name: string, index: nat, location: string)
      modifies this
      ensures State() == MediaStorageAttached(old(State()), name, index, location).unit
    {
      SetStatus(UnitStatus(Active, AttachedMessage(name, index, location)));
    }

    method OnMediaStorageDetaching()
      modifies this
      ensures State() == MediaStorageDetaching(old(State())).unit
    {
      SetStatus(UnitStatus(Active, DetachedMessage));
    }
  }
}
