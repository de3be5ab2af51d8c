/** `createSub` (src/create-sub/index.js:257-297): download the template,
    run ten steps in a fixed order inside one `try`, remove the project
    directory when one of them throws, and run `npm i` only when all of
    them returned. The external commands (the clone, git, npm) are given
    as outcomes in `Externals`; the log is a sequence of events.

    `CreateSubSpec` states the run as a function of its inputs, and the
    method `CreateSub`, written as the source is, is proved to produce
    exactly that run. */
module CreateSub {
  import opened Strings
  import opened UserInput
  import opened Rewrites
  import opened Workspace

  /** The steps, in the order `createSub` runs them. */
  datatype Step =
    | InitGit | CloudtSubtree | StdShareSubtree | Title | DemoPage
    | DemoRoute | PrefixCls | PublicPath | PackageJson | Chart

  /** The step `createSub` runs in position `i`. */
  function StepAt(i: int): Step {
    match i
    case 0 => InitGit
    case 1 => CloudtSubtree
    case 2 => StdShareSubtree
    case 3 => Title
    case 4 => DemoPage
    case 5 => DemoRoute
    case 6 => PrefixCls
    case 7 => PublicPath
    case 8 => PackageJson
    case _ => Chart
  }

  function Steps(): seq<Step> {
    seq(10, i => StepAt(i))
  }

  /** Whether each external command succeeds: the template clone, the git
      commands of initGit, each `git subtree add`, and `npm i`. */
  datatype Externals = Externals(
    download: bool,
    initGit: bool,
    cloudtSubtree: bool,
    stdShareSubtree: bool,
    npmInstall: bool)

  /** How a step is logged: success, the "no need to add" message of a
      subtree step with an empty branch, or failure. */
  datatype Status = Succeeded | Skipped | Failed

  datatype Event =
    | DownloadLog(ok: bool)
    | StepLog(step: Step, status: Status)
    | CreatedLog
    | Cleared(path: string)
    | InstallLog(ok: bool)

  /** `path.resolve(cwd, projectName)` for a relative project name. */
  function ProjectRoot(cwd: string, projectName: string): string {
    cwd + "/" + projectName
  }

  /** tryExec (index.js:27-48): an action that returns makes tryExec
      return; an action that throws makes tryExec throw exactly when
      `isThrow` is set. Nothing the action wrote is undone. */
  function TryExec(action: Outcome, isThrow: bool): (r: Outcome)
    ensures r.tree == action.tree
    ensures action.Returned? ==> r.Returned?
    ensures action.Threw? ==> (r.Threw? <==> isThrow)
  {
    if action.Threw? && !isThrow then Returned(action.tree) else action
  }

  /** What a step does to the directory contents when it runs: `createSub`
      hands each step to `tryExec` as a function. */
  type StepAction = (Step, Tree) -> Outcome

  /** The concrete steps of `createSub` with the answers and the external
      outcomes filled in. */
  function Action(s: Step, cfg: Config, ext: Externals, t: Tree): Outcome {
    match s
    case InitGit => OutcomeOf(!ext.initGit, t)
    case CloudtSubtree => OutcomeOf(!ext.cloudtSubtree, t)
    case StdShareSubtree => OutcomeOf(!ext.stdShareSubtree, t)
    case Title => TitleAction(t, cfg.projectName)
    case DemoPage => DemoPageAction(t, cfg.projectName, cfg.domin, cfg.projectType)
    case DemoRoute => DemoRouteAction(t, cfg.domin, cfg.projectType)
    case PrefixCls => PrefixClsAction(t, cfg.prefixCls)
    case PublicPath => PublicPathAction(t, cfg.publicPath)
    case PackageJson => PackageJsonAction(t, cfg.projectName, cfg.devPort, cfg.cloudtBranch, cfg.stdShareBranch)
    case Chart => ChartAction(t, cfg.projectName)
  }

  function StepActions(cfg: Config, ext: Externals): StepAction {
    (s: Step, t: Tree) => Action(s, cfg, ext, t)
  }

  /** A subtree step whose branch answer is empty does nothing. */
  predicate IsSkipped(s: Step, cfg: Config) {
    (s == CloudtSubtree && cfg.cloudtBranch == "") || (s == StdShareSubtree && cfg.stdShareBranch == "")
  }

  datatype StepRun = StepRun(status: Status, tree: Tree)

  /** One step: the subtree steps log and rethrow by themselves, the others
      run through `tryExec` with `isThrow` set, which rethrows as well. */
  function RunStep(s: Step, cfg: Config, act: StepAction, t: Tree): (r: StepRun)
    ensures IsSkipped(s, cfg) ==> r == StepRun(Skipped, t)
    ensures !IsSkipped(s, cfg) ==> r.tree == act(s, t).tree && r.status != Skipped
    ensures !IsSkipped(s, cfg) ==> (r.status == Failed <==> act(s, t).Threw?)
  {
    if IsSkipped(s, cfg) then StepRun(Skipped, t)
    else
      var o := if s == CloudtSubtree || s == StdShareSubtree then act(s, t)
               else TryExec(act(s, t), true);
      StepRun(if o.Threw? then Failed else Succeeded, o.tree)
  }

  /** The events of a run of steps, whether one threw, and the contents left. */
  datatype StepsRun = StepsRun(events: seq<Event>, failed: bool, tree: Tree)

  /** Steps run one after another until one throws (the body of the `try`). */
  function RunSteps(steps: seq<Step>, cfg: Config, act: StepAction, t: Tree): StepsRun
    decreases |steps|
  {
    if steps == [] then StepsRun([], false, t)
    else
      var o := RunStep(steps[0], cfg, act, t);
      if o.status == Failed then StepsRun([StepLog(steps[0], Failed)], true, o.tree)
      else
        var rest := RunSteps(steps[1..], cfg, act, o.tree);
        StepsRun([StepLog(steps[0], o.status)] + rest.events, rest.failed, rest.tree)
  }

  /** The log of a run of steps names the steps that ran, in order; only the
      last may have failed, the run failed exactly when it did, and when
      none failed every step ran. */
  lemma {:induction false} RunStepsLog(steps: seq<Step>, cfg: Config, act: StepAction, t: Tree)
    ensures var r := RunSteps(steps, cfg, act, t);
            && |r.events| <= |steps|
            && (forall i :: 0 <= i < |r.events| ==> r.events[i].StepLog? && r.events[i].step == steps[i])
            && (forall i :: 0 <= i < |r.events| - 1 ==> r.events[i].StepLog? && r.events[i].status != Failed)
            && (r.failed <==> |r.events| > 0 && r.events[|r.events| - 1] == StepLog(steps[|r.events| - 1], Failed))
            && (!r.failed ==> |r.events| == |steps|)
    decreases |steps|
  {
    if steps != [] {
      var o := RunStep(steps[0], cfg, act, t);
      if o.status != Failed {
        RunStepsLog(steps[1..], cfg, act, o.tree);
        var rest := RunSteps(steps[1..], cfg, act, o.tree);
        var r := RunSteps(steps, cfg, act, t);
        assert r.events == [StepLog(steps[0], o.status)] + rest.events;
        assert forall i :: 0 < i < |r.events| ==> r.events[i] == rest.events[i - 1];
      }
    }
  }

  /** The whole of createSub after the answers are in. */
  datatype Run = Run(events: seq<Event>, after: Dir)

  /** createSub for any behaviour of the steps: the download, then the steps
      in the fixed order, then either the removal of the project directory
      or `npm i`, which runs through `tryExec` without rethrowing. */
  function Provision(cfg: Config, act: StepAction, download: bool, npmInstall: bool,
                     cwd: string, template: Tree, before: Dir): Run
  {
    if !download then Run([DownloadLog(false)], before)
    else
      var r := RunSteps(Steps(), cfg, act, template);
      if r.failed then
        Run([DownloadLog(true)] + r.events + [Cleared(ProjectRoot(cwd, cfg.projectName))], Absent)
      else
        var install := TryExec(OutcomeOf(!npmInstall, r.tree), false);
        Run([DownloadLog(true)] + r.events + [CreatedLog, InstallLog(npmInstall)], Present(install.tree))
  }

  function CreateSubSpec(cfg: Config, ext: Externals, cwd: string, template: Tree, before: Dir): Run {
    Provision(cfg, StepActions(cfg, ext), ext.download, ext.npmInstall, cwd, template, before)
  }

  // ---------------------------------------------------------------------
  // Properties of the run, for any behaviour of the steps

  function CountCleared(events: seq<Event>): nat
    decreases |events|
  {
    if events == [] then 0 else (if events[0].Cleared? then 1 else 0) + CountCleared(events[1..])
  }

  function CountInstalls(events: seq<Event>): nat
    decreases |events|
  {
    if events == [] then 0 else (if events[0].InstallLog? then 1 else 0) + CountInstalls(events[1..])
  }

  lemma {:induction false} CountsAppend(a: seq<Event>, b: seq<Event>)
    ensures CountCleared(a + b) == CountCleared(a) + CountCleared(b)
    ensures CountInstalls(a + b) == CountInstalls(a) + CountInstalls(b)
    decreases |a|
  {
    if a == [] {
      assert a + b == b;
    } else {
      assert (a + b)[1..] == a[1..] + b;
      CountsAppend(a[1..], b);
    }
  }

  /** A log made of step events holds no removal and no install. */
  lemma {:induction false} StepEventsCountNothing(events: seq<Event>)
    requires forall i :: 0 <= i < |events| ==> events[i].StepLog?
    ensures CountCleared(events) == 0 && CountInstalls(events) == 0
    decreases |events|
  {
    if events != [] {
      StepEventsCountNothing(events[1..]);
    }
  }

  /** Removals and installs of a log that is the download, step events and
      a tail are those of the tail. */
  lemma LogCounts(events: seq<Event>, tail: seq<Event>)
    requires forall i :: 0 <= i < |events| ==> events[i].StepLog?
    ensures CountCleared([DownloadLog(true)] + events + tail) == CountCleared(tail)
    ensures CountInstalls([DownloadLog(true)] + events + tail) == CountInstalls(tail)
  {
    StepEventsCountNothing(events);
    CountsAppend([DownloadLog(true)], events);
    CountsAppend([DownloadLog(true)] + events, tail);
  }

  /** A failed download runs no step, removes nothing, installs nothing and
      leaves whatever was at the project path as it was. */
  lemma FailedDownloadDoesNothing(cfg: Config, act: StepAction, npmInstall: bool,
                                  cwd: string, template: Tree, before: Dir)
    ensures Provision(cfg, act, false, npmInstall, cwd, template, before) == Run([DownloadLog(false)], before)
  {
  }

  /** After a successful download the project directory is removed exactly
      once, and as the last thing logged, when some step threw; `npm i` runs
      exactly once when no step threw, never otherwise, and its failure
      removes nothing: the fully provisioned directory stays. */
  lemma CleanupAndInstall(cfg: Config, act: StepAction, npmInstall: bool,
                          cwd: string, template: Tree, before: Dir)
    ensures var run := Provision(cfg, act, true, npmInstall, cwd, template, before);
            var r := RunSteps(Steps(), cfg, act, template);
            && CountCleared(run.events) == (if r.failed then 1 else 0)
            && CountInstalls(run.events) == (if r.failed then 0 else 1)
            && (r.failed ==>
                  run.events[|run.events| - 1] == Cleared(ProjectRoot(cwd, cfg.projectName)) && run.after == Absent)
            && (!r.failed ==> run.after == Present(r.tree))
  {
    var r := RunSteps(Steps(), cfg, act, template);
    RunStepsLog(Steps(), cfg, act, template);
    var run := Provision(cfg, act, true, npmInstall, cwd, template, before);
    if r.failed {
      var tail := [Cleared(ProjectRoot(cwd, cfg.projectName))];
      assert run.events == [DownloadLog(true)] + r.events + tail;
      LogCounts(r.events, tail);
      assert CountCleared(tail) == 1 && CountInstalls(tail) == 0 by {
        assert tail[1..] == [];
      }
    } else {
      var tail := [CreatedLog, InstallLog(npmInstall)];
      assert run.events == [DownloadLog(true)] + r.events + tail;
      LogCounts(r.events, tail);
      assert CountCleared(tail) == 0 && CountInstalls(tail) == 1 by {
        var last := [InstallLog(npmInstall)];
        assert last[1..] == [];
        assert CountCleared(last) == 0 && CountInstalls(last) == 1;
        assert tail[1..] == last;
      }
    }
  }

  /** The steps are logged in their fixed order right after the download;
      once a step has failed no later step runs. */
  lemma StepsInOrder(cfg: Config, act: StepAction, npmInstall: bool,
                     cwd: string, template: Tree, before: Dir)
    ensures var run := Provision(cfg, act, true, npmInstall, cwd, template, before);
            var n := |RunSteps(Steps(), cfg, act, template).events|;
            && 1 <= n <= |Steps()|
            && |run.events| >= n + 2
            && run.events[0] == DownloadLog(true)
            && (forall i :: 1 <= i <= n ==> run.events[i].StepLog? && run.events[i].step == Steps()[i - 1])
            && (forall i :: n < i < |run.events| ==> !run.events[i].StepLog?)
            && (forall i :: 1 <= i < n ==> run.events[i].StepLog? && run.events[i].status != Failed)
  {
    var r := RunSteps(Steps(), cfg, act, template);
    RunStepsLog(Steps(), cfg, act, template);
    var run := Provision(cfg, act, true, npmInstall, cwd, template, before);
    var n := |r.events|;
    var tail := if r.failed then [Cleared(ProjectRoot(cwd, cfg.projectName))]
                else [CreatedLog, InstallLog(npmInstall)];
    assert run.events == [DownloadLog(true)] + r.events + tail;
    assert forall i :: 1 <= i <= n ==> run.events[i] == r.events[i - 1];
    assert forall i :: n < i < |run.events| ==> run.events[i] == tail[i - n - 1];
  }

  /** Every logged subtree step whose branch answer is empty is logged as
      skipped. */
  predicate SkipsLogged(events: seq<Event>, cfg: Config) {
    forall i :: 0 <= i < |events| && events[i].StepLog? && IsSkipped(events[i].step, cfg) ==>
      events[i].status == Skipped
  }

  /** A subtree step with an empty branch is logged as skipped and never
      fails. */
  lemma {:induction false} EmptyBranchIsSkipped(steps: seq<Step>, cfg: Config, act: StepAction, t: Tree)
    ensures SkipsLogged(RunSteps(steps, cfg, act, t).events, cfg)
    decreases |steps|
  {
    if steps != [] {
      var o := RunStep(steps[0], cfg, act, t);
      var r := RunSteps(steps, cfg, act, t);
      if o.status != Failed {
        var rest := RunSteps(steps[1..], cfg, act, o.tree);
        EmptyBranchIsSkipped(steps[1..], cfg, act, o.tree);
        assert r.events == [StepLog(steps[0], o.status)] + rest.events;
        forall i | 0 <= i < |r.events| && r.events[i].StepLog? && IsSkipped(r.events[i].step, cfg)
          ensures r.events[i].status == Skipped
        {
          if i > 0 {
            assert r.events[i] == rest.events[i - 1];
          }
        }
      } else {
        assert r.events == [StepLog(steps[0], Failed)];
      }
    }
  }

  /** Runs whose steps behave alike and whose configurations agree on the
      branch answers are the same run. */
  lemma {:induction false} RunStepsAgree(steps: seq<Step>, cfg: Config, cfg': Config,
                                        act: StepAction, act': StepAction, t: Tree)
    requires cfg.cloudtBranch == cfg'.cloudtBranch && cfg.stdShareBranch == cfg'.stdShareBranch
    requires forall s, u :: act(s, u) == act'(s, u)
    ensures RunSteps(steps, cfg, act, t) == RunSteps(steps, cfg', act', t)
    decreases |steps|
  {
    if steps != [] {
      RunStepsAgree(steps[1..], cfg, cfg', act, act', RunStep(steps[0], cfg, act, t).tree);
    }
  }

  /** The `autoNpmInstall` answer is collected but never read: the run
      does not depend on it. */
  lemma AutoNpmInstallIgnored(cfg: Config, b: bool, ext: Externals, cwd: string, template: Tree, before: Dir)
    ensures CreateSubSpec(cfg.(autoNpmInstall := b), ext, cwd, template, before)
            == CreateSubSpec(cfg, ext, cwd, template, before)
  {
    var cfg' := cfg.(autoNpmInstall := b);
    forall s, u ensures StepActions(cfg', ext)(s, u) == StepActions(cfg, ext)(s, u) {
      assert Action(s, cfg', ext, u) == Action(s, cfg, ext, u);
    }
    RunStepsAgree(Steps(), cfg', cfg, StepActions(cfg', ext), StepActions(cfg, ext), template);
  }

  // ---------------------------------------------------------------------
  // The imperative driver

  function StatusOf(threw: bool): Status {
    if threw then Failed else Succeeded
  }

  function Then(prefix: seq<Event>, r: StepsRun): StepsRun {
    StepsRun(prefix + r.events, r.failed, r.tree)
  }

  /** How a run of steps moves on by its first step. */
  lemma Advance(pre: seq<Event>, steps: seq<Step>, cfg: Config, act: StepAction, t: Tree)
    requires steps != []
    ensures var o := RunStep(steps[0], cfg, act, t);
            Then(pre, RunSteps(steps, cfg, act, t)) ==
              if o.status == Failed then StepsRun(pre + [StepLog(steps[0], Failed)], true, o.tree)
              else Then(pre + [StepLog(steps[0], o.status)], RunSteps(steps[1..], cfg, act, o.tree))
  {
    var o := RunStep(steps[0], cfg, act, t);
    if o.status != Failed {
      var rest := RunSteps(steps[1..], cfg, act, o.tree);
      assert pre + ([StepLog(steps[0], o.status)] + rest.events) == pre + [StepLog(steps[0], o.status)] + rest.events;
    }
  }

  /** A step that is not skipped is logged by whether its action threw. */
  lemma RunStepIs(s: Step, cfg: Config, ext: Externals, t: Tree)
    requires !IsSkipped(s, cfg)
    ensures var o := Action(s, cfg, ext, t);
            RunStep(s, cfg, StepActions(cfg, ext), t) == StepRun(StatusOf(o.Threw?), o.tree)
  {
  }

  /** The handlers that write `index.html`'s title and the demo page and
      route files. */
  predicate IsPageStep(s: Step) {
    s == Title || s == DemoPage || s == DemoRoute
  }

  /** A page handler run on the project directory through `tryExec`;
      whether it threw, and the contents it left, are those of its action. */
  method RunPageHandler(dir: ProjectDir, s: Step, cfg: Config, ext: Externals) returns (threw: bool)
    requires IsPageStep(s)
    modifies dir
    ensures dir.present == old(dir.present)
    ensures OutcomeOf(threw, dir.Contents()) == Action(s, cfg, ext, old(dir.Contents()))
  {
    if s == Title {
      threw := dir.HandlePublicIndexHtmlTitle(cfg.projectName);
    } else if s == DemoPage {
      threw := dir.CreateDemoPage(cfg.projectName, cfg.domin, cfg.projectType);
    } else {
      threw := dir.CreateDemoRoute(cfg.domin, cfg.projectType);
    }
  }

  /** A configuration handler (prefix class, public path, `package.json`,
      chart) run on the project directory through `tryExec`. */
  method RunConfigHandler(dir: ProjectDir, s: Step, cfg: Config, ext: Externals) returns (threw: bool)
    requires s == PrefixCls || s == PublicPath || s == PackageJson || s == Chart
    modifies dir
    ensures dir.present == old(dir.present)
    ensures OutcomeOf(threw, dir.Contents()) == Action(s, cfg, ext, old(dir.Contents()))
  {
    if s == PrefixCls {
      threw := dir.HandleAntdPrefixCls(cfg.prefixCls);
    } else if s == PublicPath {
      threw := dir.HandlePublicPath(cfg.publicPath);
    } else if s == PackageJson {
      threw := dir.HandlePackageJson(cfg.projectName, cfg.devPort, cfg.cloudtBranch, cfg.stdShareBranch);
    } else {
      threw := dir.HandleChart(cfg.projectName);
    }
  }

  /** `initGit` or a `git subtree add` in the project directory: it throws
      exactly when its command fails, and changes no modelled file. */
  method RunGitStep(dir: ProjectDir, s: Step, cfg: Config, ext: Externals) returns (threw: bool)
    requires s == InitGit || s == CloudtSubtree || s == StdShareSubtree
    ensures OutcomeOf(threw, dir.Contents()) == Action(s, cfg, ext, dir.Contents())
  {
    if s == InitGit {
      threw := !ext.initGit;
    } else if s == CloudtSubtree {
      threw := !ext.cloudtSubtree;
    } else {
      threw := !ext.stdShareSubtree;
    }
  }

  /** The action of step `s` run on the project directory. */
  method RunAction(dir: ProjectDir, s: Step, cfg: Config, ext: Externals) returns (threw: bool)
    modifies dir
    ensures dir.present == old(dir.present)
    ensures OutcomeOf(threw, dir.Contents()) == Action(s, cfg, ext, old(dir.Contents()))
  {
    if s == InitGit || s == CloudtSubtree || s == StdShareSubtree {
      threw := RunGitStep(dir, s, cfg, ext);
    } else if IsPageStep(s) {
      threw := RunPageHandler(dir, s, cfg, ext);
    } else {
      threw := RunConfigHandler(dir, s, cfg, ext);
    }
  }

  /** One step of `createSub` on the project directory: a subtree step with
      an empty branch only logs, a git step succeeds or throws as its
      command does, a file step runs its handler; the step is logged as
      `RunStep` says. */
  method RunStepOn(dir: ProjectDir, s: Step, cfg: Config, ext: Externals) returns (status: Status)
    modifies dir
    ensures dir.present == old(dir.present)
    ensures RunStep(s, cfg, StepActions(cfg, ext), old(dir.Contents())) == StepRun(status, dir.Contents())
  {
    if IsSkipped(s, cfg) {
      return Skipped;
    }
    RunStepIs(s, cfg, ext, dir.Contents());
    var threw := RunAction(dir, s, cfg, ext);
    status := StatusOf(threw);
  }

  /** The log so far and the contents `t` are those of the run `whole` of
      all the steps after its first `k` steps succeeded. */
  ghost predicate Reached(whole: StepsRun, log: seq<Event>, k: nat, cfg: Config, ext: Externals, t: Tree)
    requires k <= |Steps()|
  {
    whole == Then(log, RunSteps(Steps()[k..], cfg, StepActions(cfg, ext), t))
  }

  /** The step in position `k` run and logged: the log and the directory
      move on exactly as the run `whole` of all the steps does. */
  method ExecStep(dir: ProjectDir, k: nat, cfg: Config, ext: Externals, log: seq<Event>, ghost whole: StepsRun)
    returns (log': seq<Event>, failed: bool)
    requires k < |Steps()|
    requires Reached(whole, log, k, cfg, ext, dir.Contents())
    modifies dir
    ensures dir.present == old(dir.present)
    ensures failed ==> whole == StepsRun(log', true, dir.Contents())
    ensures !failed ==> Reached(whole, log', k + 1, cfg, ext, dir.Contents())
  {
    ghost var steps := Steps()[k..];
    assert steps[0] == Steps()[k] && steps[1..] == Steps()[k + 1..];
    Advance(log, steps, cfg, StepActions(cfg, ext), dir.Contents());
    var s := Steps()[k];
    var status := RunStepOn(dir, s, cfg, ext);
    log' := log + [StepLog(s, status)];
    failed := status == Failed;
  }

  /** The `try` block of `createSub`: the steps in their fixed order until
      one throws. The log, whether a step threw, and the contents left are
      those of the run of all the steps. */
  method RunTry(dir: ProjectDir, cfg: Config, ext: Externals) returns (log: seq<Event>, failed: bool)
    modifies dir
    ensures dir.present == old(dir.present)
    ensures RunSteps(Steps(), cfg, StepActions(cfg, ext), old(dir.Contents())) == StepsRun(log, failed, dir.Contents())
  {
    ghost var whole := RunSteps(Steps(), cfg, StepActions(cfg, ext), dir.Contents());
    assert Steps()[0..] == Steps();
    log, failed := [], false;
    var k := 0;
    while k < |Steps()| && !failed
      invariant 0 <= k <= |Steps()|
      invariant dir.present == old(dir.present)
      invariant failed ==> whole == StepsRun(log, true, dir.Contents())
      invariant !failed ==> Reached(whole, log, k, cfg, ext, dir.Contents())
      decreases |Steps()| - k
    {
      log, failed := ExecStep(dir, k, cfg, ext, log, whole);
      k := k + 1;
    }
    if !failed {
      assert Steps()[k..] == [];
    }
  }

  /** Runs `createSub` with the answers already collected and the project
      directory `dir` at `cwd/projectName`; the log and the directory left
      are exactly those of `CreateSubSpec`. */
  method CreateSub(cfg: Config, ext: Externals, cwd: string, template: Tree, dir: ProjectDir)
    returns (events: seq<Event>)
    modifies dir
    ensures var run := CreateSubSpec(cfg, ext, cwd, template, old(dir.State()));
            events == run.events && dir.State() == run.after
  {
    var projectRootPath := ProjectRoot(cwd, cfg.projectName);
    var downloadSuccess := ext.download;
    if !downloadSuccess {
      events := [DownloadLog(false)];
      return;
    }
    dir.Fill(template);
    var log, failed := RunTry(dir, cfg, ext);
    if failed {
      dir.Clear();
      events := [DownloadLog(true)] + log + [Cleared(projectRootPath)];
    } else {
      var install := TryExec(OutcomeOf(!ext.npmInstall, dir.Contents()), false);
      events := [DownloadLog(true)] + log + [CreatedLog, InstallLog(ext.npmInstall)];
    }
  }
}
