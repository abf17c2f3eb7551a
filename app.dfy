/** The session component (App.tsx): one mutable AnalysisState record plus the
    repository URL field, and the transitions the UI drives: analyze, execute
    the plan, reset. Pacing delays are dropped; every `setState` becomes one
    assignment to `state`, in the order the source issues them. */
module App {
  import opened Wrappers
  import opened Types
  import opened Text
  import opened GeminiService

  const ReadyLine: string := "Ready to analyze repository. Paste a GitHub URL to begin."
  const InvalidUrlMessage: string := "Please enter a valid GitHub repository URL."
  const GithubHost: string := "github.com"
  const CompleteLine: string := "\U{2705} Analysis complete! Execution plan generated."

  /** The record a fresh session starts with, and that reset restores. */
  const InitialState: AnalysisState :=
    AnalysisState(false, false, false, None, None, [ReadyLine], [], -1)

  function StartLine(url: string): string { "Initiating analysis for " + url + "..." }

  function ErrorLine(msg: string): string { "Error: " + msg }

  /** The record once a valid analysis has started: analyzing, not executed,
      no error, no plan, the log restarted with one line naming the URL, and
      step 0 current. Everything else is kept. */
  function Started(s: AnalysisState, url: string): (r: AnalysisState)
    ensures ExecutionHasPlan(r) <==> !s.isExecuting
  {
    s.(isAnalyzing := true, isExecuted := false, error := None, plan := None,
       logs := [StartLine(url)], currentStep := 0)
  }

  /** The URL form is on screen: no plan, not executing, not executed. */
  predicate FormShown(s: AnalysisState) {
    s.plan.None? && !s.isExecuting && !s.isExecuted
  }

  /** A running or finished execution always has a plan to show. */
  predicate ExecutionHasPlan(s: AnalysisState) {
    (s.isExecuting || s.isExecuted) ==> s.plan.Some?
  }

  // ---------------------------------------------------------------------
  // The scripted execution log

  const ProvisionLines: seq<string> := ["Initializing runner environment...", "Provisioning cloud-vm-0x7F..."]
  const InstallDoneLine: string := "Installation finished."
  const OptimizeLine: string := "Optimizing assets for production..."
  const ArtifactLine: string := "Build artifact generated in /dist."
  const HealthLine: string := "Health check: OK (200)"
  const DefaultPort: string := "3000"

  const ConnectedLine: string := "Successfully connected to ephemeral host."
  const ClonedLine: string := "Repo cloned to /tmp/workspace."

  function CloningLine(url: string): string { "Cloning repository: " + url + "..." }

  function CommandLine(cmd: string): string { "> " + cmd }

  /** The progress line names the command's first space-delimited token. */
  function ProgressLine(cmd: string): string {
    "Progress: " + FirstToken(cmd) + " packages resolved and cached."
  }

  /** `log` followed by the install phase: each command echoed, then its
      progress line, in list order. */
  function AfterInstall(log: seq<string>, cmds: seq<string>): seq<string> {
    if cmds == [] then log
    else
      var last := cmds[|cmds| - 1];
      AfterInstall(log, cmds[..|cmds| - 1]) + [CommandLine(last)] + [ProgressLine(last)]
  }

  /** `log` followed by the build phase: each command echoed, then the two
      fixed build lines, in list order. */
  function AfterBuild(log: seq<string>, cmds: seq<string>): seq<string> {
    if cmds == [] then log
    else AfterBuild(log, cmds[..|cmds| - 1]) + [CommandLine(cmds[|cmds| - 1])] + [OptimizeLine] + [ArtifactLine]
  }

  /** `run_commands[0] || 'npm start'`: a missing or empty first entry falls back. */
  function RunCommand(plan: ExecutionPlan): (r: string)
    ensures r != ""
    ensures r == StartCommand || (|plan.runCommands| > 0 && r == plan.runCommands[0])
    ensures |plan.runCommands| > 0 && plan.runCommands[0] != "" ==> r == plan.runCommands[0]
    ensures (|plan.runCommands| == 0 || plan.runCommands[0] == "") ==> r == StartCommand
  {
    if |plan.runCommands| > 0 && plan.runCommands[0] != "" then plan.runCommands[0] else StartCommand
  }

  /** `exposed_port || '3000'`. */
  function Port(plan: ExecutionPlan): (r: string)
    ensures r != ""
    ensures r == DefaultPort || r == plan.exposedPort
    ensures plan.exposedPort != "" ==> r == plan.exposedPort
    ensures plan.exposedPort == "" ==> r == DefaultPort
  {
    if plan.exposedPort != "" then plan.exposedPort else DefaultPort
  }

  function PortLine(plan: ExecutionPlan): string {
    "Service started. Listening on port " + Port(plan)
  }

  /** The log once the host is provisioned and the repository cloned. */
  function ClonedLog(url: string): seq<string> {
    ProvisionLines + [ConnectedLine] + [CloningLine(url)] + [ClonedLine]
  }

  /** The log once the install phase has finished. */
  function InstalledLog(url: string, plan: ExecutionPlan): seq<string> {
    AfterInstall(ClonedLog(url), plan.installCommands) + [InstallDoneLine]
  }

  /** The whole execution log of a completed run of `plan` for `url`, line by
      line in the order the lines are appended. */
  function ExecutionScript(url: string, plan: ExecutionPlan): seq<string> {
    AfterBuild(InstalledLog(url, plan), plan.buildCommands)
      + [CommandLine(RunCommand(plan))] + [PortLine(plan)] + [HealthLine]
  }

  /** The install phase adds two lines per command. */
  lemma {:induction false} AfterInstallLength(log: seq<string>, cmds: seq<string>)
    ensures |AfterInstall(log, cmds)| == |log| + 2 * |cmds|
  {
    if cmds != [] {
      AfterInstallLength(log, cmds[..|cmds| - 1]);
    }
  }

  /** The install phase only appends: earlier lines stay where they were. */
  lemma {:induction false} AfterInstallKeeps(log: seq<string>, cmds: seq<string>, i: nat)
    requires i < |log|
    ensures |AfterInstall(log, cmds)| > i && AfterInstall(log, cmds)[i] == log[i]
  {
    if cmds != [] {
      AfterInstallKeeps(log, cmds[..|cmds| - 1], i);
    }
  }

  /** Install command k is echoed right after the first |log| + 2k lines and
      immediately followed by its progress line. */
  lemma {:induction false} AfterInstallAt(log: seq<string>, cmds: seq<string>, k: nat)
    requires k < |cmds|
    ensures |AfterInstall(log, cmds)| == |log| + 2 * |cmds|
    ensures AfterInstall(log, cmds)[|log| + 2 * k] == CommandLine(cmds[k])
    ensures AfterInstall(log, cmds)[|log| + 2 * k + 1] == ProgressLine(cmds[k])
  {
    var init := cmds[..|cmds| - 1];
    AfterInstallLength(log, cmds);
    AfterInstallLength(log, init);
    if k < |cmds| - 1 {
      AfterInstallAt(log, init, k);
      assert init[k] == cmds[k];
    }
  }

  /** The build phase adds three lines per command. */
  lemma {:induction false} AfterBuildLength(log: seq<string>, cmds: seq<string>)
    ensures |AfterBuild(log, cmds)| == |log| + 3 * |cmds|
  {
    if cmds != [] {
      AfterBuildLength(log, cmds[..|cmds| - 1]);
    }
  }

  /** The build phase only appends: earlier lines stay where they were. */
  lemma {:induction false} AfterBuildKeeps(log: seq<string>, cmds: seq<string>, i: nat)
    requires i < |log|
    ensures |AfterBuild(log, cmds)| > i && AfterBuild(log, cmds)[i] == log[i]
  {
    if cmds != [] {
      AfterBuildKeeps(log, cmds[..|cmds| - 1], i);
    }
  }

  /** Build command k is echoed right after the first |log| + 3k lines and
      followed by the two fixed build lines. */
  lemma {:induction false} AfterBuildAt(log: seq<string>, cmds: seq<string>, k: nat)
    requires k < |cmds|
    ensures |AfterBuild(log, cmds)| == |log| + 3 * |cmds|
    ensures AfterBuild(log, cmds)[|log| + 3 * k] == CommandLine(cmds[k])
    ensures AfterBuild(log, cmds)[|log| + 3 * k + 1] == OptimizeLine
    ensures AfterBuild(log, cmds)[|log| + 3 * k + 2] == ArtifactLine
  {
    var init := cmds[..|cmds| - 1];
    AfterBuildLength(log, cmds);
    AfterBuildLength(log, init);
    if k < |cmds| - 1 {
      AfterBuildAt(log, init, k);
      assert init[k] == cmds[k];
    }
  }

  /** A completed run logs 9 + 2*|install| + 3*|build| lines. */
  lemma ExecutionScriptLength(url: string, plan: ExecutionPlan)
    ensures |ExecutionScript(url, plan)| == 9 + 2 * |plan.installCommands| + 3 * |plan.buildCommands|
  {
    AfterInstallLength(ClonedLog(url), plan.installCommands);
    AfterBuildLength(InstalledLog(url, plan), plan.buildCommands);
  }

  /** Line i of the log before the build phase is line i of the whole script. */
  lemma InstalledLogKept(url: string, plan: ExecutionPlan, i: nat)
    requires i < |InstalledLog(url, plan)|
    ensures |ExecutionScript(url, plan)| > i
    ensures ExecutionScript(url, plan)[i] == InstalledLog(url, plan)[i]
  {
    AfterBuildKeeps(InstalledLog(url, plan), plan.buildCommands, i);
  }

  /** Install command k appears as "> cmd" at line 5 + 2k, immediately
      followed by the progress line naming its first token. */
  lemma ExecutionScriptInstallAt(url: string, plan: ExecutionPlan, k: nat)
    requires k < |plan.installCommands|
    ensures |ExecutionScript(url, plan)| > 6 + 2 * k
    ensures ExecutionScript(url, plan)[5 + 2 * k] == "> " + plan.installCommands[k]
    ensures ExecutionScript(url, plan)[6 + 2 * k]
         == "Progress: " + FirstToken(plan.installCommands[k]) + " packages resolved and cached."
  {
    AfterInstallAt(ClonedLog(url), plan.installCommands, k);
    InstalledLogKept(url, plan, 5 + 2 * k);
    InstalledLogKept(url, plan, 6 + 2 * k);
  }

  /** The install phase ends with "Installation finished."; then build
      command k appears as "> cmd", in list order, followed by the two fixed
      build lines. */
  lemma ExecutionScriptBuildAt(url: string, plan: ExecutionPlan, k: nat)
    requires k < |plan.buildCommands|
    ensures var at := 6 + 2 * |plan.installCommands| + 3 * k;
      && |ExecutionScript(url, plan)| > at + 2
      && ExecutionScript(url, plan)[5 + 2 * |plan.installCommands|] == "Installation finished."
      && ExecutionScript(url, plan)[at] == "> " + plan.buildCommands[k]
      && ExecutionScript(url, plan)[at + 1] == "Optimizing assets for production..."
      && ExecutionScript(url, plan)[at + 2] == "Build artifact generated in /dist."
  {
    var installed := InstalledLog(url, plan);
    var built := AfterBuild(installed, plan.buildCommands);
    var log := ExecutionScript(url, plan);
    assert |installed| == 6 + 2 * |plan.installCommands| by {
      AfterInstallLength(ClonedLog(url), plan.installCommands);
    }
    var at := |installed| + 3 * k;
    assert log[|installed| - 1] == InstallDoneLine by {
      InstalledLogKept(url, plan, |installed| - 1);
    }
    AfterBuildAt(installed, plan.buildCommands, k);
    assert log[at] == built[at] && log[at + 1] == built[at + 1] && log[at + 2] == built[at + 2];
  }

  /** The log opens with the two provisioning lines and the three
      connect/clone lines naming the URL. */
  lemma ExecutionScriptHead(url: string, plan: ExecutionPlan)
    ensures |ExecutionScript(url, plan)| >= 9
    ensures ExecutionScript(url, plan)[..5]
         == ["Initializing runner environment...", "Provisioning cloud-vm-0x7F...",
             "Successfully connected to ephemeral host.", "Cloning repository: " + url + "...",
             "Repo cloned to /tmp/workspace."]
  {
    ExecutionScriptLength(url, plan);
    forall i | 0 <= i < 5 ensures ExecutionScript(url, plan)[i] == ClonedLog(url)[i] {
      AfterInstallKeeps(ClonedLog(url), plan.installCommands, i);
      InstalledLogKept(url, plan, i);
    }
  }

  /** The last three lines: the run command (the first run entry, or
      "npm start" when the list is empty or its first entry is ""), the port
      line (exposed port, or 3000 when empty) and the health check. */
  lemma ExecutionScriptTail(url: string, plan: ExecutionPlan)
    ensures var log := ExecutionScript(url, plan);
      && |log| >= 9
      && log[|log| - 3] == "> " + (if plan.runCommands == [] || plan.runCommands[0] == "" then "npm start"
                                   else plan.runCommands[0])
      && log[|log| - 2] == "Service started. Listening on port "
                           + (if plan.exposedPort == "" then "3000" else plan.exposedPort)
      && log[|log| - 1] == "Health check: OK (200)"
  {
    ExecutionScriptLength(url, plan);
  }

  /** A plan installing with "npm install", building with "npm run build",
      with no run command and port 8080, logs 14 lines: the install command at
      line 5, the build command at line 8, the default run command at line 11
      and the port at line 12. */
  lemma NpmBuildExample(url: string, plan: ExecutionPlan)
    requires plan.installCommands == ["npm install"] && plan.buildCommands == ["npm run build"]
    requires plan.runCommands == [] && plan.exposedPort == "8080"
    ensures |ExecutionScript(url, plan)| == 14
    ensures ExecutionScript(url, plan)[5] == CommandLine("npm install")
    ensures ExecutionScript(url, plan)[8] == CommandLine("npm run build")
    ensures ExecutionScript(url, plan)[11] == CommandLine("npm start")
    ensures ExecutionScript(url, plan)[12] == PortLine(plan) == "Service started. Listening on port " + "8080"
  {
    var log := ExecutionScript(url, plan);
    assert |log| == 14 by { ExecutionScriptLength(url, plan); }
    assert log[5] == CommandLine(plan.installCommands[0]) by { ExecutionScriptInstallAt(url, plan, 0); }
    assert log[8] == CommandLine(plan.buildCommands[0]) by { ExecutionScriptBuildAt(url, plan, 0); }
  }

  /** The initial record shows the URL form and keeps the plan invariant. */
  lemma InitialStateShowsForm()
    ensures FormShown(InitialState) && ExecutionHasPlan(InitialState)
    ensures InitialState.logs == ["Ready to analyze repository. Paste a GitHub URL to begin."]
    ensures InitialState.executionLogs == [] && InitialState.currentStep == -1
  {
  }

  // ---------------------------------------------------------------------
  // The session

  class Session {
    var repoUrl: string
    var state: AnalysisState

    /** A fresh session: empty URL, the initial record. */
    constructor ()
      ensures repoUrl == "" && state == InitialState
    {
      repoUrl := "";
      state := InitialState;
    }

    /** The URL field's change handler. */
    method SetRepoUrl(url: string)
      modifies this
      ensures repoUrl == url && state == old(state)
    {
      repoUrl := url;
    }

    /** The scripted analysis steps: step i shows label i appended to the
        log and i as the current step. `shown` holds the record after each step. */
    method PlayAnalysisSteps() returns (ghost shown: seq<AnalysisState>)
      modifies this
      ensures repoUrl == old(repoUrl)
      ensures |shown| == |AnalysisSteps|
      ensures forall i :: 0 <= i < |shown| ==>
        shown[i] == old(state).(currentStep := i, logs := old(state.logs) + AnalysisSteps[..i + 1])
      ensures state == shown[|shown| - 1]
    {
      shown := [];
      for i := 0 to |AnalysisSteps|
        invariant repoUrl == old(repoUrl)
        invariant |shown| == i
        invariant forall j :: 0 <= j < |shown| ==>
          shown[j] == old(state).(currentStep := j, logs := old(state.logs) + AnalysisSteps[..j + 1])
        invariant state == if i == 0 then old(state) else shown[i - 1]
      {
        assert AnalysisSteps[..i + 1] == AnalysisSteps[..i] + [AnalysisSteps[i]];
        state := state.(currentStep := i, logs := state.logs + [AnalysisSteps[i]]);
        shown := shown + [state];
      }
    }

    /** Validates the URL, then runs the scripted analysis steps and stores
        the outcome of the plan request `reply` (its post-processing and error
        mapping included). `shown` holds the record the UI renders after
        each analysis step, one per step. */
    method HandleAnalyze(reply: Result<ExecutionPlan, string>) returns (ghost shown: seq<AnalysisState>)
      modifies this
      ensures repoUrl == old(repoUrl)
      // A URL without the host marker only sets the error.
      ensures !Contains(repoUrl, GithubHost) ==>
        state == old(state).(error := Some(InvalidUrlMessage)) && shown == []
      ensures Contains(repoUrl, GithubHost) ==>
        // after the started record, step i appends label i and shows step i
        && |shown| == |AnalysisSteps|
        && (forall i :: 0 <= i < |shown| ==>
              shown[i] == Started(old(state), repoUrl).(currentStep := i,
                                                        logs := [StartLine(repoUrl)] + AnalysisSteps[..i + 1]))
        // the final record
        && !state.isAnalyzing && !state.isExecuted
        && state.isExecuting == old(state.isExecuting)
        && state.executionLogs == old(state.executionLogs)
        && match AnalyzeRepository(reply)
           case Ok(plan) =>
             && state.plan == Some(plan) && state.error == None
             && state.logs == [StartLine(repoUrl)] + AnalysisSteps + [CompleteLine]
             && state.currentStep == |AnalysisSteps|
           case Err(msg) =>
             && state.plan == None && state.error == Some(msg)
             && state.logs == [StartLine(repoUrl)] + AnalysisSteps + [ErrorLine(msg)]
             && state.currentStep == -1
      // Starting from the form, the plan invariant holds afterwards.
      ensures old(FormShown(state)) ==> ExecutionHasPlan(state)
      ensures old(ExecutionHasPlan(state)) && !old(state.isExecuting) ==> ExecutionHasPlan(state)
    {
      if !Contains(repoUrl, GithubHost) {
        state := state.(error := Some(InvalidUrlMessage));
        shown := [];
        return;
      }

      state := Started(state, repoUrl);
      shown := PlayAnalysisSteps();
      assert AnalysisSteps[..|AnalysisSteps|] == AnalysisSteps;

      var outcome := AnalyzeRepository(reply);
      match outcome
      case Ok(plan) =>
        state := state.(isAnalyzing := false, plan := Some(plan), logs := state.logs + [CompleteLine],
                        currentStep := |AnalysisSteps|);
      case Err(msg) =>
        state := state.(isAnalyzing := false, error := Some(msg), logs := state.logs + [ErrorLine(msg)],
                        currentStep := -1);
    }

    /** Appends one line to the execution log. */
    method AddLog(line: string)
      modifies this
      ensures repoUrl == old(repoUrl)
      ensures state == old(state).(executionLogs := old(state.executionLogs) + [line])
    {
      state := state.(executionLogs := state.executionLogs + [line]);
    }

    /** The install phase: each command echoed, then its progress line. */
    method RunInstallCommands(install: seq<string>)
      modifies this
      ensures repoUrl == old(repoUrl)
      ensures state == old(state).(executionLogs := AfterInstall(old(state.executionLogs), install))
    {
      for i := 0 to |install|
        invariant repoUrl == old(repoUrl)
        invariant state == old(state).(executionLogs := AfterInstall(old(state.executionLogs), install[..i]))
      {
        var cmd := install[i];
        AddLog(CommandLine(cmd));
        AddLog(ProgressLine(cmd));
        assert install[..i + 1][..i] == install[..i];
      }
      assert install[..|install|] == install;
    }

    /** The build phase: each command echoed, then the two fixed build lines. */
    method RunBuildCommands(build: seq<string>)
      modifies this
      ensures repoUrl == old(repoUrl)
      ensures state == old(state).(executionLogs := AfterBuild(old(state.executionLogs), build))
    {
      for i := 0 to |build|
        invariant repoUrl == old(repoUrl)
        invariant state == old(state).(executionLogs := AfterBuild(old(state.executionLogs), build[..i]))
      {
        var cmd := build[i];
        AddLog(CommandLine(cmd));
        AddLog(OptimizeLine);
        AddLog(ArtifactLine);
        assert build[..i + 1][..i] == build[..i];
      }
      assert build[..|build|] == build;
    }

    /** Plays back the scripted execution of the current plan: without a plan
        nothing changes; otherwise the execution log becomes the script for the
        plan and the session ends executed, with everything else unchanged. */
    method ExecutePlan()
      modifies this
      ensures repoUrl == old(repoUrl)
      ensures old(state.plan).None? ==> state == old(state)
      ensures old(state.plan).Some? ==>
        state == old(state).(isExecuting := false, isExecuted := true,
                             executionLogs := ExecutionScript(repoUrl, old(state.plan).value))
      ensures old(ExecutionHasPlan(state)) ==> ExecutionHasPlan(state)
    {
      if state.plan.None? {
        return;
      }
      var plan := state.plan.value;

      state := state.(isExecuting := true, executionLogs := ProvisionLines);
      AddLog(ConnectedLine);
      AddLog(CloningLine(repoUrl));
      AddLog(ClonedLine);
      RunInstallCommands(plan.installCommands);
      AddLog(InstallDoneLine);
      RunBuildCommands(plan.buildCommands);
      AddLog(CommandLine(RunCommand(plan)));
      AddLog(PortLine(plan));
      AddLog(HealthLine);
      state := state.(isExecuting := false, isExecuted := true);
    }

    /** Restores the initial record and clears the URL field, whatever the
        prior state; so a second reset changes nothing. */
    method Reset()
      modifies this
      ensures repoUrl == "" && state == InitialState
      ensures FormShown(state) && ExecutionHasPlan(state)
    {
      repoUrl := "";
      state := InitialState;
    }
  }
}
