/** The data model of the runner: the inferred plan, the session state record
    and the fixed table of analysis step labels (types.ts). */
module Types {
  import opened Wrappers

  /** How to install, build, run and expose a repository, as inferred by the
      AI collaborator. Every list keeps the order in which it was given. */
  datatype ExecutionPlan = ExecutionPlan(
    projectType: string,
    language: seq<string>,
    frameworks: seq<string>,
    installCommands: seq<string>,
    buildCommands: seq<string>,
    runCommands: seq<string>,
    exposedPort: string,   // may be empty
    notes: string)

  /** The single session record. `error` and `plan` are nullable; the analysis
      log and the execution log are two separate line lists; `currentStep` is
      -1 when no analysis step is shown. */
  datatype AnalysisState = AnalysisState(
    isAnalyzing: bool,
    isExecuting: bool,
    isExecuted: bool,
    error: Option<string>,
    plan: Option<ExecutionPlan>,
    logs: seq<string>,
    executionLogs: seq<string>,
    currentStep: int)

  /** The scripted analysis step labels, shown in this order. */
  const AnalysisSteps: seq<string> := [
    "Connecting to GitHub API metadata...",
    "Analyzing repository structure...",
    "Detecting languages and frameworks...",
    "Inferring dependency management...",
    "Generating build and run strategies...",
    "Finalizing execution plan..."
  ]

  /** The table has exactly six labels, no two alike, none empty. */
  lemma AnalysisStepsShape()
    ensures |AnalysisSteps| == 6
    ensures forall i, j :: 0 <= i < j < |AnalysisSteps| ==> AnalysisSteps[i] != AnalysisSteps[j]
    ensures forall i :: 0 <= i < |AnalysisSteps| ==> AnalysisSteps[i] != ""
  {
  }
}
