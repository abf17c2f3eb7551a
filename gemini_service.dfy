/** The deterministic part of the plan request (services/geminiService.ts):
    the "npm start" fallback applied to the parsed plan, and the mapping of
    every failure to one fixed error message. The request itself and the
    JSON parsing are outside the model; their outcome is the `reply`
    parameter of AnalyzeRepository. */
module GeminiService {
  import opened Wrappers
  import opened Types
  import opened Text

  /** The message every failed analysis surfaces with. */
  const FailureMessage: string := "Failed to analyze repository. Please check the URL and try again."

  /** The command the fallback appends. */
  const StartCommand: string := "npm start"

  /** Language names (lower-cased) that mark a Node project. */
  const NodeLanguages: seq<string> := ["javascript", "typescript", "node", "nodejs"]

  /** Package-manager names whose presence in an install command marks a Node project. */
  const NodeInstallers: seq<string> := ["npm", "yarn", "pnpm"]

  /** A declared language, lower-cased, is one of the Node language names. */
  predicate HasNodeLanguage(plan: ExecutionPlan) {
    exists l | l in plan.language :: ToLowerAscii(l) in NodeLanguages
  }

  /** Some install command mentions npm, yarn or pnpm. */
  predicate HasNodeInstaller(plan: ExecutionPlan) {
    exists c | c in plan.installCommands :: Contains(c, "npm") || Contains(c, "yarn") || Contains(c, "pnpm")
  }

  /** The plan looks like a Node project. */
  predicate IsNodeLike(plan: ExecutionPlan) {
    HasNodeLanguage(plan) || HasNodeInstaller(plan)
  }

  /** Some run command already starts the app with "npm start". */
  predicate HasStart(runs: seq<string>) {
    exists c | c in runs :: Contains(c, StartCommand)
  }

  /** Some run command is a development-server command. */
  predicate HasDev(runs: seq<string>) {
    exists c | c in runs :: Contains(c, "dev")
  }

  /** The flat condition under which the fallback is meant to fire: a Node
      project whose non-empty run list has a dev command but no start command. */
  predicate StartCommandMissing(plan: ExecutionPlan) {
    IsNodeLike(plan) && !HasStart(plan.runCommands) && |plan.runCommands| > 0 && HasDev(plan.runCommands)
  }

  /** The post-parse fallback: possibly append "npm start" to the run list.
      Only the run list can change; its entries stay in place and in order; it
      grows by exactly one "npm start" at the end exactly when the flat
      condition StartCommandMissing holds. */
  function ApplyStartFallback(plan: ExecutionPlan): (r: ExecutionPlan)
    ensures r == plan.(runCommands := r.runCommands)
    ensures |plan.runCommands| <= |r.runCommands|
    ensures r.runCommands[..|plan.runCommands|] == plan.runCommands
    ensures StartCommandMissing(plan) ==> r.runCommands == plan.runCommands + [StartCommand]
    ensures !StartCommandMissing(plan) ==> r == plan
  {
    if IsNodeLike(plan) && !HasStart(plan.runCommands) then
      if |plan.runCommands| > 0 then
        var hasDev := HasDev(plan.runCommands);
        if hasDev then plan.(runCommands := plan.runCommands + [StartCommand]) else plan
      else plan
    else plan
  }

  /** The request outcome as the caller sees it: the error of a failed request,
      of unparsable JSON or of a missing field is replaced by FailureMessage;
      a parsed plan goes through the fallback. */
  function AnalyzeRepository(reply: Result<ExecutionPlan, string>): (r: Result<ExecutionPlan, string>)
    ensures r.Err? <==> reply.Err?
    ensures r.Err? ==> r.error == FailureMessage
    ensures r.Ok? ==> r.value == ApplyStartFallback(reply.value)
  {
    match reply
    case Ok(plan) => Ok(ApplyStartFallback(plan))
    case Err(_) => Err(FailureMessage)
  }

  /** The fallback changes the plan if and only if StartCommandMissing holds. */
  lemma FallbackFiresIff(plan: ExecutionPlan)
    ensures ApplyStartFallback(plan) != plan <==> StartCommandMissing(plan)
  {
  }

  /** An empty run list is never changed: with neither a dev nor a start
      command there is no fallback. */
  lemma EmptyRunListUnchanged(plan: ExecutionPlan)
    requires plan.runCommands == []
    ensures ApplyStartFallback(plan) == plan
  {
  }

  /** After the fallback a run command contains "npm start", or the plan was
      returned as it came. */
  lemma FallbackEstablishesStart(plan: ExecutionPlan)
    ensures HasStart(ApplyStartFallback(plan).runCommands) || ApplyStartFallback(plan) == plan
  {
    var r := ApplyStartFallback(plan);
    if StartCommandMissing(plan) {
      assert Contains(StartCommand, StartCommand);
      assert r.runCommands[|plan.runCommands|] == StartCommand;
    }
  }

  /** Applying the fallback twice gives the same plan as applying it once. */
  lemma FallbackIdempotent(plan: ExecutionPlan)
    ensures ApplyStartFallback(ApplyStartFallback(plan)) == ApplyStartFallback(plan)
  {
    var once := ApplyStartFallback(plan);
    if StartCommandMissing(plan) {
      FallbackEstablishesStart(plan);
      assert HasStart(once.runCommands);
      assert !StartCommandMissing(once);
    }
  }

  /** "TypeScript" lower-cases to one of the Node language names. */
  lemma LowerTypeScript()
    ensures ToLowerAscii("TypeScript") == "typescript"
  {
  }

  /** "npm run dev" is a dev command and does not contain "npm start". */
  lemma DevCommandFacts()
    ensures Contains("npm run dev", "dev") && !Contains("npm run dev", StartCommand)
  {
    var dev := "npm run dev";
    assert OccursAt(dev, "dev", 8);
    forall i | 0 <= i <= |dev| - |StartCommand| ensures !OccursAt(dev, StartCommand, i) {
      assert dev[i + 4] != StartCommand[4];
    }
  }

  /** A TypeScript project whose only run command is "npm run dev" gets
      "npm start" appended. */
  lemma TypeScriptDevExample(plan: ExecutionPlan)
    requires plan.language == ["TypeScript"] && plan.runCommands == ["npm run dev"]
    ensures ApplyStartFallback(plan).runCommands == ["npm run dev", "npm start"]
  {
    assert HasNodeLanguage(plan) by {
      LowerTypeScript();
      assert plan.language[0] == "TypeScript";
    }
    assert HasDev(plan.runCommands) && !HasStart(plan.runCommands) by {
      DevCommandFacts();
      assert plan.runCommands[0] == "npm run dev";
    }
    assert StartCommandMissing(plan);
  }

  /** A run list already holding "npm start" is left as it is. */
  lemma StartAlreadyPresentExample(plan: ExecutionPlan)
    requires plan.runCommands == ["npm start"]
    ensures ApplyStartFallback(plan) == plan
  {
    assert Contains(StartCommand, StartCommand);
    assert HasStart(plan.runCommands);
  }
}
