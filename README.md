# GitHub Cloud Runner — session state machine and plan fallback, in Dafny

GitHub Cloud Runner is a single-page tool. It asks a generative-AI service how to
install, build and run a GitHub repository. It then plays back a scripted,
simulated run of that plan as log lines. Nothing is cloned, built or executed.

This project models the deterministic core of that tool:

- **`types.dfy`** (module `Types`, from `types.ts`): the `ExecutionPlan` and
  `AnalysisState` records and the fixed six-label `AnalysisSteps` table.
- **`gemini_service.dfy`** (module `GeminiService`, from
  `services/geminiService.ts`): the post-parse "npm start" fallback and the
  mapping of every failure to one fixed message. The AI request and the JSON
  parsing are not modelled. Their outcome, a parsed plan or an error, is the
  `reply` parameter of `AnalyzeRepository`.
- **`app.dfy`** (module `App`, from `App.tsx`): class `Session`. Its fields are
  `repoUrl` and `state`, an `AnalysisState` value, as in the component's two
  `useState` hooks. Each `setState` becomes one assignment to `state`, in the
  order the source issues them. The methods are the transitions: the URL field
  handler, `HandleAnalyze`, `ExecutePlan` with its `AddLog` helper, and `Reset`.
  The execution log of a completed run is specified by the function
  `ExecutionScript`. Lemmas about that function give the log's length, the
  position of every command and the run and port lines.
- **`text.dfy`** (module `Text`): the JavaScript string operations the core
  uses, over `seq<char>`: `includes`, `toLowerCase` and `split(' ')[0]`.
- **`wrappers.dfy`** (module `Wrappers`): `Option` (for the nullable fields)
  and `Result` (for a thrown error).

The main invariant is `App.ExecutionHasPlan`: a running or finished execution
always has a plan. The source keeps it only when an analysis is started from
the URL form (`App.tsx:168`). `handleAnalyze` copies `isExecuting` from the
previous record but clears the plan. So `HandleAnalyze` promises the invariant
only when it starts from the form, or from a record where execution is not
running.

Some facts about the source that the model keeps:

- After a successful analysis `currentStep` is `|AnalysisSteps|` (6), one
  past the last step index (`App.tsx:59`).
- The progress line uses the part of the command before the first `' '`
  (`App.tsx:99`). Tabs do not split it, and a command that starts with a space
  yields an empty token.
- The state record has no interaction transcript (`types.ts:13-22`).
- After an analysis a plan exists while the session is idle
  (`App.tsx:54-60`): the plan does not imply a running or finished execution.

## Model

| member | source | states |
|---|---|---|
| `Types.AnalysisStepsShape` | types.ts:24-31 | the step table holds exactly six labels, pairwise distinct and non-empty |
| `Text.Contains` | App.tsx:24 | `s.includes(sub)`, as used for the URL check and at services/geminiService.ts:71, 73 and 77: `sub` occurs at some index of `s`; an occurrence needs \|sub\| ≤ \|s\|, and any prefix of `s`, the empty string included, occurs in it |
| `Text.ToLowerAscii` | services/geminiService.ts:70 | `toLowerCase` character by character: same length, and no upper-case ASCII letter is left |
| `Text.LowerChar` | services/geminiService.ts:70 | an upper-case ASCII letter maps to its lower-case letter; every other character is unchanged |
| `Text.FirstToken` | App.tsx:99 | `cmd.split(' ')[0]` is a prefix of `cmd` with no space, followed by a space unless it is the whole string |
| `Text.FirstTokenUnique` | App.tsx:99 | these three properties determine the first token uniquely |
| `GeminiService.HasNodeLanguage` | services/geminiService.ts:69-70 | definition: some declared language, lower-cased, is one of javascript, typescript, node, nodejs |
| `GeminiService.HasNodeInstaller` | services/geminiService.ts:71 | definition: some install command contains npm, yarn or pnpm |
| `GeminiService.IsNodeLike` | services/geminiService.ts:69-71 | definition: the plan has a Node language or a Node installer |
| `GeminiService.HasStart` | services/geminiService.ts:73 | definition: some run command contains "npm start" |
| `GeminiService.HasDev` | services/geminiService.ts:77 | definition: some run command contains "dev" |
| `GeminiService.StartCommandMissing` | services/geminiService.ts:73-78 | definition: the nested conditions flattened into one: Node-like, no start command, a non-empty run list and a dev command |
| `GeminiService.ApplyStartFallback` | services/geminiService.ts:68-82 | only the run list can change; existing entries keep their order and place; the list grows by exactly one `"npm start"` at the end exactly when the plan is Node-like, has no start command, has a non-empty run list and has a dev command; otherwise the plan is returned unchanged |
| `GeminiService.AnalyzeRepository` | services/geminiService.ts:66-88 | a failed reply becomes an error with the fixed message "Failed to analyze repository. Please check the URL and try again."; a parsed plan goes through the fallback; there are no other outcomes |
| `GeminiService.FallbackFiresIff` | services/geminiService.ts:73-81 | the fallback changes the plan if and only if the flat trigger condition holds (both directions) |
| `GeminiService.EmptyRunListUnchanged` | services/geminiService.ts:75 | a plan with an empty run list is never changed |
| `GeminiService.FallbackEstablishesStart` | services/geminiService.ts:73-79 | after the fallback, some run command contains "npm start", or the plan came back unchanged |
| `GeminiService.FallbackIdempotent` | services/geminiService.ts:73-81 | applying the fallback twice equals applying it once |
| `GeminiService.TypeScriptDevExample` | services/geminiService.ts:69-81 | language `["TypeScript"]` with run list `["npm run dev"]` yields `["npm run dev", "npm start"]` |
| `GeminiService.StartAlreadyPresentExample` | services/geminiService.ts:73 | a run list `["npm start"]` is left as it is |
| `App.FormShown` | App.tsx:168 | definition: the URL form's render guard, no plan, not executing and not executed |
| `App.ExecutionHasPlan` | App.tsx:73-122 | definition: executing or executed implies a plan; `executePlan` returns at once without a plan (App.tsx:73), and the execution view at App.tsx:251 renders only when this holds |
| `App.Started` | App.tsx:29-37 | the record once a valid analysis starts: analyzing, not executed, no error, no plan, the one-line log naming the URL, step 0, everything else kept; it satisfies the plan invariant exactly when execution was not running |
| `App.RunCommand` | App.tsx:112 | `run_commands[0] \|\| 'npm start'`: never empty; the first run entry when it exists and is non-empty, "npm start" otherwise |
| `App.Port` | App.tsx:115 | `exposed_port \|\| '3000'`: never empty; the exposed port when non-empty, "3000" otherwise |
| `App.AfterInstall` | App.tsx:96-100 | definition: the log followed, command by command in list order, by `"> cmd"` and the progress line |
| `App.AfterBuild` | App.tsx:104-109 | definition: the log followed, command by command in list order, by `"> cmd"`, the optimizing line and the artifact line |
| `App.ExecutionScript` | App.tsx:78-116 | definition: the complete execution log, line by line in the order of the appends: provisioning, connect and clone lines, the install phase, "Installation finished.", the build phase, then the run, port and health-check lines |
| `App.AfterInstallLength` | App.tsx:96-100 | the install phase appends exactly two lines per install command |
| `App.AfterInstallKeeps` | App.tsx:96-100 | the install phase only appends: every earlier line stays in place |
| `App.AfterInstallAt` | App.tsx:96-100 | install command k is echoed as `"> cmd"` in list order, immediately followed by its progress line |
| `App.AfterBuildLength` | App.tsx:104-109 | the build phase appends exactly three lines per build command |
| `App.AfterBuildKeeps` | App.tsx:104-109 | the build phase only appends: every earlier line stays in place |
| `App.AfterBuildAt` | App.tsx:104-109 | build command k is echoed as `"> cmd"` in list order, followed by the optimizing line and the artifact line |
| `App.ExecutionScriptLength` | App.tsx:78-116 | a completed run logs exactly 9 + 2·\|install_commands\| + 3·\|build_commands\| lines |
| `App.ExecutionScriptHead` | App.tsx:78-93 | the log opens with the two provisioning lines, then the connect, clone (naming the URL) and cloned lines |
| `App.ExecutionScriptInstallAt` | App.tsx:96-100 | install command k is line 5 + 2k as `"> cmd"`; line 6 + 2k is the progress line naming the part of cmd before its first space |
| `App.ExecutionScriptBuildAt` | App.tsx:101-109 | "Installation finished." closes the install phase; build command k follows as `"> cmd"`, then the two fixed build lines |
| `App.ExecutionScriptTail` | App.tsx:111-116 | the last three lines: `"> " + run_commands[0]`, or `"> npm start"` when the list is empty or its first entry is ""; the port line with exposed_port, or 3000 when that is empty; the health-check line |
| `App.NpmBuildExample` | App.tsx:96-116 | install `["npm install"]`, build `["npm run build"]`, no run command and port 8080 give a 14-line log with the install, build, default run command and port lines at lines 5, 8, 11 and 12 |
| `App.InitialStateShowsForm` | App.tsx:11-20 | the initial record has the ready line as its only log line, an empty execution log and step -1; it shows the URL form and satisfies the plan invariant |
| `App.Session.constructor` | App.tsx:10-20 | a new session has an empty URL and the initial record |
| `App.Session.SetRepoUrl` | App.tsx:182 | the URL field handler replaces the URL and nothing else |
| `App.Session.PlayAnalysisSteps` | App.tsx:42-50 | step i, in index order, appends label i to the log and shows i as the current step; the last step's record is the final state |
| `App.Session.HandleAnalyze` | App.tsx:22-70 | a URL without "github.com" only sets the error message. Otherwise: the analysis starts with a one-line log naming the URL; the six step records follow. On success the plan is stored, the completion line ends a log of 8 lines, and the current step is 6. On failure all earlier lines are kept, exactly one "Error: msg" line is appended, the error is set, the plan stays null and the step is -1. Analysis and executed flags end false; the execution flag and execution log are untouched. The plan invariant is kept when starting from the form |
| `App.Session.AddLog` | App.tsx:81-86 | appends one line to the execution log and changes nothing else |
| `App.Session.RunInstallCommands` | App.tsx:95-100 | the execution log grows by the install phase of the given commands; nothing else changes |
| `App.Session.RunBuildCommands` | App.tsx:103-109 | the execution log grows by the build phase of the given commands; nothing else changes |
| `App.Session.ExecutePlan` | App.tsx:72-122 | without a plan, nothing changes. With a plan, the execution log becomes `ExecutionScript(url, plan)`, the session ends executed and not executing, and everything else is unchanged, including the plan. The plan invariant is kept |
| `App.Session.Reset` | App.tsx:128-140 | restores the initial record and clears the URL, whatever the prior state; the result does not depend on the prior state, so a second reset changes nothing |

## Left out

- The AI request is not modelled: prompt text, response schema, search tool, model name and API key (`services/geminiService.ts:8-64`). It is a network call. Its outcome is the `reply` parameter.
- `JSON.parse` is not modelled. A reply is either a complete plan or an error.
- A parsed object that lacks a field is not modelled separately; it counts as a failed reply. In the source, JavaScript's `||` and `&&` short-circuits decide whether a missing `install_commands` or `run_commands` is ever read. When it is not read, the plan is returned without that field. The service never reads `project_type`, `frameworks`, `build_commands`, `exposed_port` or `notes`, so a reply missing any of them is returned as a plan as well. A missing `build_commands` then throws at `App.tsx:104`, into the `catch` path of `executePlan` left out below.
- `Text.LowerChar`: lower-cases ASCII letters only. JavaScript's `toLowerCase` also maps non-ASCII letters.
- All `setTimeout` pauses and the async suspension points are left out. So are continuations that land after a reset. Only the order of the state updates is kept.
- The `catch` path of `executePlan` (`App.tsx:123-125`) is left out. It appends one critical-error line and leaves the flags unchanged. No step of the modelled run can fail.
- `App.Session.ExecutePlan`: states the record at the end of the run. It does not state the intermediate records rendered while the log grows. In every one of those records `isExecuting` is true and the plan is present.
- The `console.error` call in the service's error handler is left out.
- The UI guards are left out: the submit button is disabled while analyzing or with an empty URL, and the URL input is disabled while analyzing (`App.tsx:184`). The execute button appears only when there is a plan and the session is neither executing nor executed (`App.tsx:232`), and it is disabled while executing (`components/PlanDisplay.tsx:60`). "Terminate Runner" is disabled while executing (`App.tsx:260`). In the model `HandleAnalyze`, `SetRepoUrl`, `ExecutePlan` and `Reset` can all be called in any state.
- The progress-bar percentage is left out. It is floating-point presentation.
- All rendering is left out: the JSX in `App.tsx` and the components under `components/`, including clipboard writes, wall-clock timestamps and log colouring.
