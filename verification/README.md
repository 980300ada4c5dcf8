# Dullahan: the AWS Lambda runner, test definitions and the reporting plugins

This project models, in Dafny, the core of Dullahan, a browser-test framework in TypeScript:

- **The AWS Lambda runner.**
  - The master selects test files from glob results. Include and exclude regular expressions filter them, and a test predicate must accept each one.
  - It then runs the selected files in rounds of remote attempts. A test is retried until a quorum of successful attempts is reached, the attempt ceiling is hit, or the quorum can no longer be reached.
  - A fail-fast stop signal ends the run early.
  - Each attempt invokes a slave through a doubly JSON-encoded envelope and replays the returned test-end call and function-end calls as client events.
  - The slave runs one test against a browser adapter. On failure it reports exactly one error, makes a best-effort screenshot and retries closing the browser up to three times.
- **`DullahanTest` and `isValidTest`.** An ordered structural validator over a dynamically typed record, and the constructor that normalises `disabled`.
- **The Slack plugin.**
  - `start` checks its options.
  - `processResults` shapes the results:
    - de-duplication to the last test-end call per test id, in order;
    - attaching each test's own function-end calls, with long results truncated;
    - report links and the BrowserStack link;
    - previews of failing tests;
    - the `when` send policy.
- **The GitHub plugin.**
  - Pass/fail counters kept in `onTestEnd`.
  - The commit status: its state and its `"<passed>/<total> tests have passed"` description.
  - The ordered option checks that throw a `DullahanError`.
  - The pull-request comment. It is identified by the text before its first `]` and updated rather than duplicated.
  - The review verdict.
  - What `processResults` sends.

Layout: one module per source file, with one extra module for the runner's specification.

- `common.dfy` (module `Common`): the call records, client events and stored artifacts shared by all parts, and the string helpers
- `test_definition.dfy` (module `TestDefinition`): `DullahanTest.ts`
- `runner_spec.dfy` (module `RunnerSpec`): the runner as values: selection, the quorum decision, one step, one round, the master loop, the envelope and the replay
- `runner.dfy` (module `RunnerAwsLambda`): the runner as it executes: a `Runner` class whose methods update `includeGlobs`, `hasStopSignal` and the emitted events in place, and a `Browser` adapter class. Each method is proved against the `RunnerSpec` functions
- `plugin_slack.dfy` (module `PluginSlack`): `DullahanPluginSlack.ts`; `dtecs.reverse()` works in place on an array
- `plugin_github.dfy` (module `PluginGithub`): `DullahanPluginGithub.ts`: a `GithubPlugin` class with the counters, `lastStatusCheck` and a log of the Octokit requests

### The runner

Time, the remote function, glob expansion, regular expressions, the test lookup and the test predicate are all parameters.

The master loop is specified by three functions:

- `Step`: one pool callback.
- `Round`: one batch, in order, with each task seeing the stop signal the tasks before it left.
- `Master`: rounds while the next pool is non-empty and no stop signal is up.

`Master` terminates by a budget measure: each task holds the attempts it has left, plus one. The methods of `Runner` are proved to produce exactly these results, and the lemmas prove the following about the functions:

- the quorum rule;
- the attempt ceiling;
- fail-fast;
- termination.

### The GitHub plugin's refresh condition

The status refresh in `onTestEnd` is modelled exactly as written: `enableStatusChecks && lastStatusCheck + 60000 > now`. `NoRefreshOnceWindowPassed` states what that implies: once a test ends a full window after the last status post, no later test end refreshes the status. A fresh plugin starts with its last check one window in the past.

### Notes on the code

- **The quorum short-circuit.** With `minSuccesses = 2`, `maxAttempts = 2` and a first attempt that fails, the code settles the task as failed right after that attempt. Reaching two successes would need two more attempts, and only one is left. See `RunnerSpec.QuorumScenarios`.
- **The shape of the pool.** The pool is declared as file names; see "## Findings".

## Model

| member | source | states |
|---|---|---|
| `Common.StartOf` | packages/dullahan-runner-aws-lambda/src/DullahanRunnerAwsLambda.ts:178 | the test-start call emitted for a returned result carries its test id, name and start time |
| `Common.IndexOf` | packages/dullahan-plugin-github/src/DullahanPluginGithub.ts:120 | `indexOf` for one character: -1 iff absent, otherwise the first position holding it |
| `TestDefinition.Failing` | packages/dullahan/src/DullahanTest.ts:28-35 | reference list of failing checks: a complaint is in it iff its check fails; it is no longer than the list of checks |
| `TestDefinition.IsValidTest` | packages/dullahan/src/DullahanTest.ts:27-41 | valid iff `name` is a string, `disabled` is undefined or boolean, `tags` is an array and `run` is a function; one error is logged iff invalid, none when valid |
| `TestDefinition.OnlyFirstFailureLogged` | packages/dullahan/src/DullahanTest.ts:28-35 | valid iff no check fails; an invalid candidate logs exactly the first failing check, in the order name, disabled, tags, run |
| `TestDefinition.NewDullahanTest` | packages/dullahan/src/DullahanTest.ts:14-24 | name, tags and run are copied unchanged; `disabled` is true iff it was given as true, so an absent one becomes false |
| `TestDefinition.AsTest` | packages/dullahan/src/DullahanTest.ts:20-23 | a validated record read as a test keeps name, tags and run; `disabled` is its truthiness: undefined gives false, a boolean is kept |
| `RunnerSpec.Search` | packages/dullahan-runner-aws-lambda/src/DullahanRunnerAwsLambda.ts:53-61 | a path is in the flattened search results iff the glob search of some root directory yields it; no roots give no results |
| `RunnerSpec.SearchKeepsOrder` | packages/dullahan-runner-aws-lambda/src/DullahanRunnerAwsLambda.ts:53-61 | the flattened results are each root's glob results concatenated in root order, duplicates kept |
| `RunnerSpec.RegexFilter` | packages/dullahan-runner-aws-lambda/src/DullahanRunnerAwsLambda.ts:62-64 | a path is kept iff it was found, some include regex matches it and no exclude regex does |
| `RunnerSpec.AcceptFilter` | packages/dullahan-runner-aws-lambda/src/DullahanRunnerAwsLambda.ts:65-70 | a path is kept iff it resolves to a test instance and the predicate accepts that test |
| `RunnerSpec.SelectedIff` | packages/dullahan-runner-aws-lambda/src/DullahanRunnerAwsLambda.ts:60-70 | a file is selected iff it was found, an include regex matches it, no exclude regex matches it, it resolves to an instance and the predicate accepts it |
| `RunnerSpec.SelectionKeepsOrder` | packages/dullahan-runner-aws-lambda/src/DullahanRunnerAwsLambda.ts:60-70 | selection distributes over concatenation, so survivors keep the order of the flattened glob results |
| `RunnerSpec.NoIncludeRegexSelectsNothing` | packages/dullahan-runner-aws-lambda/src/DullahanRunnerAwsLambda.ts:63 | with no include regex, nothing is selected |
| `RunnerSpec.InitialPool` | packages/dullahan-runner-aws-lambda/src/DullahanRunnerAwsLambda.ts:72 | the first pool has one task record per selected file, in order, each with no attempts |
| `RunnerSpec.Record` | packages/dullahan-runner-aws-lambda/src/DullahanRunnerAwsLambda.ts:87 | an attempt raises exactly one of the two counters by one (successes on success, failures otherwise) and keeps the file |
| `RunnerSpec.Decide` | packages/dullahan-runner-aws-lambda/src/DullahanRunnerAwsLambda.ts:89-100 | succeeded iff successes reach `minSuccesses`; retried iff below quorum, with attempts left and the quorum still reachable; failed for good in every other case |
| `RunnerSpec.QuorumScenarios` | packages/dullahan-runner-aws-lambda/src/DullahanRunnerAwsLambda.ts:87-100 | quorum 1 of 1 failing once settles failed after one attempt; 2 of 3 with fail, pass, pass retries twice and succeeds after three; 2 of 2 failing first settles failed after one |
| `RunnerSpec.EncodeEnvelope` | packages/dullahan-runner-aws-lambda/src/DullahanRunnerAwsLambda.ts:165-174 | decoding the envelope (parse, then parse the body) gives the slave options with `file` set to the task's file |
| `RunnerSpec.EnvelopeCarriesFile` | packages/dullahan-runner-aws-lambda/src/DullahanRunnerAwsLambda.ts:168-173 | the decoded body has the slave options' keys plus `file`; `file` names the task's file, overriding the options; every other option is unchanged |
| `RunnerSpec.FunctionStarts` | packages/dullahan-runner-aws-lambda/src/DullahanRunnerAwsLambda.ts:179 | one function-start event per call, in call order |
| `RunnerSpec.FunctionEnds` | packages/dullahan-runner-aws-lambda/src/DullahanRunnerAwsLambda.ts:180 | one function-end event per call, in call order |
| `RunnerSpec.Replay` | packages/dullahan-runner-aws-lambda/src/DullahanRunnerAwsLambda.ts:178-181 | a result is replayed as test start, every function start in order, every function end in order, then test end; it has 2n+2 events, and only the last is a test end |
| `RunnerSpec.AfterAttempt` | packages/dullahan-runner-aws-lambda/src/DullahanRunnerAwsLambda.ts:82-87 | the attempt adds one to the task's counts; it is a success iff the invocation resolved with no error on the test-end call, and a rejected invocation counts as a failure |
| `RunnerSpec.Step` | packages/dullahan-runner-aws-lambda/src/DullahanRunnerAwsLambda.ts:78-100 | with the stop signal up, the callback returns at once: no invocation, nothing emitted, nothing pushed or settled; otherwise the result is replayed, the task is pushed iff it is still retryable after its attempt and settled with its verdict otherwise, and the stop signal rises iff fail-fast is on and the task failed for good |
| `RunnerSpec.RoundRequeuesOnlyRetryable` | packages/dullahan-runner-aws-lambda/src/DullahanRunnerAwsLambda.ts:89-97 | every task a round pushes is below quorum and retryable, and has exactly one attempt more than its entry in the batch |
| `RunnerSpec.RoundRequeuesRetryable` | packages/dullahan-runner-aws-lambda/src/DullahanRunnerAwsLambda.ts:93-97 | a task the round reaches before the stop signal, and that is still retryable after its attempt, is in the next pool |
| `RunnerSpec.RoundSettlesTheRest` | packages/dullahan-runner-aws-lambda/src/DullahanRunnerAwsLambda.ts:89-100 | a task the round reaches before the stop signal, and that is no longer retryable after its attempt, is settled with its verdict |
| `RunnerSpec.RoundAccountsForBatch` | packages/dullahan-runner-aws-lambda/src/DullahanRunnerAwsLambda.ts:75-101 | a round that does not stop pushes or settles each task of its batch: the next pool and the settled tasks together are as many as the batch |
| `RunnerSpec.RoundAccountsForEveryTask` | packages/dullahan-runner-aws-lambda/src/DullahanRunnerAwsLambda.ts:77-101 | the three facts above together: no task reached before the stop signal is dropped |
| `RunnerSpec.RoundShrinksBudget` | packages/dullahan-runner-aws-lambda/src/DullahanRunnerAwsLambda.ts:74-102 | the next pool's remaining attempt budget is smaller than the batch's by at least the batch's length |
| `RunnerSpec.StoppedRoundIsInert` | packages/dullahan-runner-aws-lambda/src/DullahanRunnerAwsLambda.ts:78-80 | once the stop signal is up, a round invokes nothing, emits nothing, settles nothing and pushes nothing |
| `RunnerSpec.RoundStopsOnFailFast` | packages/dullahan-runner-aws-lambda/src/DullahanRunnerAwsLambda.ts:98-99 | the stop signal after a round is up iff it was up before, or fail-fast is on and a task of the round settled as failed |
| `RunnerSpec.FailFastSkipsRest` | packages/dullahan-runner-aws-lambda/src/DullahanRunnerAwsLambda.ts:77-101 | once the tasks before position i raise the stop signal, the rest of the batch adds nothing to the round |
| `RunnerSpec.RoundSettlesWell` | packages/dullahan-runner-aws-lambda/src/DullahanRunnerAwsLambda.ts:89-100 | from a pool of fresh or retryable tasks, every task a round settles is settled for good: quorum verdict, no retry left, attempt ceiling kept |
| `RunnerSpec.MasterEnds` | packages/dullahan-runner-aws-lambda/src/DullahanRunnerAwsLambda.ts:102 | the loop ends with an empty pool or with the stop signal up |
| `RunnerSpec.MasterSettlesWell` | packages/dullahan-runner-aws-lambda/src/DullahanRunnerAwsLambda.ts:74-102 | from a pool of fresh or retryable tasks, every task the whole loop settles is settled for good: quorum verdict, no retry left, never more than `maxAttempts` attempts when that is at least one |
| `RunnerSpec.MasterStoppedIsInert` | packages/dullahan-runner-aws-lambda/src/DullahanRunnerAwsLambda.ts:74-102 | with the stop signal up from the start, the loop invokes nothing, emits nothing, settles nothing and leaves an empty pool |
| `RunnerSpec.MasterStopsAfterStoppingRound` | packages/dullahan-runner-aws-lambda/src/DullahanRunnerAwsLambda.ts:102 | a round that raises the stop signal is the last one: the loop's events and settled tasks are that round's |
| `RunnerSpec.PoolCallbackAsWritten` | packages/dullahan-runner-aws-lambda/src/DullahanRunnerAwsLambda.ts:77-87 | the callback over either kind of pool item: on a task record it is exactly one step; it rejects iff the item is a file name and no stop signal is up |
| `RunnerSpec.FileNamePoolRejects` | packages/dullahan-runner-aws-lambda/src/DullahanRunnerAwsLambda.ts:72-87 | with the pool copied from the file names, the first callback that is not stopped rejects |
| `RunnerSpec.InitialPoolFirstAttempt` | packages/dullahan-runner-aws-lambda/src/DullahanRunnerAwsLambda.ts:72-93 | over the task records the first callback completes one attempt, and any task it settles has exactly one attempt |
| `RunnerAwsLambda.ErrorString` | packages/dullahan-runner-aws-lambda/src/DullahanRunnerAwsLambda.ts:141 | `String(error)` of an error: its name, `": "` and its message, or whichever of the two is not empty |
| `RunnerAwsLambda.AsDullahanError` | packages/dullahan-runner-aws-lambda/src/DullahanRunnerAwsLambda.ts:141 | the reported error is named DullahanError and its message is the cause read as a string: it ends with the cause's message, and equals it only when the cause has no name |
| `RunnerAwsLambda.SlaveFailure` | packages/dullahan-runner-aws-lambda/src/DullahanRunnerAwsLambda.ts:127-129 | no failure iff opening, running and closing all complete; otherwise the first of them that throws |
| `RunnerAwsLambda.TryScreenshot` | packages/dullahan-runner-aws-lambda/src/DullahanRunnerAwsLambda.ts:147-151 | exactly one screenshot attempt when the browser reports open, none otherwise |
| `RunnerAwsLambda.TryClose` | packages/dullahan-runner-aws-lambda/src/DullahanRunnerAwsLambda.ts:153-157 | at most three close attempts; none when the browser is closed; the browser stays open only after three attempts that all threw |
| `RunnerAwsLambda.Runner.constructor` | packages/dullahan-runner-aws-lambda/src/DullahanRunnerAwsLambda.ts:23 | a new runner has no stop signal and has emitted nothing |
| `RunnerAwsLambda.Runner.ProcessFile` | packages/dullahan-runner-aws-lambda/src/DullahanRunnerAwsLambda.ts:161-184 | invokes the slave with the envelope for the file; the events grow by the result's replay (nothing when the invocation rejects); success iff the test-end call has no error |
| `RunnerAwsLambda.Runner.EmitFunctionStarts` | packages/dullahan-runner-aws-lambda/src/DullahanRunnerAwsLambda.ts:179 | the events grow by one function start per call, in order |
| `RunnerAwsLambda.Runner.EmitFunctionEnds` | packages/dullahan-runner-aws-lambda/src/DullahanRunnerAwsLambda.ts:180 | the events grow by one function end per call, in order |
| `RunnerAwsLambda.Runner.RunTask` | packages/dullahan-runner-aws-lambda/src/DullahanRunnerAwsLambda.ts:77-101 | the pool callback: next pool, stop signal, events and settled tasks are exactly those of `Step`, so a rejected invocation counts as a failure (`AfterAttempt`) |
| `RunnerAwsLambda.Runner.RunRound` | packages/dullahan-runner-aws-lambda/src/DullahanRunnerAwsLambda.ts:75-101 | running every task of the spliced batch in order gives exactly `Round`: next pool, stop signal, events, settled tasks |
| `RunnerAwsLambda.Runner.StartMaster` | packages/dullahan-runner-aws-lambda/src/DullahanRunnerAwsLambda.ts:45-103 | empty include globs become `**/*`; the stop signal, events and settled tasks are those of `Master` over the initial pool of the selected files |
| `RunnerAwsLambda.Runner.StartSlave` | packages/dullahan-runner-aws-lambda/src/DullahanRunnerAwsLambda.ts:105-159 | no instance: nothing emitted, browser untouched; otherwise a test start, then one test end with no error or with the first failure as a DullahanError; on success no screenshot and exactly one close; when a closed browser fails to open, no screenshot and no close; after any failure, exactly one screenshot attempt iff the browser was open at the failure, and the browser is closed afterwards unless the last three close attempts all threw; at most one screenshot and four closes overall |
| `PluginSlack.StartError` | packages/dullahan-plugin-slack/src/DullahanPluginSlack.ts:25-36 | `start` completes iff webhook and channel are strings; the webhook is checked first, each with its message |
| `PluginSlack.ReverseInvolutive` | packages/dullahan-plugin-slack/src/DullahanPluginSlack.ts:42-62 | reversing twice gives the input back |
| `PluginSlack.FindIndex` | packages/dullahan-plugin-slack/src/DullahanPluginSlack.ts:44 | `findIndex` by test id: -1 iff no call has the id, otherwise the first position with it |
| `PluginSlack.DedupIsLastOccurrences` | packages/dullahan-plugin-slack/src/DullahanPluginSlack.ts:42-62 | reversing, keeping the first call per id and reversing back equals the reference: the calls with no later call of the same id, in input order |
| `PluginSlack.LastOccurrencesKeepsIds` | packages/dullahan-plugin-slack/src/DullahanPluginSlack.ts:44 | an id occurs among the survivors iff it occurs in the input |
| `PluginSlack.LastOccurrencesDistinct` | packages/dullahan-plugin-slack/src/DullahanPluginSlack.ts:44 | no two survivors share an id |
| `PluginSlack.LastOccurrencesInOrder` | packages/dullahan-plugin-slack/src/DullahanPluginSlack.ts:42-62 | each survivor is the input's last call with its id, and the survivors' positions in the input strictly increase |
| `PluginSlack.CallsOf` | packages/dullahan-plugin-slack/src/DullahanPluginSlack.ts:47-48 | a call is attached to a test iff it is in the input and has the test's id |
| `PluginSlack.CallsOfKeepsOrder` | packages/dullahan-plugin-slack/src/DullahanPluginSlack.ts:47-48 | attaching calls distributes over concatenation and keeps a single call iff it has the id, so the attached calls keep input order and multiplicity |
| `PluginSlack.Truncate` | packages/dullahan-plugin-slack/src/DullahanPluginSlack.ts:49-59 | a string result longer than 1024 becomes `<truncated>` with the rest of the call kept; every other call is unchanged |
| `PluginSlack.TestsAreLastCalls` | packages/dullahan-plugin-slack/src/DullahanPluginSlack.ts:42-62 | the tests are the last test-end call of every id, in input order, each with exactly its own calls in input order, truncated |
| `PluginSlack.TestResultsBounded` | packages/dullahan-plugin-slack/src/DullahanPluginSlack.ts:52-59 | no string result in the tests is longer than 1024 characters |
| `PluginSlack.UpToLineEnd` | packages/dullahan-plugin-slack/src/DullahanPluginSlack.ts:71 | what `.*` matches: the longest prefix with no line terminator, stopped by one |
| `PluginSlack.ReportLabelOfReportScope` | packages/dullahan-plugin-slack/src/DullahanPluginSlack.ts:71 | for a report scope the label is the text after `dullahan-plugin-report-`, up to a line terminator |
| `PluginSlack.ReportLink` | packages/dullahan-plugin-slack/src/DullahanPluginSlack.ts:71 | a report artifact's link has its first URL and that label |
| `PluginSlack.ReportLinks` | packages/dullahan-plugin-slack/src/DullahanPluginSlack.ts:69-71 | a link is produced iff some artifact's scope starts with the report prefix, its name contains `report` and it has a remote URL |
| `PluginSlack.ReportLinksKeepOrder` | packages/dullahan-plugin-slack/src/DullahanPluginSlack.ts:69-71 | the links follow the artifacts' order, one per report artifact, duplicates kept |
| `PluginSlack.BrowserstackUrl` | packages/dullahan-plugin-slack/src/DullahanPluginSlack.ts:73-75 | the BrowserStack URL of the first test that has a non-empty one; none iff no test has one |
| `PluginSlack.AllLinks` | packages/dullahan-plugin-slack/src/DullahanPluginSlack.ts:69-79 | the report links, then exactly one BrowserStack link when a URL was found |
| `PluginSlack.Accessory` | packages/dullahan-plugin-slack/src/DullahanPluginSlack.ts:96-103 | the first URL of the last call with non-empty remote URLs; none iff no call has one |
| `PluginSlack.PreviewOf` | packages/dullahan-plugin-slack/src/DullahanPluginSlack.ts:90-104 | a preview shows the test's name and error, with that accessory |
| `PluginSlack.SliceTo` | packages/dullahan-plugin-slack/src/DullahanPluginSlack.ts:90 | `slice(0, end)`: a prefix of length `min(end, n)`, or `max(n + end, 0)` for a negative end |
| `PluginSlack.Previews` | packages/dullahan-plugin-slack/src/DullahanPluginSlack.ts:90-104 | previews of the first failing tests in order, exactly as many as `slice(0, maxPreviews)` keeps: `min(maxPreviews, n)`, or `max(n + maxPreviews, 0)` when it is negative |
| `PluginSlack.FilterTests` | packages/dullahan-plugin-slack/src/DullahanPluginSlack.ts:64 | a test is failing iff it is a test and the failing-test predicate accepts it |
| `PluginSlack.FilterTestsKeepsOrder` | packages/dullahan-plugin-slack/src/DullahanPluginSlack.ts:64 | the filter distributes over concatenation and keeps a single test iff it is failing, so the failing tests keep input order and multiplicity |
| `PluginSlack.SendPolicyCases` | packages/dullahan-plugin-slack/src/DullahanPluginSlack.ts:127 | `always` sends; `success` sends iff nothing fails; exactly one of `success` and `failure` sends; any other value never does |
| `PluginSlack.ReverseInPlace` | packages/dullahan-plugin-slack/src/DullahanPluginSlack.ts:43 | the caller's array is reversed in place |
| `PluginSlack.ProcessResults` | packages/dullahan-plugin-slack/src/DullahanPluginSlack.ts:38-133 | leaves the caller's array reversed; sends a message with the previews and links of the de-duplicated tests iff the policy says so, nothing otherwise |
| `PluginGithub.StateOf` | packages/dullahan-plugin-github/src/DullahanPluginGithub.ts:89 | pending iff no URL; otherwise failure iff some test failed, success iff none did |
| `PluginGithub.DescriptionRoundTrip` | packages/dullahan-plugin-github/src/DullahanPluginGithub.ts:90 | the description reads back as exactly the passed count and the total of passed and failed |
| `PluginGithub.StatusError` | packages/dullahan-plugin-github/src/DullahanPluginGithub.ts:94-104 | `setStatus` throws iff owner, repository or commit is missing, naming the first missing one in that order |
| `PluginGithub.CommentError` | packages/dullahan-plugin-github/src/DullahanPluginGithub.ts:122-132 | `setComment` throws iff owner, repository or branch is missing, naming the first missing one in that order |
| `PluginGithub.ReviewError` | packages/dullahan-plugin-github/src/DullahanPluginGithub.ts:170-180 | `setReview` throws iff owner, repository or branch is missing, naming the first missing one in that order |
| `PluginGithub.Identifier` | packages/dullahan-plugin-github/src/DullahanPluginGithub.ts:120 | the identifier is a `]`-free prefix of the comment, ending right before its first `]`; empty when there is no `]` |
| `PluginGithub.EmptyIdentifierMatchesAny` | packages/dullahan-plugin-github/src/DullahanPluginGithub.ts:120 | without a `]` every existing comment body starts with the identifier |
| `PluginGithub.FindComment` | packages/dullahan-plugin-github/src/DullahanPluginGithub.ts:147 | none iff no comment body starts with the identifier; otherwise the id of the first one that does |
| `PluginGithub.ChooseCommentAction` | packages/dullahan-plugin-github/src/DullahanPluginGithub.ts:147-163 | a new comment is created iff no existing body starts with the identifier; otherwise the first comment whose body starts with it is updated |
| `PluginGithub.RepostUpdates` | packages/dullahan-plugin-github/src/DullahanPluginGithub.ts:117-163 | posting a report that is already on the pull request updates a comment instead of adding one |
| `PluginGithub.ReviewEventOf` | packages/dullahan-plugin-github/src/DullahanPluginGithub.ts:195 | changes are requested iff some test failed; approved iff none did |
| `PluginGithub.FindArtifact` | packages/dullahan-plugin-github/src/DullahanPluginGithub.ts:64-65 | none iff no artifact has the scope and name; otherwise the first artifact of the input with them |
| `PluginGithub.CommentBody` | packages/dullahan-plugin-github/src/DullahanPluginGithub.ts:67 | the markdown report's data when there is any, else the fixed text naming the missing report plugin |
| `PluginGithub.StatusUrl` | packages/dullahan-plugin-github/src/DullahanPluginGithub.ts:71 | the HTML report's first URL, and the markdown report's only when the HTML report has none |
| `PluginGithub.Tally` | packages/dullahan-plugin-github/src/DullahanPluginGithub.ts:47-51 | passed and failed counts add up to the number of test ends |
| `PluginGithub.TallyAppend` | packages/dullahan-plugin-github/src/DullahanPluginGithub.ts:42-58 | counts over two runs of test ends add up |
| `PluginGithub.LastCheckAfter` | packages/dullahan-plugin-github/src/DullahanPluginGithub.ts:53-55 | after a run of test ends the last check is the initial one or the time of one of them |
| `PluginGithub.NoRefreshOnceWindowPassed` | packages/dullahan-plugin-github/src/DullahanPluginGithub.ts:53 | on a non-decreasing clock, once a test ends a full window after the last post, no later test end refreshes and the last check stays put |
| `PluginGithub.Head` | packages/dullahan-plugin-github/src/DullahanPluginGithub.ts:137 | the pull-request head filter is `<owner>:<branch>`, preferring the commit owner over the repository owner |
| `PluginGithub.StatusRequest` | packages/dullahan-plugin-github/src/DullahanPluginGithub.ts:106-114 | the status carries owner, repository, commit, that state and description, the status name, and the report URL or else the configured status URL |
| `PluginGithub.CommentRequests` | packages/dullahan-plugin-github/src/DullahanPluginGithub.ts:134-163 | list pull requests by head, list comments, then update the matching comment or create one on the pull request, with the report as body |
| `PluginGithub.ReviewRequests` | packages/dullahan-plugin-github/src/DullahanPluginGithub.ts:182-196 | list pull requests by head, then one review on the pull request with the report as body, requesting changes iff some test failed |
| `PluginGithub.StatusOutcome` | packages/dullahan-plugin-github/src/DullahanPluginGithub.ts:85-115 | `setStatus` sends at most one request, and none iff it throws |
| `PluginGithub.ReviewOutcome` | packages/dullahan-plugin-github/src/DullahanPluginGithub.ts:166-197 | `setReview` sends nothing iff it throws |
| `PluginGithub.CommentOutcome` | packages/dullahan-plugin-github/src/DullahanPluginGithub.ts:117-164 | `setComment` sends nothing iff it throws |
| `PluginGithub.StepsOfContents` | packages/dullahan-plugin-github/src/DullahanPluginGithub.ts:70-80 | the awaited operations are exactly the enabled ones (at most three): status with the report URL, review and comment with the body |
| `PluginGithub.FirstStepError` | packages/dullahan-plugin-github/src/DullahanPluginGithub.ts:82 | `Promise.all` rejects iff some awaited operation throws |
| `PluginGithub.ResultsError` | packages/dullahan-plugin-github/src/DullahanPluginGithub.ts:68-82 | `processResults` fails iff an enabled operation is missing an option; a failing status wins, then a failing review, and a comment error is reported as the comment's |
| `PluginGithub.ResultsRequests` | packages/dullahan-plugin-github/src/DullahanPluginGithub.ts:68-82 | `processResults` sends the enabled status's, then the review's, then the comment's requests |
| `PluginGithub.GithubPlugin.constructor` | packages/dullahan-plugin-github/src/DullahanPluginGithub.ts:16-18 | counters start at zero and the last check one window before the current time |
| `PluginGithub.GithubPlugin.SetStatus` | packages/dullahan-plugin-github/src/DullahanPluginGithub.ts:85-115 | records the time first, then throws on a missing option or sends the status with the current counts; counters unchanged |
| `PluginGithub.GithubPlugin.Start` | packages/dullahan-plugin-github/src/DullahanPluginGithub.ts:34-40 | a pending status when status checks are enabled, nothing otherwise |
| `PluginGithub.GithubPlugin.OnTestEnd` | packages/dullahan-plugin-github/src/DullahanPluginGithub.ts:42-58 | exactly one counter rises by one, the failed one iff the call has an error; the status is refreshed iff the window condition holds; the call is returned unchanged iff the refresh did not reject, and nothing is returned otherwise |
| `PluginGithub.GithubPlugin.SetComment` | packages/dullahan-plugin-github/src/DullahanPluginGithub.ts:117-164 | throws on a missing option, or sends the comment requests; counters and last check unchanged |
| `PluginGithub.GithubPlugin.SetReview` | packages/dullahan-plugin-github/src/DullahanPluginGithub.ts:166-197 | throws on a missing option, or sends the review requests with the current failed count; counters and last check unchanged |
| `PluginGithub.GithubPlugin.AwaitAll` | packages/dullahan-plugin-github/src/DullahanPluginGithub.ts:82 | every step runs in order; the error is the first error among the steps; the requests are the steps' requests one after the other |
| `PluginGithub.GithubPlugin.ProcessResults` | packages/dullahan-plugin-github/src/DullahanPluginGithub.ts:60-83 | awaits the enabled steps; the last check moves iff status checks are enabled; the error and requests are those of the steps |

## Left out

- **Glob expansion and regular expressions.** `fast-glob` and `RegExp.test` are function parameters. Their matching rules are not modelled.
- **The Lambda invocation and JSON.**
  - `lambda.invoke` is a parameter that maps an envelope and an attempt number to a result, or to a rejection. Two pool tasks for the same file, such as a file found under two roots, therefore get the same result at the same attempt number, whereas real invocations are independent. No stated property depends on this.
  - `JSON.stringify` and `JSON.parse` are an abstract pair over a JSON datatype, so characters and escaping are not modelled.
  - The result is already unpacked. A payload that does not parse is a rejection. A result stands for the first element of the parsed array; the destructuring at line 176 ignores any later elements.
  - A first element without `calls` emits a test start at line 178 and then throws at line 179. That partial replay before the rejection is not modelled: a rejection emits nothing.
- **Pool concurrency.** `tiny-async-pool` and `maxConcurrency` are left out. A round runs its batch sequentially in pool order. Interleavings of concurrent callbacks, where a later task may start before an earlier one raises the stop signal, are not modelled.
- **Time.** `Date.now()` is a parameter: the slave's start and end times, and `now` in the GitHub plugin.
- **Logging.** `console.error` is left out, except for the validator's logged complaints.
- **Options.** No option is validated. `minSuccesses` and `maxAttempts` are arbitrary integers.
- **A rejecting test predicate.** It would abort `startMaster` through `Promise.all`. The model takes the predicate as a total function, so this path is not modelled.
- **RunnerAwsLambda.Runner.ProcessFile emits the three start fields.** `emitTestStart` receives the whole test-end call, extra fields included. The model emits the test-start call it implies (`StartOf`).
- RunnerAwsLambda.AsDullahanError: the `DullahanError` class is not part of this model. The model assumes that its constructor names the error `DullahanError` and hands its argument to `Error` as the message, so an error given as the argument becomes its string form (`ErrorString`). The stack is not modelled.
- **The slave's environment.**
  - Client emitters are assumed not to throw, so the catch block of `startSlave` is reached only through the browser adapter or the test body.
  - The adapter and `test.run` are scripted by outcomes fixed in advance.
  - `tryIgnore` is not part of this model. It is taken as "up to N attempts, failures swallowed, stop at the first that completes", and any delay between attempts is left out.
- **Function-result length.** It counts characters, not UTF-16 code units.
- **Network I/O for both plugins.**
  - The Octokit requests are recorded in a log instead of being sent, and the Slack webhook send is the method's result.
  - The open pull request and its comments are parameters of the GitHub methods.
  - A request that fails on the network is not modelled.
- **PluginGithub.GithubPlugin.AwaitAll runs steps sequentially.** It runs the awaited operations one after the other in promise order, so the log lists each operation's requests together. In the source the operations interleave at their awaits. The rejection chosen is the same, because every option check throws before the operation's first await.
- **The report URL.** The source types it as a `URL` and reads `.href`. The model treats it as the text of the URL. If a stored artifact holds plain strings, `.href` is undefined and the status falls back to the configured `statusUrl`; that case is not modelled.
- **The Slack message layout.** Lines 81-125 (blocks, the summary text and the attachments) are presentation and are left out. The message keeps the webhook, channel, previews and links.
- **Slack's test classifications.**
  - `isFailingTest` comes from a helper module that is not part of this model, so it is a predicate parameter.
  - `isUnstableTest`, `isSlowTest` and `isSuccessfulTest` only feed the summary text and are left out.
- **The GitLab plugin and the Selenium adapter options.** The first is an empty stub; the second holds only types and defaults.
- **The GitHub token and Octokit authentication.** Left out.

## Findings

| source | as written | input that shows it | evidently intended | confidence | as-written member | corrected member |
|---|---|---|---|---|---|---|
| packages/dullahan-runner-aws-lambda/src/DullahanRunnerAwsLambda.ts:72 | the pool is copied from `testFiles`, a list of file-name strings, but the pool callback reads `testData.file` and updates `testData.successes`/`testData.failures` (lines 82, 87); assigning a property of a string primitive throws a TypeError in module (strict) code, so the callback rejects and `startMaster` rejects with it | any selection with at least one file, with no stop signal up | the pool holds one task record `{file, successes: 0, failures: 0}` per selected file | not executed | `RunnerSpec.FileNamePoolRejects` | `RunnerSpec.InitialPool` |

In the as-written reading, the first callback also invokes the slave once with `file` undefined before it rejects. `RunnerSpec.PoolCallbackAsWritten` does not record that invocation. The rest of the model (`RunnerSpec.Master` and `RunnerAwsLambda.Runner.StartMaster`) uses the corrected pool. `RunnerSpec.InitialPoolFirstAttempt` shows that the first callback over it completes an attempt.
