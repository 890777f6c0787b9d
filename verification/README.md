# mastra-template-evaluator, modelled in Dafny

The template evaluator reviews a Mastra hackathon template in one workflow:

1. **Clone.** It creates a `Project` from the submission: name, repository URL or shorthand, YouTube video URL, description, and an environment map overlaid on the configured AI keys. It saves the project.
2. **Set up and extract claims.** Two steps start from the clone's DTO:
   - the set-up step clones and prepares the repository, moving the project from `setting-up` to `ready`;
   - the claims step fetches the video transcript, asks a language model for the template's claims, then for three chat test plans.
3. **Execute and score.** The plans run against the template's own agent server, one chat thread per plan, with a judge after every turn. The scorer rates the template, and the tester's results replace whatever the scorer said about tests.

Around this sit:
- the `Project` aggregate: status, port, repository URL, video-id extraction, DTO, `.env` text;
- the `Id` value object;
- the `Config` resolution of settings;
- the zod schemas of the three model outputs;
- two mock tools: a URL extractor and a web search.

The model is functional:
- JavaScript values are `Js.Value`;
- each zod schema is a decoder into a datatype plus a validity predicate, with a round-trip lemma;
- every outside service is a parameter:
  - the clock, `randomUUID` and `Math.random`;
  - the agent server's replies and the judge's verdicts, as streams indexed by call number;
  - the language model, the transcript service and `JSON.stringify`.

Modules:

| module | models |
|---|---|
| `Ids` | `Id`: JavaScript `trim`, construction, `value`, `toString`, `equals` |
| `Config` | the props → environment → error/default chain, `aiAPIKeys`, `NPM_PATH` |
| `Records` | `Record<string, string>` as ordered entries: object spread, `Object.entries`, the `.env` text |
| `VideoIds` | the two regular expressions of `getVideoId` (leftmost match, greedy capture), and the canonical URL |
| `Project` | `Port`, the statuses, the constructor, `toDTO`, `canonicalVideoURL`, the `.env` content |
| `AgentSelection` | `normalizeAgentName`, agent discovery and the choice of agent |
| `Tester` | reply normalisation, the per-plan step loop with its error recovery and final verdict, `testerOutputSchema` |
| `ClaimExtractor`, `PlanMaker`, `Scorer` | the three output schemas and what the prompts embed |
| `Workflow` | the four steps and the whole review |
| `UrlExtractor`, `WebSearch` | the two mock tools |
| `Js`, `Text`, `Wrappers` | JavaScript values and string built-ins, `Option`/`Result` |

## Model

All source paths are under `src/mastra/`.

| member | source | states |
|---|---|---|
| Ids.TrimStart | src/mastra/shared/value-objects/id.ts:4 | the result is a suffix of the input, only white space was removed, and it does not start with white space |
| Ids.TrimEnd | src/mastra/shared/value-objects/id.ts:4 | the result is a prefix of the input, only white space was removed, and it does not end with white space |
| Ids.Trim | src/mastra/shared/value-objects/id.ts:4 | `trim()` gives a trimmed string no longer than its input |
| Ids.TrimInfix | src/mastra/shared/value-objects/id.ts:4 | `trim()` keeps exactly the infix between the leading and the trailing white space |
| Ids.TrimOfTrimmed | src/mastra/shared/value-objects/id.ts:4 | `trim()` leaves a trimmed string unchanged |
| Ids.TrimIdempotent | src/mastra/shared/value-objects/id.ts:4 | trimming twice is trimming once |
| Ids.TrimIgnoresPadding | src/mastra/shared/value-objects/id.ts:4 | white space added on either side does not change the trimmed text |
| Ids.MakeId | src/mastra/shared/value-objects/id.ts:3-5 | an `Id` argument is copied unchanged; a string is stored trimmed, and kept as-is when already trimmed |
| Ids.MakeIdConstructed | src/mastra/shared/value-objects/id.ts:3-5 | every constructed `Id` stores trimmed text; a number is stored as its decimal text |
| Ids.NumberTextTrimmed | src/mastra/shared/value-objects/id.ts:4 | `String(n)` of an integer has no surrounding white space |
| Ids.Value | src/mastra/shared/value-objects/id.ts:10-12 | building an `Id` from its `value` gives back the same `Id` |
| Ids.ToString | src/mastra/shared/value-objects/id.ts:13-15 | `toString()` equals `value` |
| Ids.Equals | src/mastra/shared/value-objects/id.ts:7-9 | against an `Id`, `equals` is equality of the ids; against trimmed text, it is equality with `value` |
| Ids.RewrapIdempotent | src/mastra/shared/value-objects/id.ts:4 | re-wrapping an `Id`, or its `value`, gives the same `Id` |
| Ids.EqualsReflexive | src/mastra/shared/value-objects/id.ts:7-9 | an `Id` equals itself and its own `value` |
| Ids.EqualsIgnoresPadding | src/mastra/shared/value-objects/id.ts:7-9 | white space around the compared text does not change `equals` |
| Ids.EqualsSymmetric | src/mastra/shared/value-objects/id.ts:7-9 | `a.equals(b) == b.equals(a)` for two ids |
| Config.Present | src/mastra/domain/aggregates/config.ts:23-47 | a source provides a key exactly when it holds a non-empty string for it |
| Config.Pick | src/mastra/domain/aggregates/config.ts:23-47 | `props?.K \|\| process.env.K`: a non-empty props value wins, otherwise the environment's |
| Config.Require | src/mastra/domain/aggregates/config.ts:23-40 | a required key resolves as `Pick` does, or fails with `"<KEY> is not set"` |
| Config.Load | src/mastra/domain/aggregates/config.ts:22-60 | the five required keys take their picked values; `OPENAI_API_KEY` defaults to `""`; the Anthropic and Google keys come from the environment only; `ARCADE_API_KEY` may be absent |
| Config.LoadFailsOnFirstMissing | src/mastra/domain/aggregates/config.ts:23-59 | loading succeeds exactly when no required key is missing; otherwise the error names the first missing key in declaration order |
| Config.EnvOnlyKeysIgnoreProps | src/mastra/domain/aggregates/config.ts:43-45 | props values for `ANTHROPIC_API_KEY` and `GOOGLE_GENERATIVE_AI_API_KEY` change nothing |
| Config.EmptyPropCountsAsMissing | src/mastra/domain/aggregates/config.ts:23-47 | an empty props value behaves as an absent one |
| Config.AiApiKeys | src/mastra/domain/aggregates/config.ts:62-70 | `aiAPIKeys` has exactly the four AI keys, in order, with their resolved values |
| Records.Lookup | src/mastra/workflows/template-reviewer-workflow/index.ts:69-72 | a key is found exactly when it is one of the record's keys, with the value stored for it |
| Records.Assign | src/mastra/workflows/template-reviewer-workflow/index.ts:69-72 | assigning a key appends it when new, keeps the key order otherwise, and changes only that key's value |
| Records.Spread | src/mastra/workflows/template-reviewer-workflow/index.ts:69-72 | `{...base, ...over}` keeps `base`'s keys first, in order |
| Records.SpreadLookup | src/mastra/workflows/template-reviewer-workflow/index.ts:69-72 | after a spread, each key has `over`'s value when `over` has one, else `base`'s |
| Records.PutLookup | src/mastra/workflows/template-reviewer-workflow/index.ts:69-72 | setting a key changes the lookup of that key only |
| Records.PutDistinct | src/mastra/workflows/template-reviewer-workflow/index.ts:69-72 | setting a key keeps the keys distinct |
| Records.LookupFirst | src/mastra/workflows/template-reviewer-workflow/index.ts:69-72 | a lookup finds the first entry for its key, and a key occurs once in a record |
| Records.Render | src/mastra/domain/aggregates/project/index.ts:150-152 | the `.env` text of an empty map is `""`, and of one entry is `KEY=VALUE` |
| Records.RenderRoundTrip | src/mastra/domain/aggregates/project/index.ts:150-152 | the `.env` text reads back as the same entries, in order, when keys have no `=` or newline and values have no newline |
| Records.RenderNonEmpty | src/mastra/domain/aggregates/project/index.ts:150-152 | a non-empty map renders to non-empty text |
| VideoIds.Run | src/mastra/domain/aggregates/project/index.ts:101 | the greedy `[^&\n?#]+` run stays within the URL |
| VideoIds.RunStops | src/mastra/domain/aggregates/project/index.ts:101 | the run covers id characters only and cannot be extended |
| VideoIds.RunIs | src/mastra/domain/aggregates/project/index.ts:101 | a maximal block of `n` id characters is the run, of length `n` |
| VideoIds.AlternativeAt | src/mastra/domain/aggregates/project/index.ts:101 | an alternative of the first pattern can only match on a `y`, and stays within the URL |
| VideoIds.FirstMatch | src/mastra/domain/aggregates/project/index.ts:101 | a first-pattern match needs at least one id character after the alternative |
| VideoIds.SecondMatch | src/mastra/domain/aggregates/project/index.ts:102 | a second-pattern match needs at least one id character after its `v=` |
| VideoIds.RightmostKey | src/mastra/domain/aggregates/project/index.ts:102 | the greedy `.*` settles on a usable `v=` inside the searched range |
| VideoIds.LineEnd | src/mastra/domain/aggregates/project/index.ts:102 | `.` stops at the line end, which lies within the URL |
| VideoIds.RightmostKeyAt | src/mastra/domain/aggregates/project/index.ts:102 | the greedy `.*` backtracks to the last usable `v=` before the line end |
| VideoIds.LeftmostSpec | src/mastra/domain/aggregates/project/index.ts:105-110 | the search returns a match with no earlier one, and fails only when there is no match at all |
| VideoIds.LeftmostAt | src/mastra/domain/aggregates/project/index.ts:105-110 | the first position that matches is the one found |
| VideoIds.LeftmostNone | src/mastra/domain/aggregates/project/index.ts:105-110 | with no match anywhere, the search fails |
| VideoIds.GetVideoId | src/mastra/domain/aggregates/project/index.ts:96-113 | a returned id is a non-empty run of characters other than `&`, newline, `?` and `#`; failure is `"Unable to extract video ID"` |
| VideoIds.GetVideoIdFails | src/mastra/domain/aggregates/project/index.ts:105-112 | extraction fails exactly when neither pattern matches at any position |
| VideoIds.AlternativeOfPrefix | src/mastra/domain/aggregates/project/index.ts:101 | at most one alternative matches at a position, and the one present is the one taken |
| VideoIds.NoMatchOff | src/mastra/domain/aggregates/project/index.ts:101-102 | no match of either pattern starts on a character other than `y` |
| VideoIds.IdAfterPrefix | src/mastra/domain/aggregates/project/index.ts:96-110 | an id written after a recognised prefix, with no `y` before the prefix, is extracted whole |
| VideoIds.CaptureFirstAt | src/mastra/domain/aggregates/project/index.ts:101-108 | the run after the first recognised prefix is the id |
| VideoIds.FirstLeftmostAt | src/mastra/domain/aggregates/project/index.ts:101-108 | a recognised prefix with no `y` before it is the leftmost first-pattern match |
| VideoIds.NoAlternativeAtQuery | src/mastra/domain/aggregates/project/index.ts:101 | `youtube.com/watch?` not directly followed by `v=` starts no first-pattern alternative |
| VideoIds.IdAfterWatchQuery | src/mastra/domain/aggregates/project/index.ts:102-110 | when the first pattern finds nothing, the run after the rightmost usable `v=` of the watch URL's line is the id |
| VideoIds.SecondMatchAt | src/mastra/domain/aggregates/project/index.ts:102 | a watch URL with a usable `v=` on its line matches the second pattern there, capturing after the `v=` |
| VideoIds.WatchLeftmosts | src/mastra/domain/aggregates/project/index.ts:101-102 | such a watch URL has no first-pattern match, and its leftmost second-pattern match is that one |
| VideoIds.WatchCapture | src/mastra/domain/aggregates/project/index.ts:102-110 | such a watch URL yields the run after the `v=` as its id |
| VideoIds.CanonicalFor | src/mastra/domain/aggregates/project/index.ts:158-160 | the canonical URL starts with `https://www.youtube.com/watch?v=` |
| VideoIds.CanonicalRoundTrip | src/mastra/domain/aggregates/project/index.ts:158-160 | extracting from the canonical URL gives the id extracted from the original URL |
| Project.ParseStatus | src/mastra/domain/aggregates/project/index.ts:75-77 | a name is accepted exactly when it is one of the six statuses |
| Project.StatusRoundTrip | src/mastra/domain/aggregates/project/index.ts:23-30 | every status name reads back as its status |
| Project.PortNumber | src/mastra/domain/aggregates/project/index.ts:17-20 | a non-empty port string is kept verbatim; otherwise the port is a 4-digit decimal from 3000 to 9000 |
| Project.ResolveRepoURLAsWritten | src/mastra/domain/aggregates/project/index.ts:69-74 | an explicit `repoURL` and an `http` shorthand are kept verbatim |
| Project.ShorthandLostAsWritten | src/mastra/domain/aggregates/project/index.ts:74 | as written, every non-URL shorthand resolves to the same `https://github.com/[object Object]` |
| Project.ResolveRepoURL | src/mastra/domain/aggregates/project/index.ts:69-74 | as above, and any other shorthand follows `https://github.com/` verbatim |
| Project.ShorthandKept | src/mastra/domain/aggregates/project/index.ts:74 | two different shorthands resolve to different URLs |
| Project.StatusText | src/mastra/domain/aggregates/project/index.ts:67 | `props.status \|\| "initialized"` is never empty |
| Project.NewProject | src/mastra/domain/aggregates/project/index.ts:63-84 | construction fails exactly on an unknown status, with `"Invalid project status: <status>"`. Otherwise it copies name and video URL, resolves the port, resolves the repository URL with the corrected shorthand rule (see Findings), builds the id from `props.id \|\| randomUUID()`, and empties `envConfig` |
| Project.DefaultStatus | src/mastra/domain/aggregates/project/index.ts:67 | a missing or empty status constructs an `initialized` project |
| Project.DescriptionDefault | src/mastra/domain/aggregates/project/index.ts:81 | an empty description becomes `"No description provided"` |
| Project.NewProjectIgnoresEnv | src/mastra/domain/aggregates/project/index.ts:82 | the `envConfig` passed in does not affect the project |
| Project.ToDTO | src/mastra/domain/aggregates/project/index.ts:115-126 | the DTO carries the eight fields; its `videoId` is `getVideoId()`, so it fails exactly when extraction does |
| Project.ToDTOWithStatus | src/mastra/domain/aggregates/project/index.ts:115-126 | changing the status changes only the DTO's `status` |
| Project.CanonicalVideoURL | src/mastra/domain/aggregates/project/index.ts:158-160 | the canonical URL exists exactly when an id can be extracted, and yields the same id |
| Project.EnvFileText | src/mastra/domain/aggregates/project/index.ts:150-152 | an empty `envConfig` gives empty `.env` text |
| Project.EnvFileAlwaysEmpty | src/mastra/domain/aggregates/project/index.ts:82-152 | the `.env` text of every constructed project is empty |
| Project.FromDTO | src/mastra/domain/aggregates/project/index.ts:44-61 | a DTO passed to the factory names its `repoURL` and `status` |
| Project.NewProjectBuilt | src/mastra/domain/aggregates/project/index.ts:63-84 | a constructed project has a trimmed id, a port, a description and an empty environment |
| Project.NewProjectOf | src/mastra/domain/aggregates/project/index.ts:63-84 | properties that restate a built project construct that project again |
| Project.DTORoundTrip | src/mastra/domain/aggregates/project/index.ts:63-126 | for a project whose id is non-empty, constructing a project from its own DTO gives the project back, except for `agentToEvaluate`; a blank id such as `"  "` trims to empty and would draw a fresh UUID |
| AgentSelection.NormalizeAgentName | src/mastra/workflows/template-reviewer-workflow/tester.ts:23-25 | the result has only lower-case ASCII letters and is no longer than the input |
| AgentSelection.NormalizeFixesLowerLetters | src/mastra/workflows/template-reviewer-workflow/tester.ts:23-25 | a string of lower-case letters normalises to itself |
| AgentSelection.NormalizeIdempotent | src/mastra/workflows/template-reviewer-workflow/tester.ts:23-25 | normalising twice is normalising once |
| AgentSelection.NormalizeAppend | src/mastra/workflows/template-reviewer-workflow/tester.ts:23-25 | normalisation works character by character: it distributes over concatenation |
| AgentSelection.AgentName | src/mastra/workflows/template-reviewer-workflow/tester.ts:33 | an agent's name is `details.name`, or its id when the name is missing |
| AgentSelection.ToolsCount | src/mastra/workflows/template-reviewer-workflow/tester.ts:34-45 | an inline `details.tools` object or array is counted by its keys; otherwise the looked-up `tools` are counted by their keys, a falsy result counts 0, and a failed lookup counts 0 |
| AgentSelection.DiscoverAgents | src/mastra/workflows/template-reviewer-workflow/tester.ts:27-49 | one agent per entry, in order, with its id, name and tool count |
| AgentSelection.InlineToolsSkipLookup | src/mastra/workflows/template-reviewer-workflow/tester.ts:35-45 | an inline tool object or array decides the count, so the per-agent details request does not matter |
| AgentSelection.DiscoverAgentsAppend | src/mastra/workflows/template-reviewer-workflow/tester.ts:32-47 | each listed agent is handled on its own, so discovery of a listing is discovery of its parts, concatenated |
| AgentSelection.FirstMatch | src/mastra/workflows/template-reviewer-workflow/tester.ts:130-137 | the first agent whose normalised name or id equals the target, or none when no agent does |
| AgentSelection.MostTools | src/mastra/workflows/template-reviewer-workflow/tester.ts:142-144 | the `reduce` picks an agent with the most tools, the earliest among equals |
| AgentSelection.ChooseAgent | src/mastra/workflows/template-reviewer-workflow/tester.ts:127-149 | with no agents the choice is `"default"`; otherwise it is one of the agents' ids |
| AgentSelection.ChooseFirstMatch | src/mastra/workflows/template-reviewer-workflow/tester.ts:128-138 | a named main agent selects the first matching agent |
| AgentSelection.ChooseMostTools | src/mastra/workflows/template-reviewer-workflow/tester.ts:139-145 | without a usable match, the agent with the most tools is chosen, ties going to the earliest |
| Tester.TestResultsRoundTrip | src/mastra/workflows/template-reviewer-workflow/tester.ts:7-13 | every list of test results passes `testerOutputSchema` unchanged |
| Tester.ReplyText | src/mastra/workflows/template-reviewer-workflow/tester.ts:59-60 | a falsy reply gives `""` and a string reply is itself |
| Tester.TextFieldWins | src/mastra/workflows/template-reviewer-workflow/tester.ts:61 | a string `text` field is the reply |
| Tester.MessageThenContent | src/mastra/workflows/template-reviewer-workflow/tester.ts:62-63 | without `text`, a string `message` wins, then a string `content` |
| Tester.LastMessageContent | src/mastra/workflows/template-reviewer-workflow/tester.ts:64-67 | otherwise a truthy `content` of the last of `messages` is the reply, as `String` renders it: a string is itself, an object is `[object Object]` |
| Tester.UnknownShapeSerialised | src/mastra/workflows/template-reviewer-workflow/tester.ts:68 | any other object is serialised |
| Tester.Describe | src/mastra/workflows/template-reviewer-workflow/tester.ts:174 | an error is described by its `message` when that is non-empty, and by its string form otherwise |
| Tester.AssistantReply | src/mastra/workflows/template-reviewer-workflow/tester.ts:166-175 | a failed chat becomes `"Error talking to agent: <msg>"` |
| Tester.StepJustification | src/mastra/workflows/template-reviewer-workflow/tester.ts:189-197 | a failed judge call gives `"Evaluation error: <msg>"`, a verdict its justification |
| Tester.MaxIters | src/mastra/workflows/template-reviewer-workflow/tester.ts:160 | `Math.min(5, steps.length)` |
| Tester.Steps | src/mastra/workflows/template-reviewer-workflow/tester.ts:161-198 | the loop takes one chat and one judge call per turn, stops at the first `met`, and otherwise runs all turns; the justification is the last turn's |
| Tester.StepsReached | src/mastra/workflows/template-reviewer-workflow/tester.ts:161-198 | the loop's logs equal the reference transcript, history, chat calls and judge calls for the turns taken |
| Tester.StepsPassOver | src/mastra/workflows/template-reviewer-workflow/tester.ts:189-194 | every turn before the last was not met |
| Tester.RunPlan | src/mastra/workflows/template-reviewer-workflow/tester.ts:153-216 | the result carries the plan's id; at most `MaxIters` turns; one chat call per turn; at most one judge call beyond the turns |
| Tester.TranscriptAt | src/mastra/workflows/template-reviewer-workflow/tester.ts:177-181 | turn `k` is numbered `k+1` with the step's message and the assistant's reply |
| Tester.HistoryAt | src/mastra/workflows/template-reviewer-workflow/tester.ts:164-176 | each turn appends the user message, then the assistant message |
| Tester.HistoryPrefix | src/mastra/workflows/template-reviewer-workflow/tester.ts:164-176 | later turns only append to the message history |
| Tester.TranscriptPrefix | src/mastra/workflows/template-reviewer-workflow/tester.ts:177-181 | later turns only append to the transcript |
| Tester.ChatCallAt | src/mastra/workflows/template-reviewer-workflow/tester.ts:164-172 | the chat call of turn `k` sends the history so far plus the new user message, on the plan's thread |
| Tester.StepCheckAt | src/mastra/workflows/template-reviewer-workflow/tester.ts:184-188 | the judge of turn `k` sees the transcript up to and including turn `k` |
| Tester.RunPlanReached | src/mastra/workflows/template-reviewer-workflow/tester.ts:153-198 | a plan's logs are the reference logs for the number of turns it took |
| Tester.TurnReached | src/mastra/workflows/template-reviewer-workflow/tester.ts:161-198 | one turn of the loop extends the reference logs by exactly that turn |
| Tester.TurnShape | src/mastra/workflows/template-reviewer-workflow/tester.ts:164-188 | turn `k` of any log of `m` turns has its numbered transcript entry, its two history messages, and a chat call and a judge call on the prefixes up to it |
| Tester.LogsShaped | src/mastra/workflows/template-reviewer-workflow/tester.ts:153-198 | reference logs for the turns taken make a run well shaped |
| Tester.RunPlanShape | src/mastra/workflows/template-reviewer-workflow/tester.ts:160-181 | every turn of a run has the shape above: numbering, messages, chat calls and judge calls |
| Tester.FirstMet | src/mastra/workflows/template-reviewer-workflow/tester.ts:189-193 | the first turn whose verdict is met, or none |
| Tester.StepsStopAt | src/mastra/workflows/template-reviewer-workflow/tester.ts:161-198 | the loop runs up to the first met turn inclusive, else all `MaxIters` turns |
| Tester.EarlyExit | src/mastra/workflows/template-reviewer-workflow/tester.ts:189-201 | when turn `k` is the first met, the plan passes with that justification after exactly `k+1` chat and `k+1` judge calls |
| Tester.NoEarlyExit | src/mastra/workflows/template-reviewer-workflow/tester.ts:200-215 | when no turn is met, one final judge call on the full transcript decides the result |
| Tester.StepsNoneMet | src/mastra/workflows/template-reviewer-workflow/tester.ts:161-198 | when no turn is met, all turns run and the justification is the last turn's |
| Tester.AllStepChecksFail | src/mastra/workflows/template-reviewer-workflow/tester.ts:195-211 | when every judge call fails, the result fails with the last step's `"Evaluation error: …"`, not the final error |
| Tester.RepliesDoNotDecide | src/mastra/workflows/template-reviewer-workflow/tester.ts:161-215 | the verdicts alone decide how many turns run and what the result is; the agent's replies do not |
| Tester.SameEarlyExit | src/mastra/workflows/template-reviewer-workflow/tester.ts:189-193 | two runs with the same verdicts stop at the same met turn with the same result |
| Tester.SameFinalVerdict | src/mastra/workflows/template-reviewer-workflow/tester.ts:200-215 | two runs with the same verdicts and no met turn reach the same final result |
| Tester.RunPlans | src/mastra/workflows/template-reviewer-workflow/tester.ts:151-218 | one run per plan, in plan order, each with the plan's id |
| Tester.Results | src/mastra/workflows/template-reviewer-workflow/tester.ts:215 | the results are the runs' results in order |
| Tester.RunPlansAgainstAgent | src/mastra/workflows/template-reviewer-workflow/tester.ts:118-219 | the run rejects exactly when `client.getAgents()` rejects, with its error. Otherwise the client targets `http://localhost:<port>/`, uses the chosen agent, and returns one result per plan under its id |
| Tester.OneAgentPerReview | src/mastra/workflows/template-reviewer-workflow/tester.ts:159-172 | every chat call goes to the chosen agent, on the thread named after its plan |
| ClaimExtractor.ParseClaims | src/mastra/workflows/template-reviewer-workflow/claim-extractor.ts:83-107 | an output is accepted exactly when `claims` is an array of `{name, description}` strings, empty allowed |
| ClaimExtractor.ClaimsRoundTrip | src/mastra/workflows/template-reviewer-workflow/claim-extractor.ts:83-107 | every list of claims, duplicates included and with no word limits, passes the schema unchanged |
| ClaimExtractor.MainAgentDropped | src/mastra/workflows/template-reviewer-workflow/claim-extractor.ts:83-107 | a `mainAgent` in the model's output is ignored: the schema has no such field |
| ClaimExtractor.ClaimExtractorPrompt | src/mastra/workflows/template-reviewer-workflow/claim-extractor.ts:75-80 | the documentation appears verbatim before the transcript, which appears verbatim before the final newline |
| PlanMaker.ParseStep | src/mastra/workflows/template-reviewer-workflow/plan-maker.ts:96-102 | an accepted step has a non-empty message and a non-empty expected behaviour |
| PlanMaker.ParsePlan | src/mastra/workflows/template-reviewer-workflow/plan-maker.ts:87-111 | an accepted plan has a `plan-N` id, a 3-120 character title, at least one claim, two steps and one criterion |
| PlanMaker.ParseOutput | src/mastra/workflows/template-reviewer-workflow/plan-maker.ts:84-115 | an accepted output has exactly three valid plans |
| PlanMaker.StepRoundTrip | src/mastra/workflows/template-reviewer-workflow/plan-maker.ts:96-102 | a step passes exactly when it is valid |
| PlanMaker.ResourceRoundTrip | src/mastra/workflows/template-reviewer-workflow/plan-maker.ts:110 | every `{name, url \| null}` resource passes unchanged |
| PlanMaker.StepsRoundTrip | src/mastra/workflows/template-reviewer-workflow/plan-maker.ts:94-105 | a list of steps passes exactly when every step is valid |
| PlanMaker.ResourcesRoundTrip | src/mastra/workflows/template-reviewer-workflow/plan-maker.ts:110 | every list of resources passes unchanged |
| PlanMaker.PlanRoundTrip | src/mastra/workflows/template-reviewer-workflow/plan-maker.ts:87-111 | a plan passes exactly when it is valid |
| PlanMaker.PlansRoundTrip | src/mastra/workflows/template-reviewer-workflow/plan-maker.ts:85-112 | a list of plans passes exactly when every plan is valid |
| PlanMaker.PlanRejected | src/mastra/workflows/template-reviewer-workflow/plan-maker.ts:85-112 | one invalid plan rejects the whole list |
| PlanMaker.OutputRoundTrip | src/mastra/workflows/template-reviewer-workflow/plan-maker.ts:84-115 | an output passes exactly when it is valid |
| PlanMaker.DuplicateIdsAccepted | src/mastra/workflows/template-reviewer-workflow/plan-maker.ts:88-113 | three copies of one valid plan pass: ids need not be distinct |
| PlanMaker.PlanMakerPrompt | src/mastra/workflows/template-reviewer-workflow/plan-maker.ts:3-79 | the prompt is the instructions, a heading and the stringified claims, then a newline |
| Scorer.ParseRated | src/mastra/workflows/template-reviewer-workflow/scorer.ts:7-19 | an accepted score lies in [1, 5] |
| Scorer.ParseOutput | src/mastra/workflows/template-reviewer-workflow/scorer.ts:6-36 | an accepted output has its three scores in [1, 5] |
| Scorer.RatedRoundTrip | src/mastra/workflows/template-reviewer-workflow/scorer.ts:7-10 | a rated item passes exactly when its score is in [1, 5]; fractions are allowed |
| Scorer.ArchitectureRoundTrip | src/mastra/workflows/template-reviewer-workflow/scorer.ts:20-30 | any counts pass, negative and fractional ones included |
| Scorer.OutputRoundTrip | src/mastra/workflows/template-reviewer-workflow/scorer.ts:6-36 | an output passes exactly when its three scores are in range; tests, counts and tags are unconstrained |
| Scorer.ScorerPrompt | src/mastra/workflows/template-reviewer-workflow/scorer.ts:48-63 | the prompt shows the project's name, repository URL, video URL and description after their labels, and the claims before the plans |
| Scorer.StatsIgnored | src/mastra/workflows/template-reviewer-workflow/scorer.ts:38-48 | the prompt does not depend on `projectStats` |
| Workflow.Generated | src/mastra/workflows/template-reviewer-workflow/index.ts:171-177 | `generateObject` succeeds exactly when the output matches the schema |
| Workflow.Save | src/mastra/workflows/template-reviewer-workflow/index.ts:75-93 | saving stores the project's DTO: it fails exactly when no video id can be read, and the stored id, status, repository URL and port are the project's |
| Workflow.CloneEnv | src/mastra/workflows/template-reviewer-workflow/index.ts:69-72 | each key takes the input's value when given, else the configured AI key |
| Workflow.CloneProps | src/mastra/workflows/template-reviewer-workflow/index.ts:63-73 | the clone passes a fresh uuid, the shorthand, and the merged environment |
| Workflow.CloneStep | src/mastra/workflows/template-reviewer-workflow/index.ts:62-77 | the clone saves once and returns an `initialized` DTO with the input's fields and the drawn uuid as id; it fails exactly when no video id can be read |
| Workflow.CloneProject | src/mastra/workflows/template-reviewer-workflow/index.ts:63-73 | the clone's project always constructs, `initialized`, with the drawn uuid as id |
| Workflow.CloneIgnoresEnv | src/mastra/workflows/template-reviewer-workflow/index.ts:69-72 | neither the input's `envConfig` nor the configured keys change the clone step's outcome |
| Workflow.CloneStepOf | src/mastra/workflows/template-reviewer-workflow/index.ts:63-76 | the clone step is the save of the project its properties build |
| Workflow.SetupStep | src/mastra/workflows/template-reviewer-workflow/index.ts:87-95 | the set-up step saves `setting-up`, then `ready`, writes `.env` text `""`, and clones the DTO's repository URL |
| Workflow.SetupOfProject | src/mastra/workflows/template-reviewer-workflow/index.ts:87-95 | a built project's DTO is saved `setting-up`, then `ready`, and returned `ready`, with an empty `.env` and its own repository cloned; a failing set-up fails with exactly its error |
| Workflow.SetupAfterClone | src/mastra/workflows/template-reviewer-workflow/index.ts:62-95 | the clone's DTO sets up into itself marked `ready`, id unchanged |
| Workflow.ClaimsStep | src/mastra/workflows/template-reviewer-workflow/index.ts:102-125 | the claims step fails with the constructor's error when the project cannot be rebuilt from the DTO, and otherwise works from the rebuilt project |
| Workflow.ClaimsFor | src/mastra/workflows/template-reviewer-workflow/index.ts:103-124 | without a video id the step fails. Otherwise the transcript is fetched for a URL with the same video id, the claims prompt embeds the description and that transcript, the plans prompt embeds the parsed claims, and the plans are the parsed model output |
| Workflow.ClaimsValue | src/mastra/workflows/template-reviewer-workflow/index.ts:164-167 | `mainAgent` is always `null`, and `claims` the extracted claims |
| Workflow.PlansValue | src/mastra/workflows/template-reviewer-workflow/index.ts:168 | `{plans}` carries the planned tests |
| Workflow.Tests | src/mastra/workflows/template-reviewer-workflow/index.ts:146-150 | the tester gets the project's port and no main agent, so the agent with the most tools is chosen. It fails exactly when agent discovery does, with that error; otherwise it gives one result per plan under the plan's id |
| Workflow.ScoringPrompt | src/mastra/workflows/template-reviewer-workflow/index.ts:156-169 | the scorer's prompt shows the project's name, repository URL, video URL and description after their labels, and the claims before the plans |
| Workflow.ExecutorStepAsWritten | src/mastra/workflows/template-reviewer-workflow/index.ts:146-154 | as written the executor step always fails: with the discovery error when the agent server rejects, and otherwise with a `TypeError` once the project is rebuilt |
| Workflow.ExecutorStep | src/mastra/workflows/template-reviewer-workflow/index.ts:146-185 | the tests run first, so a failed agent discovery is reported before a failed rebuild of the project; a step that gets past both is the scoring of the tester's results |
| Workflow.ExecutorSucceeds | src/mastra/workflows/template-reviewer-workflow/index.ts:146-177 | the executor step completes exactly when agent discovery succeeds, the project rebuilds from its DTO, and the scorer's output matches the schema |
| Workflow.Scoring | src/mastra/workflows/template-reviewer-workflow/index.ts:171-185 | scoring succeeds exactly when the model's output matches the scorer schema. The review then carries the set-up DTO unchanged, the tester's results as `tests`, and every other score field as the model gave it, in range |
| Workflow.ScoredTests | src/mastra/workflows/template-reviewer-workflow/index.ts:179-185 | a completed executor step keeps its DTO; its `tests` are the tester's results, one per plan under its id, and the other score fields are the scorer's |
| Workflow.ScoringTestsDiscarded | src/mastra/workflows/template-reviewer-workflow/index.ts:171-180 | two models that differ only in the tests they report give the same scoring result |
| Workflow.ScorerTestsDiscarded | src/mastra/workflows/template-reviewer-workflow/index.ts:179-180 | whatever the scorer says about tests is discarded |
| Workflow.ExecutorIgnoresStats | src/mastra/workflows/template-reviewer-workflow/index.ts:154-169 | the statistics do not change the review |
| Workflow.ScoringIgnoresStats | src/mastra/workflows/template-reviewer-workflow/index.ts:154-169 | the statistics do not change the scoring result |
| Workflow.Review | src/mastra/workflows/template-reviewer-workflow/index.ts:44-194 | a video URL without an id fails the review with `"Unable to extract video ID"` |
| Workflow.ReviewAsWritten | src/mastra/workflows/template-reviewer-workflow/index.ts:44-194 | as written the review never completes |
| Workflow.ReviewSteps | src/mastra/workflows/template-reviewer-workflow/index.ts:58-190 | a completed review went through every step, and is the executor's result on the clone's DTO marked `ready` |
| Workflow.ClaimsPlans | src/mastra/workflows/template-reviewer-workflow/index.ts:119-124 | a completed claims step planned three tests with plan ids |
| Workflow.ReviewCompleted | src/mastra/workflows/template-reviewer-workflow/index.ts:58-190 | a completed review reports the project `ready` with the clone's uuid, name, video URL and repository, and three test results with plan ids |
| Workflow.ReviewScores | src/mastra/workflows/template-reviewer-workflow/index.ts:138-185 | the scores of a completed review are the scorer's output for the `ready` project and the claims step's claims and plans, with `tests` replaced by the tester's results on those plans |
| Workflow.ReviewFailsWithSetup | src/mastra/workflows/template-reviewer-workflow/index.ts:82-98 | a failing set-up fails the review with its error |
| UrlExtractor.ParseContentType | src/mastra/tools/url-extractor-tool.ts:9 | a missing `contentType` is `auto` |
| UrlExtractor.ContentTypeRoundTrip | src/mastra/tools/url-extractor-tool.ts:9 | the three names read back as themselves, and nothing else but `undefined` is accepted |
| UrlExtractor.ParseInput | src/mastra/tools/url-extractor-tool.ts:7-10 | an accepted input has a valid URL |
| UrlExtractor.InputRoundTrip | src/mastra/tools/url-extractor-tool.ts:7-10 | an input passes exactly when its URL is valid; leaving the type out means `auto` |
| UrlExtractor.Detect | src/mastra/tools/url-extractor-tool.ts:31-38 | an explicit type is kept; `auto` becomes `video` exactly for a URL containing `youtube.com`, `youtu.be` or `vimeo.com`, else `webpage` |
| UrlExtractor.DetectIdempotent | src/mastra/tools/url-extractor-tool.ts:31-38 | detecting twice is detecting once |
| UrlExtractor.VideoIdUrlIsVideo | src/mastra/tools/url-extractor-tool.ts:32-38 | every URL the project reads a video id from is classified as video |
| UrlExtractor.Extract | src/mastra/tools/url-extractor-tool.ts:26-106 | the URL is echoed, the type is the detected one, and success is the absence of an exception. A success has a title, metadata and content quoting the URL, with a 300-second duration exactly for videos. A failure has empty content and the error's message, or `"Failed to extract content from URL"` |
| UrlExtractor.FailureKeepsType | src/mastra/tools/url-extractor-tool.ts:87-100 | a failure reports the type a success would have, never `auto` or `unknown` |
| WebSearch.ParseInput | src/mastra/tools/web-search-tool.ts:7-10 | `maxResults` is the given number, or the default 5 |
| WebSearch.InputRoundTrip | src/mastra/tools/web-search-tool.ts:7-10 | every input passes unchanged; a missing `maxResults` is 5 |
| WebSearch.MockResults | src/mastra/tools/web-search-tool.ts:24-37 | two mock results; every title and snippet quotes the query, and relevances are in [0, 1] |
| WebSearch.Truncate | src/mastra/tools/web-search-tool.ts:40 | `slice` truncates its end argument toward zero |
| WebSearch.SliceEnd | src/mastra/tools/web-search-tool.ts:40 | the end index stays within the array, and is the truncated end when non-negative |
| WebSearch.Search | src/mastra/tools/web-search-tool.ts:39-43 | the results are a prefix of the two mocks, of the sliced length with 0 read as 5; `totalResults` is 2; the query is echoed |
| WebSearch.ResultCount | src/mastra/tools/web-search-tool.ts:40 | a limit `n` gives `min(n, 2)` results for `n ≥ 1`, and 2 for 0 |
| WebSearch.ResultsQuoteQuery | src/mastra/tools/web-search-tool.ts:24-40 | every returned title and snippet quotes the query |
| WebSearch.NegativeLimits | src/mastra/tools/web-search-tool.ts:40 | `-1` keeps one result; any other limit strictly between -1 and 1, except 0, keeps none |
| Js.Utf16Length | src/mastra/workflows/template-reviewer-workflow/plan-maker.ts:89-100 | zod's string lengths count UTF-16 code units: between one and two per character |
| Js.DecodeAll | src/mastra/workflows/template-reviewer-workflow/plan-maker.ts:85-112 | `z.array` accepts exactly when every element does, keeping the order |
| Js.DecodeEncodeAll | src/mastra/workflows/template-reviewer-workflow/plan-maker.ts:85-112 | `z.array` of a schema that keeps every element keeps every list |
| Js.StringsRoundTrip | src/mastra/workflows/template-reviewer-workflow/scorer.ts:35 | `z.array(z.string())` accepts every list of strings unchanged |
| Text.NatToStringFourDigits | src/mastra/domain/aggregates/project/index.ts:19 | a number from 1000 to 9999 prints as four digits |
| Text.NatToStringValue | src/mastra/domain/aggregates/project/index.ts:19 | `String(n)` reads back as `n` |

## Left out

- Project.NewProject: resolves a shorthand that is not a URL with the corrected rule, `https://github.com/` followed by the shorthand. The constructor as written gives `https://github.com/[object Object]`, which `Project.ResolveRepoURLAsWritten` models (see Findings).
- Workflow.CloneStep: the DTO's `repoURL` uses the same corrected resolution. As written, the clone step stores, and the set-up step clones, `https://github.com/[object Object]` for every shorthand.
- Workflow.ReviewCompleted: reports the repository through the corrected resolution, as `Workflow.CloneStep` does.
- Outside services are parameters. These are `randomUUID`, `Math.random`, the clock, the agent server, the judge and the language model, `VideoService`, `JSON.stringify`, and the statistics a repository scan would yield.
- The side effects of `Project.setup` are one parameter: its success or its error. These are degit, `npm install` and the file write. The `.env` text it would write is modelled.
- Persistence is modelled as the list of DTOs each step saves. Each step awaits `save`, but `save` does not await its database write (`updateOne` in `src/mastra/infra/repositories/project.ts`), so a failing write is never observed and is not modelled.
- The `.parallel` engine is not modelled. The two middle steps run in sequence, and when both fail the set-up step's error is the one reported.
- Prompt prose is a parameter. This covers the instructions, the rubric and the two judge prompts. Only what the prompts embed, and in which order, is stated.
- Unicode case mapping is not modelled: `normalizeAgentName` lower-cases ASCII letters only and drops every other character. JavaScript's `toLowerCase` maps some non-ASCII letters onto ASCII ones, and the source keeps those: the Kelvin sign U+212A becomes `k`, and U+0130 becomes `i` followed by a combining dot. So `normalizeAgentName("\u212Aelvin")` is `kelvin` in the source and `elvin` in the model.
- `Id` of a non-integer number is not modelled: `String(x)` of fractions and exponents is left out.
- JavaScript's key order rule for integer-like keys is not modelled: records keep insertion order.
- zod's `.url()` and `.uuid()` checks are parameters or left out. This covers the tool input, `projectSetupStepInputSchema` and the output schemas of the two tools.
- The message text of errors thrown by the SDKs is a parameter (`Failure`).
- `getStats` and the statistics scan are not modelled. The source never defines `getStats`; see Findings.
- The workflow's input and output schemas are left out, except where a step reads them.
- NaN and the infinities are not numbers in `Js.Value`. This matters for `maxResults || 5`, where NaN also becomes 5.
- The clock of the URL extractor is one reading (`now`). The source reads it two or three times in one call.
- VideoIds.IdAfterWatchQuery: states the second pattern's capture only for URLs where the `y` of `youtube.com/watch?` is the only `y`, and no `v` follows the chosen `v=`. This is weaker than the general greedy rule, which `SecondMatch` and `RightmostKey` model in full.
- The Google Sheets, list-projects and sleep tools are not part of this model. Neither are the agents, the dependency wiring and the MongoDB client.

## Findings

| source | as written | input that shows it | evidently intended | confidence | as-written member | corrected member |
|---|---|---|---|---|---|---|
| src/mastra/domain/aggregates/project/index.ts:74 | a shorthand that is not a URL becomes `https://github.com/${props}`, which interpolates the whole props object | `repoURLOrShorthand = "mastra-ai/template-x"` gives `https://github.com/[object Object]` | `https://github.com/` followed by the shorthand | high, not executed | Project.ShorthandLostAsWritten | Project.ShorthandKept |
| src/mastra/workflows/template-reviewer-workflow/index.ts:153-154 | the executor step calls `projectEntity.getStats()`, which `Project` does not define, so it throws a `TypeError` | any review whose earlier steps and agent discovery succeed | the statistics of the cloned repository are computed and passed to the scorer, which ignores them | high, not executed | Workflow.ReviewAsWritten | Workflow.ReviewCompleted |
