/** The scorer's structured output (`scorerOutputSchema`) and the data its
    prompt is built from. */
module Scorer {
  import opened Wrappers
  import opened Js
  import Text
  import Tester

  /** A rubric score with its explanation. */
  datatype Rated = Rated(score: real, explanation: string)

  /** The three `{count}` objects; counts are any numbers. */
  datatype Architecture = Architecture(agents: real, tools: real, workflows: real)

  datatype ScorerOutput = ScorerOutput(
    descriptionQuality: Rated,
    tests: seq<Tester.TestResult>,
    appeal: Rated,
    creativity: Rated,
    architecture: Architecture,
    tags: seq<string>)

  /** `z.number().min(1).max(5)`: any number from 1 to 5, not only integers. */
  predicate ValidScore(r: Rated) {
    1.0 <= r.score <= 5.0
  }

  /** The refinements of the schema: the three scores are in range; counts,
      tests and tags carry no further constraint. */
  predicate ValidOutput(o: ScorerOutput) {
    ValidScore(o.descriptionQuality) && ValidScore(o.appeal) && ValidScore(o.creativity)
  }

  function ParseRated(v: Value): (r: Option<Rated>)
    ensures r.Some? ==> ValidScore(r.value)
  {
    var score := AsNumber(Get(v, "score"));
    var explanation := AsString(Get(v, "explanation"));
    if v.Obj? && score.Some? && explanation.Some? && 1.0 <= score.value <= 5.0
    then Some(Rated(score.value, explanation.value))
    else None
  }

  /** `z.object({count: z.number()})` */
  function ParseCount(v: Value): Option<real> {
    if v.Obj? then AsNumber(Get(v, "count")) else None
  }

  function ParseArchitecture(v: Value): Option<Architecture> {
    var agents := ParseCount(Get(v, "agents"));
    var tools := ParseCount(Get(v, "tools"));
    var workflows := ParseCount(Get(v, "workflows"));
    if v.Obj? && agents.Some? && tools.Some? && workflows.Some?
    then Some(Architecture(agents.value, tools.value, workflows.value))
    else None
  }

  function ParseOutput(v: Value): (r: Option<ScorerOutput>)
    ensures r.Some? ==> ValidOutput(r.value)
  {
    var dq := ParseRated(Get(v, "descriptionQuality"));
    var tests := Tester.ParseTestResults(Get(v, "tests"));
    var appeal := ParseRated(Get(v, "appeal"));
    var creativity := ParseRated(Get(v, "creativity"));
    var architecture := ParseArchitecture(Get(v, "architecture"));
    var tags := DecodeStrings(Get(v, "tags"));
    if v.Obj? && dq.Some? && tests.Some? && appeal.Some? && creativity.Some?
       && architecture.Some? && tags.Some?
    then Some(ScorerOutput(dq.value, tests.value, appeal.value, creativity.value,
                           architecture.value, tags.value))
    else None
  }

  function EncodeRated(r: Rated): Value {
    Obj(map["score" := Num(r.score), "explanation" := Str(r.explanation)])
  }

  function EncodeCount(n: real): Value {
    Obj(map["count" := Num(n)])
  }

  function EncodeArchitecture(a: Architecture): Value {
    Obj(map["agents" := EncodeCount(a.agents), "tools" := EncodeCount(a.tools),
            "workflows" := EncodeCount(a.workflows)])
  }

  function EncodeOutput(o: ScorerOutput): Value {
    Obj(map[
      "descriptionQuality" := EncodeRated(o.descriptionQuality),
      "tests" := Tester.EncodeTestResults(o.tests),
      "appeal" := EncodeRated(o.appeal),
      "creativity" := EncodeRated(o.creativity),
      "architecture" := EncodeArchitecture(o.architecture),
      "tags" := EncodeStrings(o.tags)])
  }

  lemma RatedRoundTrip(r: Rated)
    ensures ParseRated(EncodeRated(r)) == if ValidScore(r) then Some(r) else None
  {
  }

  /** Negative and fractional counts are accepted. */
  lemma ArchitectureRoundTrip(a: Architecture)
    ensures ParseArchitecture(EncodeArchitecture(a)) == Some(a)
  {
    var v := EncodeArchitecture(a);
    assert Get(v, "agents") == EncodeCount(a.agents);
    assert Get(v, "tools") == EncodeCount(a.tools);
    assert Get(v, "workflows") == EncodeCount(a.workflows);
  }

  /** A scorer output survives validation exactly when its three scores lie
      in [1, 5]. */
  lemma OutputRoundTrip(o: ScorerOutput)
    ensures ParseOutput(EncodeOutput(o)) == if ValidOutput(o) then Some(o) else None
  {
    var v := EncodeOutput(o);
    assert Get(v, "descriptionQuality") == EncodeRated(o.descriptionQuality);
    assert Get(v, "tests") == Tester.EncodeTestResults(o.tests);
    assert Get(v, "appeal") == EncodeRated(o.appeal);
    assert Get(v, "creativity") == EncodeRated(o.creativity);
    assert Get(v, "architecture") == EncodeArchitecture(o.architecture);
    assert Get(v, "tags") == EncodeStrings(o.tags);
    RatedRoundTrip(o.descriptionQuality);
    RatedRoundTrip(o.appeal);
    RatedRoundTrip(o.creativity);
    ArchitectureRoundTrip(o.architecture);
    Tester.TestResultsRoundTrip(o.tests);
    StringsRoundTrip(o.tags);
  }

  /** The project fields the scorer is shown. */
  datatype ProjectSummary = ProjectSummary(name: string, description: string, repoURL: string, videoURL: string)

  /** Everything the executor passes to `scorerPrompt`, including the
      project statistics the prompt never reads. */
  datatype ScorerArgs = ScorerArgs(project: ProjectSummary, projectStats: Value, claims: Value, plans: Value)

  /** `scorerPrompt(args)`: the fixed rubric text is `preamble` and
      `rubric`; `stringify` stands for `JSON.stringify(_, null, 2)`. The
      project fields appear verbatim, each after its label, and the claims'
      rendering comes before the plans'. */
  function ScorerPrompt(args: ScorerArgs, preamble: string, rubric: string, stringify: Value -> string): (r: string)
    ensures Text.Contains(r, "- name: " + args.project.name + "\n")
    ensures Text.Contains(r, "- repoURL: " + args.project.repoURL + "\n")
    ensures Text.Contains(r, "- videoURL: " + args.project.videoURL + "\n")
    ensures Text.Contains(r, "- description: \n" + args.project.description + "\n")
    ensures Text.Contains(r, stringify(args.claims) + "\n\nTest plans (exactly 3, turn-by-turn chat interactions)\n"
                             + stringify(args.plans))
  {
    var p := args.project;
    var nameLine := "- name: " + p.name + "\n";
    var repoLine := "- repoURL: " + p.repoURL + "\n";
    var videoLine := "- videoURL: " + p.videoURL + "\n";
    var descLines := "- description: \n" + p.description + "\n";
    var data := stringify(args.claims) + "\n\nTest plans (exactly 3, turn-by-turn chat interactions)\n"
                + stringify(args.plans);
    var tail := "\n\n" + rubric;
    var fromData := data + tail;
    var fromDesc := descLines + ("\nExtracted claims (present-tense capabilities)\n" + fromData);
    var fromVideo := videoLine + fromDesc;
    var fromRepo := repoLine + fromVideo;
    var fromName := nameLine + fromRepo;
    Text.ContainsMiddle([], data, tail);
    Text.ContainsExtend("\nExtracted claims (present-tense capabilities)\n", fromData, data);
    Text.ContainsExtend(descLines, "\nExtracted claims (present-tense capabilities)\n" + fromData, data);
    Text.ContainsMiddle([], descLines, "\nExtracted claims (present-tense capabilities)\n" + fromData);
    Text.ContainsExtend(videoLine, fromDesc, data);
    Text.ContainsExtend(videoLine, fromDesc, descLines);
    Text.ContainsMiddle([], videoLine, fromDesc);
    Text.ContainsExtend(repoLine, fromVideo, data);
    Text.ContainsExtend(repoLine, fromVideo, descLines);
    Text.ContainsExtend(repoLine, fromVideo, videoLine);
    Text.ContainsMiddle([], repoLine, fromVideo);
    Text.ContainsExtend(nameLine, fromRepo, data);
    Text.ContainsExtend(nameLine, fromRepo, descLines);
    Text.ContainsExtend(nameLine, fromRepo, videoLine);
    Text.ContainsExtend(nameLine, fromRepo, repoLine);
    Text.ContainsMiddle([], nameLine, fromRepo);
    var head := preamble + "\n\nContext to evaluate\n---\nProject\n";
    Text.ContainsExtend(head, fromName, data);
    Text.ContainsExtend(head, fromName, descLines);
    Text.ContainsExtend(head, fromName, videoLine);
    Text.ContainsExtend(head, fromName, repoLine);
    Text.ContainsExtend(head, fromName, nameLine);
    head + fromName
  }

  /** The prompt does not depend on the project statistics. */
  lemma StatsIgnored(args: ScorerArgs, stats: Value, preamble: string, rubric: string, stringify: Value -> string)
    ensures ScorerPrompt(args.(projectStats := stats), preamble, rubric, stringify)
            == ScorerPrompt(args, preamble, rubric, stringify)
  {
  }
}
