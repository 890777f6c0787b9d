/** The template-reviewer workflow: clone-project, then setup-project-repo
    and claims-extractor side by side on the clone's DTO, then
    executor-and-scorer on both of their outputs. Randomness, the video
    service, the language model, the repository set-up and the agent server
    are inputs (`Draw`, `Services`). */
module Workflow {
  import opened Wrappers
  import opened Js
  import Text
  import Ids
  import Records
  import Config
  import VideoIds
  import Project
  import ClaimExtractor
  import PlanMaker
  import AgentSelection
  import Tester
  import Scorer

  /** A draw of `Math.floor(Math.random() * 6001)`. */
  type Roll = r: nat | r <= 6000

  /** The random draws of one `new Project(...)`: the `randomUUID()` used
      when no id is supplied, and the port roll. */
  datatype Draw = Draw(uuid: string, roll: Roll)

  /** The draws of the four steps' constructor calls. */
  datatype Draws = Draws(clone: Draw, setup: Draw, claims: Draw, executor: Draw)

  /** The fixed prompt prose, which the model does not spell out. */
  datatype Prose = Prose(claimsInstructions: string, planInstructions: string,
                         scorerPreamble: string, scorerRubric: string)

  /** Everything outside the workflow's own code. */
  datatype Services = Services(
    settings: Config.Settings,
    /** `crypto.randomUUID()` in the clone step */
    uuid: string,
    /** the rejection of `project.setup()` (cloning, writing `.env`), if any */
    setupError: Option<string>,
    /** `VideoService.getTranscript` */
    transcripts: string -> Result<string>,
    /** the raw object the language model returns for a prompt */
    model: string -> Value,
    /** `JSON.stringify(_, null, 2)` */
    stringify: Value -> string,
    /** what the agent server reports for `/api/agents`, or the message
        `client.getAgents()` rejects with */
    agents: Result<seq<AgentSelection.AgentEntry>>,
    remote: Tester.Remote,
    /** what a project statistics scan would yield */
    stats: Value,
    prose: Prose)

  /** `templateReviewerWorkflowInputSchema` */
  datatype ReviewInput = ReviewInput(
    name: string,
    repoURLOrShorthand: string,
    description: string,
    videoURL: string,
    envConfig: Option<Records.Record>)

  /** `generateObject` rejects output that does not match the schema. */
  const SchemaMismatch := "No object generated: response did not match schema."

  function Generated<T>(o: Option<T>): (r: Result<T>)
    ensures r.Ok? <==> o.Some?
    ensures r.Ok? ==> r.value == o.value
    ensures r.Err? ==> r.error == SchemaMismatch
  {
    match o
    case Some(v) => Ok(v)
    case None => Err(SchemaMismatch)
  }

  /** `projectRepository.save(project)`: the document written is
      `project.toDTO()`, so saving fails exactly when that does. */
  function Save(p: Project.Project): (r: Result<Project.ProjectDTO>)
    ensures r == Project.ToDTO(p)
    ensures r.Ok? <==> VideoIds.GetVideoId(p.videoURL).Ok?
    ensures r.Ok? ==> && r.value.id == Ids.Value(p.id) && r.value.status == Project.StatusName(p.status)
                      && r.value.repoURL == p.repoURL && r.value.port == p.port
  {
    Project.ToDTO(p)
  }

  // ---------------------------------------------------------------- clone

  /** The AI API keys overlaid with the caller's environment map. */
  function CloneEnv(input: ReviewInput, settings: Config.Settings): (r: Records.Record)
    ensures forall k :: Records.Lookup(r, k)
                        == if Records.Lookup(input.envConfig.GetOr([]), k).Some?
                           then Records.Lookup(input.envConfig.GetOr([]), k)
                           else Records.Lookup(Config.AiApiKeys(settings), k)
  {
    var over: Records.Record := input.envConfig.GetOr([]);
    forall k ensures Records.Lookup(Records.Spread(Config.AiApiKeys(settings), over), k)
                     == if Records.Lookup(over, k).Some? then Records.Lookup(over, k)
                        else Records.Lookup(Config.AiApiKeys(settings), k)
    {
      Records.SpreadLookup(Config.AiApiKeys(settings), over, k);
    }
    Records.Spread(Config.AiApiKeys(settings), over)
  }

  function CloneProps(input: ReviewInput, settings: Config.Settings, uuid: string): (r: Project.Props)
    ensures r.id == Some(Ids.FromText(uuid)) && r.status.None? && r.port.None?
    ensures r.repo == Project.RepoShorthand(input.repoURLOrShorthand)
    ensures r.envConfig == Some(CloneEnv(input, settings))
  {
    Project.Props(input.name, input.videoURL, input.description, None, Some(Ids.FromText(uuid)),
                  None, Some(CloneEnv(input, settings)), None,
                  Project.RepoShorthand(input.repoURLOrShorthand))
  }

  /** What a step wrote to the repository, and what it returned. */
  datatype StepRun = StepRun(saves: seq<Project.ProjectDTO>, output: Project.ProjectDTO)

  /** The clone-project step: a new `initialized` project with a fresh id
      and a rolled port, saved once. It fails exactly when no video id can
      be read from the URL. */
  function CloneStep(input: ReviewInput, services: Services, draw: Draw): (r: Result<StepRun>)
    ensures r.Ok? <==> VideoIds.GetVideoId(input.videoURL).Ok?
    ensures r.Err? ==> r.error == "Unable to extract video ID"
    ensures r.Ok? ==>
              var d := r.value.output;
              && r.value.saves == [d]
              && d.status == Project.StatusName(Project.Initialized)
              && d.name == input.name
              && d.videoURL == input.videoURL
              && d.videoId == VideoIds.GetVideoId(input.videoURL).value
              && d.description == (if input.description == "" then "No description provided" else input.description)
              && d.repoURL == Project.ResolveRepoURL(Project.RepoShorthand(input.repoURLOrShorthand))
              && d.port == Project.PortNumber(None, draw.roll)
              && (Ids.Trimmed(services.uuid) && services.uuid != "" ==> d.id == services.uuid)
  {
    var props := CloneProps(input, services.settings, services.uuid);
    CloneProject(input, services, draw);
    var p := Project.NewProject(props, draw.uuid, draw.roll).value;
    match Save(p)
    case Err(e) => Err(e)
    case Ok(saved) => Ok(StepRun([saved], saved))
  }

  /** The clone step's project is built, `initialized`, and carries the
      drawn uuid as its id when that is a non-empty trimmed string. */
  lemma CloneProject(input: ReviewInput, services: Services, draw: Draw)
    ensures var r := Project.NewProject(CloneProps(input, services.settings, services.uuid), draw.uuid, draw.roll);
            && r.Ok? && r.value.status == Project.Initialized
            && (Ids.Trimmed(services.uuid) && services.uuid != "" ==> Ids.Value(r.value.id) == services.uuid)
  {
    var props := CloneProps(input, services.settings, services.uuid);
    assert Project.ParseStatus(Project.StatusText(props)) == Some(Project.Initialized);
    if Ids.Trimmed(services.uuid) && services.uuid != "" {
      assert Project.IdTruthy(props.id);
    }
  }

  /** The environment map handed to the constructor never reaches the
      project, so neither the caller's map nor the configured keys change
      the step's outcome. */
  lemma CloneIgnoresEnv(input: ReviewInput, services: Services, draw: Draw,
                        env: Option<Records.Record>, settings: Config.Settings)
    ensures CloneStep(input.(envConfig := env), services.(settings := settings), draw)
            == CloneStep(input, services, draw)
  {
    var props := CloneProps(input, services.settings, services.uuid);
    var other := CloneProps(input.(envConfig := env), settings, services.uuid);
    assert other == props.(envConfig := other.envConfig);
    Project.NewProjectIgnoresEnv(props, other.envConfig, draw.uuid, draw.roll);
    CloneStepOf(input.(envConfig := env), services.(settings := settings), draw);
    CloneStepOf(input, services, draw);
  }

  /** The clone step is the save of the project its properties build. */
  lemma CloneStepOf(input: ReviewInput, services: Services, draw: Draw)
    ensures var p := Project.NewProject(CloneProps(input, services.settings, services.uuid), draw.uuid, draw.roll);
            p.Ok? && CloneStep(input, services, draw)
                     == match Save(p.value) case Ok(d) => Ok(StepRun([d], d)) case Err(e) => Err(e)
  {
    CloneProject(input, services, draw);
  }

  // ---------------------------------------------------------------- setup

  /** What setting a project up did: the two saves, the repository cloned,
      the folder it went to (named after the id), the `.env` text written,
      and the returned DTO. */
  datatype SetupRun = SetupRun(saves: seq<Project.ProjectDTO>, cloned: string, folder: string,
                               envFile: string, output: Project.ProjectDTO)

  /** The setup-project-repo step: rebuild the project from the DTO, save it
      as `setting-up`, set it up, save it as `ready`. */
  function SetupStep(dto: Project.ProjectDTO, services: Services, draw: Draw): (r: Result<SetupRun>)
    ensures Project.NewProject(Project.FromDTO(dto), draw.uuid, draw.roll).Err? ==>
              r == Err("Invalid project status: " + dto.status)
    ensures VideoIds.GetVideoId(dto.videoURL).Err? ==> r.Err?
    ensures r.Ok? ==> services.setupError.None?
    ensures r.Ok? ==>
              && |r.value.saves| == 2
              && r.value.saves[0].status == Project.StatusName(Project.SettingUp)
              && r.value.saves[1].status == Project.StatusName(Project.Ready)
              && r.value.output == r.value.saves[1]
              && r.value.envFile == ""
              && r.value.cloned == dto.repoURL
              && r.value.output.repoURL == dto.repoURL
  {
    match Project.NewProject(Project.FromDTO(dto), draw.uuid, draw.roll)
    case Err(e) => Err(e)
    case Ok(p) =>
      var settingUp := p.(status := Project.SettingUp);
      match Save(settingUp)
      case Err(e) => Err(e)
      case Ok(first) =>
        if services.setupError.Some? then Err(services.setupError.value)
        else
          var ready := settingUp.(status := Project.Ready);
          var second := Save(ready).value;
          Ok(SetupRun([first, second], settingUp.repoURL, Ids.Value(settingUp.id),
                      Project.EnvFileText(settingUp), second))
  }

  /** A built project with an id, once saved, sets up into the same DTO
      with status `ready`, whatever the step's random draws; a failing
      set-up fails the step with its error after the `setting-up` save. */
  lemma SetupOfProject(p: Project.Project, services: Services, draw: Draw)
    requires Project.Built(p) && Ids.Value(p.id) != "" && Project.ToDTO(p).Ok?
    ensures var d := Project.ToDTO(p).value;
            SetupStep(d, services, draw)
            == if services.setupError.Some? then Err(services.setupError.value)
               else Ok(SetupRun([d.(status := Project.StatusName(Project.SettingUp)),
                                 d.(status := Project.StatusName(Project.Ready))],
                                d.repoURL, d.id, "", d.(status := Project.StatusName(Project.Ready))))
  {
    var q := p.(agentToEvaluate := None);
    Project.DTORoundTrip(p, draw.uuid, draw.roll);
    Project.ToDTOWithStatus(q, Project.SettingUp);
    Project.ToDTOWithStatus(q, Project.Ready);
    assert q.(status := Project.SettingUp).(status := Project.Ready) == q.(status := Project.Ready);
  }

  /** A clone's DTO sets up into the same DTO with status `ready`, as long
      as the clone's uuid is a non-empty trimmed string. */
  lemma SetupAfterClone(input: ReviewInput, services: Services, draws: Draws)
    requires Ids.Trimmed(services.uuid) && services.uuid != ""
    requires CloneStep(input, services, draws.clone).Ok?
    ensures var d := CloneStep(input, services, draws.clone).value.output;
            SetupStep(d, services, draws.setup)
            == if services.setupError.Some? then Err(services.setupError.value)
               else Ok(SetupRun([d.(status := Project.StatusName(Project.SettingUp)),
                                 d.(status := Project.StatusName(Project.Ready))],
                                d.repoURL, d.id, "", d.(status := Project.StatusName(Project.Ready))))
  {
    var props := CloneProps(input, services.settings, services.uuid);
    CloneProject(input, services, draws.clone);
    Project.NewProjectBuilt(props, draws.clone.uuid, draws.clone.roll);
    var p := Project.NewProject(props, draws.clone.uuid, draws.clone.roll).value;
    SetupOfProject(p, services, draws.setup);
  }

  // --------------------------------------------------------------- claims

  /** `{...claims, ...plans}`: the two schemas share no key. */
  datatype ClaimsAndPlans = ClaimsAndPlans(claims: seq<ClaimExtractor.Claim>, plans: seq<PlanMaker.Plan>)

  /** What the claims-extractor step asked for, and what it returned. */
  datatype ClaimsRun = ClaimsRun(transcriptFor: string, claimsPrompt: string, plansPrompt: string,
                                 output: ClaimsAndPlans)

  /** The claims-extractor step: rebuild the project from the DTO, then
      work from it. */
  function ClaimsStep(dto: Project.ProjectDTO, services: Services, draw: Draw): (r: Result<ClaimsRun>)
    ensures var proj := Project.NewProject(Project.FromDTO(dto), draw.uuid, draw.roll);
            && (proj.Err? ==> r == Err(proj.error))
            && (proj.Ok? ==> r == ClaimsFor(proj.value, services))
    ensures VideoIds.GetVideoId(dto.videoURL).Err? ==> r.Err?
  {
    match Project.NewProject(Project.FromDTO(dto), draw.uuid, draw.roll)
    case Err(e) => Err(e)
    case Ok(proj) => ClaimsFor(proj, services)
  }

  /** The claims-extractor step on its project: fetch the transcript of the
      canonical video URL, extract claims from it and the project's
      description, then plan three tests from the claims. */
  function ClaimsFor(proj: Project.Project, services: Services): (r: Result<ClaimsRun>)
    ensures VideoIds.GetVideoId(proj.videoURL).Err? ==> r.Err?
    ensures r.Ok? ==>
              && VideoIds.GetVideoId(r.value.transcriptFor) == VideoIds.GetVideoId(proj.videoURL)
              && services.transcripts(r.value.transcriptFor).Ok?
              && r.value.claimsPrompt
                 == ClaimExtractor.ClaimExtractorPrompt(services.prose.claimsInstructions, proj.description,
                                                        services.transcripts(r.value.transcriptFor).value)
              && ClaimExtractor.ParseClaims(services.model(r.value.claimsPrompt))
                 == Some(ClaimExtractor.ClaimsOutput(r.value.output.claims))
              && r.value.plansPrompt
                 == PlanMaker.PlanMakerPrompt(services.prose.planInstructions,
                                              ClaimExtractor.EncodeClaims(ClaimExtractor.ClaimsOutput(r.value.output.claims)),
                                              services.stringify)
              && PlanMaker.ParseOutput(services.model(r.value.plansPrompt))
                 == Some(PlanMaker.PlanMakerOutput(r.value.output.plans))
              && |r.value.output.plans| == 3
              && forall k :: 0 <= k < 3 ==> PlanMaker.IsPlanId(r.value.output.plans[k].id)
  {
    var videoURL :- Project.CanonicalVideoURL(proj);
    var transcript :- services.transcripts(videoURL);
    var claimsPrompt := ClaimExtractor.ClaimExtractorPrompt(services.prose.claimsInstructions,
                                                            proj.description, transcript);
    var claims :- Generated(ClaimExtractor.ParseClaims(services.model(claimsPrompt)));
    var plansPrompt := PlanMaker.PlanMakerPrompt(services.prose.planInstructions,
                                                 ClaimExtractor.EncodeClaims(claims), services.stringify);
    var plans :- Generated(PlanMaker.ParseOutput(services.model(plansPrompt)));
    Ok(ClaimsRun(videoURL, claimsPrompt, plansPrompt, ClaimsAndPlans(claims.claims, plans.plans)))
  }

  // ------------------------------------------------------------- executor

  /** `{mainAgent: claimsAndPlans.mainAgent ?? null, claims: ...}`: the
      combined output has no `mainAgent`, so it is always `null`. */
  function ClaimsValue(cp: ClaimsAndPlans): (r: Value)
    ensures Get(r, "mainAgent") == Null
    ensures Get(r, "claims") == Arr(EncodeAll(cp.claims, ClaimExtractor.EncodeClaim))
  {
    Obj(map["mainAgent" := Null, "claims" := Arr(EncodeAll(cp.claims, ClaimExtractor.EncodeClaim))])
  }

  /** `{plans: claimsAndPlans.plans}` */
  function PlansValue(cp: ClaimsAndPlans): (r: Value)
    ensures Get(r, "plans") == Arr(EncodeAll(cp.plans, PlanMaker.EncodePlan))
  {
    Obj(map["plans" := Arr(EncodeAll(cp.plans, PlanMaker.EncodePlan))])
  }

  /** The tester run: the plans against the project's port, with no main
      agent named, so the agent with the most tools is chosen. It rejects
      when agent discovery does. */
  function Tests(project: Project.ProjectDTO, cp: ClaimsAndPlans, services: Services): (r: Result<Tester.TesterRun>)
    ensures r.Ok? <==> services.agents.Ok?
    ensures r.Err? ==> r.error == services.agents.error
    ensures r.Ok? ==>
              && r.value.baseUrl == "http://localhost:" + project.port + "/"
              && r.value.agentId
                 == AgentSelection.ChooseAgent(None, AgentSelection.DiscoverAgents(services.agents.value,
                                                                                 services.remote.serialise))
              && |r.value.results| == |cp.plans|
              && forall j :: 0 <= j < |cp.plans| ==> r.value.results[j].id == cp.plans[j].id
  {
    Tester.RunPlansAgainstAgent(project.port, None, cp.plans, services.agents, services.remote)
  }

  /** The scorer's prompt for a project and its claims and plans: it shows
      the project's name, repository, video URL and description, and the
      claims before the plans. */
  function ScoringPrompt(project: Project.ProjectDTO, cp: ClaimsAndPlans, services: Services): (r: string)
    ensures var args := Scorer.ScorerArgs(
              Scorer.ProjectSummary(project.name, project.description, project.repoURL, project.videoURL),
              services.stats, ClaimsValue(cp), PlansValue(cp));
            r == Scorer.ScorerPrompt(args, services.prose.scorerPreamble, services.prose.scorerRubric,
                                     services.stringify)
    ensures Text.Contains(r, "- name: " + project.name + "\n")
    ensures Text.Contains(r, "- repoURL: " + project.repoURL + "\n")
    ensures Text.Contains(r, "- videoURL: " + project.videoURL + "\n")
    ensures Text.Contains(r, "- description: \n" + project.description + "\n")
    ensures Text.Contains(r, services.stringify(ClaimsValue(cp))
                             + "\n\nTest plans (exactly 3, turn-by-turn chat interactions)\n"
                             + services.stringify(PlansValue(cp)))
  {
    Scorer.ScorerPrompt(
      Scorer.ScorerArgs(
        Scorer.ProjectSummary(project.name, project.description, project.repoURL, project.videoURL),
        services.stats, ClaimsValue(cp), PlansValue(cp)),
      services.prose.scorerPreamble, services.prose.scorerRubric, services.stringify)
  }

  /** `templateReviewerWorkflowOutputSchema` */
  datatype ReviewOutput = ReviewOutput(project: Project.ProjectDTO, scores: Scorer.ScorerOutput)

  /** The message of the `TypeError` a call of an undefined method raises. */
  const GetStatsMissing := "projectEntity.getStats is not a function"

  /** The executor-and-scorer step as written: after the tests it calls
      `getStats`, which `Project` does not define, so the step never
      returns a review. */
  function ExecutorStepAsWritten(project: Project.ProjectDTO, cp: ClaimsAndPlans, services: Services,
                                 draw: Draw): (r: Result<ReviewOutput>)
    ensures r.Err?
    ensures services.agents.Err? ==> r.error == services.agents.error
    ensures services.agents.Ok? && Project.NewProject(Project.FromDTO(project), draw.uuid, draw.roll).Ok? ==>
              r.error == GetStatsMissing
  {
    var tests :- Tests(project, cp, services);
    var entity :- Project.NewProject(Project.FromDTO(project), draw.uuid, draw.roll);
    Err(GetStatsMissing)
  }

  /** The executor-and-scorer step with the statistics scan an input. In
      the source's order, it first runs the tests, so a failed agent
      discovery is reported first. Then it rebuilds the project from the DTO,
      and then it scores. */
  function ExecutorStep(project: Project.ProjectDTO, cp: ClaimsAndPlans, services: Services,
                        draw: Draw): (r: Result<ReviewOutput>)
    ensures services.agents.Err? ==> r == Err(services.agents.error)
    ensures services.agents.Ok? ==> r == Rebuilt(project, cp, services, draw, Tests(project, cp, services).value.results)
  {
    match Tests(project, cp, services)
    case Err(e) => Err(e)
    case Ok(tests) => Rebuilt(project, cp, services, draw, tests.results)
  }

  /** After the tests: rebuild the project from its DTO, then score it. */
  function Rebuilt(project: Project.ProjectDTO, cp: ClaimsAndPlans, services: Services, draw: Draw,
                   results: seq<Tester.TestResult>): (r: Result<ReviewOutput>)
    ensures var entity := Project.NewProject(Project.FromDTO(project), draw.uuid, draw.roll);
            && (entity.Err? ==> r == Err(entity.error))
            && (entity.Ok? ==> r == Scoring(project, cp, services, results))
  {
    match Project.NewProject(Project.FromDTO(project), draw.uuid, draw.roll)
    case Err(e) => Err(e)
    case Ok(_) => Scoring(project, cp, services, results)
  }

  /** Scoring a project: `generateObject` on the scorer's prompt, then
      `{ ...scores, tests }`. The review carries the set-up step's DTO
      unchanged, and the model's scores with exactly their `tests`
      replaced by the tester's results. */
  function Scoring(project: Project.ProjectDTO, cp: ClaimsAndPlans, services: Services,
                   results: seq<Tester.TestResult>): (r: Result<ReviewOutput>)
    ensures r.Ok? <==> Scorer.ParseOutput(services.model(ScoringPrompt(project, cp, services))).Some?
    ensures r.Err? ==> r.error == SchemaMismatch
    ensures r.Ok? ==>
              && r.value.project == project
              && r.value.scores.tests == results
              && r.value.scores.(tests := [])
                 == Scorer.ParseOutput(services.model(ScoringPrompt(project, cp, services))).value.(tests := [])
              && Scorer.ValidOutput(r.value.scores)
  {
    match Scorer.ParseOutput(services.model(ScoringPrompt(project, cp, services)))
    case None => Err(SchemaMismatch)
    case Some(scores) => Ok(ReviewOutput(project, scores.(tests := results)))
  }

  /** The executor step completes exactly when agent discovery succeeds, the
      project rebuilds from its DTO and the scorer's output matches the
      schema. */
  lemma ExecutorSucceeds(project: Project.ProjectDTO, cp: ClaimsAndPlans, services: Services, draw: Draw)
    ensures ExecutorStep(project, cp, services, draw).Ok?
            <==> && services.agents.Ok?
                 && Project.NewProject(Project.FromDTO(project), draw.uuid, draw.roll).Ok?
                 && Scorer.ParseOutput(services.model(ScoringPrompt(project, cp, services))).Some?
  {
    if services.agents.Ok? {
      var entity := Project.NewProject(Project.FromDTO(project), draw.uuid, draw.roll);
      if entity.Ok? {
        assert ExecutorStep(project, cp, services, draw)
               == Scoring(project, cp, services, Tests(project, cp, services).value.results);
      }
    }
  }

  /** Whatever the scorer says about tests is discarded. */
  lemma ScorerTestsDiscarded(project: Project.ProjectDTO, cp: ClaimsAndPlans, services: Services, draw: Draw,
                             model: string -> Value)
    requires forall prompt :: Scorer.ParseOutput(model(prompt)).Some? <==> Scorer.ParseOutput(services.model(prompt)).Some?
    requires forall prompt :: Scorer.ParseOutput(model(prompt)).Some? ==>
               Scorer.ParseOutput(model(prompt)).value.(tests := [])
               == Scorer.ParseOutput(services.model(prompt)).value.(tests := [])
    ensures ExecutorStep(project, cp, services.(model := model), draw) == ExecutorStep(project, cp, services, draw)
  {
    assert Tests(project, cp, services.(model := model)) == Tests(project, cp, services);
    if services.agents.Ok? {
      ScoringTestsDiscarded(project, cp, services, model, Tests(project, cp, services).value.results);
    }
  }

  lemma ScoringTestsDiscarded(project: Project.ProjectDTO, cp: ClaimsAndPlans, services: Services,
                              model: string -> Value, results: seq<Tester.TestResult>)
    requires forall prompt :: Scorer.ParseOutput(model(prompt)).Some? <==> Scorer.ParseOutput(services.model(prompt)).Some?
    requires forall prompt :: Scorer.ParseOutput(model(prompt)).Some? ==>
               Scorer.ParseOutput(model(prompt)).value.(tests := [])
               == Scorer.ParseOutput(services.model(prompt)).value.(tests := [])
    ensures Scoring(project, cp, services.(model := model), results) == Scoring(project, cp, services, results)
  {
    var prompt := ScoringPrompt(project, cp, services);
    assert ScoringPrompt(project, cp, services.(model := model)) == prompt;
  }

  /** The statistics do not reach the review: the scorer's prompt does not
      show them. */
  lemma ExecutorIgnoresStats(project: Project.ProjectDTO, cp: ClaimsAndPlans, services: Services, draw: Draw,
                             stats: Value)
    ensures ExecutorStep(project, cp, services.(stats := stats), draw) == ExecutorStep(project, cp, services, draw)
  {
    var others := services.(stats := stats);
    assert Tests(project, cp, others) == Tests(project, cp, services);
    if services.agents.Ok? {
      var results := Tests(project, cp, services).value.results;
      ScoringIgnoresStats(project, cp, services, stats, results);
      assert Rebuilt(project, cp, others, draw, results) == Rebuilt(project, cp, services, draw, results);
    }
  }

  lemma ScoringIgnoresStats(project: Project.ProjectDTO, cp: ClaimsAndPlans, services: Services, stats: Value,
                            results: seq<Tester.TestResult>)
    ensures Scoring(project, cp, services.(stats := stats), results) == Scoring(project, cp, services, results)
  {
    var args := Scorer.ScorerArgs(
      Scorer.ProjectSummary(project.name, project.description, project.repoURL, project.videoURL),
      services.stats, ClaimsValue(cp), PlansValue(cp));
    Scorer.StatsIgnored(args, stats, services.prose.scorerPreamble, services.prose.scorerRubric,
                        services.stringify);
    assert ScoringPrompt(project, cp, services.(stats := stats)) == ScoringPrompt(project, cp, services);
  }

  // ------------------------------------------------------------- workflow

  /** The whole workflow. The two middle steps both start from the clone's
      DTO; when both fail, the set-up step's error is the one reported. */
  function Review(input: ReviewInput, services: Services, draws: Draws): (r: Result<ReviewOutput>)
    ensures VideoIds.GetVideoId(input.videoURL).Err? ==> r == Err("Unable to extract video ID")
  {
    var clone :- CloneStep(input, services, draws.clone);
    var setup :- SetupStep(clone.output, services, draws.setup);
    var claims :- ClaimsStep(clone.output, services, draws.claims);
    ExecutorStep(setup.output, claims.output, services, draws.executor)
  }

  /** The workflow as written never completes: its last step always
      throws. */
  function ReviewAsWritten(input: ReviewInput, services: Services, draws: Draws): (r: Result<ReviewOutput>)
    ensures r.Err?
  {
    var clone :- CloneStep(input, services, draws.clone);
    var setup :- SetupStep(clone.output, services, draws.setup);
    var claims :- ClaimsStep(clone.output, services, draws.claims);
    ExecutorStepAsWritten(setup.output, claims.output, services, draws.executor)
  }

  /** A completed review reports the project `ready`, under the id drawn in
      the clone step, with the repository the input names, and one test
      result per planned test, each under its plan's id. */
  lemma ReviewCompleted(input: ReviewInput, services: Services, draws: Draws)
    requires Ids.Trimmed(services.uuid) && services.uuid != ""
    requires Review(input, services, draws).Ok?
    ensures var o := Review(input, services, draws).value;
            && o.project.status == Project.StatusName(Project.Ready)
            && o.project.id == services.uuid
            && o.project.name == input.name
            && o.project.videoURL == input.videoURL
            && o.project.repoURL == Project.ResolveRepoURL(Project.RepoShorthand(input.repoURLOrShorthand))
            && |o.scores.tests| == 3
            && forall j :: 0 <= j < 3 ==> PlanMaker.IsPlanId(o.scores.tests[j].id)
  {
    ReviewSteps(input, services, draws);
    var clone := CloneStep(input, services, draws.clone).value;
    var claims := ClaimsStep(clone.output, services, draws.claims).value;
    ClaimsPlans(clone.output, services, draws.claims);
    ScoredTests(clone.output.(status := Project.StatusName(Project.Ready)), claims.output, services,
                draws.executor);
  }

  /** The scores of a completed review are the scorer's output for the
      `ready` project and the claims step's claims and plans, with `tests`
      replaced by the tester's results on those plans. */
  lemma ReviewScores(input: ReviewInput, services: Services, draws: Draws)
    requires Ids.Trimmed(services.uuid) && services.uuid != ""
    requires Review(input, services, draws).Ok?
    ensures && CloneStep(input, services, draws.clone).Ok?
            && ClaimsStep(CloneStep(input, services, draws.clone).value.output, services, draws.claims).Ok?
            && services.agents.Ok?
            && var o := Review(input, services, draws).value;
               var cp := ClaimsStep(CloneStep(input, services, draws.clone).value.output, services,
                                    draws.claims).value.output;
               && Scorer.ParseOutput(services.model(ScoringPrompt(o.project, cp, services))).Some?
               && o.scores.tests == Tests(o.project, cp, services).value.results
               && o.scores.(tests := [])
                  == Scorer.ParseOutput(services.model(ScoringPrompt(o.project, cp, services))).value.(tests := [])
  {
    ReviewSteps(input, services, draws);
    var clone := CloneStep(input, services, draws.clone).value;
    var claims := ClaimsStep(clone.output, services, draws.claims).value;
    ScoredTests(clone.output.(status := Project.StatusName(Project.Ready)), claims.output, services,
                draws.executor);
  }

  /** A completed review went through every step, and its result is the
      executor's on the clone's DTO marked `ready`. */
  lemma ReviewSteps(input: ReviewInput, services: Services, draws: Draws)
    requires Ids.Trimmed(services.uuid) && services.uuid != ""
    requires Review(input, services, draws).Ok?
    ensures CloneStep(input, services, draws.clone).Ok?
    ensures var clone := CloneStep(input, services, draws.clone).value;
            && ClaimsStep(clone.output, services, draws.claims).Ok?
            && Review(input, services, draws)
               == ExecutorStep(clone.output.(status := Project.StatusName(Project.Ready)),
                               ClaimsStep(clone.output, services, draws.claims).value.output, services,
                               draws.executor)
  {
    SetupAfterClone(input, services, draws);
  }

  /** A claims step that completes planned three tests, each under a plan
      id. */
  lemma ClaimsPlans(dto: Project.ProjectDTO, services: Services, draw: Draw)
    requires ClaimsStep(dto, services, draw).Ok?
    ensures var plans := ClaimsStep(dto, services, draw).value.output.plans;
            |plans| == 3 && forall k :: 0 <= k < 3 ==> PlanMaker.IsPlanId(plans[k].id)
  {
    var proj := Project.NewProject(Project.FromDTO(dto), draw.uuid, draw.roll);
    assert proj.Ok?;
  }

  /** A completed executor step returns its project unchanged, and the
      scorer's output with `tests` replaced by the tester's results, one per
      plan under that plan's id. */
  lemma ScoredTests(project: Project.ProjectDTO, cp: ClaimsAndPlans, services: Services, draw: Draw)
    requires ExecutorStep(project, cp, services, draw).Ok?
    ensures services.agents.Ok?
    ensures Scorer.ParseOutput(services.model(ScoringPrompt(project, cp, services))).Some?
    ensures var o := ExecutorStep(project, cp, services, draw).value;
            && o.project == project
            && Scorer.ValidOutput(o.scores)
            && o.scores.tests == Tests(project, cp, services).value.results
            && o.scores.(tests := [])
               == Scorer.ParseOutput(services.model(ScoringPrompt(project, cp, services))).value.(tests := [])
            && |o.scores.tests| == |cp.plans|
            && forall j :: 0 <= j < |cp.plans| ==> o.scores.tests[j].id == cp.plans[j].id
  {
    var entity := Project.NewProject(Project.FromDTO(project), draw.uuid, draw.roll);
    assert services.agents.Ok?;
    assert entity.Ok?;
  }

  /** A failing repository set-up fails the review with its error. */
  lemma ReviewFailsWithSetup(input: ReviewInput, services: Services, draws: Draws)
    requires Ids.Trimmed(services.uuid) && services.uuid != ""
    requires VideoIds.GetVideoId(input.videoURL).Ok?
    requires services.setupError.Some?
    ensures Review(input, services, draws) == Err(services.setupError.value)
  {
    SetupAfterClone(input, services, draws);
  }
}
