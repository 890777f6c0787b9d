/** The plan synthesiser's structured output (`planMakerOutputSchema`): three
    chat test plans. `Parse*` is what validating a model's raw output against
    the schema yields (unknown keys are dropped); `Valid*` collects the
    refinements the schema places on top of the shape. */
module PlanMaker {
  import opened Wrappers
  import opened Js

  datatype Step = Step(message: string, expectedAgentBehavior: string)

  datatype Resource = Resource(name: string, url: Option<string>)

  datatype Plan = Plan(
    id: string,
    title: string,
    claimsTargeted: seq<string>,
    steps: seq<Step>,
    successCriteria: seq<string>,
    resourcesToUse: seq<Resource>)

  datatype PlanMakerOutput = PlanMakerOutput(plans: seq<Plan>)

  /** The identifiers the `id` enum admits. */
  predicate IsPlanId(id: string) {
    id == "plan-1" || id == "plan-2" || id == "plan-3"
  }

  predicate ValidStep(s: Step) {
    Utf16Length(s.message) >= 1 && Utf16Length(s.expectedAgentBehavior) >= 1
  }

  predicate ValidPlan(p: Plan) {
    && IsPlanId(p.id)
    && 3 <= Utf16Length(p.title) <= 120
    && |p.claimsTargeted| >= 1
    && |p.steps| >= 2
    && (forall k :: 0 <= k < |p.steps| ==> ValidStep(p.steps[k]))
    && |p.successCriteria| >= 1
  }

  /** Exactly three valid plans; nothing requires their ids to differ. */
  predicate ValidOutput(o: PlanMakerOutput) {
    |o.plans| == 3 && forall k :: 0 <= k < 3 ==> ValidPlan(o.plans[k])
  }

  function ParseStep(v: Value): (r: Option<Step>)
    ensures r.Some? ==> ValidStep(r.value)
  {
    var message := AsString(Get(v, "message"));
    var expected := AsString(Get(v, "expected_agent_behavior"));
    if v.Obj? && message.Some? && expected.Some?
       && ValidStep(Step(message.value, expected.value))
    then Some(Step(message.value, expected.value))
    else None
  }

  /** `{name: string, url: string | null}` */
  function ParseResource(v: Value): Option<Resource> {
    var name := AsString(Get(v, "name"));
    var url := Get(v, "url");
    if v.Obj? && name.Some? && (url.Null? || url.Str?)
    then Some(Resource(name.value, if url.Str? then Some(url.s) else None))
    else None
  }

  function ParsePlan(v: Value): (r: Option<Plan>)
    ensures r.Some? ==> ValidPlan(r.value)
  {
    var id := AsString(Get(v, "id"));
    var title := AsString(Get(v, "title"));
    var claims := DecodeStrings(Get(v, "claims_targeted"));
    var stepsV := Get(v, "steps");
    var steps := if stepsV.Arr? then DecodeAll(stepsV.items, ParseStep) else None;
    var criteria := DecodeStrings(Get(v, "success_criteria"));
    var resourcesV := Get(v, "resourcesToUse");
    var resources := if resourcesV.Arr? then DecodeAll(resourcesV.items, ParseResource) else None;
    if v.Obj? && id.Some? && title.Some? && claims.Some? && steps.Some?
       && criteria.Some? && resources.Some?
       && ValidPlan(Plan(id.value, title.value, claims.value, steps.value, criteria.value, resources.value))
    then Some(Plan(id.value, title.value, claims.value, steps.value, criteria.value, resources.value))
    else None
  }

  function ParseOutput(v: Value): (r: Option<PlanMakerOutput>)
    ensures r.Some? ==> ValidOutput(r.value)
  {
    var plansV := Get(v, "plans");
    var plans := if plansV.Arr? then DecodeAll(plansV.items, ParsePlan) else None;
    if v.Obj? && plans.Some? && |plans.value| == 3
    then Some(PlanMakerOutput(plans.value))
    else None
  }

  function EncodeStep(s: Step): Value {
    Obj(map["message" := Str(s.message), "expected_agent_behavior" := Str(s.expectedAgentBehavior)])
  }

  function EncodeResource(r: Resource): Value {
    Obj(map["name" := Str(r.name), "url" := if r.url.Some? then Str(r.url.value) else Null])
  }

  function EncodePlan(p: Plan): Value {
    Obj(map[
      "id" := Str(p.id),
      "title" := Str(p.title),
      "claims_targeted" := EncodeStrings(p.claimsTargeted),
      "steps" := Arr(EncodeAll(p.steps, EncodeStep)),
      "success_criteria" := EncodeStrings(p.successCriteria),
      "resourcesToUse" := Arr(EncodeAll(p.resourcesToUse, EncodeResource))])
  }

  function EncodeOutput(o: PlanMakerOutput): Value {
    Obj(map["plans" := Arr(EncodeAll(o.plans, EncodePlan))])
  }

  lemma StepRoundTrip(s: Step)
    ensures ParseStep(EncodeStep(s)) == if ValidStep(s) then Some(s) else None
  {
  }

  lemma ResourceRoundTrip(r: Resource)
    ensures ParseResource(EncodeResource(r)) == Some(r)
  {
  }

  lemma {:induction false} StepsRoundTrip(steps: seq<Step>)
    ensures DecodeAll(EncodeAll(steps, EncodeStep), ParseStep)
            == if forall k :: 0 <= k < |steps| ==> ValidStep(steps[k]) then Some(steps) else None
  {
    var items := EncodeAll(steps, EncodeStep);
    if forall k :: 0 <= k < |steps| ==> ValidStep(steps[k]) {
      forall k | 0 <= k < |steps|
        ensures ParseStep(EncodeStep(steps[k])) == Some(steps[k])
      {
        StepRoundTrip(steps[k]);
      }
      DecodeEncodeAll(steps, EncodeStep, ParseStep);
    } else {
      var k :| 0 <= k < |steps| && !ValidStep(steps[k]);
      StepRoundTrip(steps[k]);
      assert ParseStep(items[k]).None?;
    }
  }

  lemma ResourcesRoundTrip(rs: seq<Resource>)
    ensures DecodeAll(EncodeAll(rs, EncodeResource), ParseResource) == Some(rs)
  {
    forall k | 0 <= k < |rs|
      ensures ParseResource(EncodeResource(rs[k])) == Some(rs[k])
    {
      ResourceRoundTrip(rs[k]);
    }
    DecodeEncodeAll(rs, EncodeResource, ParseResource);
  }

  /** A plan survives validation exactly when it satisfies the refinements. */
  lemma PlanRoundTrip(p: Plan)
    ensures ParsePlan(EncodePlan(p)) == if ValidPlan(p) then Some(p) else None
  {
    var v := EncodePlan(p);
    assert Get(v, "id") == Str(p.id);
    assert Get(v, "title") == Str(p.title);
    assert Get(v, "claims_targeted") == EncodeStrings(p.claimsTargeted);
    assert Get(v, "steps") == Arr(EncodeAll(p.steps, EncodeStep));
    assert Get(v, "success_criteria") == EncodeStrings(p.successCriteria);
    assert Get(v, "resourcesToUse") == Arr(EncodeAll(p.resourcesToUse, EncodeResource));
    StringsRoundTrip(p.claimsTargeted);
    StringsRoundTrip(p.successCriteria);
    ResourcesRoundTrip(p.resourcesToUse);
    StepsRoundTrip(p.steps);
  }

  lemma {:induction false} PlansRoundTrip(plans: seq<Plan>)
    ensures DecodeAll(EncodeAll(plans, EncodePlan), ParsePlan)
            == if forall k :: 0 <= k < |plans| ==> ValidPlan(plans[k]) then Some(plans) else None
  {
    var items := EncodeAll(plans, EncodePlan);
    if forall k :: 0 <= k < |plans| ==> ValidPlan(plans[k]) {
      forall k | 0 <= k < |plans|
        ensures ParsePlan(EncodePlan(plans[k])) == Some(plans[k])
      {
        PlanRoundTrip(plans[k]);
      }
      DecodeEncodeAll(plans, EncodePlan, ParsePlan);
    } else {
      var k :| 0 <= k < |plans| && !ValidPlan(plans[k]);
      PlanRejected(plans, k);
    }
  }

  /** One invalid plan makes the whole array fail. */
  lemma PlanRejected(plans: seq<Plan>, k: nat)
    requires k < |plans| && !ValidPlan(plans[k])
    ensures DecodeAll(EncodeAll(plans, EncodePlan), ParsePlan).None?
  {
    PlanRoundTrip(plans[k]);
    assert ParsePlan(EncodeAll(plans, EncodePlan)[k]).None?;
  }

  /** The whole output survives validation exactly when it is valid. */
  lemma OutputRoundTrip(o: PlanMakerOutput)
    ensures ParseOutput(EncodeOutput(o)) == if ValidOutput(o) then Some(o) else None
  {
    var v := EncodeOutput(o);
    assert Get(v, "plans") == Arr(EncodeAll(o.plans, EncodePlan));
    PlansRoundTrip(o.plans);
  }

  /** Uniqueness of plan ids is not part of the schema: three copies of any
      valid plan are accepted, all three with the same id. */
  lemma DuplicateIdsAccepted(p: Plan)
    requires ValidPlan(p)
    ensures var o := PlanMakerOutput([p, p, p]);
            ParseOutput(EncodeOutput(o)) == Some(o)
  {
    var o := PlanMakerOutput([p, p, p]);
    assert ValidOutput(o);
    OutputRoundTrip(o);
  }

  /** The fixed text between the planning instructions and the data. */
  const DataHeading := "\n### Here is the claim and agent data to use:\n"

  /** `planMakerPrompt(claims)`: `instructions` is the fixed planning prose
      (not modelled) and `stringify` stands for `JSON.stringify(_, null, 2)`;
      the rendered claims close the prompt, followed by one newline. */
  function PlanMakerPrompt(instructions: string, claims: Value, stringify: Value -> string): (r: string)
    ensures var d := |instructions| + |DataHeading|;
            && d + |stringify(claims)| + 1 == |r|
            && r[..|instructions|] == instructions
            && r[d..|r| - 1] == stringify(claims)
            && r[|r| - 1] == '\n'
  {
    instructions + DataHeading + stringify(claims) + "\n"
  }
}
