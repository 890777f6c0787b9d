/** The plan executor: for each plan, a bounded multi-turn chat with the
    chosen agent, a judge call after every turn, an early exit on the first
    "met", and a final verdict otherwise.

    The remote agent and the judge are streams of outcomes: `replies(k)` is
    what the k-th chat call of a plan returns and `verdicts(k)` what the k-th
    judge call returns. Every call made is logged, so the number of calls and
    what each one carried can be stated exactly. */
module Tester {
  import opened Wrappers
  import opened Js
  import opened PlanMaker
  import opened AgentSelection

  /** One element of `testerOutputSchema`. */
  datatype TestResult = TestResult(id: string, passed: bool, explanation: string)

  function ParseTestResult(v: Value): Option<TestResult> {
    var id := AsString(Get(v, "id"));
    var passed := AsBool(Get(v, "passed"));
    var explanation := AsString(Get(v, "explanation"));
    if v.Obj? && id.Some? && passed.Some? && explanation.Some?
    then Some(TestResult(id.value, passed.value, explanation.value))
    else None
  }

  /** `testerOutputSchema`: an array of `{id, passed, explanation}`. */
  function ParseTestResults(v: Value): Option<seq<TestResult>> {
    if v.Arr? then DecodeAll(v.items, ParseTestResult) else None
  }

  function EncodeTestResult(t: TestResult): Value {
    Obj(map["id" := Str(t.id), "passed" := Bool(t.passed), "explanation" := Str(t.explanation)])
  }

  function EncodeTestResults(ts: seq<TestResult>): Value {
    Arr(EncodeAll(ts, EncodeTestResult))
  }

  /** Every list of results is valid and survives validation unchanged. */
  lemma TestResultsRoundTrip(ts: seq<TestResult>)
    ensures ParseTestResults(EncodeTestResults(ts)) == Some(ts)
  {
    assert forall k :: 0 <= k < |ts| ==> ParseTestResult(EncodeTestResult(ts[k])) == Some(ts[k]);
    DecodeEncodeAll(ts, EncodeTestResult, ParseTestResult);
  }

  /** The text of a chat reply, trying the known reply shapes in a fixed
      order and serialising anything else. */
  function ReplyText(res: Value, serialise: Value -> string): (r: string)
    ensures !Truthy(res) ==> r == ""
    ensures Truthy(res) && res.Str? ==> r == res.s
  {
    if !Truthy(res) then ""
    else if res.Str? then res.s
    else if Get(res, "text").Str? then Get(res, "text").s
    else if Get(res, "message").Str? then Get(res, "message").s
    else if Get(res, "content").Str? then Get(res, "content").s
    else
      var messages := Get(res, "messages");
      var last := if messages.Arr? && |messages.items| > 0
                  then messages.items[|messages.items| - 1] else Undefined;
      if messages.Arr? && Truthy(Get(last, "content")) then ToText(Get(last, "content"), serialise)
      else serialise(res)
  }

  /** A string `text` wins over every other field of a reply object. */
  lemma TextFieldWins(fields: map<string, Value>, text: string, serialise: Value -> string)
    requires "text" in fields && fields["text"] == Str(text)
    ensures ReplyText(Obj(fields), serialise) == text
  {
  }

  /** `message` is used when `text` is not a string, `content` when neither is. */
  lemma MessageThenContent(fields: map<string, Value>, serialise: Value -> string)
    requires !Get(Obj(fields), "text").Str?
    ensures Get(Obj(fields), "message").Str? ==> ReplyText(Obj(fields), serialise) == fields["message"].s
    ensures !Get(Obj(fields), "message").Str? && Get(Obj(fields), "content").Str?
            ==> ReplyText(Obj(fields), serialise) == fields["content"].s
  {
  }

  /** Without string `text`, `message` or `content`, a truthy `content` of
      the last element of `messages` is the reply, as `String` renders it:
      a string is itself, an object `[object Object]`, an array its elements
      joined by commas. */
  lemma LastMessageContent(fields: map<string, Value>, history: seq<Value>, content: Value,
                           serialise: Value -> string)
    requires !Get(Obj(fields), "text").Str? && !Get(Obj(fields), "message").Str?
    requires !Get(Obj(fields), "content").Str?
    requires "messages" in fields && fields["messages"] == Arr(history)
    requires |history| > 0 && Get(history[|history| - 1], "content") == content && Truthy(content)
    ensures ReplyText(Obj(fields), serialise) == ToText(content, serialise)
    ensures content.Str? ==> ReplyText(Obj(fields), serialise) == content.s
    ensures content.Obj? ==> ReplyText(Obj(fields), serialise) == "[object Object]"
  {
  }

  /** A reply object with none of the known shapes is serialised. */
  lemma UnknownShapeSerialised(fields: map<string, Value>, serialise: Value -> string)
    requires "text" !in fields && "message" !in fields && "content" !in fields && "messages" !in fields
    ensures ReplyText(Obj(fields), serialise) == serialise(Obj(fields))
  {
  }

  datatype Role = User | Assistant

  datatype ChatMessage = ChatMessage(role: Role, content: string)

  /** One transcript entry; `step` counts from 1. */
  datatype Turn = Turn(step: nat, user: string, assistant: string)

  /** A thrown value: its `message` (empty when absent) and `String(err)`. */
  datatype Failure = Failure(message: string, text: string)

  /** `err?.message || String(err)` */
  function Describe(e: Failure): (r: string)
    ensures e.message != "" ==> r == e.message
    ensures e.message == "" ==> r == e.text
  {
    if e.message != "" then e.message else e.text
  }

  datatype ChatOutcome = Replied(raw: Value) | ChatFailed(failure: Failure)

  datatype Verdict = Verdict(met: bool, justification: string)

  datatype JudgeOutcome = Judged(verdict: Verdict) | JudgeFailed(failure: Failure)

  /** A chat request: the agent, the thread (the plan id) and the full history. */
  datatype ChatCall = ChatCall(agentId: string, threadId: string, messages: seq<ChatMessage>)

  /** A judge request: besides the plan's title, claims and criteria, the
      step index and the transcript so far, or the final full transcript. */
  datatype JudgeCall = StepCheck(stepIndex: nat, transcript: seq<Turn>) | FinalCheck(transcript: seq<Turn>)

  /** The outcomes the agent and the judge will produce, call by call, and
      the `JSON.stringify` of the host. */
  datatype Remote = Remote(replies: nat -> ChatOutcome, verdicts: nat -> JudgeOutcome,
                           serialise: Value -> string)
  {
    /** The streams left once `chats` chat calls and `judges` judge calls
        have been answered. */
    function After(chats: nat, judges: nat): Remote {
      Remote((k: nat) => replies(chats + k), (k: nat) => verdicts(judges + k), serialise)
    }
  }

  /** The assistant turn recorded for a chat outcome; a transport failure
      becomes an error text instead of ending the plan. */
  function AssistantReply(o: ChatOutcome, serialise: Value -> string): (r: string)
    ensures o.ChatFailed? ==> r == "Error talking to agent: " + Describe(o.failure)
  {
    match o
    case Replied(raw) => ReplyText(raw, serialise)
    case ChatFailed(e) => "Error talking to agent: " + Describe(e)
  }

  predicate StepMet(o: JudgeOutcome) {
    o.Judged? && o.verdict.met
  }

  /** The running justification after a step check; a judge failure is
      recorded and the loop goes on. */
  function StepJustification(o: JudgeOutcome): (r: string)
    ensures o.JudgeFailed? ==> r == "Evaluation error: " + Describe(o.failure)
    ensures o.Judged? ==> r == o.verdict.justification
  {
    match o
    case Judged(v) => v.justification
    case JudgeFailed(e) => "Evaluation error: " + Describe(e)
  }

  /** At most five turns per plan. */
  function MaxIters(plan: Plan): (n: nat)
    ensures n <= 5 && n <= |plan.steps|
    ensures n == 5 || n == |plan.steps|
  {
    if |plan.steps| < 5 then |plan.steps| else 5
  }

  /** The transcript after the first `m` turns. */
  function Transcript(plan: Plan, remote: Remote, m: nat): (t: seq<Turn>)
    requires m <= |plan.steps|
    ensures |t| == m
  {
    if m == 0 then []
    else Transcript(plan, remote, m - 1)
         + [Turn(m, plan.steps[m - 1].message, AssistantReply(remote.replies(m - 1), remote.serialise))]
  }

  /** The chat history after the first `m` turns: user, assistant, user, ... */
  function History(plan: Plan, remote: Remote, m: nat): (h: seq<ChatMessage>)
    requires m <= |plan.steps|
    ensures |h| == 2 * m
  {
    if m == 0 then []
    else History(plan, remote, m - 1)
         + [ChatMessage(User, plan.steps[m - 1].message),
            ChatMessage(Assistant, AssistantReply(remote.replies(m - 1), remote.serialise))]
  }

  /** The chat requests of the first `m` turns: each sends the whole history
      up to and including its own user message. */
  function ChatCalls(agentId: string, plan: Plan, remote: Remote, m: nat): (c: seq<ChatCall>)
    requires m <= |plan.steps|
    ensures |c| == m
  {
    if m == 0 then []
    else ChatCalls(agentId, plan, remote, m - 1)
         + [ChatCall(agentId, plan.id,
                     History(plan, remote, m - 1) + [ChatMessage(User, plan.steps[m - 1].message)])]
  }

  /** The judge requests of the first `m` turns. */
  function StepChecks(plan: Plan, remote: Remote, m: nat): (c: seq<JudgeCall>)
    requires m <= |plan.steps|
    ensures |c| == m
  {
    if m == 0 then [] else StepChecks(plan, remote, m - 1) + [StepCheck(m - 1, Transcript(plan, remote, m))]
  }

  /** The executor's per-plan variables. */
  datatype Progress = Progress(
    messages: seq<ChatMessage>,
    transcript: seq<Turn>,
    met: bool,
    justification: string,
    chatCalls: seq<ChatCall>,
    judgeCalls: seq<JudgeCall>)

  /** The variables after `m` turns none of which met the criteria. */
  predicate Reached(agentId: string, plan: Plan, remote: Remote, m: nat, st: Progress)
    requires m <= |plan.steps|
  {
    && st.messages == History(plan, remote, m)
    && st.transcript == Transcript(plan, remote, m)
    && st.chatCalls == ChatCalls(agentId, plan, remote, m)
    && st.judgeCalls == StepChecks(plan, remote, m)
  }

  /** One turn: send the user message with the history, record the reply,
      ask the judge. */
  function Turn1(agentId: string, plan: Plan, remote: Remote, i: nat, st: Progress): (r: Progress)
    requires i < |plan.steps|
    ensures |r.transcript| == |st.transcript| + 1
    ensures |r.chatCalls| == |st.chatCalls| + 1 && |r.judgeCalls| == |st.judgeCalls| + 1
    ensures r.met == StepMet(remote.verdicts(i))
    ensures r.justification == StepJustification(remote.verdicts(i))
  {
    var step := plan.steps[i];
    var sent := st.messages + [ChatMessage(User, step.message)];
    var call := ChatCall(agentId, plan.id, sent);
    var reply := AssistantReply(remote.replies(i), remote.serialise);
    var transcript := st.transcript + [Turn(i + 1, step.message, reply)];
    var check := StepCheck(i, transcript);
    var next := Progress(sent + [ChatMessage(Assistant, reply)], transcript, false, st.justification,
                         st.chatCalls + [call], st.judgeCalls + [check]);
    match remote.verdicts(i)
    case Judged(v) =>
      if v.met then next.(met := true, justification := v.justification)
      else next.(justification := v.justification)
    case JudgeFailed(e) => next.(justification := "Evaluation error: " + Describe(e))
  }

  /** Turns `i` to `n - 1`, stopping after the first one the judge accepts. */
  function Steps(agentId: string, plan: Plan, remote: Remote, i: nat, n: nat, st: Progress): (r: Progress)
    requires i <= n <= |plan.steps|
    requires |st.transcript| == i && !st.met
    requires |st.chatCalls| == i && |st.judgeCalls| == i
    ensures i <= |r.transcript| <= n
    ensures |r.chatCalls| == |r.transcript| && |r.judgeCalls| == |r.transcript|
    ensures r.met <==> |r.transcript| > i && StepMet(remote.verdicts(|r.transcript| - 1))
    ensures r.met || |r.transcript| == n
    ensures |r.transcript| > i ==> r.justification == StepJustification(remote.verdicts(|r.transcript| - 1))
    ensures |r.transcript| == i ==> r == st
    decreases n - i
  {
    if i == n then st
    else
      var next := Turn1(agentId, plan, remote, i, st);
      if next.met then next else Steps(agentId, plan, remote, i + 1, n, next)
  }

  /** A turn extends the history, the transcript and both call logs by
      exactly one step. */
  lemma TurnReached(agentId: string, plan: Plan, remote: Remote, i: nat, st: Progress)
    requires i < |plan.steps|
    requires Reached(agentId, plan, remote, i, st)
    ensures Reached(agentId, plan, remote, i + 1, Turn1(agentId, plan, remote, i, st))
  {
  }

  /** Wherever the loop stops, its variables are those of that many turns. */
  lemma {:induction false} StepsReached(agentId: string, plan: Plan, remote: Remote, i: nat, n: nat, st: Progress)
    requires i <= n <= |plan.steps|
    requires Reached(agentId, plan, remote, i, st) && !st.met
    requires |st.chatCalls| == i && |st.judgeCalls| == i
    ensures var r := Steps(agentId, plan, remote, i, n, st);
            Reached(agentId, plan, remote, |r.transcript|, r)
    decreases n - i
  {
    if i < n {
      var next := Turn1(agentId, plan, remote, i, st);
      TurnReached(agentId, plan, remote, i, st);
      if !next.met {
        StepsReached(agentId, plan, remote, i + 1, n, next);
      }
    }
  }

  /** The loop passes every turn before the one it stops at. */
  lemma {:induction false} StepsPassOver(agentId: string, plan: Plan, remote: Remote, i: nat, n: nat, st: Progress)
    requires i <= n <= |plan.steps|
    requires |st.transcript| == i && !st.met
    requires |st.chatCalls| == i && |st.judgeCalls| == i
    ensures var r := Steps(agentId, plan, remote, i, n, st);
            forall k :: i <= k < |r.transcript| - 1 ==> !StepMet(remote.verdicts(k))
    decreases n - i
  {
    if i < n {
      var next := Turn1(agentId, plan, remote, i, st);
      if !next.met {
        StepsPassOver(agentId, plan, remote, i + 1, n, next);
      }
    }
  }

  /** Everything one plan's execution produced. */
  datatype PlanRun = PlanRun(
    result: TestResult,
    messages: seq<ChatMessage>,
    transcript: seq<Turn>,
    chatCalls: seq<ChatCall>,
    judgeCalls: seq<JudgeCall>)

  const Start := Progress([], [], false, "", [], [])

  /** One plan: the bounded step loop, then the final verdict unless a step
      already met the criteria. */
  function RunPlan(agentId: string, plan: Plan, remote: Remote): (r: PlanRun)
    ensures r.result.id == plan.id
    ensures |r.transcript| <= MaxIters(plan)
    ensures |r.chatCalls| == |r.transcript|
    ensures |r.judgeCalls| == |r.transcript| || |r.judgeCalls| == |r.transcript| + 1
  {
    var n := MaxIters(plan);
    var st := Steps(agentId, plan, remote, 0, n, Start);
    if st.met then
      PlanRun(TestResult(plan.id, true, st.justification), st.messages, st.transcript,
              st.chatCalls, st.judgeCalls)
    else
      var calls := st.judgeCalls + [FinalCheck(st.transcript)];
      match remote.verdicts(n)
      case Judged(v) =>
        PlanRun(TestResult(plan.id, v.met, v.justification), st.messages, st.transcript, st.chatCalls, calls)
      case JudgeFailed(e) =>
        var explanation := if st.justification != "" then st.justification
                           else "Final evaluation error: " + Describe(e);
        PlanRun(TestResult(plan.id, false, explanation), st.messages, st.transcript, st.chatCalls, calls)
  }

  /** The k-th transcript entry is numbered k + 1, carries step k's message
      and the recorded reply to it. */
  lemma {:induction false} TranscriptAt(plan: Plan, remote: Remote, m: nat, k: nat)
    requires k < m <= |plan.steps|
    ensures Transcript(plan, remote, m)[k]
            == Turn(k + 1, plan.steps[k].message, AssistantReply(remote.replies(k), remote.serialise))
  {
    if k < m - 1 {
      TranscriptAt(plan, remote, m - 1, k);
    }
  }

  /** The history alternates: the user message of step k, then its reply. */
  lemma {:induction false} HistoryAt(plan: Plan, remote: Remote, m: nat, k: nat)
    requires k < m <= |plan.steps|
    ensures History(plan, remote, m)[2 * k] == ChatMessage(User, plan.steps[k].message)
    ensures History(plan, remote, m)[2 * k + 1]
            == ChatMessage(Assistant, AssistantReply(remote.replies(k), remote.serialise))
  {
    if k < m - 1 {
      HistoryAt(plan, remote, m - 1, k);
    }
  }

  lemma {:induction false} HistoryPrefix(plan: Plan, remote: Remote, j: nat, m: nat)
    requires j <= m <= |plan.steps|
    ensures History(plan, remote, m)[..2 * j] == History(plan, remote, j)
    decreases m - j
  {
    if j < m {
      HistoryPrefix(plan, remote, j, m - 1);
      assert History(plan, remote, m)[..2 * (m - 1)] == History(plan, remote, m - 1);
    }
  }

  /** Chat call k goes to the chosen agent on the plan's thread and carries
      the history of the turns before it followed by step k's user message. */
  lemma {:induction false} ChatCallAt(agentId: string, plan: Plan, remote: Remote, m: nat, k: nat)
    requires k < m <= |plan.steps|
    ensures ChatCalls(agentId, plan, remote, m)[k]
            == ChatCall(agentId, plan.id, History(plan, remote, k) + [ChatMessage(User, plan.steps[k].message)])
  {
    if k < m - 1 {
      ChatCallAt(agentId, plan, remote, m - 1, k);
    }
  }

  lemma {:induction false} TranscriptPrefix(plan: Plan, remote: Remote, j: nat, m: nat)
    requires j <= m <= |plan.steps|
    ensures Transcript(plan, remote, m)[..j] == Transcript(plan, remote, j)
    decreases m - j
  {
    if j < m {
      TranscriptPrefix(plan, remote, j, m - 1);
      assert Transcript(plan, remote, m)[..m - 1] == Transcript(plan, remote, m - 1);
    }
  }

  /** Judge call k checks step k against the transcript of the first k + 1
      turns. */
  lemma {:induction false} StepCheckAt(plan: Plan, remote: Remote, m: nat, k: nat)
    requires k < m <= |plan.steps|
    ensures StepChecks(plan, remote, m)[k] == StepCheck(k, Transcript(plan, remote, k + 1))
  {
    if k < m - 1 {
      StepCheckAt(plan, remote, m - 1, k);
    }
  }

  /** Turn k of the first m: its transcript entry, its two messages, its
      chat request and its step check. */
  lemma TurnShape(agentId: string, plan: Plan, remote: Remote, m: nat, k: nat)
    requires k < m <= |plan.steps|
    ensures var t := Transcript(plan, remote, m);
            var h := History(plan, remote, m);
            && t[k] == Turn(k + 1, plan.steps[k].message, AssistantReply(remote.replies(k), remote.serialise))
            && h[2 * k] == ChatMessage(User, plan.steps[k].message)
            && h[2 * k + 1] == ChatMessage(Assistant, t[k].assistant)
            && ChatCalls(agentId, plan, remote, m)[k] == ChatCall(agentId, plan.id, h[..2 * k + 1])
            && StepChecks(plan, remote, m)[k] == StepCheck(k, t[..k + 1])
  {
    var h := History(plan, remote, m);
    TranscriptAt(plan, remote, m, k);
    HistoryAt(plan, remote, m, k);
    ChatCallAt(agentId, plan, remote, m, k);
    StepCheckAt(plan, remote, m, k);
    TranscriptPrefix(plan, remote, k + 1, m);
    HistoryPrefix(plan, remote, k, m);
    assert h[..2 * k + 1] == h[..2 * k] + [h[2 * k]];
  }

  /** A plan run's logs are those of as many turns as its transcript has. */
  lemma RunPlanReached(agentId: string, plan: Plan, remote: Remote)
    ensures var r := RunPlan(agentId, plan, remote);
            var m := |r.transcript|;
            && m <= |plan.steps| && m <= |r.judgeCalls|
            && r.transcript == Transcript(plan, remote, m)
            && r.messages == History(plan, remote, m)
            && r.chatCalls == ChatCalls(agentId, plan, remote, m)
            && r.judgeCalls[..m] == StepChecks(plan, remote, m)
  {
    StepsReached(agentId, plan, remote, 0, MaxIters(plan), Start);
  }

  /** The shape of a run whose logs are those of its transcript's turns. */
  predicate Shaped(agentId: string, plan: Plan, remote: Remote, r: PlanRun) {
    && |r.messages| == 2 * |r.transcript|
    && |r.chatCalls| >= |r.transcript| && |r.judgeCalls| >= |r.transcript|
    && (forall k :: 0 <= k < |r.transcript| ==>
          && k < |plan.steps|
          && r.transcript[k].step == k + 1
          && r.transcript[k].user == plan.steps[k].message
          && r.transcript[k].assistant == AssistantReply(remote.replies(k), remote.serialise)
          && r.messages[2 * k] == ChatMessage(User, plan.steps[k].message)
          && r.messages[2 * k + 1] == ChatMessage(Assistant, r.transcript[k].assistant)
          && r.chatCalls[k] == ChatCall(agentId, plan.id, r.messages[..2 * k + 1])
          && r.judgeCalls[k] == StepCheck(k, r.transcript[..k + 1]))
  }

  lemma LogsShaped(agentId: string, plan: Plan, remote: Remote, r: PlanRun, m: nat)
    requires m <= |plan.steps| && m <= |r.judgeCalls| && |r.transcript| == m
    requires r.transcript == Transcript(plan, remote, m)
    requires r.messages == History(plan, remote, m)
    requires r.chatCalls == ChatCalls(agentId, plan, remote, m)
    requires r.judgeCalls[..m] == StepChecks(plan, remote, m)
    ensures Shaped(agentId, plan, remote, r)
  {
    forall k | 0 <= k < m
      ensures r.transcript[k].step == k + 1
      ensures r.transcript[k].user == plan.steps[k].message
      ensures r.transcript[k].assistant == AssistantReply(remote.replies(k), remote.serialise)
      ensures r.messages[2 * k] == ChatMessage(User, plan.steps[k].message)
      ensures r.messages[2 * k + 1] == ChatMessage(Assistant, r.transcript[k].assistant)
      ensures r.chatCalls[k] == ChatCall(agentId, plan.id, r.messages[..2 * k + 1])
      ensures r.judgeCalls[k] == StepCheck(k, r.transcript[..k + 1])
    {
      TurnShape(agentId, plan, remote, m, k);
      assert r.judgeCalls[k] == r.judgeCalls[..m][k];
    }
  }

  /** Shape of every plan run: each turn appends one user and one assistant
      message and one transcript entry numbered from 1; each chat call sends
      the full history so far to the chosen agent on the plan's thread, and
      each step check sees the transcript up to its own turn. */
  lemma RunPlanShape(agentId: string, plan: Plan, remote: Remote)
    ensures Shaped(agentId, plan, remote, RunPlan(agentId, plan, remote))
  {
    RunPlanReached(agentId, plan, remote);
    var r := RunPlan(agentId, plan, remote);
    LogsShaped(agentId, plan, remote, r, |r.transcript|);
  }

  /** The first turn, from `from` on, whose check meets the criteria. */
  function FirstMet(remote: Remote, from: nat, n: nat): (r: Option<nat>)
    requires from <= n
    ensures r.Some? ==> from <= r.value < n && StepMet(remote.verdicts(r.value))
    ensures r.Some? ==> forall j :: from <= j < r.value ==> !StepMet(remote.verdicts(j))
    ensures r.None? ==> forall j :: from <= j < n ==> !StepMet(remote.verdicts(j))
    decreases n - from
  {
    if from == n then None
    else if StepMet(remote.verdicts(from)) then Some(from)
    else FirstMet(remote, from + 1, n)
  }

  /** The loop runs up to and including the first accepted turn, and all
      `MaxIters` turns when none is accepted. */
  lemma StepsStopAt(agentId: string, plan: Plan, remote: Remote)
    ensures var n := MaxIters(plan);
            var st := Steps(agentId, plan, remote, 0, n, Start);
            var f := FirstMet(remote, 0, n);
            && (f.Some? ==> st.met && |st.transcript| == f.value + 1)
            && (f.None? ==> !st.met && |st.transcript| == n)
  {
    var n := MaxIters(plan);
    var st := Steps(agentId, plan, remote, 0, n, Start);
    StepsPassOver(agentId, plan, remote, 0, n, Start);
  }

  /** When turn k is the first one the judge accepts, the plan passes with
      that justification after exactly k + 1 chat calls and k + 1 judge calls
      (no final verdict is asked for). */
  lemma EarlyExit(agentId: string, plan: Plan, remote: Remote, k: nat)
    requires k < MaxIters(plan)
    requires StepMet(remote.verdicts(k))
    requires forall j :: 0 <= j < k ==> !StepMet(remote.verdicts(j))
    ensures var r := RunPlan(agentId, plan, remote);
            && r.result == TestResult(plan.id, true, remote.verdicts(k).verdict.justification)
            && |r.chatCalls| == k + 1
            && |r.judgeCalls| == k + 1
            && r.transcript == Transcript(plan, remote, k + 1)
  {
    var n := MaxIters(plan);
    StepsStopAt(agentId, plan, remote);
    StepsReached(agentId, plan, remote, 0, n, Start);
  }

  /** The result the final verdict produces after `n` unaccepted turns. */
  function FinalResult(plan: Plan, remote: Remote, n: nat): TestResult {
    var last := if n > 0 then StepJustification(remote.verdicts(n - 1)) else "";
    match remote.verdicts(n)
    case Judged(v) => TestResult(plan.id, v.met, v.justification)
    case JudgeFailed(e) =>
      TestResult(plan.id, false, if last != "" then last else "Final evaluation error: " + Describe(e))
  }

  /** When no turn is accepted, all `MaxIters` turns run and then exactly one
      final verdict is requested, over the full transcript; it decides the
      result, and if it fails the plan fails with the last justification, or
      with the final-evaluation error when there is none. */
  lemma NoEarlyExit(agentId: string, plan: Plan, remote: Remote)
    requires forall j :: 0 <= j < MaxIters(plan) ==> !StepMet(remote.verdicts(j))
    ensures var n := MaxIters(plan);
            var r := RunPlan(agentId, plan, remote);
            && |r.chatCalls| == n
            && |r.judgeCalls| == n + 1
            && r.transcript == Transcript(plan, remote, n)
            && r.judgeCalls[n] == FinalCheck(r.transcript)
            && r.result == FinalResult(plan, remote, n)
  {
    StepsNoneMet(agentId, plan, remote);
  }

  /** The loop's variables when no turn is accepted. */
  lemma StepsNoneMet(agentId: string, plan: Plan, remote: Remote)
    requires forall j :: 0 <= j < MaxIters(plan) ==> !StepMet(remote.verdicts(j))
    ensures var n := MaxIters(plan);
            var st := Steps(agentId, plan, remote, 0, n, Start);
            && !st.met && |st.transcript| == n
            && Reached(agentId, plan, remote, n, st)
            && st.justification == if n > 0 then StepJustification(remote.verdicts(n - 1)) else ""
  {
    var n := MaxIters(plan);
    StepsStopAt(agentId, plan, remote);
    StepsReached(agentId, plan, remote, 0, n, Start);
  }

  /** A plan whose every step check throws still runs all its turns and
      asks for one final verdict; if that fails too, the explanation is the
      last step's evaluation error. */
  lemma AllStepChecksFail(agentId: string, plan: Plan, remote: Remote)
    requires forall j :: 0 <= j < MaxIters(plan) ==> remote.verdicts(j).JudgeFailed?
    ensures var n := MaxIters(plan);
            var r := RunPlan(agentId, plan, remote);
            && |r.chatCalls| == n
            && |r.judgeCalls| == n + 1
            && (n > 0 && remote.verdicts(n).JudgeFailed? ==>
                  r.result == TestResult(plan.id, false,
                                         "Evaluation error: " + Describe(remote.verdicts(n - 1).failure)))
  {
    NoEarlyExit(agentId, plan, remote);
  }

  /** Transport failures never end a plan: the number of turns and the
      result depend on the judge's outcomes only. */
  lemma RepliesDoNotDecide(agentId: string, plan: Plan, remote1: Remote, remote2: Remote)
    requires forall k :: 0 <= k <= MaxIters(plan) ==> remote1.verdicts(k) == remote2.verdicts(k)
    ensures |RunPlan(agentId, plan, remote1).transcript| == |RunPlan(agentId, plan, remote2).transcript|
    ensures RunPlan(agentId, plan, remote1).result == RunPlan(agentId, plan, remote2).result
  {
    var n := MaxIters(plan);
    var f1 := FirstMet(remote1, 0, n);
    if f1.Some? {
      SameEarlyExit(agentId, plan, remote1, remote2, f1.value);
    } else {
      SameFinalVerdict(agentId, plan, remote1, remote2);
    }
  }

  lemma SameEarlyExit(agentId: string, plan: Plan, remote1: Remote, remote2: Remote, k: nat)
    requires k < MaxIters(plan)
    requires forall j :: 0 <= j <= MaxIters(plan) ==> remote1.verdicts(j) == remote2.verdicts(j)
    requires StepMet(remote1.verdicts(k))
    requires forall j :: 0 <= j < k ==> !StepMet(remote1.verdicts(j))
    ensures |RunPlan(agentId, plan, remote1).transcript| == |RunPlan(agentId, plan, remote2).transcript|
    ensures RunPlan(agentId, plan, remote1).result == RunPlan(agentId, plan, remote2).result
  {
    assert remote1.verdicts(k) == remote2.verdicts(k);
    EarlyExit(agentId, plan, remote1, k);
    EarlyExit(agentId, plan, remote2, k);
  }

  lemma SameFinalVerdict(agentId: string, plan: Plan, remote1: Remote, remote2: Remote)
    requires forall j :: 0 <= j <= MaxIters(plan) ==> remote1.verdicts(j) == remote2.verdicts(j)
    requires forall j :: 0 <= j < MaxIters(plan) ==> !StepMet(remote1.verdicts(j))
    ensures |RunPlan(agentId, plan, remote1).transcript| == |RunPlan(agentId, plan, remote2).transcript|
    ensures RunPlan(agentId, plan, remote1).result == RunPlan(agentId, plan, remote2).result
  {
    var n := MaxIters(plan);
    assert remote1.verdicts(n) == remote2.verdicts(n);
    assert n > 0 ==> remote1.verdicts(n - 1) == remote2.verdicts(n - 1);
    NoEarlyExit(agentId, plan, remote1);
    NoEarlyExit(agentId, plan, remote2);
  }

  /** All plans in order on one agent; each plan sees the outcomes left over
      by the plans before it. */
  function RunPlans(agentId: string, plans: seq<Plan>, remote: Remote): (r: seq<PlanRun>)
    ensures |r| == |plans|
    ensures forall j :: 0 <= j < |plans| ==> r[j].result.id == plans[j].id
    ensures forall j :: 0 <= j < |plans| ==> |r[j].transcript| <= MaxIters(plans[j])
  {
    if |plans| == 0 then []
    else
      var first := RunPlan(agentId, plans[0], remote);
      [first] + RunPlans(agentId, plans[1..], remote.After(|first.chatCalls|, |first.judgeCalls|))
  }

  function Results(runs: seq<PlanRun>): (r: seq<TestResult>)
    ensures |r| == |runs|
    ensures forall j :: 0 <= j < |runs| ==> r[j] == runs[j].result
  {
    seq(|runs|, j requires 0 <= j < |runs| => runs[j].result)
  }

  /** Everything `runPlansAgainstAgent` did. */
  datatype TesterRun = TesterRun(baseUrl: string, agentId: string, runs: seq<PlanRun>, results: seq<TestResult>)

  /** Discover the agents, choose one, run every plan against it.
      `discovered` is what `client.getAgents()` resolved to, or the message
      it rejected with; nothing catches that rejection, so it rejects the
      whole run before any plan starts. */
  function RunPlansAgainstAgent(port: string, mainAgent: Option<string>, plans: seq<Plan>,
                                discovered: Result<seq<AgentEntry>>, remote: Remote): (r: Result<TesterRun>)
    ensures r.Ok? <==> discovered.Ok?
    ensures r.Err? ==> r.error == discovered.error
    ensures r.Ok? ==>
              && r.value.baseUrl == "http://localhost:" + port + "/"
              && r.value.agentId == ChooseAgent(mainAgent, DiscoverAgents(discovered.value, remote.serialise))
              && |r.value.results| == |plans|
              && forall j :: 0 <= j < |plans| ==> r.value.results[j].id == plans[j].id
  {
    match discovered
    case Err(e) => Err(e)
    case Ok(entries) =>
      var agents := DiscoverAgents(entries, remote.serialise);
      var agentId := ChooseAgent(mainAgent, agents);
      var runs := RunPlans(agentId, plans, remote);
      Ok(TesterRun("http://localhost:" + port + "/", agentId, runs, Results(runs)))
  }

  /** Every chat request of every plan goes to the one chosen agent, on the
      thread named after its plan. */
  lemma {:induction false} OneAgentPerReview(agentId: string, plans: seq<Plan>, remote: Remote)
    ensures var runs := RunPlans(agentId, plans, remote);
            forall j, k :: 0 <= j < |plans| && 0 <= k < |runs[j].chatCalls| ==>
              runs[j].chatCalls[k].agentId == agentId && runs[j].chatCalls[k].threadId == plans[j].id
  {
    if |plans| > 0 {
      var first := RunPlan(agentId, plans[0], remote);
      RunPlanShape(agentId, plans[0], remote);
      var rest := remote.After(|first.chatCalls|, |first.judgeCalls|);
      OneAgentPerReview(agentId, plans[1..], rest);
      var runs := RunPlans(agentId, plans, remote);
      assert runs == [first] + RunPlans(agentId, plans[1..], rest);
      forall j, k | 0 <= j < |plans| && 0 <= k < |runs[j].chatCalls|
        ensures runs[j].chatCalls[k].agentId == agentId && runs[j].chatCalls[k].threadId == plans[j].id
      {
        if j > 0 {
          assert runs[j] == RunPlans(agentId, plans[1..], rest)[j - 1];
          assert plans[j] == plans[1..][j - 1];
        }
      }
    }
  }
}
