/** How the plan executor finds the agent to talk to: agent discovery on the
    provisioned server, name normalisation, and the choice between a name
    match, the agent with the most tools, and the literal `"default"`. */
module AgentSelection {
  import opened Wrappers
  import opened Js

  predicate IsLowerLetter(c: char) {
    'a' <= c <= 'z'
  }

  /** `toLowerCase` on one character (ASCII letters only). */
  function LowerChar(c: char): (r: char)
    ensures 'A' <= c <= 'Z' ==> IsLowerLetter(r)
    ensures !('A' <= c <= 'Z') ==> r == c
  {
    if 'A' <= c <= 'Z' then (c as int - 'A' as int + 'a' as int) as char else c
  }

  /** `name.toLowerCase().replace(/[^a-z]/g, "")` */
  function NormalizeAgentName(name: string): (r: string)
    ensures |r| <= |name|
    ensures forall k :: 0 <= k < |r| ==> IsLowerLetter(r[k])
  {
    if |name| == 0 then ""
    else
      var c := LowerChar(name[0]);
      (if IsLowerLetter(c) then [c] else []) + NormalizeAgentName(name[1..])
  }

  /** Normalisation leaves a string of lower-case letters alone. */
  lemma {:induction false} NormalizeFixesLowerLetters(s: string)
    requires forall k :: 0 <= k < |s| ==> IsLowerLetter(s[k])
    ensures NormalizeAgentName(s) == s
  {
    if |s| > 0 {
      NormalizeFixesLowerLetters(s[1..]);
      assert [s[0]] + s[1..] == s;
    }
  }

  /** Normalising twice is normalising once. */
  lemma NormalizeIdempotent(s: string)
    ensures NormalizeAgentName(NormalizeAgentName(s)) == NormalizeAgentName(s)
  {
    NormalizeFixesLowerLetters(NormalizeAgentName(s));
  }

  /** Normalisation works character by character. */
  lemma {:induction false} NormalizeAppend(a: string, b: string)
    ensures NormalizeAgentName(a + b) == NormalizeAgentName(a) + NormalizeAgentName(b)
  {
    if |a| > 0 {
      assert (a + b)[1..] == a[1..] + b;
      NormalizeAppend(a[1..], b);
    } else {
      assert a + b == b;
    }
  }

  datatype AgentInfo = AgentInfo(id: string, name: string, toolsCount: nat)

  /** One entry of the server's agent listing, with the outcome of the
      per-agent details request that is made when the entry carries no tool
      object of its own (`Err` when that request fails). */
  datatype AgentEntry = AgentEntry(id: string, details: Value, detailsTools: Result<Value>)

  /** `String(details?.name ?? id)` */
  function AgentName(e: AgentEntry, serialise: Value -> string): (r: string)
    ensures Get(e.details, "name").Str? ==> r == Get(e.details, "name").s
    ensures Get(e.details, "name").Undefined? || Get(e.details, "name").Null? ==> r == e.id
  {
    var name := Get(e.details, "name");
    if name.Undefined? || name.Null? then e.id else ToText(name, serialise)
  }

  /** An inline tool object is counted by its keys; otherwise the looked-up
      tools are, and a failed lookup counts zero. */
  function ToolsCount(e: AgentEntry): (n: nat)
    ensures Get(e.details, "tools").Obj? ==> n == |Get(e.details, "tools").fields|
    ensures Truthy(e.details) && Get(e.details, "tools").Arr? ==> n == |Get(e.details, "tools").items|
    ensures !(Get(e.details, "tools").Obj? || Get(e.details, "tools").Arr?) && e.detailsTools.Err? ==> n == 0
    ensures !(Truthy(e.details) && (Get(e.details, "tools").Obj? || Get(e.details, "tools").Arr?)) && e.detailsTools.Ok? ==>
              n == (if Truthy(e.detailsTools.value) then KeyCount(e.detailsTools.value) else 0)
  {
    var inline := Get(e.details, "tools");
    if Truthy(e.details) && (inline.Obj? || inline.Arr?) then KeyCount(inline)
    else if e.detailsTools.Ok? && Truthy(e.detailsTools.value) then KeyCount(e.detailsTools.value)
    else 0
  }

  /** An inline tool object or array means no details request is made, so
      its outcome does not matter. */
  lemma InlineToolsSkipLookup(e: AgentEntry, lookup: Result<Value>)
    requires Truthy(e.details) && (Get(e.details, "tools").Obj? || Get(e.details, "tools").Arr?)
    ensures ToolsCount(e.(detailsTools := lookup)) == ToolsCount(e)
  { }

  function DiscoverAgents(entries: seq<AgentEntry>, serialise: Value -> string): (r: seq<AgentInfo>)
    ensures |r| == |entries|
    ensures forall k :: 0 <= k < |r| ==>
              r[k] == AgentInfo(entries[k].id, AgentName(entries[k], serialise), ToolsCount(entries[k]))
  {
    seq(|entries|, k requires 0 <= k < |entries| =>
      AgentInfo(entries[k].id, AgentName(entries[k], serialise), ToolsCount(entries[k])))
  }

  /** Discovery handles each entry on its own, so it splits over the listing. */
  lemma DiscoverAgentsAppend(a: seq<AgentEntry>, b: seq<AgentEntry>, serialise: Value -> string)
    ensures DiscoverAgents(a + b, serialise) == DiscoverAgents(a, serialise) + DiscoverAgents(b, serialise)
  { }

  predicate Matches(a: AgentInfo, target: string) {
    NormalizeAgentName(a.name) == target || NormalizeAgentName(a.id) == target
  }

  /** The first agent at or after `from` whose normalised name or id is
      `target`: the loop that breaks on the first hit. */
  function FirstMatch(agents: seq<AgentInfo>, target: string, from: nat): (r: Option<nat>)
    requires from <= |agents|
    ensures r.Some? ==> from <= r.value < |agents| && Matches(agents[r.value], target)
    ensures r.Some? ==> forall j :: from <= j < r.value ==> !Matches(agents[j], target)
    ensures r.None? ==> forall j :: from <= j < |agents| ==> !Matches(agents[j], target)
    decreases |agents| - from
  {
    if from == |agents| then None
    else if Matches(agents[from], target) then Some(from)
    else FirstMatch(agents, target, from + 1)
  }

  /** `agents.reduce((best, curr) => curr.toolsCount > best.toolsCount ? curr : best)`
      with `best` at index `best` and `curr` running from `next`; the result
      is the earliest agent with the largest tool count. */
  function MostTools(agents: seq<AgentInfo>, best: nat, next: nat): (r: nat)
    requires best < next <= |agents|
    requires forall j :: 0 <= j < next ==> agents[j].toolsCount <= agents[best].toolsCount
    requires forall j :: 0 <= j < best ==> agents[j].toolsCount < agents[best].toolsCount
    ensures r < |agents|
    ensures forall j :: 0 <= j < |agents| ==> agents[j].toolsCount <= agents[r].toolsCount
    ensures forall j :: 0 <= j < r ==> agents[j].toolsCount < agents[r].toolsCount
    decreases |agents| - next
  {
    if next == |agents| then best
    else if agents[next].toolsCount > agents[best].toolsCount then MostTools(agents, next, next + 1)
    else MostTools(agents, best, next + 1)
  }

  /** The agent the executor talks to. A name hint is tried only when it is
      non-empty and agents exist; a hit whose id is the empty string is falsy
      and falls through to the tool-count choice. */
  function ChooseAgent(mainAgent: Option<string>, agents: seq<AgentInfo>): (r: string)
    ensures |agents| == 0 ==> r == "default"
    ensures |agents| > 0 ==> exists k :: 0 <= k < |agents| && r == agents[k].id
  {
    var hinted := mainAgent.Some? && mainAgent.value != "" && |agents| > 0;
    var hit := if hinted then FirstMatch(agents, NormalizeAgentName(mainAgent.value), 0) else None;
    if hit.Some? && agents[hit.value].id != "" then agents[hit.value].id
    else if |agents| > 0 then agents[MostTools(agents, 0, 1)].id
    else "default"
  }

  /** With a usable hint, the chosen agent is the first one in discovery order
      whose normalised name or id equals the normalised hint. */
  lemma ChooseFirstMatch(mainAgent: string, agents: seq<AgentInfo>, k: nat)
    requires mainAgent != "" && k < |agents| && agents[k].id != ""
    requires Matches(agents[k], NormalizeAgentName(mainAgent))
    requires forall j :: 0 <= j < k ==> !Matches(agents[j], NormalizeAgentName(mainAgent))
    ensures ChooseAgent(Some(mainAgent), agents) == agents[k].id
  {
    var hit := FirstMatch(agents, NormalizeAgentName(mainAgent), 0);
    assert hit == Some(k);
  }

  /** Without a usable hit (no hint, no match, or a first match whose id is
      empty), the chosen agent has the most tools, and no agent before it has
      as many. */
  lemma ChooseMostTools(mainAgent: Option<string>, agents: seq<AgentInfo>)
    requires |agents| > 0
    requires mainAgent.None? || mainAgent.value == ""
             || (forall j :: 0 <= j < |agents| ==> !Matches(agents[j], NormalizeAgentName(mainAgent.value)))
             || (var hit := FirstMatch(agents, NormalizeAgentName(mainAgent.value), 0);
                 hit.Some? && agents[hit.value].id == "")
    ensures exists k :: 0 <= k < |agents| && ChooseAgent(mainAgent, agents) == agents[k].id
              && (forall j :: 0 <= j < |agents| ==> agents[j].toolsCount <= agents[k].toolsCount)
              && (forall j :: 0 <= j < k ==> agents[j].toolsCount < agents[k].toolsCount)
  {
    var k := MostTools(agents, 0, 1);
    assert ChooseAgent(mainAgent, agents) == agents[k].id;
  }
}
