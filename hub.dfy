/** The prototype agent-communication hub: agent registration, message routing with
    communication-pattern counting, the fixed implementation plan, coordination-pattern
    learning and the normalisation of the three vendors' replies. */
module AgentHub {
  import opened Wrappers
  import Json
  import PyStr

  datatype AgentType = ClaudeOpus | Codex | Gemini {
    /** The enum's `.value`. */
    function Value(): string
    {
      match this
      case ClaudeOpus => "claude_4_opus"
      case Codex => "openai_codex"
      case Gemini => "gemini_2.5_pro"
    }
  }

  datatype TaskType = CodeReview | Implementation | Research | Optimization {
    function Value(): string
    {
      match this
      case CodeReview => "code_review"
      case Implementation => "implementation"
      case Research => "research"
      case Optimization => "optimization"
    }
  }

  datatype AgentMessage = AgentMessage(
    sender: AgentType,
    recipient: AgentType,
    messageType: string,
    payload: map<string, Json.Value>,
    correlationId: string,
    timestamp: string,
    priority: int)

  datatype TaskRequest = TaskRequest(
    taskId: string,
    taskType: TaskType,
    description: string,
    context: map<string, Json.Value>,
    requirements: seq<string>,
    assignedAgents: seq<AgentType>)

  /** An entry of `active_agents`. */
  datatype AgentEntry = AgentEntry(
    config: map<string, Json.Value>,
    status: string,
    currentTasks: seq<Json.Value>,
    performanceMetrics: map<string, Json.Value>)

  /** `subtask` of a plan step. */
  datatype Subtask = Subtask(kind: string, description: string, context: map<string, Json.Value>)

  /** A plan step; an absent `depends_on` or `broadcast_results` is the empty list. */
  datatype Step = Step(
    stepId: string,
    assignedAgent: AgentType,
    subtask: Subtask,
    dependsOn: seq<string>,
    broadcastResults: seq<AgentType>)

  /** An entry of `successful_plans`. */
  datatype PlanRecord = PlanRecord(plan: seq<Step>, metrics: Json.Value, timestamp: real)

  /** The two record shapes the source keeps in `coordination_patterns`: per-message-kind
      counters and per-task-shape plan histories. */
  datatype Pattern =
    | Communication(count: nat, successRate: real, avgResponseTime: real, contextPatterns: seq<Json.Value>)
    | Coordination(successfulPlans: seq<PlanRecord>, failedPlans: seq<PlanRecord>,
                   optimizationOpportunities: seq<Json.Value>)

  /** The reply every `_parse_*_response` helper produces. */
  datatype Reply = Reply(agent: AgentType, content: Json.Value, metadata: Json.Value, success: bool)

  // ---------------------------------------------------------------- pattern keys

  /** "sender->recipient:type". */
  function PatternKey(m: AgentMessage): (k: string)
    ensures '>' in k
  {
    var arrow := "->";
    assert arrow[1] == '>';
    m.sender.Value() + arrow + m.recipient.Value() + ":" + m.messageType
  }

  /** "type:Nagents". */
  function PlanKey(task: TaskRequest): (k: string)
    ensures '>' !in k
  {
    var digits := PyStr.NatToString(|task.assignedAgents|);
    assert '>' !in digits;
    task.taskType.Value() + ":" + digits + "agents"
  }

  /** A message key and a plan key never coincide, so the two record shapes never collide. */
  lemma KeysDisjoint(m: AgentMessage, task: TaskRequest)
    ensures PatternKey(m) != PlanKey(task)
  {
  }

  /** Every message key holds a counter and every plan key a plan history. */
  ghost predicate PatternsValid(p: map<string, Pattern>)
  {
    forall k :: k in p ==> (p[k].Communication? <==> '>' in k)
  }

  /** The number of messages logged under a key. */
  function Count(p: map<string, Pattern>, key: string): nat
  {
    if key in p && p[key].Communication? then p[key].count else 0
  }

  /** `_log_communication_pattern`: a fresh zeroed counter on first use, then one more count. */
  function Logged(p: map<string, Pattern>, m: AgentMessage): (r: map<string, Pattern>)
    requires PatternsValid(p)
    ensures PatternsValid(r)
    ensures r.Keys == p.Keys + {PatternKey(m)}
    ensures Count(r, PatternKey(m)) == Count(p, PatternKey(m)) + 1
    ensures forall k :: k in p && k != PatternKey(m) ==> r[k] == p[k]
  {
    var key := PatternKey(m);
    var entry := if key in p then p[key] else Communication(0, 0.0, 0.0, []);
    p[key := entry.(count := entry.count + 1)]
  }

  /** `patterns[key]['count'] += 1` on a counter. */
  function Incremented(p: map<string, Pattern>, key: string): (r: map<string, Pattern>)
    requires key in p && p[key].Communication?
    ensures r.Keys == p.Keys
  {
    p[key := p[key].(count := p[key].count + 1)]
  }

  /** Creating the counter when it is missing and then incrementing it is `Logged`. */
  lemma LoggedAsWritten(p: map<string, Pattern>, m: AgentMessage)
    requires PatternsValid(p)
    ensures var key := PatternKey(m);
            var created := if key in p then p else p[key := Communication(0, 0.0, 0.0, [])];
            key in created && created[key].Communication? &&
            Incremented(created, key) == Logged(p, m)
  {
  }

  /** A run of messages logged oldest first. */
  function LoggedAll(p: map<string, Pattern>, ms: seq<AgentMessage>): (r: map<string, Pattern>)
    requires PatternsValid(p)
    ensures PatternsValid(r)
  {
    if ms == [] then p else Logged(LoggedAll(p, ms[..|ms| - 1]), ms[|ms| - 1])
  }

  /** How many messages of a run have the given key. */
  function KeyCount(ms: seq<AgentMessage>, key: string): nat
  {
    if ms == [] then 0
    else KeyCount(ms[..|ms| - 1], key) + (if PatternKey(ms[|ms| - 1]) == key then 1 else 0)
  }

  /** After logging a run, each key's count has grown by exactly the number of its messages,
      and a key none of them has is left as it was. */
  lemma {:induction false} CountAfterLogging(p: map<string, Pattern>, ms: seq<AgentMessage>, key: string)
    requires PatternsValid(p)
    ensures Count(LoggedAll(p, ms), key) == Count(p, key) + KeyCount(ms, key)
    ensures KeyCount(ms, key) == 0 ==>
              (key in LoggedAll(p, ms) <==> key in p) &&
              (key in p ==> LoggedAll(p, ms)[key] == p[key])
  {
    if ms != [] {
      CountAfterLogging(p, ms[..|ms| - 1], key);
      var before := LoggedAll(p, ms[..|ms| - 1]);
      var m := ms[|ms| - 1];
      if PatternKey(m) != key {
        assert key in Logged(before, m) <==> key in before;
        assert key in before ==> Logged(before, m)[key] == before[key];
      }
    }
  }

  /** From an empty table, n messages with the same key leave exactly n counted. */
  lemma CountFromEmpty(ms: seq<AgentMessage>, key: string)
    requires forall i :: 0 <= i < |ms| ==> PatternKey(ms[i]) == key
    ensures Count(LoggedAll(map[], ms), key) == |ms|
  {
    CountAfterLogging(map[], ms, key);
    AllKeyCount(ms, key);
  }

  lemma {:induction false} AllKeyCount(ms: seq<AgentMessage>, key: string)
    requires forall i :: 0 <= i < |ms| ==> PatternKey(ms[i]) == key
    ensures KeyCount(ms, key) == |ms|
  {
    if ms != [] {
      AllKeyCount(ms[..|ms| - 1], key);
    }
  }

  // ---------------------------------------------------------------- task plans

  /** Every `depends_on` entry names a step that comes earlier. */
  predicate DependenciesEarlier(steps: seq<Step>)
  {
    forall i, d :: 0 <= i < |steps| && d in steps[i].dependsOn ==>
      exists j :: 0 <= j < i && steps[j].stepId == d
  }

  /** `_create_task_plan`: the three-step review/implement/optimise plan for an
      implementation task, and no steps for any other kind. */
  function CreateTaskPlan(task: TaskRequest): (steps: seq<Step>)
    ensures task.taskType == Implementation ==>
              |steps| == 3 &&
              steps[0].stepId == "architecture_review" && steps[0].assignedAgent == ClaudeOpus &&
              steps[1].stepId == "implementation" && steps[1].assignedAgent == Codex &&
              steps[2].stepId == "optimization" && steps[2].assignedAgent == Gemini &&
              steps[1].subtask.description == task.description
    ensures task.taskType != Implementation ==> steps == []
    ensures DependenciesEarlier(steps)
    ensures forall i :: 0 <= i < |steps| ==> steps[i].subtask.context == task.context
    ensures forall i :: 0 <= i < |steps| ==> steps[i].assignedAgent !in steps[i].broadcastResults
  {
    if task.taskType == Implementation then
      var review := Step("architecture_review", ClaudeOpus,
                         Subtask("architecture_analysis", "Review architecture for: " + task.description, task.context),
                         [], [Codex]);
      var implement := Step("implementation", Codex,
                            Subtask("code_generation", task.description, task.context),
                            ["architecture_review"], [ClaudeOpus, Gemini]);
      var optimise := Step("optimization", Gemini,
                           Subtask("performance_analysis", "Optimize implementation for: " + task.description, task.context),
                           ["implementation"], []);
      var steps := [review, implement, optimise];
      assert steps[0].stepId == "architecture_review" && steps[1].stepId == "implementation";
      steps
    else
      []
  }

  // ---------------------------------------------------------------- reply parsing

  /** `d.get(listKey, [{}])[0].get(field, default)`. */
  function FirstField(d: Json.Value, listKey: string, field: string, default: Json.Value): (r: Result<Json.Value, string>)
    ensures !d.Obj? ==> r.Failure?
    ensures d.Obj? && listKey !in d.fields ==> r == Success(default)
    ensures d.Obj? && listKey in d.fields ==>
              (r.Success? <==> d.fields[listKey].List? && d.fields[listKey].items != [] &&
                               d.fields[listKey].items[0].Obj?)
    ensures r.Success? && listKey in d.fields ==>
              r == Json.GetOr(d.fields[listKey].items[0], field, default)
  {
    var list := Json.GetOr(d, listKey, Json.List([Json.Obj(map[])]));
    if list.Failure? then Failure(list.error)
    else
      var first := Json.First(list.value);
      if first.Failure? then Failure(first.error)
      else Json.GetOr(first.value, field, default)
  }

  /** `d.get(key, {})` for the metadata; the reply is only built when the whole path succeeded. */
  function Metadata(d: Json.Value, key: string): Json.Value
  {
    if d.Obj? && key in d.fields then d.fields[key] else Json.Obj(map[])
  }

  /** `_parse_claude_response`: `content[0].text`. */
  function ParseClaude(response: Json.Value): (r: Result<Reply, string>)
    ensures r.Success? ==> r.value.agent == ClaudeOpus && r.value.success
    ensures !response.Obj? ==> r.Failure?
    ensures response.Obj? && "content" !in response.fields ==>
              r == Success(Reply(ClaudeOpus, Json.Str(""), Metadata(response, "usage"), true))
    ensures response.Obj? && "content" in response.fields &&
            response.fields["content"].List? && response.fields["content"].items != [] &&
            response.fields["content"].items[0].Obj? && "text" in response.fields["content"].items[0].fields ==>
              r == Success(Reply(ClaudeOpus, response.fields["content"].items[0].fields["text"],
                                 Metadata(response, "usage"), true))
  {
    var text := FirstField(response, "content", "text", Json.Str(""));
    if text.Failure? then Failure(text.error)
    else Success(Reply(ClaudeOpus, text.value, Json.GetOr(response, "usage", Json.Obj(map[])).value, true))
  }

  /** `_parse_codex_response`: `choices[0].message.content`. */
  function ParseCodex(response: Json.Value): (r: Result<Reply, string>)
    ensures r.Success? ==> r.value.agent == Codex && r.value.success
    ensures !response.Obj? ==> r.Failure?
    ensures response.Obj? && "choices" !in response.fields ==>
              r == Success(Reply(Codex, Json.Str(""), Metadata(response, "usage"), true))
    ensures response.Obj? && "choices" in response.fields &&
            response.fields["choices"].List? && response.fields["choices"].items != [] &&
            response.fields["choices"].items[0].Obj? && "message" in response.fields["choices"].items[0].fields &&
            response.fields["choices"].items[0].fields["message"].Obj? &&
            "content" in response.fields["choices"].items[0].fields["message"].fields ==>
              r == Success(Reply(Codex, response.fields["choices"].items[0].fields["message"].fields["content"],
                                 Metadata(response, "usage"), true))
  {
    var message := FirstField(response, "choices", "message", Json.Obj(map[]));
    if message.Failure? then Failure(message.error)
    else
      var content := Json.GetOr(message.value, "content", Json.Str(""));
      if content.Failure? then Failure(content.error)
      else Success(Reply(Codex, content.value, Json.GetOr(response, "usage", Json.Obj(map[])).value, true))
  }

  /** `_parse_gemini_response`: `candidates[0].content.parts[0].text`. */
  function ParseGemini(response: Json.Value): (r: Result<Reply, string>)
    ensures r.Success? ==> r.value.agent == Gemini && r.value.success
    ensures !response.Obj? ==> r.Failure?
    ensures response.Obj? && "candidates" !in response.fields ==>
              r == Success(Reply(Gemini, Json.Str(""), Metadata(response, "usageMetadata"), true))
    ensures response.Obj? && "candidates" in response.fields &&
            response.fields["candidates"].List? && response.fields["candidates"].items != [] &&
            response.fields["candidates"].items[0].Obj? &&
            "content" in response.fields["candidates"].items[0].fields ==>
              var content := response.fields["candidates"].items[0].fields["content"];
              content.Obj? && "parts" in content.fields && content.fields["parts"].List? &&
              content.fields["parts"].items != [] && content.fields["parts"].items[0].Obj? &&
              "text" in content.fields["parts"].items[0].fields ==>
                r == Success(Reply(Gemini, content.fields["parts"].items[0].fields["text"],
                                   Metadata(response, "usageMetadata"), true))
  {
    var content := FirstField(response, "candidates", "content", Json.Obj(map[]));
    if content.Failure? then Failure(content.error)
    else
      var text := FirstField(content.value, "parts", "text", Json.Str(""));
      if text.Failure? then Failure(text.error)
      else Success(Reply(Gemini, text.value, Json.GetOr(response, "usageMetadata", Json.Obj(map[])).value, true))
  }

  /** The parser of the recipient's backend. */
  function ParseReply(agent: AgentType, response: Json.Value): (r: Result<Reply, string>)
    ensures r.Success? ==> r.value.agent == agent && r.value.success
  {
    match agent
    case ClaudeOpus => ParseClaude(response)
    case Codex => ParseCodex(response)
    case Gemini => ParseGemini(response)
  }

  /** The outcome of `send_message` after logging: the recipient's own configuration and API
      key are looked up (a missing one raises `KeyError`), its backend answers, and that
      backend's parser normalises the answer. `api` stands for the HTTP call. */
  function Routed(agents: map<AgentType, AgentEntry>, m: AgentMessage,
                  api: (AgentType, Json.Value, AgentMessage) -> Json.Value): (r: Result<Reply, string>)
    ensures m.recipient !in agents ==> r.Failure?
    ensures m.recipient in agents && "api_key" !in agents[m.recipient].config ==> r.Failure?
    ensures m.recipient in agents && "api_key" in agents[m.recipient].config ==>
              r == ParseReply(m.recipient, api(m.recipient, agents[m.recipient].config["api_key"], m))
    ensures r.Success? ==> r.value.agent == m.recipient
  {
    if m.recipient !in agents then Failure("KeyError: " + m.recipient.Value())
    else
      var config := agents[m.recipient].config;
      if "api_key" !in config then Failure("KeyError: 'api_key'")
      else ParseReply(m.recipient, api(m.recipient, config["api_key"], m))
  }

  /** The key and initial record `_update_coordination_patterns` uses for a task. */
  function Plans(p: map<string, Pattern>, key: string): seq<PlanRecord>
  {
    if key in p && p[key].Coordination? then p[key].successfulPlans else []
  }

  // ---------------------------------------------------------------- the hub

  /** `AgentCommunicationHub`. */
  class AgentCommunicationHub {
    var activeAgents: map<AgentType, AgentEntry>
    var taskHistory: seq<Json.Value>
    var coordinationPatterns: map<string, Pattern>

    ghost predicate Valid()
      reads this
    {
      PatternsValid(coordinationPatterns)
    }

    constructor()
      ensures Valid()
      ensures activeAgents == map[] && taskHistory == [] && coordinationPatterns == map[]
    {
      activeAgents := map[];
      taskHistory := [];
      coordinationPatterns := map[];
    }

    /** `register_agent`: a fresh available entry with the given configuration, replacing any
        earlier registration of the same agent. */
    method RegisterAgent(agentType: AgentType, apiConfig: map<string, Json.Value>)
      modifies this
      ensures activeAgents == old(activeAgents)[agentType := AgentEntry(apiConfig, "available", [], map[])]
      ensures coordinationPatterns == old(coordinationPatterns) && taskHistory == old(taskHistory)
    {
      activeAgents := activeAgents[agentType := AgentEntry(apiConfig, "available", [], map[])];
    }

    /** `_log_communication_pattern`. */
    method LogCommunicationPattern(m: AgentMessage)
      requires Valid()
      modifies this
      ensures Valid()
      ensures coordinationPatterns == Logged(old(coordinationPatterns), m)
      ensures Count(coordinationPatterns, PatternKey(m)) == Count(old(coordinationPatterns), PatternKey(m)) + 1
      ensures activeAgents == old(activeAgents) && taskHistory == old(taskHistory)
    {
      var key := PatternKey(m);
      var patterns := coordinationPatterns;
      if key !in patterns {
        patterns := patterns[key := Communication(0, 0.0, 0.0, [])];
      }
      patterns := Incremented(patterns, key);
      LoggedAsWritten(coordinationPatterns, m);
      coordinationPatterns := patterns;
    }

    /** `send_message`: the message is logged before it is routed to its recipient's backend. */
    method SendMessage(m: AgentMessage, api: (AgentType, Json.Value, AgentMessage) -> Json.Value)
      returns (r: Result<Reply, string>)
      requires Valid()
      modifies this
      ensures Valid()
      ensures coordinationPatterns == Logged(old(coordinationPatterns), m)
      ensures activeAgents == old(activeAgents) && taskHistory == old(taskHistory)
      ensures r == Routed(old(activeAgents), m, api)
    {
      LogCommunicationPattern(m);
      if m.recipient !in activeAgents {
        return Failure("KeyError: " + m.recipient.Value());
      }
      var config := activeAgents[m.recipient].config;
      if "api_key" !in config {
        return Failure("KeyError: 'api_key'");
      }
      var response := api(m.recipient, config["api_key"], m);
      r := ParseReply(m.recipient, response);
    }

    /** `_update_coordination_patterns`, given the success metrics and the loop time the
        source obtains elsewhere: a task's plan history is created on first use, and the
        plan is recorded only when the overall success exceeds 0.8. */
    method UpdateCoordinationPatterns(task: TaskRequest, plan: seq<Step>, overallSuccess: real,
                                      metrics: Json.Value, now: real)
      requires Valid()
      modifies this
      ensures Valid()
      ensures PlanKey(task) in coordinationPatterns && coordinationPatterns[PlanKey(task)].Coordination?
      ensures Plans(coordinationPatterns, PlanKey(task)) ==
                Plans(old(coordinationPatterns), PlanKey(task)) +
                (if overallSuccess > 0.8 then [PlanRecord(plan, metrics, now)] else [])
      ensures coordinationPatterns.Keys == old(coordinationPatterns).Keys + {PlanKey(task)}
      ensures forall k :: k in old(coordinationPatterns) && k != PlanKey(task) ==>
                coordinationPatterns[k] == old(coordinationPatterns)[k]
      ensures activeAgents == old(activeAgents) && taskHistory == old(taskHistory)
    {
      var key := PlanKey(task);
      if key !in coordinationPatterns {
        coordinationPatterns := coordinationPatterns[key := Coordination([], [], [])];
      }
      if overallSuccess > 0.8 {
        var entry := coordinationPatterns[key];
        coordinationPatterns := coordinationPatterns[key := entry.(successfulPlans := entry.successfulPlans + [PlanRecord(plan, metrics, now)])];
      }
    }
  }
}
