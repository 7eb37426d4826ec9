/** The multi-agent coordination framework: an agent registry, a task table, best-agent
    selection by capability and workload, task lifecycles, and a FIFO message bus. */
module AgentIntegration {
  import opened Wrappers
  import opened Json
  import PyDict

  datatype Capability =
    | CodeGeneration | NaturalLanguage | ResearchAnalysis | SystemArchitecture | DataAnalysis
    | CreativeWriting | Debugging | Optimization | Integration | Monitoring
  {
    function Value(): string
    {
      match this
      case CodeGeneration => "code_generation"
      case NaturalLanguage => "natural_language"
      case ResearchAnalysis => "research_analysis"
      case SystemArchitecture => "system_architecture"
      case DataAnalysis => "data_analysis"
      case CreativeWriting => "creative_writing"
      case Debugging => "debugging"
      case Optimization => "optimization"
      case Integration => "integration"
      case Monitoring => "monitoring"
    }
  }

  datatype Priority = Critical | High | Medium | Low
  {
    function Value(): string
    {
      match this
      case Critical => "critical"
      case High => "high"
      case Medium => "medium"
      case Low => "low"
    }

    /** The weight a task of this priority adds to its agent's workload. */
    function Weight(): (w: real)
      ensures 0.5 <= w <= 3.0
    {
      match this
      case Critical => 3.0
      case High => 2.0
      case Medium => 1.0
      case Low => 0.5
    }
  }

  /** `TaskPriority(s)`: the priority whose string value is `s`, if any. */
  function PriorityFromValue(s: string): (r: Option<Priority>)
    ensures r.Some? ==> r.value.Value() == s
  {
    if s == "critical" then Some(Critical)
    else if s == "high" then Some(High)
    else if s == "medium" then Some(Medium)
    else if s == "low" then Some(Low)
    else None
  }

  lemma PriorityValueRoundTrip(p: Priority)
    ensures PriorityFromValue(p.Value()) == Some(p)
  {
  }

  datatype TaskStatus = NotStarted | InProgress | Blocked | NeedsReview | Completed | Failed
  {
    function Value(): string
    {
      match this
      case NotStarted => "not_started"
      case InProgress => "in_progress"
      case Blocked => "blocked"
      case NeedsReview => "needs_review"
      case Completed => "completed"
      case Failed => "failed"
    }
  }

  /** An inter-agent message. The timestamp is carried as its `isoformat()` text, which
      stands for the `datetime` it denotes. */
  datatype Message = Message(
    sender: string,
    recipient: string,
    taskId: string,
    messageType: string,
    priority: Priority,
    content: map<string, Value>,
    timestamp: string,
    correlationId: Option<string>)

  const MessageKeys: set<string> :=
    {"sender", "recipient", "task_id", "message_type", "priority", "content", "timestamp", "correlation_id"}

  /** `AgentMessage.to_dict`. */
  function ToDict(m: Message): (d: map<string, Value>)
    ensures d.Keys == MessageKeys
    ensures d["priority"] == Str(m.priority.Value())
  {
    map[
      "sender" := Str(m.sender),
      "recipient" := Str(m.recipient),
      "task_id" := Str(m.taskId),
      "message_type" := Str(m.messageType),
      "priority" := Str(m.priority.Value()),
      "content" := Obj(m.content),
      "timestamp" := Str(m.timestamp),
      "correlation_id" := if m.correlationId.Some? then Str(m.correlationId.value) else Null
    ]
  }

  function StrField(d: map<string, Value>, key: string): (r: Result<string, string>)
    ensures r.Success? <==> key in d && d[key].Str?
    ensures r.Success? ==> r.value == d[key].s
  {
    if key !in d then Failure("KeyError: " + key)
    else if !d[key].Str? then Failure("not a string: " + key)
    else Success(d[key].s)
  }

  /** The keys `from_dict` needs, each holding a value of the expected shape; the
      timestamp must also be text `fromIsoFormat` accepts. */
  predicate Readable(d: map<string, Value>, fromIsoFormat: string -> Option<string>)
  {
    && StrField(d, "sender").Success? && StrField(d, "recipient").Success?
    && StrField(d, "task_id").Success? && StrField(d, "message_type").Success?
    && StrField(d, "priority").Success? && PriorityFromValue(d["priority"].s).Some?
    && "content" in d && d["content"].Obj?
    && StrField(d, "timestamp").Success? && fromIsoFormat(d["timestamp"].s).Some?
    && ("correlation_id" in d ==> d["correlation_id"].Null? || d["correlation_id"].Str?)
  }

  /** `AgentMessage.from_dict`: reads the fields in the order the constructor call evaluates
      them and fails on the first one that is missing or malformed.  `fromIsoFormat(s)` is
      `datetime.fromisoformat(s).isoformat()`, or None where `fromisoformat` raises
      ValueError: the parse is a parameter, and only its outcome is modelled. */
  function FromDict(d: map<string, Value>, fromIsoFormat: string -> Option<string>): (r: Result<Message, string>)
    ensures r.Success? <==> Readable(d, fromIsoFormat)
    ensures "timestamp" in d && d["timestamp"].Str? && fromIsoFormat(d["timestamp"].s).None? ==> r.Failure?
    ensures r.Success? ==>
              && r.value.sender == d["sender"].s && r.value.recipient == d["recipient"].s
              && r.value.taskId == d["task_id"].s && r.value.messageType == d["message_type"].s
              && r.value.priority.Value() == d["priority"].s && r.value.content == d["content"].fields
              && r.value.timestamp == fromIsoFormat(d["timestamp"].s).value
              && r.value.correlationId == (if "correlation_id" in d && d["correlation_id"].Str?
                                           then Some(d["correlation_id"].s) else None)
  {
    var sender := StrField(d, "sender");
    var recipient := StrField(d, "recipient");
    var taskId := StrField(d, "task_id");
    var messageType := StrField(d, "message_type");
    var priority := StrField(d, "priority");
    var timestamp := StrField(d, "timestamp");
    if sender.Failure? then Failure(sender.error)
    else if recipient.Failure? then Failure(recipient.error)
    else if taskId.Failure? then Failure(taskId.error)
    else if messageType.Failure? then Failure(messageType.error)
    else if priority.Failure? then Failure(priority.error)
    else if PriorityFromValue(priority.value).None? then Failure("ValueError: priority")
    else if "content" !in d then Failure("KeyError: content")
    else if !d["content"].Obj? then Failure("not a dict: content")
    else if timestamp.Failure? then Failure(timestamp.error)
    else if fromIsoFormat(timestamp.value).None? then Failure("ValueError: timestamp")
    else if "correlation_id" in d && !(d["correlation_id"].Null? || d["correlation_id"].Str?) then
      Failure("not a string: correlation_id")
    else
      var correlation :=
        if "correlation_id" in d && d["correlation_id"].Str? then Some(d["correlation_id"].s) else None;
      Success(Message(sender.value, recipient.value, taskId.value, messageType.value,
                      PriorityFromValue(priority.value).value, d["content"].fields,
                      fromIsoFormat(timestamp.value).value, correlation))
  }

  /** Serialising a message and reading it back reproduces it field by field, given that
      `isoformat()` text parses back to the same instant. */
  lemma MessageRoundTrip(m: Message, fromIsoFormat: string -> Option<string>)
    requires fromIsoFormat(m.timestamp) == Some(m.timestamp)
    ensures FromDict(ToDict(m), fromIsoFormat) == Success(m)
  {
    PriorityValueRoundTrip(m.priority);
  }

  /** Whatever `from_dict` accepts, `to_dict` writes back: every key but the timestamp
      unchanged, the timestamp in its normalised `isoformat()` form (a missing
      `correlation_id` comes back as an explicit null). */
  lemma FromDictToDict(d: map<string, Value>, fromIsoFormat: string -> Option<string>)
    requires FromDict(d, fromIsoFormat).Success?
    ensures forall k :: k in MessageKeys && k != "correlation_id" && k != "timestamp" ==>
              k in d && ToDict(FromDict(d, fromIsoFormat).value)[k] == d[k]
    ensures "timestamp" in d && d["timestamp"].Str?
    ensures ToDict(FromDict(d, fromIsoFormat).value)["timestamp"] == Str(fromIsoFormat(d["timestamp"].s).value)
    ensures "correlation_id" in d ==>
              ToDict(FromDict(d, fromIsoFormat).value)["correlation_id"] == d["correlation_id"]
  {
    var m := FromDict(d, fromIsoFormat).value;
    assert m.priority.Value() == d["priority"].s;
  }

  /** A list of strings as a JSON-like value. */
  function StrList(xs: seq<string>): Value
  {
    List(seq(|xs|, i requires 0 <= i < |xs| => Str(xs[i])))
  }

  /** The string values of a list of capabilities. */
  function CapabilityValues(cs: seq<Capability>): seq<string>
  {
    seq(|cs|, i requires 0 <= i < |cs| => cs[i].Value())
  }

  /** A task definition. Tasks are shared by reference between task table and the
      active-task maps of the agents they are assigned to. */
  class Task {
    const taskId: string
    const title: string
    const description: string
    const requiredCapabilities: seq<Capability>
    const priority: Priority
    const deadline: Option<string>
    const dependencies: seq<string>
    const deliverables: seq<string>
    var context: map<string, Value>
    var status: TaskStatus
    var assignedAgents: seq<string>

    constructor (taskId: string, title: string, description: string,
                 requiredCapabilities: seq<Capability>, priority: Priority,
                 deadline: Option<string>, dependencies: seq<string>,
                 context: map<string, Value>, deliverables: seq<string>)
      ensures this.taskId == taskId && this.title == title && this.description == description
      ensures this.requiredCapabilities == requiredCapabilities && this.priority == priority
      ensures this.deadline == deadline && this.dependencies == dependencies
      ensures this.deliverables == deliverables && this.context == context
      ensures status == NotStarted && assignedAgents == []
    {
      this.taskId := taskId;
      this.title := title;
      this.description := description;
      this.requiredCapabilities := requiredCapabilities;
      this.priority := priority;
      this.deadline := deadline;
      this.dependencies := dependencies;
      this.deliverables := deliverables;
      this.context := context;
      status := NotStarted;
      assignedAgents := [];
    }
  }

  /** The attribute names of a task definition, in declaration order. */
  const TaskFields: seq<string> :=
    ["task_id", "title", "description", "required_capabilities", "priority", "deadline",
     "dependencies", "context", "deliverables", "status", "assigned_agents"]

  /** `task.__dict__` as carried in a `task_assignment` message (enum members by value), for
      a task's constant attributes and the given values of its mutable ones. */
  function TaskValue(t: Task, context: map<string, Value>, status: TaskStatus, assignees: seq<string>): (r: Value)
    ensures r.Obj? && forall n :: n in r.fields <==> n in TaskFields
    ensures r.fields["task_id"] == Str(t.taskId)
    ensures r.fields["priority"] == Str(t.priority.Value())
    ensures r.fields["status"] == Str(status.Value())
    ensures r.fields["assigned_agents"] == StrList(assignees)
  {
    Obj(map[
      "task_id" := Str(t.taskId),
      "title" := Str(t.title),
      "description" := Str(t.description),
      "required_capabilities" := StrList(CapabilityValues(t.requiredCapabilities)),
      "priority" := Str(t.priority.Value()),
      "deadline" := if t.deadline.Some? then Str(t.deadline.value) else Null,
      "dependencies" := StrList(t.dependencies),
      "context" := Obj(context),
      "deliverables" := StrList(t.deliverables),
      "status" := Str(status.Value()),
      "assigned_agents" := StrList(assignees)
    ])
  }

  /** Sum of the priority weights of `ts`. */
  function WeightSum(ts: seq<Task>): (w: real)
    ensures w >= 0.0
    ensures ts != [] ==> w >= 0.5
  {
    if ts == [] then 0.0 else WeightSum(ts[..|ts| - 1]) + ts[|ts| - 1].priority.Weight()
  }

  lemma {:induction false} WeightSumConcat(a: seq<Task>, b: seq<Task>)
    ensures WeightSum(a + b) == WeightSum(a) + WeightSum(b)
  {
    if b == [] {
      assert a + b == a;
    } else {
      assert (a + b)[..|a + b| - 1] == a + b[..|b| - 1];
      WeightSumConcat(a, b[..|b| - 1]);
    }
  }

  /** Replacing one task replaces its weight. */
  lemma WeightSumUpdate(ts: seq<Task>, i: nat, t: Task)
    requires i < |ts|
    ensures WeightSum(ts[i := t]) == WeightSum(ts) - ts[i].priority.Weight() + t.priority.Weight()
  {
    var pre, post := ts[..i], ts[i + 1..];
    assert ts == (pre + [ts[i]]) + post;
    assert ts[i := t] == (pre + [t]) + post;
    WeightSumSingle(ts[i]);
    WeightSumSingle(t);
    WeightSumConcat(pre + [ts[i]], post);
    WeightSumConcat(pre + [t], post);
    WeightSumConcat(pre, [ts[i]]);
    WeightSumConcat(pre, [t]);
  }

  /** Dropping one task takes its weight away. */
  lemma WeightSumRemoveAt(ts: seq<Task>, i: nat)
    requires i < |ts|
    ensures WeightSum(ts[..i] + ts[i + 1..]) == WeightSum(ts) - ts[i].priority.Weight()
  {
    var pre, post := ts[..i], ts[i + 1..];
    assert ts[..i + 1] == pre + [ts[i]];
    assert ts == ts[..i + 1] + post;
    WeightSumSingle(ts[i]);
    WeightSumConcat(pre + [ts[i]], post);
    WeightSumConcat(pre, [ts[i]]);
    WeightSumConcat(pre, post);
  }

  lemma WeightSumSingle(t: Task)
    ensures WeightSum([t]) == t.priority.Weight()
  {
    assert [t][..0] == [];
  }

  /** The weight of whatever task is stored under `k`, or 0 when there is none. */
  function WeightAt(d: PyDict.Table<string, Task>, k: string): (w: real)
    ensures 0.0 <= w <= 3.0
  {
    if k in d.keys then d.values[PyDict.IndexOf(d.keys, k)].priority.Weight() else 0.0
  }

  /** Storing a task under a key adds its weight and takes away the weight it replaces. */
  lemma WeightSumPut(d: PyDict.Table<string, Task>, t: Task)
    ensures WeightSum(d.Put(t.taskId, t).values) == WeightSum(d.values) - WeightAt(d, t.taskId) + t.priority.Weight()
  {
    if t.taskId in d.keys {
      WeightSumUpdate(d.values, PyDict.IndexOf(d.keys, t.taskId), t);
    } else {
      WeightSumConcat(d.values, [t]);
    }
  }

  /** An agent: its declared capabilities, its active tasks keyed by task id, its inbox and its
      counters. */
  class Agent {
    const agentId: string
    const name: string
    const capabilities: seq<Capability>
    var activeTasks: PyDict.Table<string, Task>
    var messageQueue: seq<Message>
    var isAvailable: bool
    var tasksCompleted: nat
    var tasksFailed: nat

    constructor (agentId: string, name: string, capabilities: seq<Capability>)
      ensures this.agentId == agentId && this.name == name && this.capabilities == capabilities
      ensures activeTasks == PyDict.Empty() && messageQueue == [] && isAvailable
      ensures tasksCompleted == 0 && tasksFailed == 0
    {
      this.agentId := agentId;
      this.name := name;
      this.capabilities := capabilities;
      activeTasks := PyDict.Empty();
      messageQueue := [];
      isAvailable := true;
      tasksCompleted := 0;
      tasksFailed := 0;
    }

    /** `can_handle_task`: some required capability is declared by this agent. */
    predicate CanHandleTask(task: Task)
      ensures CanHandleTask(task) ==> |task.requiredCapabilities| > 0 && |capabilities| > 0
    {
      exists c :: c in task.requiredCapabilities && c in capabilities
    }

    function SharedCapabilities(task: Task): set<Capability>
    {
      (set c | c in capabilities) * (set c | c in task.requiredCapabilities)
    }

    /** Eligibility by capability is the same as a non-empty capability intersection. */
    lemma CanHandleIffShared(task: Task)
      ensures CanHandleTask(task) <==> |SharedCapabilities(task)| > 0
    {
      if |SharedCapabilities(task)| > 0 {
        var c :| c in SharedCapabilities(task);
        assert c in task.requiredCapabilities && c in capabilities;
      }
      if CanHandleTask(task) {
        var c :| c in task.requiredCapabilities && c in capabilities;
        assert c in SharedCapabilities(task);
      }
    }

    /** The weighted workload: 3 / 2 / 1 / 0.5 per critical / high / medium / low active task. */
    function Workload(): (w: real)
      reads this`activeTasks
      ensures w >= 0.0
      ensures w == 0.0 <==> activeTasks.values == []
    {
      WeightSum(activeTasks.values)
    }

    /** `get_workload`. */
    method GetWorkload() returns (w: real)
      ensures w == Workload()
    {
      if activeTasks.keys == [] {
        return 0.0;
      }
      var tasks := activeTasks.values;
      w := 0.0;
      for i := 0 to |tasks|
        invariant w == WeightSum(tasks[..i])
      {
        assert tasks[..i + 1][..i] == tasks[..i];
        w := w + tasks[i].priority.Weight();
      }
      assert tasks[..|tasks|] == tasks;
    }

    /** `add_task`: accepted iff the agent is capable and available; neither the status of a task
        nor the workload ceiling is checked, so a repeat assignment appends the agent id again. */
    method AddTask(task: Task) returns (ok: bool)
      modifies this`activeTasks, task`assignedAgents, task`status
      ensures ok == (CanHandleTask(task) && isAvailable)
      ensures ok ==> && activeTasks == old(activeTasks).Put(task.taskId, task)
                     && task.assignedAgents == old(task.assignedAgents) + [agentId]
                     && task.status == InProgress
                     && Workload() == old(Workload()) - WeightAt(old(activeTasks), task.taskId) + task.priority.Weight()
      ensures !ok ==> && activeTasks == old(activeTasks)
                      && task.assignedAgents == old(task.assignedAgents)
                      && task.status == old(task.status)
    {
      ok := CanHandleTask(task) && isAvailable;
      if ok {
        WeightSumPut(activeTasks, task);
        activeTasks := activeTasks.Put(task.taskId, task);
        task.assignedAgents := task.assignedAgents + [agentId];
        task.status := InProgress;
      }
    }

    /** `complete_task`: only a task active on this agent can be completed. */
    method CompleteTask(taskId: string, results: map<string, Value>) returns (ok: bool)
      modifies this`activeTasks, this`tasksCompleted
      modifies activeTasks.values`status, activeTasks.values`context
      ensures ok == (taskId in old(activeTasks.keys))
      ensures ok ==> var t := old(activeTasks.Get(taskId).value);
                     && t.status == Completed
                     && t.context == old(t.context)["results" := Obj(results)]
                     && activeTasks == old(activeTasks).Remove(taskId)
                     && tasksCompleted == old(tasksCompleted) + 1
                     && Workload() == old(Workload()) - t.priority.Weight()
                     && forall u :: u in old(activeTasks.values) && u != t ==>
                          u.status == old(u.status) && u.context == old(u.context)
      ensures !ok ==> && activeTasks == old(activeTasks) && tasksCompleted == old(tasksCompleted)
                      && forall u :: u in old(activeTasks.values) ==>
                           u.status == old(u.status) && u.context == old(u.context)
    {
      ok := taskId in activeTasks.keys;
      if ok {
        var t := activeTasks.Get(taskId).value;
        WeightSumRemoveAt(activeTasks.values, PyDict.IndexOf(activeTasks.keys, taskId));
        t.status := Completed;
        t.context := t.context["results" := Obj(results)];
        activeTasks := activeTasks.Remove(taskId);
        tasksCompleted := tasksCompleted + 1;
      }
    }
  }

  /** An agent can be picked for `task`: capable, available and below the workload ceiling. */
  predicate Eligible(a: Agent, task: Task, ceiling: real)
    reads a`activeTasks, a`isAvailable
  {
    a.CanHandleTask(task) && a.isAvailable && a.Workload() < ceiling
  }

  /** The workload part of the selection score: 1 for an idle agent, falling towards 0. */
  function WorkloadScore(w: real): (r: real)
    requires w >= 0.0
    ensures 0.0 < r <= 1.0
  {
    1.0 / (w + 1.0)
  }

  /** Selection score: two points per shared capability plus `1 / (workload + 1)`. */
  function Score(a: Agent, task: Task): real
    reads a`activeTasks
  {
    2.0 * (|a.SharedCapabilities(task)| as real) + WorkloadScore(a.Workload())
  }

  /** `s[i]` is eligible, scores at least as high as every eligible agent, and strictly higher
      than every eligible agent registered before it. */
  ghost predicate FirstBest(s: seq<Agent>, i: int, task: Task, ceiling: real)
    reads s
  {
    && 0 <= i < |s|
    && Eligible(s[i], task, ceiling)
    && (forall j :: 0 <= j < |s| && Eligible(s[j], task, ceiling) ==> Score(s[j], task) <= Score(s[i], task))
    && (forall j :: 0 <= j < i && Eligible(s[j], task, ceiling) ==> Score(s[j], task) < Score(s[i], task))
  }

  /** What `find_best_agent` must return for the agents `s`, registered under `ids`. */
  ghost predicate IsBestChoice(ids: seq<string>, s: seq<Agent>, r: Option<string>, task: Task, ceiling: real)
    reads s
    requires |ids| == |s|
  {
    if r.None? then forall j :: 0 <= j < |s| ==> !Eligible(s[j], task, ceiling)
    else exists i :: FirstBest(s, i, task, ceiling) && ids[i] == r.value
  }

  /** The selection rule picks one position: in a registry without repeated ids at most one
      answer satisfies it. */
  lemma BestChoiceUnique(ids: seq<string>, s: seq<Agent>, r1: Option<string>, r2: Option<string>,
                         task: Task, ceiling: real)
    requires |ids| == |s| && forall i, j :: 0 <= i < j < |ids| ==> ids[i] != ids[j]
    requires IsBestChoice(ids, s, r1, task, ceiling) && IsBestChoice(ids, s, r2, task, ceiling)
    ensures r1 == r2
  {
    if r1.Some? && r2.Some? {
      var i1 :| FirstBest(s, i1, task, ceiling) && ids[i1] == r1.value;
      var i2 :| FirstBest(s, i2, task, ceiling) && ids[i2] == r2.value;
      if i1 < i2 {
        assert false;
      } else if i2 < i1 {
        assert false;
      }
    } else if r1.Some? || r2.Some? {
      assert false;
    }
  }

  /** Index of the first maximal score: the head of a stable sort by descending score. */
  function FirstMaxIndex(scores: seq<real>): (b: nat)
    requires scores != []
    ensures b < |scores|
    ensures forall j :: 0 <= j < |scores| ==> scores[j] <= scores[b]
    ensures forall j :: 0 <= j < b ==> scores[j] < scores[b]
  {
    if |scores| == 1 then 0
    else
      var b := FirstMaxIndex(scores[..|scores| - 1]);
      if scores[|scores| - 1] > scores[b] then |scores| - 1 else b
  }

  /** Positions of the `true` entries of `el`, in increasing order. */
  function EligibleIndices(el: seq<bool>): (r: seq<nat>)
    ensures forall k :: 0 <= k < |r| ==> r[k] < |el| && el[r[k]]
  {
    if el == [] then []
    else EligibleIndices(el[..|el| - 1]) + if el[|el| - 1] then [|el| - 1] else []
  }

  /** The positions are listed in increasing order and none is missed. */
  lemma {:induction false} EligibleIndicesComplete(el: seq<bool>)
    ensures var r := EligibleIndices(el);
            && (forall k, l :: 0 <= k < |r| && 0 <= l < |r| && r[k] < r[l] ==> k < l)
            && (forall j :: 0 <= j < |el| && el[j] ==> j in r)
  {
    if el != [] {
      var init := el[..|el| - 1];
      EligibleIndicesComplete(init);
      forall j | 0 <= j < |el| && el[j]
        ensures j in EligibleIndices(el)
      {
        if j < |el| - 1 {
          assert init[j];
        }
      }
    }
  }

  lemma EligibleIndicesStep(el: seq<bool>, i: nat)
    requires i < |el|
    ensures EligibleIndices(el[..i + 1]) == EligibleIndices(el[..i]) + if el[i] then [i] else []
  {
    assert el[..i + 1][..i] == el[..i];
  }

  function Pick<T>(xs: seq<T>, idx: seq<nat>): (r: seq<T>)
    requires forall k :: 0 <= k < |idx| ==> idx[k] < |xs|
    ensures |r| == |idx| && forall k :: 0 <= k < |idx| ==> r[k] == xs[idx[k]]
  {
    seq(|idx|, k requires 0 <= k < |idx| => xs[idx[k]])
  }

  lemma PickStep<T>(xs: seq<T>, idx: seq<nat>, i: nat)
    requires i < |xs| && forall k :: 0 <= k < |idx| ==> idx[k] < |xs|
    ensures Pick(xs, idx + [i]) == Pick(xs, idx) + [xs[i]]
  {
  }

  /** Among the positions where `el` holds, the first one of maximal `sc` beats every
      earlier one strictly and every other one weakly. */
  lemma FirstMaxOfEligible(el: seq<bool>, sc: seq<real>)
    requires |el| == |sc| && EligibleIndices(el) != []
    ensures var idx := EligibleIndices(el);
            var i := idx[FirstMaxIndex(Pick(sc, idx))];
            && i < |el| && el[i]
            && (forall j :: 0 <= j < |el| && el[j] ==> sc[j] <= sc[i])
            && (forall j :: 0 <= j < i && el[j] ==> sc[j] < sc[i])
  {
    var idx := EligibleIndices(el);
    EligibleIndicesComplete(el);
    var scores := Pick(sc, idx);
    var b := FirstMaxIndex(scores);
    var i := idx[b];
    forall j | 0 <= j < |el| && el[j]
      ensures sc[j] <= sc[i]
    {
      var k :| 0 <= k < |idx| && idx[k] == j;
      assert scores[k] <= scores[b];
    }
    forall j | 0 <= j < i && el[j]
      ensures sc[j] < sc[i]
    {
      var k :| 0 <= k < |idx| && idx[k] == j;
      assert k < b;
      assert scores[k] < scores[b];
    }
  }

  ghost function Eligibility(s: seq<Agent>, task: Task, ceiling: real): (el: seq<bool>)
    reads s
    ensures |el| == |s| && forall j :: 0 <= j < |s| ==> el[j] == Eligible(s[j], task, ceiling)
  {
    seq(|s|, j requires 0 <= j < |s| reads s => Eligible(s[j], task, ceiling))
  }

  ghost function Scores(s: seq<Agent>, task: Task): (sc: seq<real>)
    reads s
    ensures |sc| == |s| && forall j :: 0 <= j < |s| ==> sc[j] == Score(s[j], task)
  {
    seq(|s|, j requires 0 <= j < |s| reads s => Score(s[j], task))
  }

  /** What the loop and the sort of `find_best_agent` compute: the id at the head of the
      eligible agents stably sorted by descending score. */
  ghost function SortedHead(ids: seq<string>, s: seq<Agent>, task: Task, ceiling: real): Option<string>
    reads s
    requires |ids| == |s|
  {
    var idx := EligibleIndices(Eligibility(s, task, ceiling));
    if idx == [] then None
    else Some(ids[idx[FirstMaxIndex(Pick(Scores(s, task), idx))]])
  }

  /** The head of the sorted list meets the selection rule. */
  lemma SortedHeadIsBest(ids: seq<string>, s: seq<Agent>, task: Task, ceiling: real)
    requires |ids| == |s|
    ensures IsBestChoice(ids, s, SortedHead(ids, s, task, ceiling), task, ceiling)
  {
    var el := Eligibility(s, task, ceiling);
    var idx := EligibleIndices(el);
    EligibleIndicesComplete(el);
    if idx != [] {
      FirstMaxOfEligible(el, Scores(s, task));
      var i := idx[FirstMaxIndex(Pick(Scores(s, task), idx))];
      assert FirstBest(s, i, task, ceiling);
    } else {
      forall j | 0 <= j < |s|
        ensures !Eligible(s[j], task, ceiling)
      {
        assert el[j] ==> j in idx;
      }
    }
  }

  /** The position of the best agent, found in one scan in registry order: an eligible agent
      displaces the current pick only with a strictly higher score. */
  ghost function BestIndex(s: seq<Agent>, task: Task, ceiling: real): (r: Option<nat>)
    reads s
    ensures r.Some? ==> r.value < |s|
    decreases |s|
  {
    if s == [] then None
    else
      var b := BestIndex(s[..|s| - 1], task, ceiling);
      var last := |s| - 1;
      if !Eligible(s[last], task, ceiling) then b
      else if b.None? || Score(s[b.value], task) < Score(s[last], task) then Some(last)
      else b
  }

  /** The scan finds the first best eligible agent, and finds none exactly when no agent is
      eligible. */
  lemma {:induction false} BestIndexIsFirstBest(s: seq<Agent>, task: Task, ceiling: real)
    ensures var r := BestIndex(s, task, ceiling);
            && (r.None? ==> forall j :: 0 <= j < |s| ==> !Eligible(s[j], task, ceiling))
            && (r.Some? ==> FirstBest(s, r.value, task, ceiling))
  {
    if s != [] {
      var p := s[..|s| - 1];
      BestIndexIsFirstBest(p, task, ceiling);
      assert forall j :: 0 <= j < |p| ==> p[j] == s[j];
    }
  }

  /** The id `find_best_agent` returns for the agents `s` registered under `ids`. */
  ghost function BestChoice(ids: seq<string>, s: seq<Agent>, task: Task, ceiling: real): Option<string>
    reads s
    requires |ids| == |s|
  {
    var r := BestIndex(s, task, ceiling);
    if r.None? then None else Some(ids[r.value])
  }

  /** The choice meets the selection rule. */
  lemma BestChoiceIsBest(ids: seq<string>, s: seq<Agent>, task: Task, ceiling: real)
    requires |ids| == |s|
    ensures IsBestChoice(ids, s, BestChoice(ids, s, task, ceiling), task, ceiling)
  {
    BestIndexIsFirstBest(s, task, ceiling);
  }

  /** One step of `find_best_agent`: the capability and availability test, then the workload
      test, then the score. */
  method Assess(agent: Agent, task: Task, ceiling: real) returns (eligible: bool, score: real)
    ensures eligible == Eligible(agent, task, ceiling)
    ensures eligible ==> score == Score(agent, task)
  {
    eligible := false;
    score := 0.0;
    if agent.CanHandleTask(task) && agent.isAvailable {
      var workload := agent.GetWorkload();
      if workload < ceiling {
        var capabilityScore := |agent.SharedCapabilities(task)|;
        var workloadScore := WorkloadScore(workload);
        eligible := true;
        score := 2.0 * (capabilityScore as real) + workloadScore;
      }
    }
  }

  /** The loop of `find_best_agent`: ids and scores of the eligible agents, in order. */
  method CollectSuitable(agentIds: seq<string>, s: seq<Agent>, task: Task, ceiling: real)
    returns (ids: seq<string>, scores: seq<real>)
    requires |agentIds| == |s|
    ensures var idx := EligibleIndices(Eligibility(s, task, ceiling));
            ids == Pick(agentIds, idx) && scores == Pick(Scores(s, task), idx)
  {
    ghost var el := Eligibility(s, task, ceiling);
    ghost var sc := Scores(s, task);
    ids := [];
    scores := [];
    ghost var idx: seq<nat> := [];
    for i := 0 to |s|
      invariant idx == EligibleIndices(el[..i])
      invariant scores == Pick(sc, idx)
      invariant ids == Pick(agentIds, idx)
    {
      EligibleIndicesStep(el, i);
      var eligible, score := Assess(s[i], task, ceiling);
      if eligible {
        PickStep(agentIds, idx, i);
        PickStep(sc, idx, i);
        ids := ids + [agentIds[i]];
        scores := scores + [score];
        idx := idx + [i];
      }
    }
    assert el[..|s|] == el;
  }

  /** A response for each message whose recipient is registered and whose handler answered,
      in bus order. */
  function Responses(bus: seq<Message>, registered: seq<string>, handler: Message -> Option<Message>): (r: seq<Message>)
    ensures |r| <= |bus|
  {
    if bus == [] then []
    else
      var m := bus[|bus| - 1];
      Responses(bus[..|bus| - 1], registered, handler)
        + if m.recipient in registered && handler(m).Some? then [handler(m).value] else []
  }

  lemma ResponsesStep(bus: seq<Message>, i: nat, registered: seq<string>, handler: Message -> Option<Message>)
    requires i < |bus|
    ensures Responses(bus[..i + 1], registered, handler) == Responses(bus[..i], registered, handler)
              + if bus[i].recipient in registered && handler(bus[i]).Some? then [handler(bus[i]).value] else []
  {
    assert bus[..i + 1][..i] == bus[..i];
  }

  /** The messages of `ms` addressed to `id`, in order. */
  function AddressedTo(ms: seq<Message>, id: string): (r: seq<Message>)
    ensures |r| <= |ms|
  {
    if ms == [] then []
    else
      AddressedTo(ms[..|ms| - 1], id) + if ms[|ms| - 1].recipient == id then [ms[|ms| - 1]] else []
  }

  lemma AddressedToSnoc(ms: seq<Message>, m: Message, id: string)
    ensures AddressedTo(ms + [m], id) == AddressedTo(ms, id) + if m.recipient == id then [m] else []
  {
    assert (ms + [m])[..|ms|] == ms;
  }

  /** The inboxes of `s`, in registry order. */
  ghost function Queues(s: seq<Agent>): (qs: seq<seq<Message>>)
    reads s`messageQueue
    ensures |qs| == |s| && forall j :: 0 <= j < |s| ==> qs[j] == s[j].messageQueue
    decreases |s|
  {
    if s == [] then [] else Queues(s[..|s| - 1]) + [s[|s| - 1].messageQueue]
  }

  /** Inboxes `qs` of agents registered under `ids` after `m` is sent. */
  function Deliver1(qs: seq<seq<Message>>, ids: seq<string>, m: Message): (r: seq<seq<Message>>)
    requires |qs| == |ids|
    ensures |r| == |qs|
    ensures forall j :: 0 <= j < |qs| ==> r[j] == qs[j] + if ids[j] == m.recipient then [m] else []
  {
    seq(|qs|, j requires 0 <= j < |qs| => qs[j] + if ids[j] == m.recipient then [m] else [])
  }

  /** With distinct ids, a message reaches exactly the inbox registered under its recipient. */
  lemma Deliver1At(qs: seq<seq<Message>>, ids: seq<string>, m: Message, i: nat)
    requires |qs| == |ids| && i < |ids| && ids[i] == m.recipient
    requires forall a, b :: 0 <= a < b < |ids| ==> ids[a] != ids[b]
    ensures Deliver1(qs, ids, m) == qs[i := qs[i] + [m]]
  {
    forall j | 0 <= j < |ids| && j != i
      ensures ids[j] != ids[i]
    {
      if j < i {
        assert ids[j] != ids[i];
      } else {
        assert ids[i] != ids[j];
      }
    }
    assert forall j :: 0 <= j < |ids| ==> Deliver1(qs, ids, m)[j] == qs[i := qs[i] + [m]][j];
  }

  /** Inboxes `qs` of agents registered under `ids` after every message of `ms` is sent. */
  function DeliverAll(qs: seq<seq<Message>>, ids: seq<string>, ms: seq<Message>): (r: seq<seq<Message>>)
    requires |qs| == |ids|
    ensures |r| == |qs|
    ensures forall j :: 0 <= j < |qs| ==> r[j] == qs[j] + AddressedTo(ms, ids[j])
  {
    seq(|qs|, j requires 0 <= j < |qs| => qs[j] + AddressedTo(ms, ids[j]))
  }

  lemma DeliverAllSnoc(qs: seq<seq<Message>>, ids: seq<string>, ms: seq<Message>, m: Message)
    requires |qs| == |ids|
    ensures DeliverAll(qs, ids, ms + [m]) == Deliver1(DeliverAll(qs, ids, ms), ids, m)
  {
    forall j | 0 <= j < |qs|
      ensures DeliverAll(qs, ids, ms + [m])[j] == Deliver1(DeliverAll(qs, ids, ms), ids, m)[j]
    {
      AddressedToSnoc(ms, m, ids[j]);
    }
  }

  /** The notification `assign_task` sends to the chosen agent, once that task is in progress
      with `assignees` as its assigned agents. */
  function AssignmentMessage(task: Task, context: map<string, Value>, assignees: seq<string>,
                             agentId: string, now: string): (r: Message)
    ensures r.sender == "coordination_framework" && r.recipient == agentId
    ensures r.taskId == task.taskId && r.messageType == "task_assignment" && r.priority == task.priority
    ensures r.content.Keys == {"task"} && r.timestamp == now && r.correlationId.None?
    ensures r.content["task"].Obj? && "status" in r.content["task"].fields && "assigned_agents" in r.content["task"].fields
    ensures r.content["task"].fields["status"] == Str("in_progress")
    ensures r.content["task"].fields["assigned_agents"] == StrList(assignees)
  {
    Message("coordination_framework", agentId, task.taskId, "task_assignment", task.priority,
            map["task" := TaskValue(task, context, InProgress, assignees)], now, None)
  }

  function CountStatus(ts: seq<Task>, s: TaskStatus): (n: nat)
    reads ts
    ensures n <= |ts|
    decreases |ts|
  {
    if ts == [] then 0 else (if ts[0].status == s then 1 else 0) + CountStatus(ts[1..], s)
  }

  /** Every task has exactly one of the six statuses. */
  lemma {:induction false} StatusCountsPartition(ts: seq<Task>)
    ensures CountStatus(ts, NotStarted) + CountStatus(ts, InProgress) + CountStatus(ts, Blocked)
            + CountStatus(ts, NeedsReview) + CountStatus(ts, Completed) + CountStatus(ts, Failed) == |ts|
  {
    if ts != [] {
      StatusCountsPartition(ts[1..]);
    }
  }

  datatype AgentStatus = AgentStatus(
    agentId: string, name: string, capabilities: seq<string>, isAvailable: bool,
    activeTasks: nat, workload: real, tasksCompleted: nat, tasksFailed: nat)

  datatype TaskCounts = TaskCounts(total: nat, notStarted: nat, inProgress: nat, completed: nat, blocked: nat)

  datatype SystemStatus = SystemStatus(agents: seq<AgentStatus>, tasks: TaskCounts, messageQueueSize: nat)

  /** `get_status` of one agent. */
  function StatusOf(a: Agent): (st: AgentStatus)
    reads a`activeTasks, a`isAvailable, a`tasksCompleted, a`tasksFailed
    ensures st.agentId == a.agentId && st.activeTasks == a.activeTasks.Size()
    ensures st.workload == a.Workload() && (st.workload == 0.0 <==> st.activeTasks == 0)
  {
    AgentStatus(a.agentId, a.name, CapabilityValues(a.capabilities), a.isAvailable,
                a.activeTasks.Size(), a.Workload(), a.tasksCompleted, a.tasksFailed)
  }

  function StatusesOf(s: seq<Agent>): (r: seq<AgentStatus>)
    reads s
    ensures |r| == |s|
    ensures forall i :: 0 <= i < |s| ==> r[i] == StatusOf(s[i])
    decreases |s|
  {
    if s == [] then [] else [StatusOf(s[0])] + StatusesOf(s[1..])
  }

  /** The coordination framework: registry, task table and message bus. */
  class Framework {
    var agents: PyDict.Table<string, Agent>
    var tasks: PyDict.Table<string, Task>
    var messageBus: seq<Message>
    /** `coordination_rules["max_concurrent_tasks_per_agent"]`, compared with weighted workload. */
    const maxConcurrentTasksPerAgent: real

    /** Each agent is registered under its own id and each task under its own id, once. */
    ghost predicate Valid()
      reads this`agents, this`tasks
    {
      && agents.Valid()
      && tasks.Valid()
      && (forall i :: 0 <= i < |agents.keys| ==> agents.values[i].agentId == agents.keys[i])
      && (forall i :: 0 <= i < |tasks.keys| ==> tasks.values[i].taskId == tasks.keys[i])
    }

    /** Distinct registry positions hold distinct agent objects. */
    lemma DistinctAgents()
      requires Valid()
      ensures forall i, j :: 0 <= i < |agents.values| && 0 <= j < |agents.values| && i != j ==>
                agents.values[i] != agents.values[j]
    {
      forall i, j | 0 <= i < |agents.values| && 0 <= j < |agents.values| && i != j
        ensures agents.values[i] != agents.values[j]
      {
        if i < j {
          assert agents.keys[i] != agents.keys[j];
        } else {
          assert agents.keys[j] != agents.keys[i];
        }
      }
    }

    lemma DistinctTasks()
      requires Valid()
      ensures forall i, j :: 0 <= i < |tasks.values| && 0 <= j < |tasks.values| && i != j ==>
                tasks.values[i] != tasks.values[j]
    {
      forall i, j | 0 <= i < |tasks.values| && 0 <= j < |tasks.values| && i != j
        ensures tasks.values[i] != tasks.values[j]
      {
        if i < j {
          assert tasks.keys[i] != tasks.keys[j];
        } else {
          assert tasks.keys[j] != tasks.keys[i];
        }
      }
    }

    constructor ()
      ensures Valid()
      ensures agents == PyDict.Empty() && tasks == PyDict.Empty() && messageBus == []
      ensures maxConcurrentTasksPerAgent == 3.0
    {
      agents := PyDict.Empty();
      tasks := PyDict.Empty();
      messageBus := [];
      maxConcurrentTasksPerAgent := 3.0;
    }

    /** `register_agent`: a duplicate id is refused and the registry left as it was. */
    method RegisterAgent(agent: Agent) returns (ok: bool)
      requires Valid()
      modifies this`agents
      ensures Valid()
      ensures ok == (agent.agentId !in old(agents.keys))
      ensures agents == if ok then old(agents).Put(agent.agentId, agent) else old(agents)
    {
      ok := agent.agentId !in agents.keys;
      if ok {
        agents := agents.Put(agent.agentId, agent);
      }
    }

    /** `create_task`: a duplicate id is refused and the table left as it was. */
    method CreateTask(task: Task) returns (ok: bool)
      requires Valid()
      modifies this`tasks
      ensures Valid()
      ensures ok == (task.taskId !in old(tasks.keys))
      ensures tasks == if ok then old(tasks).Put(task.taskId, task) else old(tasks)
    {
      ok := task.taskId !in tasks.keys;
      if ok {
        tasks := tasks.Put(task.taskId, task);
      }
    }

    /** `find_best_agent`: the head of the eligible agents stably sorted by descending score. */
    method FindBestAgent(task: Task) returns (r: Option<string>)
      requires Valid()
      ensures r == BestChoice(agents.keys, agents.values, task, maxConcurrentTasksPerAgent)
      ensures IsBestChoice(agents.keys, agents.values, r, task, maxConcurrentTasksPerAgent)
      ensures r.Some? ==> r.value in agents.keys
                          && Eligible(agents.Get(r.value).value, task, maxConcurrentTasksPerAgent)
    {
      var ids, scores := CollectSuitable(agents.keys, agents.values, task, maxConcurrentTasksPerAgent);
      if ids == [] {
        r := None;
      } else {
        r := Some(ids[FirstMaxIndex(scores)]);
      }
      SortedHeadIsBest(agents.keys, agents.values, task, maxConcurrentTasksPerAgent);
      BestChoiceIsBest(agents.keys, agents.values, task, maxConcurrentTasksPerAgent);
      BestChoiceUnique(agents.keys, agents.values, r, BestChoice(agents.keys, agents.values, task, maxConcurrentTasksPerAgent),
                       task, maxConcurrentTasksPerAgent);
      if r.Some? {
        ghost var i :| FirstBest(agents.values, i, task, maxConcurrentTasksPerAgent) && agents.keys[i] == r.value;
        PyDict.IndexOfUnique(agents, i);
      }
    }

    /** The agent registered under `id`, as a set: empty when there is none. */
    ghost function Registered(id: string): set<Agent>
      reads this`agents
    {
      if id in agents.keys then {agents.Get(id).value} else {}
    }

    /** What is stored under `id`, as a set: empty when there is none. */
    ghost function Stored(id: string): set<Task>
      reads this`tasks
    {
      if id in tasks.keys then {tasks.Get(id).value} else {}
    }

    /** `send_message`: always appended to the bus; also to the recipient's inbox when the
        recipient is registered, which is exactly when it returns true. No other inbox changes. */
    method SendMessage(message: Message) returns (ok: bool)
      requires Valid()
      modifies this`messageBus, Registered(message.recipient)`messageQueue
      ensures messageBus == old(messageBus) + [message]
      ensures ok == (message.recipient in agents.keys)
      ensures ok ==> var r := agents.Get(message.recipient).value;
                     r.messageQueue == old(r.messageQueue) + [message]
    {
      messageBus := messageBus + [message];
      ok := message.recipient in agents.keys;
      if ok {
        var recipient := agents.Get(message.recipient).value;
        recipient.messageQueue := recipient.messageQueue + [message];
      }
    }

    /** The agent `assign_task` tries: the one named, or else the best one found. */
    ghost function Candidate(taskId: string, agentId: Option<string>): Option<string>
      reads this`agents, this`tasks, agents.values
    {
      if taskId !in tasks.keys then None
      else if agentId.Some? then agentId
      else BestChoice(agents.keys, agents.values, tasks.Get(taskId).value, maxConcurrentTasksPerAgent)
    }

    /** The agent `assign_task` may update: the candidate, when it is registered under a non-empty id. */
    ghost function Assignee(taskId: string, agentId: Option<string>): set<Agent>
      reads this`agents, this`tasks, agents.values
    {
      var c := Candidate(taskId, agentId);
      if c.Some? && c.value != "" then Registered(c.value) else {}
    }

    method Choose(task: Task, agentId: Option<string>) returns (id: Option<string>)
      requires Valid()
      ensures id == if agentId.Some? then agentId
                    else BestChoice(agents.keys, agents.values, task, maxConcurrentTasksPerAgent)
      ensures agentId.None? && id.Some? ==>
                && id.value in agents.keys
                && agents.Get(id.value).value.Workload() < maxConcurrentTasksPerAgent
    {
      id := agentId;
      if id.None? {
        id := FindBestAgent(task);
      }
    }

    /** The effect of a successful `assign_task` of `task` to `agent`: that task is in progress
        with the agent's id appended to its assignees, the agent holds it as an active task and
        its workload grew by that task's weight (less the weight of an entry it replaced), and the
        assignment notice went onto the bus and into the agent's inbox. */
    twostate predicate Assigned(task: Task, agent: Agent, now: string)
      reads this`messageBus, task`status, task`assignedAgents, task`context, agent`activeTasks, agent`messageQueue
    {
      var msg := AssignmentMessage(task, task.context, task.assignedAgents, agent.agentId, now);
      && task.status == InProgress
      && task.assignedAgents == old(task.assignedAgents) + [agent.agentId]
      && agent.activeTasks == old(agent.activeTasks).Put(task.taskId, task)
      && agent.Workload() == old(agent.Workload()) - WeightAt(old(agent.activeTasks), task.taskId)
                             + task.priority.Weight()
      && messageBus == old(messageBus) + [msg]
      && agent.messageQueue == old(agent.messageQueue) + [msg]
    }

    /** The part of `assign_task` after the agent is chosen: `id` is tried when it is a
        non-empty registered id, and only that agent, that task and the bus change. */
    method AssignTo(taskId: string, id: Option<string>, now: string) returns (ok: bool)
      requires Valid() && taskId in tasks.keys
      modifies this`messageBus, Stored(taskId)`status, Stored(taskId)`assignedAgents
      modifies (if id.Some? && id.value != "" then Registered(id.value) else {})`activeTasks
      modifies (if id.Some? && id.value != "" then Registered(id.value) else {})`messageQueue
      ensures ok == (&& id.Some? && id.value != "" && id.value in agents.keys
                     && agents.Get(id.value).value.CanHandleTask(tasks.Get(taskId).value)
                     && agents.Get(id.value).value.isAvailable)
      ensures !ok ==> && messageBus == old(messageBus)
                      && (id.Some? && id.value in agents.keys ==> unchanged(agents.Get(id.value).value))
                      && unchanged(tasks.Get(taskId).value)
      ensures ok ==> Assigned(tasks.Get(taskId).value, agents.Get(id.value).value, now)
    {
      var task := tasks.Get(taskId).value;
      if id.Some? && id.value != "" && id.value in agents.keys {
        var agent := agents.Get(id.value).value;
        ok := agent.AddTask(task);
        if ok {
          var msg := AssignmentMessage(task, task.context, task.assignedAgents, id.value, now);
          var sent := SendMessage(msg);
        }
      } else {
        ok := false;
      }
    }

    /** `assign_task`: with no `agentId` the best agent is chosen; an explicit `agentId`
        bypasses the workload ceiling; an empty id counts as none given. Only that task, the
        chosen agent and the bus change. */
    method AssignTask(taskId: string, agentId: Option<string>, now: string)
      returns (ok: bool, ghost chosen: Option<string>)
      requires Valid()
      modifies this`messageBus, Assignee(taskId, agentId)`activeTasks, Assignee(taskId, agentId)`messageQueue
      modifies Stored(taskId)`status, Stored(taskId)`assignedAgents
      ensures chosen == old(Candidate(taskId, agentId))
      ensures ok == (&& taskId in tasks.keys && chosen.Some? && chosen.value != ""
                     && chosen.value in agents.keys
                     && agents.Get(chosen.value).value.CanHandleTask(tasks.Get(taskId).value)
                     && agents.Get(chosen.value).value.isAvailable)
      ensures !ok ==> && messageBus == old(messageBus)
                      && (forall a :: a in old(Assignee(taskId, agentId)) ==> unchanged(a))
                      && (forall t :: t in old(Stored(taskId)) ==> unchanged(t))
      ensures ok ==> Assigned(tasks.Get(taskId).value, agents.Get(chosen.value).value, now)
      ensures ok && agentId.None? ==>
                agents.Get(chosen.value).value.Workload() < maxConcurrentTasksPerAgent + 3.0
    {
      if taskId !in tasks.keys {
        return false, None;
      }
      var task := tasks.Get(taskId).value;
      var id := Choose(task, agentId);
      chosen := id;
      ok := AssignTo(taskId, id, now);
    }

    /** `send_message` seen from every inbox at once, as the drain loop needs it. */
    method Relay(message: Message) returns (ok: bool)
      requires Valid()
      modifies this`messageBus, agents.values`messageQueue
      ensures messageBus == old(messageBus) + [message]
      ensures Queues(agents.values) == Deliver1(old(Queues(agents.values)), agents.keys, message)
    {
      ghost var q0 := Queues(agents.values);
      DistinctAgents();
      ok := SendMessage(message);
      if ok {
        ghost var i := PyDict.IndexOf(agents.keys, message.recipient);
        PyDict.IndexOfUnique(agents, i);
        Deliver1At(q0, agents.keys, message, i);
        forall j | 0 <= j < |agents.values|
          ensures Queues(agents.values)[j] == q0[i := q0[i] + [message]][j]
        {
          if j != i {
            assert agents.values[j] !in Registered(message.recipient);
          }
        }
      } else {
        assert forall j :: 0 <= j < |agents.values| ==> Deliver1(q0, agents.keys, message)[j] == q0[j];
      }
    }

    /** `process_message_queue`: drains a snapshot of the bus in FIFO order after clearing it;
        handler responses are sent anew and so wait for the next drain. */
    method ProcessMessageQueue(handler: Message -> Option<Message>)
      requires Valid()
      modifies this`messageBus, agents.values`messageQueue
      ensures messageBus == Responses(old(messageBus), agents.keys, handler)
      ensures Queues(agents.values) == DeliverAll(old(Queues(agents.values)), agents.keys, messageBus)
    {
      ghost var initial := Queues(agents.values);
      var snapshot := messageBus;
      messageBus := [];
      assert forall j :: 0 <= j < |initial| ==> DeliverAll(initial, agents.keys, [])[j] == initial[j];
      for i := 0 to |snapshot|
        invariant Valid()
        invariant messageBus == Responses(snapshot[..i], agents.keys, handler)
        invariant Queues(agents.values) == DeliverAll(initial, agents.keys, messageBus)
      {
        var message := snapshot[i];
        ResponsesStep(snapshot, i, agents.keys, handler);
        if message.recipient in agents.keys {
          var response := handler(message);
          if response.Some? {
            DeliverAllSnoc(initial, agents.keys, messageBus, response.value);
            var sent := Relay(response.value);
          }
        }
      }
      assert snapshot[..|snapshot|] == snapshot;
    }

    /** `get_system_status`: one status per registered agent and the counts of four of the six
        task statuses; it leaves out those needing review or failed. */
    function GetSystemStatus(): (st: SystemStatus)
      reads this, agents.values, tasks.values
      ensures |st.agents| == |agents.keys|
      ensures forall i :: 0 <= i < |agents.keys| ==> st.agents[i] == StatusOf(agents.values[i])
      ensures st.tasks.total == |tasks.keys|
      ensures st.tasks.notStarted == CountStatus(tasks.values, NotStarted)
      ensures st.tasks.inProgress == CountStatus(tasks.values, InProgress)
      ensures st.tasks.completed == CountStatus(tasks.values, Completed)
      ensures st.tasks.blocked == CountStatus(tasks.values, Blocked)
      ensures st.tasks.total - (st.tasks.notStarted + st.tasks.inProgress + st.tasks.completed + st.tasks.blocked)
              == CountStatus(tasks.values, NeedsReview) + CountStatus(tasks.values, Failed)
      ensures st.messageQueueSize == |messageBus|
    {
      StatusCountsPartition(tasks.values);
      SystemStatus(
        StatusesOf(agents.values),
        TaskCounts(|tasks.keys|, CountStatus(tasks.values, NotStarted), CountStatus(tasks.values, InProgress),
                   CountStatus(tasks.values, Completed), CountStatus(tasks.values, Blocked)),
        |messageBus|)
    }
  }
}
