/** The digital twin engine: one twin per agent holding its cognitive state and latest
    metrics, a per-agent history of metrics, the rule-based next-state predictor, history
    retention and coordination recommendations.  Clock readings are parameters (seconds). */
module DigitalTwin {
  import opened Wrappers
  import PySeq
  import PyDict

  datatype CognitiveState = Idle | Processing | Learning | Coordinating | ErrorRecovery | Optimizing

  datatype AgentType = Codex | GeminiPro | Claude | Copilot

  /** `CognitiveMetrics`; `timestamp` is in seconds since the epoch. */
  datatype Metrics = Metrics(timestamp: real, agentId: string, agentType: AgentType,
                             cognitiveState: CognitiveState, processingLoad: real, memoryUsage: real,
                             responseTime: real, taskComplexity: real, successRate: real,
                             coordinationScore: real)

  /** `DigitalTwinState`. */
  datatype TwinState = TwinState(agentId: string, agentType: AgentType, currentState: CognitiveState,
                                 metrics: Metrics, predictedNextState: Option<CognitiveState>,
                                 confidenceScore: real, lastUpdated: real, taskQueueSize: int,
                                 activeTasks: seq<string>)

  /** `history_retention` of the default configuration, in seconds. */
  const DefaultHistoryRetention: real := 3600.0

  /** The agents tracked from the start, in registration order. */
  const Roster: seq<(AgentType, string)> :=
    [(Codex, "codex_primary"), (GeminiPro, "gemini_primary"), (Claude, "claude_primary"),
     (Copilot, "copilot_primary")]

  const RosterIds: seq<string> := ["codex_primary", "gemini_primary", "claude_primary", "copilot_primary"]

  function InitialMetrics(agentType: AgentType, agentId: string, now: real): Metrics
  {
    Metrics(now, agentId, agentType, Idle, 0.0, 0.1, 0.0, 0.0, 1.0, 0.8)
  }

  function InitialTwin(agentType: AgentType, agentId: string, now: real): TwinState
  {
    TwinState(agentId, agentType, Idle, InitialMetrics(agentType, agentId, now), None, 0.0, now, 0, [])
  }

  // ---------------------------------------------------------------------------------------
  // Metrics of an update
  // ---------------------------------------------------------------------------------------

  /** The key was supplied in the update's metrics. */
  predicate Given(metrics: Option<map<string, real>>, key: string)
  {
    metrics.Some? && key in metrics.value
  }

  /** `metrics.get(key, fallback) if metrics else fallback`. */
  function Reading(metrics: Option<map<string, real>>, key: string, fallback: real): real
  {
    if Given(metrics, key) then metrics.value[key] else fallback
  }

  /** The metrics an update records: supplied readings are taken as given; an omitted load,
      memory usage, success rate or coordination score keeps the previous value, while an
      omitted response time or task complexity is reset to zero. */
  function UpdatedMetrics(prev: Metrics, agentId: string, agentType: AgentType, newState: CognitiveState,
                          metrics: Option<map<string, real>>, now: real): (m: Metrics)
    ensures m.timestamp == now && m.agentId == agentId && m.agentType == agentType
    ensures m.cognitiveState == newState
    ensures Given(metrics, "processing_load") ==> m.processingLoad == metrics.value["processing_load"]
    ensures !Given(metrics, "processing_load") ==> m.processingLoad == prev.processingLoad
    ensures Given(metrics, "memory_usage") ==> m.memoryUsage == metrics.value["memory_usage"]
    ensures !Given(metrics, "memory_usage") ==> m.memoryUsage == prev.memoryUsage
    ensures Given(metrics, "response_time") ==> m.responseTime == metrics.value["response_time"]
    ensures !Given(metrics, "response_time") ==> m.responseTime == 0.0
    ensures Given(metrics, "task_complexity") ==> m.taskComplexity == metrics.value["task_complexity"]
    ensures !Given(metrics, "task_complexity") ==> m.taskComplexity == 0.0
    ensures Given(metrics, "success_rate") ==> m.successRate == metrics.value["success_rate"]
    ensures !Given(metrics, "success_rate") ==> m.successRate == prev.successRate
    ensures Given(metrics, "coordination_score") ==> m.coordinationScore == metrics.value["coordination_score"]
    ensures !Given(metrics, "coordination_score") ==> m.coordinationScore == prev.coordinationScore
  {
    Metrics(now, agentId, agentType, newState,
            Reading(metrics, "processing_load", prev.processingLoad),
            Reading(metrics, "memory_usage", prev.memoryUsage),
            Reading(metrics, "response_time", 0.0),
            Reading(metrics, "task_complexity", 0.0),
            Reading(metrics, "success_rate", prev.successRate),
            Reading(metrics, "coordination_score", prev.coordinationScore))
  }

  // ---------------------------------------------------------------------------------------
  // Next-state prediction
  // ---------------------------------------------------------------------------------------

  /** How many of `h` were in the PROCESSING state. */
  function ProcessingCount(h: seq<Metrics>): (n: nat)
    ensures n <= |h|
  {
    if h == [] then 0 else ProcessingCount(h[..|h| - 1]) + (if h[|h| - 1].cognitiveState == Processing then 1 else 0)
  }

  /** `_predict_next_state` over the history recorded before this update: the state expected
      next and the confidence in it. */
  function Predict(history: seq<Metrics>, current: Metrics): (r: (CognitiveState, real))
    ensures r.1 in {0.4, 0.5, 0.6, 0.7, 0.8}
    ensures r.1 == 0.4 ==> r.0 == current.cognitiveState
  {
    var recent := PySeq.Last(history, 10);
    if current.processingLoad > 0.8 then (Optimizing, 0.7)
    else if current.cognitiveState == Processing && current.processingLoad < 0.3 then (Idle, 0.8)
    else if current.cognitiveState == Idle && |recent| > 3 then
      if ProcessingCount(PySeq.Last(recent, 3)) >= 2 then (Processing, 0.6) else (Coordinating, 0.5)
    else (current.cognitiveState, 0.4)
  }

  /** The confidence is one of the table's values, so always positive; a prediction that
      differs from the current state carries at least 0.5, one that keeps it only 0.4 unless
      the agent keeps optimizing under high load. */
  lemma PredictConfidence(history: seq<Metrics>, current: Metrics)
    ensures var (s, c) := Predict(history, current);
            && 0.4 <= c <= 0.8
            && (s != current.cognitiveState ==> c >= 0.5)
            && (s == current.cognitiveState ==> c == 0.4 || (s == Optimizing && c == 0.7))
  {
  }

  /** High load always predicts OPTIMIZING; a lightly loaded PROCESSING agent is predicted to
      go IDLE; an IDLE agent with more than three recorded entries is predicted to start
      PROCESSING exactly when two of the last three entries were PROCESSING. */
  lemma PredictRules(history: seq<Metrics>, current: Metrics)
    ensures current.processingLoad > 0.8 ==> Predict(history, current) == (Optimizing, 0.7)
    ensures current.processingLoad <= 0.8 && current.cognitiveState == Processing && current.processingLoad < 0.3
            ==> Predict(history, current) == (Idle, 0.8)
    ensures current.processingLoad <= 0.8 && current.cognitiveState == Idle && |history| > 3
            ==> (Predict(history, current).0 == Processing
                 <==> ProcessingCount(history[|history| - 3..]) >= 2)
  {
    if current.processingLoad <= 0.8 && current.cognitiveState == Idle && |history| > 3 {
      var recent := PySeq.Last(history, 10);
      assert PySeq.Last(recent, 3) == history[|history| - 3..];
    }
  }

  /** Only the last three entries, and whether there are more than three, matter. */
  lemma {:induction false} PredictLastThree(h1: seq<Metrics>, h2: seq<Metrics>, current: Metrics)
    requires |h1| > 3 && |h2| > 3
    requires h1[|h1| - 3..] == h2[|h2| - 3..]
    ensures Predict(h1, current) == Predict(h2, current)
  {
    assert PySeq.Last(PySeq.Last(h1, 10), 3) == h1[|h1| - 3..];
    assert PySeq.Last(PySeq.Last(h2, 10), 3) == h2[|h2| - 3..];
  }

  // ---------------------------------------------------------------------------------------
  // History retention
  // ---------------------------------------------------------------------------------------

  function NewerThan(cutoff: real): Metrics -> bool
  {
    (m: Metrics) => m.timestamp > cutoff
  }

  /** `_cleanup_history`'s comprehension: the entries strictly newer than `cutoff`. */
  function Kept(history: seq<Metrics>, cutoff: real): seq<Metrics>
  {
    PySeq.Filter(history, NewerThan(cutoff))
  }

  /** The kept entries are exactly the entries newer than the cutoff, in their original order. */
  lemma KeptExact(history: seq<Metrics>, cutoff: real)
    ensures forall m :: m in Kept(history, cutoff) <==> m in history && m.timestamp > cutoff
    ensures |Kept(history, cutoff)| == |PySeq.Positions(history, NewerThan(cutoff))|
    ensures forall i :: 0 <= i < |Kept(history, cutoff)| ==>
              PySeq.Positions(history, NewerThan(cutoff))[i] < |history|
              && Kept(history, cutoff)[i] == history[PySeq.Positions(history, NewerThan(cutoff))[i]]
    ensures forall a, b :: 0 <= a < b < |PySeq.Positions(history, NewerThan(cutoff))| ==>
              PySeq.Positions(history, NewerThan(cutoff))[a] < PySeq.Positions(history, NewerThan(cutoff))[b]
  {
    PySeq.FilterExact(history, NewerThan(cutoff));
    PySeq.PositionsExact(history, NewerThan(cutoff));
  }

  /** Appending an entry and then cleaning keeps the new entry exactly when it is newer than
      the cutoff, behind the kept old entries. */
  lemma KeptAppend(history: seq<Metrics>, m: Metrics, cutoff: real)
    ensures Kept(history + [m], cutoff) == Kept(history, cutoff) + (if m.timestamp > cutoff then [m] else [])
  {
    PySeq.FilterSnoc(history, m, NewerThan(cutoff));
  }

  // ---------------------------------------------------------------------------------------
  // Agent index
  // ---------------------------------------------------------------------------------------

  /** `_get_agent_index`: the agent type's row in the coordination matrix. */
  function AgentIndex(t: AgentType): (i: Option<nat>)
    ensures i.Some? && i.value < 4
  {
    match t
    case Codex => Some(0)
    case GeminiPro => Some(1)
    case Claude => Some(2)
    case Copilot => Some(3)
  }

  /** The agent type in a row of the coordination matrix. */
  function TypeAt(i: nat): AgentType
    requires i < 4
  {
    if i == 0 then Codex else if i == 1 then GeminiPro else if i == 2 then Claude else Copilot
  }

  /** Distinct types get distinct rows and every row belongs to exactly one type. */
  lemma AgentIndexBijective(a: AgentType, b: AgentType, i: nat)
    requires i < 4
    ensures AgentIndex(a) == AgentIndex(b) ==> a == b
    ensures AgentIndex(TypeAt(i)) == Some(i)
    ensures AgentIndex(a) == Some(i) ==> a == TypeAt(i)
  {
  }

  // ---------------------------------------------------------------------------------------
  // Coordination recommendations
  // ---------------------------------------------------------------------------------------

  datatype Recommendation =
    | LoadBalancing(agentId: string, load: real)
    | CoordinationOpportunity(idleAgents: seq<string>, activeAgents: seq<string>)
  {
    function Kind(): string
    {
      if LoadBalancing? then "load_balancing" else "coordination_opportunity"
    }

    function Priority(): string
    {
      if LoadBalancing? then "high" else "medium"
    }

    function SuggestedAction(): string
    {
      if LoadBalancing? then "redistribute_tasks" else "parallel_execution"
    }
  }

  type Entry = (string, TwinState)

  /** `agents.items()`. */
  function Items(d: PyDict.Dict<string, TwinState>): (r: seq<Entry>)
    requires d.WellFormed()
    ensures |r| == |d.keys|
    ensures forall i :: 0 <= i < |r| ==> r[i] == (d.keys[i], d.values[i])
  {
    seq(|d.keys|, i requires 0 <= i < |d.keys| => (d.keys[i], d.values[i]))
  }

  predicate IsActive(e: Entry)
  {
    e.1.currentState != Idle
  }

  predicate IsIdle(e: Entry)
  {
    e.1.currentState == Idle
  }

  predicate IsHeavy(e: Entry)
  {
    e.1.metrics.processingLoad > 0.8
  }

  function IdOf(e: Entry): string
  {
    e.0
  }

  function LoadRecommendation(e: Entry): Recommendation
  {
    LoadBalancing(e.0, e.1.metrics.processingLoad)
  }

  /** The `active_agents` list: the entries not IDLE, in dictionary order. */
  function Active(d: PyDict.Dict<string, TwinState>): seq<Entry>
    requires d.WellFormed()
  {
    PySeq.Filter(Items(d), IsActive)
  }

  /** The `idle_agents` list. */
  function IdleIds(d: PyDict.Dict<string, TwinState>): seq<string>
    requires d.WellFormed()
  {
    PySeq.Map(PySeq.Filter(Items(d), IsIdle), IdOf)
  }

  /** The load-balancing recommendations for the active entries `active`. */
  function LoadRecommendations(active: seq<Entry>): seq<Recommendation>
  {
    PySeq.Map(PySeq.Filter(active, IsHeavy), LoadRecommendation)
  }

  /** `get_coordination_recommendations` over the twins `d`. */
  function Recommendations(d: PyDict.Dict<string, TwinState>): (r: seq<Recommendation>)
    requires d.WellFormed()
    ensures |r| <= |d.keys|
  {
    var active := Active(d);
    var idle := IdleIds(d);
    ActiveIdleSplit(Items(d));
    LoadRecommendations(active)
      + (if |active| > 0 && |idle| > 0 then [CoordinationOpportunity(idle, PySeq.Map(active, IdOf))] else [])
  }

  /** Every entry is either active or idle. */
  lemma {:induction false} ActiveIdleSplit(es: seq<Entry>)
    ensures |PySeq.Filter(es, IsActive)| + |PySeq.Filter(es, IsIdle)| == |es|
  {
    if es != [] {
      ActiveIdleSplit(es[..|es| - 1]);
    }
  }

  /** The load-balancing recommendations name exactly the overloaded agents that are not
      IDLE (an IDLE agent under high load gets none), one per agent, in dictionary order. */
  lemma LoadRecommendationsExact(d: PyDict.Dict<string, TwinState>)
    requires d.WellFormed()
    ensures LoadRecommendations(Active(d))
            == PySeq.Map(PySeq.Filter(Items(d), PySeq.Both(IsActive, IsHeavy)), LoadRecommendation)
    ensures forall r :: r in LoadRecommendations(Active(d)) <==>
              exists i :: 0 <= i < |d.keys| && d.values[i].currentState != Idle
                          && d.values[i].metrics.processingLoad > 0.8
                          && r == LoadBalancing(d.keys[i], d.values[i].metrics.processingLoad)
  {
    var items := Items(d);
    var both := PySeq.Both(IsActive, IsHeavy);
    PySeq.FilterFilter(items, IsActive, IsHeavy);
    PySeq.MapFilterMember(items, both, LoadRecommendation);
    forall i | 0 <= i < |items|
      ensures both(items[i]) <==> d.values[i].currentState != Idle && d.values[i].metrics.processingLoad > 0.8
      ensures LoadRecommendation(items[i]) == LoadBalancing(d.keys[i], d.values[i].metrics.processingLoad)
    {
      assert both(items[i]) == (IsActive(items[i]) && IsHeavy(items[i]));
    }
  }

  /** The IDLE agents listed, in dictionary order. */
  lemma IdleIdsExact(d: PyDict.Dict<string, TwinState>)
    requires d.WellFormed()
    ensures forall id :: id in IdleIds(d) <==>
              exists i :: 0 <= i < |d.keys| && d.values[i].currentState == Idle && d.keys[i] == id
  {
    var items := Items(d);
    PySeq.MapFilterMember(items, IsIdle, IdOf);
    assert forall i :: 0 <= i < |items| ==> IdOf(items[i]) == d.keys[i];
  }

  lemma LoadRecommendationsSnoc(active: seq<Entry>, i: nat)
    requires i < |active|
    ensures LoadRecommendations(active[..i + 1])
            == LoadRecommendations(active[..i]) + (if IsHeavy(active[i]) then [LoadRecommendation(active[i])] else [])
  {
    assert active[..i + 1] == active[..i] + [active[i]];
    PySeq.FilterSnoc(active[..i], active[i], IsHeavy);
    if IsHeavy(active[i]) {
      PySeq.MapSnoc(PySeq.Filter(active[..i], IsHeavy), active[i], LoadRecommendation);
    } else {
      assert PySeq.Filter(active[..i + 1], IsHeavy) == PySeq.Filter(active[..i], IsHeavy);
    }
  }

  /** There is exactly one coordination opportunity, and it comes last, when some agent is
      active and some agent is IDLE; otherwise there is none. */
  lemma CoordinationOpportunityExact(d: PyDict.Dict<string, TwinState>)
    requires d.WellFormed()
    ensures forall k :: 0 <= k < |Recommendations(d)| - 1 ==> Recommendations(d)[k].LoadBalancing?
    ensures (Recommendations(d) != [] && Recommendations(d)[|Recommendations(d)| - 1].CoordinationOpportunity?)
            <==> (exists i :: 0 <= i < |d.keys| && d.values[i].currentState != Idle)
                 && (exists j :: 0 <= j < |d.keys| && d.values[j].currentState == Idle)
  {
    var items := Items(d);
    var loads := LoadRecommendations(Active(d));
    PySeq.MapExact(PySeq.Filter(Active(d), IsHeavy), LoadRecommendation);
    assert forall k :: 0 <= k < |loads| ==> loads[k].LoadBalancing?;
    PySeq.FilterNonEmpty(items, IsActive);
    PySeq.FilterNonEmpty(items, IsIdle);
    assert forall i :: 0 <= i < |items| ==> (IsActive(items[i]) <==> d.values[i].currentState != Idle);
    assert forall i :: 0 <= i < |items| ==> (IsIdle(items[i]) <==> d.values[i].currentState == Idle);
    assert |IdleIds(d)| == |PySeq.Filter(items, IsIdle)|;
  }

  // ---------------------------------------------------------------------------------------
  // The engine
  // ---------------------------------------------------------------------------------------

  /** `DigitalTwinEngine`: the twins and the histories, keyed alike by agent id.  The
      configuration file is not read; `historyRetention` is the retention it would give. */
  class DigitalTwinEngine {
    var agents: PyDict.Dict<string, TwinState>
    var stateHistory: PyDict.Dict<string, seq<Metrics>>
    const historyRetention: real

    /** The twins and the histories are dictionaries over the same agent ids. */
    ghost predicate Valid()
      reads this
    {
      agents.Valid() && stateHistory.Valid() && stateHistory.keys == agents.keys
    }

    /** `__init__` with `_initialize_tracking`: the four roster agents, IDLE, each with a
        history holding its initial metrics. */
    constructor(now: real, historyRetention: real)
      ensures Valid()
      ensures agents.keys == RosterIds && stateHistory.keys == RosterIds
      ensures forall i :: 0 <= i < 4 ==> agents.values[i] == InitialTwin(Roster[i].0, Roster[i].1, now)
      ensures forall i :: 0 <= i < 4 ==> stateHistory.values[i] == [InitialMetrics(Roster[i].0, Roster[i].1, now)]
      ensures forall i :: 0 <= i < 4 ==> agents.values[i].currentState == Idle && |stateHistory.values[i]| == 1
      ensures this.historyRetention == historyRetention
    {
      this.historyRetention := historyRetention;
      agents := PyDict.Empty();
      stateHistory := PyDict.Empty();
      new;
      var i := 0;
      while i < |Roster|
        invariant 0 <= i <= |Roster|
        invariant agents.keys == RosterIds[..i] && stateHistory.keys == RosterIds[..i]
        invariant |agents.values| == i && |stateHistory.values| == i
        invariant forall j :: 0 <= j < i ==> agents.values[j] == InitialTwin(Roster[j].0, Roster[j].1, now)
        invariant forall j :: 0 <= j < i ==> stateHistory.values[j] == [InitialMetrics(Roster[j].0, Roster[j].1, now)]
        invariant agents.Valid() && stateHistory.Valid()
      {
        var (agentType, agentId) := Roster[i];
        assert agentId == RosterIds[i];
        assert agentId !in RosterIds[..i];
        var initial := InitialMetrics(agentType, agentId, now);
        agents := agents.Put(agentId, InitialTwin(agentType, agentId, now));
        stateHistory := stateHistory.Put(agentId, [initial]);
        assert RosterIds[..i + 1] == RosterIds[..i] + [agentId];
        i := i + 1;
      }
      assert RosterIds[..4] == RosterIds;
    }

    /** `update_agent_state`.  An unknown agent is refused and nothing changes.  Otherwise the
        twin takes the new state, the metrics the update records and the prediction made
        from the history before this update, and the history gains that one entry and is
        then cut to the retention window; the other agents are untouched. */
    method UpdateAgentState(agentId: string, newState: CognitiveState, metrics: Option<map<string, real>>,
                            now: real) returns (ok: bool)
      requires Valid()
      modifies this
      ensures Valid()
      ensures ok <==> agentId in old(agents.keys)
      ensures !ok ==> agents == old(agents) && stateHistory == old(stateHistory)
      ensures ok ==>
                var twin := old(agents.Get(agentId)).value;
                var history := old(stateHistory.Get(agentId)).value;
                var m := UpdatedMetrics(twin.metrics, agentId, twin.agentType, newState, metrics, now);
                var (predicted, confidence) := Predict(history, m);
                && agents == old(agents).Put(agentId, twin.(currentState := newState, metrics := m,
                                                             predictedNextState := Some(predicted),
                                                             confidenceScore := confidence, lastUpdated := now))
                && stateHistory == old(stateHistory).Put(agentId, Kept(history + [m], now - historyRetention))
      ensures agents.keys == old(agents.keys)
      ensures forall other :: other != agentId ==> agents.Get(other) == old(agents.Get(other))
      ensures forall other :: other != agentId ==> stateHistory.Get(other) == old(stateHistory.Get(other))
    {
      if agentId !in agents.keys {
        return false;
      }
      var twin := agents.Get(agentId).value;
      var history := stateHistory.Get(agentId).value;
      var m := UpdatedMetrics(twin.metrics, agentId, twin.agentType, newState, metrics, now);
      var (predicted, confidence) := Predict(history, m);
      ghost var before := agents;
      agents := agents.Put(agentId, twin.(currentState := newState, metrics := m,
                                          predictedNextState := Some(predicted),
                                          confidenceScore := confidence, lastUpdated := now));
      forall other | other != agentId
        ensures agents.Get(other) == before.Get(other)
      {
        PyDict.GetPutOther(before, agentId, agents.Get(agentId).value, other);
      }
      stateHistory := stateHistory.Put(agentId, history + [m]);
      CleanupHistory(agentId, history + [m], now);
      ok := true;
    }

    /** `_cleanup_history`: the agent's history keeps only the entries newer than
        `now - historyRetention`. */
    method CleanupHistory(agentId: string, ghost history: seq<Metrics>, now: real)
      requires Valid() && stateHistory.Get(agentId) == Some(history)
      modifies this
      ensures Valid()
      ensures agents == old(agents)
      ensures stateHistory == old(stateHistory).Put(agentId, Kept(history, now - historyRetention))
      ensures forall other :: other != agentId ==> stateHistory.Get(other) == old(stateHistory.Get(other))
    {
      var cutoff := now - historyRetention;
      ghost var before := stateHistory;
      stateHistory := stateHistory.Put(agentId, Kept(stateHistory.Get(agentId).value, cutoff));
      forall other | other != agentId
        ensures stateHistory.Get(other) == before.Get(other)
      {
        PyDict.GetPutOther(before, agentId, Kept(history, cutoff), other);
      }
    }

    /** `get_coordination_recommendations`. */
    method GetCoordinationRecommendations() returns (recs: seq<Recommendation>)
      requires agents.WellFormed()
      ensures recs == Recommendations(agents)
    {
      var active := Active(agents);
      recs := [];
      var i := 0;
      while i < |active|
        invariant 0 <= i <= |active|
        invariant recs == LoadRecommendations(active[..i])
      {
        LoadRecommendationsSnoc(active, i);
        if IsHeavy(active[i]) {
          recs := recs + [LoadRecommendation(active[i])];
        }
        i := i + 1;
      }
      assert active[..|active|] == active;
      var idle := IdleIds(agents);
      if |active| > 0 && |idle| > 0 {
        recs := recs + [CoordinationOpportunity(idle, PySeq.Map(active, IdOf))];
      }
    }
  }
}
