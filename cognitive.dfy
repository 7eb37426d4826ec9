/** The per-user cognitive core: a preference store, a store of adaptation metrics, the
    workflow-pattern model and the agent-assignment scores derived from preferences.
    Preferences and metrics are dynamically typed values. */
module CognitiveCore {
  import opened Wrappers
  import Json
  import PyDict

  /** `PreferenceEngine`: the latest preference stored per user. */
  class PreferenceEngine {
    var preferences: map<string, Json.Value>

    constructor()
      ensures preferences == map[]
    {
      preferences := map[];
    }

    /** `update`: the user's preference is replaced. */
    method Update(userId: string, preference: Json.Value)
      modifies this
      ensures preferences == old(preferences)[userId := preference]
      ensures Get(userId) == preference
      ensures forall other :: other != userId ==> Get(other) == old(Get(other))
    {
      preferences := preferences[userId := preference];
    }

    /** `get`: the stored preference, or an empty dictionary for an unknown user (never None). */
    function Get(userId: string): (r: Json.Value)
      reads this
      ensures userId in preferences ==> r == preferences[userId]
      ensures userId !in preferences ==> r == Json.Obj(map[])
    {
      if userId in preferences then preferences[userId] else Json.Obj(map[])
    }
  }

  /** `AdaptationMetrics`: the metrics logged per user, oldest first. */
  class AdaptationMetrics {
    var metrics: map<string, seq<Json.Value>>

    constructor()
      ensures metrics == map[]
    {
      metrics := map[];
    }

    /** `log`: the metric goes to the end of the user's list, which is created on first use. */
    method Log(userId: string, metric: Json.Value)
      modifies this
      ensures Get(userId) == old(Get(userId)) + [metric]
      ensures forall other :: other != userId ==> Get(other) == old(Get(other))
      ensures metrics.Keys == old(metrics.Keys) + {userId}
    {
      if userId !in metrics {
        metrics := metrics[userId := []];
      }
      metrics := metrics[userId := metrics[userId] + [metric]];
    }

    /** `get`: the user's metrics, or an empty list for an unknown user. */
    function Get(userId: string): (r: seq<Json.Value>)
      reads this
      ensures userId in metrics ==> r == metrics[userId]
      ensures userId !in metrics ==> r == []
    {
      if userId in metrics then metrics[userId] else []
    }
  }

  /** The four stages of `model_user_workflow_patterns`; each passes its input on unchanged. */
  function Aggregate(history: seq<Json.Value>): seq<Json.Value> { history }

  function Consolidate(aggregated: seq<Json.Value>): seq<Json.Value> { aggregated }

  function Integrate(consolidated: seq<Json.Value>): seq<Json.Value> { consolidated }

  function Curate(integrated: seq<Json.Value>): seq<Json.Value> { integrated }

  /** The agents scored by `optimize_agent_assignment`, in dictionary order. */
  const ScoredAgents: seq<string> := ["claude", "codex", "gemini"]

  /** The score of one agent: 1.0, raised by 0.5 when the preference for it is truthy. */
  function AgentScore(preference: Json.Value): real
  {
    if Json.Truthy(preference) then 1.5 else 1.0
  }

  /** `preferences.get(agent)` for each scored agent; `.get` on a preference that is not a
      dictionary raises (`Failure`). */
  function Assignment(preferences: Json.Value): (r: Result<PyDict.Dict<string, real>, string>)
    ensures r.Success? <==> preferences.Obj?
    ensures r.Success? ==> r.value.keys == ScoredAgents && |r.value.values| == 3
    ensures r.Success? ==> forall i :: 0 <= i < 3 ==>
              r.value.values[i] == (if ScoredAgents[i] in preferences.fields && Json.Truthy(preferences.fields[ScoredAgents[i]])
                                    then 1.5 else 1.0)
  {
    if !preferences.Obj? then Failure("object has no attribute 'get'")
    else
      Success(PyDict.Dict(ScoredAgents,
                          [AgentScore(Json.GetOr(preferences, "claude", Json.Null).value),
                           AgentScore(Json.GetOr(preferences, "codex", Json.Null).value),
                           AgentScore(Json.GetOr(preferences, "gemini", Json.Null).value)]))
  }

  /** `DigitalTwinCognitiveCore`.  The cognitive model starts as an empty dictionary and
      becomes the list the last call of `model_user_workflow_patterns` curated. */
  class DigitalTwinCognitiveCore {
    const userId: string
    var cognitiveModel: Json.Value
    const preferenceEngine: PreferenceEngine
    const adaptationMetrics: AdaptationMetrics

    constructor(userId: string)
      ensures this.userId == userId
      ensures cognitiveModel == Json.Obj(map[])
      ensures fresh(preferenceEngine) && fresh(adaptationMetrics)
      ensures preferenceEngine.preferences == map[] && adaptationMetrics.metrics == map[]
    {
      this.userId := userId;
      cognitiveModel := Json.Obj(map[]);
      preferenceEngine := new PreferenceEngine();
      adaptationMetrics := new AdaptationMetrics();
    }

    /** `model_user_workflow_patterns`: the four stages leave the history as it is, and it
        becomes the cognitive model. */
    method ModelUserWorkflowPatterns(interactionHistory: seq<Json.Value>) returns (curated: seq<Json.Value>)
      modifies this
      ensures curated == interactionHistory
      ensures cognitiveModel == Json.List(interactionHistory)
    {
      var aggregated := Aggregate(interactionHistory);
      var consolidated := Consolidate(aggregated);
      var integrated := Integrate(consolidated);
      curated := Curate(integrated);
      cognitiveModel := Json.List(curated);
    }

    /** `optimize_agent_assignment`: start every scored agent at 1.0, then add 0.5 for each
        agent the user's preference favours. */
    method OptimizeAgentAssignment(task: Json.Value) returns (r: Result<PyDict.Dict<string, real>, string>)
      ensures r == Assignment(preferenceEngine.Get(userId))
    {
      var preferences := preferenceEngine.Get(userId);
      var scores: PyDict.Dict<string, real> := PyDict.Dict(ScoredAgents, [1.0, 1.0, 1.0]);
      if !preferences.Obj? {
        return Failure("object has no attribute 'get'");
      }
      var i := 0;
      while i < |ScoredAgents|
        invariant 0 <= i <= 3
        invariant scores.keys == ScoredAgents && |scores.values| == 3
        invariant forall j :: 0 <= j < i ==>
                    scores.values[j] == AgentScore(Json.GetOr(preferences, ScoredAgents[j], Json.Null).value)
        invariant forall j :: i <= j < 3 ==> scores.values[j] == 1.0
      {
        var agent := ScoredAgents[i];
        var preference := Json.GetOr(preferences, agent, Json.Null).value;
        if Json.Truthy(preference) {
          scores := PyDict.Dict(scores.keys, scores.values[i := scores.values[i] + 0.5]);
        }
        i := i + 1;
      }
      assert scores.values == [scores.values[0], scores.values[1], scores.values[2]];
      r := Success(scores);
    }
  }

  /** Every scored agent gets 1.0 or 1.5; with no stored preference each gets 1.0. */
  lemma AssignmentScores(preferences: Json.Value)
    requires preferences.Obj?
    ensures forall i :: 0 <= i < 3 ==> Assignment(preferences).value.values[i] in {1.0, 1.5}
    ensures preferences == Json.Obj(map[]) ==> Assignment(preferences).value.values == [1.0, 1.0, 1.0]
  {
  }
}
