/** The end-to-end pipeline's scoring of one coordination response against its scenario:
    3 points for the expected agent, up to 3 for quality, up to 4 for the success
    criteria, and valid from 7 points on. */
module IntegrationValidation {
  import opened Wrappers
  import PyStr

  /** The fields of the response dict that are read; an absent key is `None`. */
  datatype Response = Response(agentUsed: Option<string>, qualityScore: Option<real>, text: Option<string>)

  /** The fields of the scenario dict that are read; an absent criteria list is empty. */
  datatype Scenario = Scenario(expectedAgent: Option<string>, successCriteria: seq<string>)

  datatype Validation = Validation(valid: bool, score: int, issues: seq<string>)

  /** Formatting an optional string in an f-string. */
  function Show(v: Option<string>): string
  {
    match v
    case None => "None"
    case Some(s) => s
  }

  /** `response.get('quality_score', 0)`. */
  function Quality(response: Response): real
  {
    match response.qualityScore
    case None => 0.0
    case Some(q) => q
  }

  /** `str(response.get('response', '')).lower()`. */
  function ResponseText(response: Response): string
  {
    match response.text
    case None => ""
    case Some(t) => PyStr.Lower(t)
  }

  predicate CriterionMet(criterion: string, text: string)
  {
    PyStr.Contains(text, PyStr.Lower(criterion))
  }

  /** How many criteria occur, case-insensitively, in the text. */
  function CriteriaMet(criteria: seq<string>, text: string): nat
  {
    if criteria == [] then 0
    else CriteriaMet(criteria[..|criteria| - 1], text) + (if CriterionMet(criteria[|criteria| - 1], text) then 1 else 0)
  }

  /** The count never exceeds the number of criteria; it reaches it exactly when every
      criterion is met and is zero exactly when none is. */
  lemma {:induction false} CriteriaMetExact(criteria: seq<string>, text: string)
    ensures CriteriaMet(criteria, text) <= |criteria|
    ensures CriteriaMet(criteria, text) == |criteria| <==>
              forall i :: 0 <= i < |criteria| ==> CriterionMet(criteria[i], text)
    ensures CriteriaMet(criteria, text) == 0 <==>
              forall i :: 0 <= i < |criteria| ==> !CriterionMet(criteria[i], text)
  {
    if criteria != [] {
      var init := criteria[..|criteria| - 1];
      CriteriaMetExact(init, text);
      assert forall i :: 0 <= i < |init| ==> init[i] == criteria[i];
    }
  }

  /** `_validate_response`. */
  function Validate(response: Response, scenario: Scenario): (v: Validation)
    ensures 0 <= v.score <= 10
    ensures v.valid <==> v.score >= 7
    ensures v.issues == [] <==> v.score == 10
    ensures response.agentUsed != scenario.expectedAgent ==>
              v.issues != [] && v.issues[0] == "Expected " + Show(scenario.expectedAgent) + ", got " + Show(response.agentUsed)
  {
    var agentPoints := if response.agentUsed == scenario.expectedAgent then 3 else 0;
    var agentIssues := if response.agentUsed == scenario.expectedAgent then []
                       else ["Expected " + Show(scenario.expectedAgent) + ", got " + Show(response.agentUsed)];
    var q := Quality(response);
    var qualityPoints := if q >= 80.0 then 3 else if q >= 60.0 then 2 else 0;
    var qualityIssues := if q >= 80.0 then [] else if q >= 60.0 then ["Quality score below target (80)"]
                         else ["Quality score too low"];
    var met := CriteriaMet(scenario.successCriteria, ResponseText(response));
    var criteriaPoints := if met >= |scenario.successCriteria| then 4 else if met > 0 then 2 else 0;
    var criteriaIssues := if met >= |scenario.successCriteria| then []
                          else if met > 0 then ["Not all success criteria met"]
                          else ["No success criteria met"];
    var score := agentPoints + qualityPoints + criteriaPoints;
    Validation(score >= 7, score, agentIssues + qualityIssues + criteriaIssues)
  }

  /** Which responses pass: every criterion met together with the expected agent or a
      quality of 80, or the expected agent with a quality of 60 and at least one
      criterion met. */
  lemma ValidIff(response: Response, scenario: Scenario)
    ensures Validate(response, scenario).valid <==>
              var all := forall i :: 0 <= i < |scenario.successCriteria| ==>
                           CriterionMet(scenario.successCriteria[i], ResponseText(response));
              var some := exists i :: 0 <= i < |scenario.successCriteria| &&
                            CriterionMet(scenario.successCriteria[i], ResponseText(response));
              var matched := response.agentUsed == scenario.expectedAgent;
              (all && (matched || Quality(response) >= 80.0)) ||
              (matched && Quality(response) >= 60.0 && some)
  {
    CriteriaMetExact(scenario.successCriteria, ResponseText(response));
  }

  /** The `sum(1 for criteria in ... if ...)` of the source. */
  method CountCriteria(criteria: seq<string>, text: string) returns (met: nat)
    ensures met == CriteriaMet(criteria, text)
  {
    met := 0;
    for i := 0 to |criteria|
      invariant met == CriteriaMet(criteria[..i], text)
    {
      assert criteria[..i + 1][..i] == criteria[..i];
      if CriterionMet(criteria[i], text) {
        met := met + 1;
      }
    }
    assert criteria[..|criteria|] == criteria;
  }

  /** The same score built step by step, as the source does. */
  method ValidateResponse(response: Response, scenario: Scenario) returns (v: Validation)
    ensures v == Validate(response, scenario)
  {
    v := Validation(true, 0, []);
    if response.agentUsed == scenario.expectedAgent {
      v := v.(score := v.score + 3);
    } else {
      v := v.(issues := v.issues + ["Expected " + Show(scenario.expectedAgent) + ", got " + Show(response.agentUsed)]);
    }
    var qualityScore := Quality(response);
    if qualityScore >= 80.0 {
      v := v.(score := v.score + 3);
    } else if qualityScore >= 60.0 {
      v := v.(score := v.score + 2);
      v := v.(issues := v.issues + ["Quality score below target (80)"]);
    } else {
      v := v.(issues := v.issues + ["Quality score too low"]);
    }
    var responseText := ResponseText(response);
    var criteria := scenario.successCriteria;
    var criteriaMet := CountCriteria(criteria, responseText);
    if criteriaMet >= |criteria| {
      v := v.(score := v.score + 4);
    } else if criteriaMet > 0 {
      v := v.(score := v.score + 2);
      v := v.(issues := v.issues + ["Not all success criteria met"]);
    } else {
      v := v.(issues := v.issues + ["No success criteria met"]);
    }
    v := v.(valid := v.score >= 7);
  }
}
