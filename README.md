# AI Qube Centaur ecosystem — verified model of the coordination core

The AI Qube Centaur ecosystem coordinates several AI agents (Claude, Codex, Gemini, Copilot)
around shared tasks and a retrieval-augmented knowledge base. This project models its
sequential core in Dafny and proves what each piece promises:

- **Agent coordination framework** (`agents.dfy`, module `AgentIntegration`). Agents carry
  capabilities, active tasks weighted by priority, and a message queue. The framework
  registers agents and tasks and picks the best eligible agent by score, with a stable
  tie-break. It assigns tasks, and it relays messages through a bus that is drained once per
  call.
- **Retrieval engine** (`rag.dfy`, module `Rag`). The vector store keeps its documents, its
  index maps and its counter. The engine offers:
  - threshold and top-k search;
  - post-filtering by type and tag, with rank numbering;
  - token-budgeted context assembly;
  - confidence scoring, highlighted terms and snippet windows.
- **Language-model answer post-processing** (`gemini.dfy`, module `Gemini`):
  - prompt source limiting;
  - the offline fallback response;
  - answer extraction and reasoning-step extraction;
  - citation filtering and the weighted confidence;
  - fallback results and batch processing.
- **Digital twin engine** (`twin.dfy`, module `DigitalTwin`). It keeps a per-agent state
  table and history, predicts the next state from a rule table, cuts the history to the
  retention window, and makes coordination recommendations.
- **Per-user cognitive core** (`cognitive.dfy`, module `CognitiveCore`). It holds the
  preference and adaptation-metric stores, the workflow-pattern stages and the
  agent-assignment scores.
- **Agent-communication hub prototype** (`hub.dfy`, module `AgentHub`):
  - agent registration;
  - the communication-pattern counter and message routing;
  - the fixed implementation plan with ordered dependencies;
  - coordination-pattern updates and reply parsing.
- **End-to-end response validation** (`validation.dfy`, module `IntegrationValidation`):
  the 0–10 scorer for one coordinated response.
- **Knowledge-base population** (`populate.dfy`, module `Populate`): title and tag
  extraction.
- **Settings** (`config.dfy`, module `Config`): URL and key validation, the n8n base URL
  and the environment tests.

Python's own semantics are modelled in small shared modules:

- `Wrappers`: `Option` and `Result`.
- `Json`: dynamically typed values with truthiness, `.get` with a default and `[0]`.
- `PyDict`: insertion-ordered dictionaries, whose iteration order decides tie-breaks and
  result order.
- `PySeq`: slicing, filters, maps, comprehensions and de-duplication.
- `PyStr`: ASCII `lower`, `strip`, `split`, `join`, `title`, `replace` and `str(int)`.

Exceptions are modelled as `Failure` results. Coroutines are modelled as sequential
methods. Embedded similarity, model calls and handlers are functions passed in as
parameters.

Where the code and its design notes disagree, the model follows the code:

- `tests/test_digital_twin.py` expects a load-balancing recommendation for an agent at load
  0.8. The code uses a strict `> 0.8` (src/digital_twin/cognitive_core.py:323), so that
  agent gets none, and `DigitalTwin.LoadRecommendationsExact` states the strict test.
- The design notes say a second assignment of a task that is already in progress is
  rejected. `add_task` and `assign_task` do not reject it: that task is stored again under
  the same id and the agent id is appended to its assignees once more.
  `AgentIntegration.Agent.AddTask` states this.

## Model

| member | source | states |
|---|---|---|
| AgentIntegration.Weight | src/agents/agent_integration.py:38-44 | each priority weighs between 0.5 (low) and 3.0 (critical) |
| AgentIntegration.PriorityFromValue | src/agents/agent_integration.py:38-44 | parsing a priority string gives back a priority whose value is that string |
| AgentIntegration.PriorityValueRoundTrip | src/agents/agent_integration.py:38-44 | every priority is recovered from its string value |
| AgentIntegration.ToDict | src/agents/agent_integration.py:70-81 | the dictionary has exactly the message keys, and the priority is stored as its string value |
| AgentIntegration.FromDict | src/agents/agent_integration.py:83-95 | the message is read iff every key is present, the priority names a priority, the content is a dictionary and the timestamp parses; an unparsable timestamp is a ValueError; a read message carries the given fields and the parsed timestamp |
| AgentIntegration.StrField | src/agents/agent_integration.py:83-95 | reading a string field succeeds iff the key is present and holds a string, and then gives that string |
| AgentIntegration.MessageRoundTrip | src/agents/agent_integration.py:70-95 | `from_dict(to_dict(m))` reproduces `m` field by field, given that `m`'s timestamp is isoformat text that parses back to itself |
| AgentIntegration.FromDictToDict | src/agents/agent_integration.py:70-95 | a dictionary `from_dict` accepts is reproduced by `to_dict` on every key, the correlation id included when present, except the timestamp, which comes back as the normalised isoformat of its parse |
| AgentIntegration.Task.constructor | src/agents/agent_integration.py:99-118 | a task starts NOT_STARTED with no assignees and keeps every given field |
| AgentIntegration.WeightSum | src/agents/agent_integration.py:154-169 | the workload of a task list is non-negative, and at least 0.5 when the list is non-empty |
| AgentIntegration.WeightSumConcat | src/agents/agent_integration.py:154-169 | the workload of two task lists together is the sum of their workloads |
| AgentIntegration.WeightSumUpdate | src/agents/agent_integration.py:154-169 | replacing one task changes the workload by the difference of the two weights |
| AgentIntegration.WeightSumRemoveAt | src/agents/agent_integration.py:182-193 | removing a task lowers the workload by exactly its weight |
| AgentIntegration.WeightSumSingle | src/agents/agent_integration.py:154-169 | one task weighs its priority's weight |
| AgentIntegration.WeightAt | src/agents/agent_integration.py:154-169 | the weight stored under one id is between 0 and 3 |
| AgentIntegration.WeightSumPut | src/agents/agent_integration.py:171-180 | storing a task under its id replaces that id's weight by its own |
| AgentIntegration.Agent.constructor | src/agents/agent_integration.py:123-137 | an agent starts available, with no active tasks, an empty queue and zero counters |
| AgentIntegration.Agent.CanHandleIffShared | src/agents/agent_integration.py:149-152 | an agent can handle a task iff it shares at least one capability with it |
| AgentIntegration.Agent.CanHandleTask | src/agents/agent_integration.py:149-152 | an agent that can handle a task declares a capability and that task requires one |
| AgentIntegration.TaskValue | src/agents/agent_integration.py:99-111 | a task as a dictionary has exactly its attribute names, with its id, its priority by value, the given status by value and the given assignees |
| AgentIntegration.AssignmentMessage | src/agents/agent_integration.py:279-286 | the notification goes from "coordination_framework" to the chosen agent as a `task_assignment` for that task, at its priority, with no correlation id, and its only content key "task" holds that task in progress with its assignees |
| AgentIntegration.Agent.Workload | src/agents/agent_integration.py:154-169 | the workload is non-negative and zero exactly when no task is active |
| AgentIntegration.Agent.GetWorkload | src/agents/agent_integration.py:154-169 | the accumulating loop computes the sum of the active tasks' priority weights |
| AgentIntegration.Agent.AddTask | src/agents/agent_integration.py:171-180 | succeeds iff the agent is capable and available, with no check of status or workload; on success that task is stored under its id, the agent id is appended to its assignees and it is IN_PROGRESS; on failure nothing changes |
| AgentIntegration.Agent.CompleteTask | src/agents/agent_integration.py:182-193 | on an active task: it becomes COMPLETED with the results in its context, leaves the active tasks, and the completed counter goes up by one; otherwise false and nothing changes |
| AgentIntegration.WorkloadScore | src/agents/agent_integration.py:251-259 | the workload term `1/(workload+1)` lies in (0, 1] |
| AgentIntegration.BestChoiceUnique | src/agents/agent_integration.py:240-261 | with distinct agent ids, at most one answer meets the best-agent specification |
| AgentIntegration.FirstMaxIndex | src/agents/agent_integration.py:251-259 | the chosen index has the greatest score, and every earlier index scores strictly less |
| AgentIntegration.EligibleIndices | src/agents/agent_integration.py:240-250 | every listed index is an eligible position |
| AgentIntegration.EligibleIndicesComplete | src/agents/agent_integration.py:240-250 | the eligible positions are listed in order and all of them are listed |
| AgentIntegration.FirstMaxOfEligible | src/agents/agent_integration.py:240-261 | the first top-scoring candidate in the list is the first top-scoring eligible agent overall |
| AgentIntegration.SortedHeadIsBest | src/agents/agent_integration.py:240-261 | the head of the stable descending sort of the candidates meets the best-agent specification: None iff no agent is eligible, otherwise an eligible agent with the greatest score and no earlier agent with that score |
| AgentIntegration.BestIndexIsFirstBest | src/agents/agent_integration.py:240-261 | the fold over the agents finds the first eligible agent of greatest score, or None when none is eligible |
| AgentIntegration.BestChoiceIsBest | src/agents/agent_integration.py:240-261 | the fold's answer meets the best-agent specification |
| AgentIntegration.Assess | src/agents/agent_integration.py:240-259 | decides eligibility (a shared capability, available, workload below the ceiling) and computes the score of an eligible agent |
| AgentIntegration.CollectSuitable | src/agents/agent_integration.py:240-250 | the candidate loop collects exactly the eligible agents, in registration order, with their scores |
| AgentIntegration.Responses | src/agents/agent_integration.py:330-344 | a drain produces at most one response per message it processed |
| AgentIntegration.AddressedTo | src/agents/agent_integration.py:294-306 | the messages addressed to one agent form a sub-list of the bus |
| AgentIntegration.Deliver1 | src/agents/agent_integration.py:294-306 | one delivery appends the message to exactly the queue of the agent whose id is its recipient |
| AgentIntegration.Deliver1At | src/agents/agent_integration.py:294-306 | with distinct ids, delivering to a registered recipient changes that one queue only |
| AgentIntegration.DeliverAll | src/agents/agent_integration.py:330-344 | after delivering a list of messages, every queue has grown by the messages addressed to it, in bus order |
| AgentIntegration.DeliverAllSnoc | src/agents/agent_integration.py:330-344 | delivering one more message equals delivering the earlier list and then that message |
| AgentIntegration.CountStatus | src/agents/agent_integration.py:308-328 | a status count never exceeds the number of tasks |
| AgentIntegration.StatusCountsPartition | src/agents/agent_integration.py:308-328 | the six status counts add up to the number of tasks |
| AgentIntegration.StatusOf | src/agents/agent_integration.py:195-206 | an agent's status reports its id, its active-task count and its workload, which is zero iff it has no active task |
| AgentIntegration.StatusesOf | src/agents/agent_integration.py:308-328 | one status per agent, in registration order |
| AgentIntegration.Framework.DistinctAgents | src/agents/agent_integration.py:224-230 | registered agents are distinct objects |
| AgentIntegration.Framework.DistinctTasks | src/agents/agent_integration.py:232-238 | stored tasks are distinct objects |
| AgentIntegration.Framework.constructor | src/agents/agent_integration.py:212-222 | empty agent and task tables, an empty bus and a workload ceiling of 3 |
| AgentIntegration.Framework.RegisterAgent | src/agents/agent_integration.py:224-230 | a new id is inserted and true is returned; an id already present returns false with the table unchanged |
| AgentIntegration.Framework.CreateTask | src/agents/agent_integration.py:232-238 | a new task id is inserted and true is returned; an id already present returns false with the table unchanged |
| AgentIntegration.Framework.FindBestAgent | src/agents/agent_integration.py:240-261 | returns a registered agent that meets the best-agent specification, so None exactly when no agent is eligible |
| AgentIntegration.Framework.SendMessage | src/agents/agent_integration.py:294-306 | the message is always appended to the bus, and also to the recipient's queue iff the recipient is registered; returns true exactly then |
| AgentIntegration.Framework.Choose | src/agents/agent_integration.py:263-275 | an explicit agent id is used as given, which bypasses the workload ceiling; otherwise the best agent is chosen |
| AgentIntegration.Framework.AssignTo | src/agents/agent_integration.py:276-292 | succeeds iff the chosen agent is registered and accepts that task; on success the agent holds that task and exactly one task_assignment message from coordination_framework to that agent is on the bus; on failure the bus is unchanged |
| AgentIntegration.Framework.AssignTask | src/agents/agent_integration.py:263-292 | an unknown task or a missing or refusing agent returns false with the bus unchanged; otherwise the chosen agent holds that task and exactly one assignment message is sent |
| AgentIntegration.Framework.Relay | src/agents/agent_integration.py:294-306 | sending a message appends it to the bus and delivers it to the queue of the registered recipient, if any |
| AgentIntegration.Framework.ProcessMessageQueue | src/agents/agent_integration.py:330-344 | the old bus is processed in FIFO order and is cleared first; every queue has grown by its messages; the new bus is exactly the handler responses, which are not processed in the same drain |
| AgentIntegration.Framework.GetSystemStatus | src/agents/agent_integration.py:308-328 | one status per registered agent, the total number of tasks, each of the four reported counts equal to the number of tasks in that status, the unreported rest being exactly the needs-review and failed tasks, and the bus length |
| Rag.InsertDesc | src/rag_system/core.py:246-247 | inserting one hit into a list lengthens it by one |
| Rag.InsertDescPermutes | src/rag_system/core.py:246-247 | inserting a hit adds exactly that hit to the multiset |
| Rag.InsertDescBelow | src/rag_system/core.py:246-247 | insertion keeps every score below a common bound |
| Rag.InsertDescSorted | src/rag_system/core.py:246-247 | insertion keeps a list sorted by descending score |
| Rag.SortDesc | src/rag_system/core.py:246-247 | the sort is a permutation of its input and sorted by descending score |
| Rag.WithScore | src/rag_system/core.py:246-247 | the hits with one given score are a sub-list of the hits |
| Rag.WithScoreCons | src/rag_system/core.py:246-247 | the hits with one score are taken in list order |
| Rag.InsertDescStable | src/rag_system/core.py:246-247 | insertion places a hit before the hits with an equal score, so inserting each head into the sorted rest keeps equal scores in store order |
| Rag.SortDescStable | src/rag_system/core.py:246-247 | the sort is stable: hits with equal scores keep their store order |
| Rag.Candidates | src/rag_system/core.py:232-244 | the scan yields at most one hit per stored document |
| Rag.CandidatesExact | src/rag_system/core.py:232-244 | a hit is produced exactly for each stored document with an embedding whose similarity reaches the threshold |
| Rag.CandidatesSound | src/rag_system/core.py:232-244 | every hit reaches the threshold and names a stored document |
| Rag.SortDescElements | src/rag_system/core.py:246-247 | sorting brings in no new hits |
| Rag.FallbackSearch | src/rag_system/core.py:192-251 | an empty store gives []; otherwise every result reaches the threshold and names a stored document, the list is sorted by descending score and has at most k results |
| Rag.VectorDatabase.constructor | src/rag_system/core.py:114-152 | the store starts empty, with empty index maps and the counter at 0 |
| Rag.VectorDatabase.AddDocument | src/rag_system/core.py:154-190 | a document with no embedding is rejected and nothing changes; otherwise it is stored under its id, both index maps link the id to the old counter, and the counter goes up by one |
| Rag.VectorDatabase.GetDocument | src/rag_system/core.py:253-255 | None iff the id is not stored; a stored document has that id and an embedding |
| Rag.VectorDatabase.RemoveDocument | src/rag_system/core.py:257-269 | returns whether the id was stored; the document is gone and every other lookup is unchanged; the index maps and the counter are untouched |
| Rag.VectorDatabase.Search | src/rag_system/core.py:192-251 | the search loops compute the fallback search |
| Rag.Passing | src/rag_system/core.py:470-505 | filtering never adds hits |
| Rag.PassingSound | src/rag_system/core.py:470-505 | every kept hit names a stored document of an accepted type that shares a requested tag, and keeps its score |
| Rag.PassingSorted | src/rag_system/core.py:470-505 | filtering keeps the descending score order |
| Rag.CollectStep | src/rag_system/core.py:470-505 | the filter loop takes one hit at a time |
| Rag.CollectNextGrows | src/rag_system/core.py:476-505 | one filter pass keeps the results so far, or appends the hit's document with its similarity when the document is stored and passes the filters |
| Rag.Take | src/rag_system/core.py:470-505 | taking n gives the first min(n, length) elements |
| Rag.PassingPrefix | src/rag_system/core.py:470-505 | filtering a longer list extends the filtered shorter list |
| Rag.CollectIsTake | src/rag_system/core.py:470-505 | the loop that stops at k results keeps the first k (at least 1) documents that pass the filters |
| Rag.CollectStopped | src/rag_system/core.py:470-505 | once k results are kept, later hits change nothing |
| Rag.CollectFacts | src/rag_system/core.py:470-505 | at most k results, each reaching the threshold, stored and passing the filters, in descending score order |
| Rag.Ranked | src/rag_system/core.py:491-502 | one search result per kept document, ranked by position |
| Rag.RankedSnoc | src/rag_system/core.py:491-502 | a result appended to the list gets the next rank |
| Rag.RankedSearch | src/rag_system/core.py:446-512 | ranks are 1..n consecutively with n at most k; every result names a stored document that passes the type and tag filters and reaches the threshold; scores do not increase |
| Rag.Hits | src/rag_system/core.py:592-616 | a window's query-word hit count never exceeds its length |
| Rag.WindowScores | src/rag_system/core.py:592-616 | one hit count per window start |
| Rag.BestStart | src/rag_system/core.py:592-616 | the chosen start is 0 or a window start |
| Rag.BestStartIsFirstMax | src/rag_system/core.py:592-616 | the chosen window has the most query hits, every earlier window has fewer, and with no hit at all the start is 0 |
| Rag.BestStartSnoc | src/rag_system/core.py:602-607 | a new window replaces the best one only when it scores strictly more |
| Rag.WindowScoresSnoc | src/rag_system/core.py:602-607 | the window scores grow one start at a time |
| Rag.SnippetStarts | src/rag_system/core.py:592-616 | the window starts stay within the content words |
| Rag.ContextSnippet | src/rag_system/core.py:592-616 | the snippet is at most max_length + 3 characters long |
| Rag.FindBestStart | src/rag_system/core.py:598-607 | the loop tracking best_start and best_score finds the first window with the most query hits |
| Rag.CreateContextSnippet | src/rag_system/core.py:592-616 | the method computes the snippet specification |
| Rag.CommonWords | src/rag_system/core.py:618-625 | a word is listed iff it is both a query word and a content word |
| Rag.HighlightedTerms | src/rag_system/core.py:618-625 | at most 10 distinct terms, each a lower-cased query word and content word; with fewer than 10, every common word is listed |
| Rag.CountAbove | src/rag_system/core.py:627-640 | the count of high scores never exceeds the number of scores |
| Rag.Confidence | src/rag_system/core.py:627-640 | 0 for no results; otherwise at most 1, at least min(mean, 1) and at most mean + 0.3 |
| Rag.Scores | src/rag_system/core.py:627-640 | the similarity score of each result, in order |
| Rag.AssembleUsed | src/rag_system/core.py:544-560 | the documents used are a prefix of the results, one context part each, and all results are used unless the budget ran out |
| Rag.AssembleBudget | src/rag_system/core.py:544-560 | with a non-negative budget the token total stays within it; while the budget lasts the total is the token sum of the documents used, and a total that differs from that sum is the budget itself, set by a truncated tail |
| Rag.AssembleStep | src/rag_system/core.py:544-560 | the assembly loop takes one result at a time |
| Rag.AssembleStopped | src/rag_system/core.py:544-560 | once the budget is spent, later results change nothing |
| Rag.Feed | src/rag_system/core.py:544-560 | one loop pass changes nothing once the budget is spent, uses at most this result with one part for it, and, unless the budget then runs out, adds the whole document's tokens |
| Rag.Assemble | src/rag_system/core.py:544-560 | never more documents used than results |
| Rag.ContextFor | src/rag_system/core.py:514-590 | the token total is within the budget, the used results are a prefix of the search results, and confidence is 0 without results and never above 1 |
| Rag.AddPart | src/rag_system/core.py:544-560 | one loop step either adds a whole document, adds a truncated "..." tail when more than 100 tokens remain and stops, or stops |
| Rag.RagSystem.constructor | src/rag_system/core.py:363-387 | a fresh empty store with the given settings, a 4000-token context budget and an overlap of 200 |
| Rag.RagSystem.AddDocument | src/rag_system/core.py:389-444 | the document is stored under the given fresh id with its content, type, metadata and embedding; both index maps link the id to the old counter, and the counter goes up by one |
| Rag.RagSystem.Search | src/rag_system/core.py:446-512 | the method computes the ranked, filtered search |
| Rag.RagSystem.MakeResult | src/rag_system/core.py:491-502 | builds the search result of one kept document with its rank |
| Rag.RagSystem.FilterOne | src/rag_system/core.py:470-505 | one filter step keeps the hit iff it passes, and keeps the ranked list in step |
| Rag.RagSystem.FilterHits | src/rag_system/core.py:470-505 | the filter loop gives the ranked list of the documents it kept |
| Rag.RagSystem.GetContext | src/rag_system/core.py:514-590 | the context is assembled from a search for the 10 best documents at threshold 0.7 |
| Gemini.Excerpt | src/rag_system/gemini_integration.py:222-244 | each source is cut to its first 1000 characters |
| Gemini.SourceEntries | src/rag_system/gemini_integration.py:222-244 | one numbered entry per source used |
| Gemini.BuildPrompt | src/rag_system/gemini_integration.py:222-244 | at most max_sources documents are used, as Python slicing takes them, and num_sources is the number used |
| Gemini.BuildPromptQuotes | src/rag_system/gemini_integration.py:222-244 | the prompt context quotes every source it counts |
| Gemini.SourceLinesSnoc | src/rag_system/gemini_integration.py:284-285 | the fallback's source list grows one line per document |
| Gemini.FallbackMentions | src/rag_system/gemini_integration.py:277-297 | with retrieved documents the fallback lists the snippets of at most the first 3; without any it says it lacks the information |
| Gemini.SourceLinesMention | src/rag_system/gemini_integration.py:284-285 | every listed document's line appears in the fallback text |
| Gemini.AppendSourceLines | src/rag_system/gemini_integration.py:284-285 | the `+=` loop appends exactly the source lines |
| Gemini.GenerateFallbackResponse | src/rag_system/gemini_integration.py:277-297 | the fallback response always has model "fallback" and confidence 0.3 |
| Gemini.FirstMarker | src/rag_system/gemini_integration.py:299-314 | finds the first line that contains an answer marker, and no earlier line contains one |
| Gemini.AnswerTextIsSuffix | src/rag_system/gemini_integration.py:299-314 | the extracted answer text is a suffix of the content |
| Gemini.ExtractAnswer | src/rag_system/gemini_integration.py:299-314 | the scan with a break returns the stripped lines after the first marker line, or the whole content stripped |
| Gemini.StartsWithAnyIff | src/rag_system/gemini_integration.py:316-329 | a line is a step iff it starts with one of the markers |
| Gemini.BulletLineMissedAsWritten | src/rag_system/gemini_integration.py:324 | a line starting with the bullet is not recognised by the marker as written, but is by the intended one |
| Gemini.BulletLineIsStep | src/rag_system/gemini_integration.py:316-329 | with the intended marker every bullet line is a step |
| Gemini.Steps | src/rag_system/gemini_integration.py:316-327 | with the intended bullet marker, at most one step per line of the response |
| Gemini.StepsAsWritten | src/rag_system/gemini_integration.py:316-327 | with the marker as written, at most one step per line of the response |
| Gemini.StepsDifferOnBullet | src/rag_system/gemini_integration.py:324 | the one-line answer "• a" has the step "• a" with the intended marker and none with the marker as written |
| Gemini.OneLine | src/rag_system/gemini_integration.py:318-327 | an answer without a line break has its stripped text as its only step exactly when that is a step line |
| Gemini.ReasoningChain | src/rag_system/gemini_integration.py:316-329 | with the intended bullet marker, at most 10 steps, the first ones found, and all of them when there are at most 10 |
| Gemini.StepsExact | src/rag_system/gemini_integration.py:316-329 | with the intended bullet marker, the steps are the stripped marker lines, kept in their original order, each one listed |
| Gemini.StepsSnoc | src/rag_system/gemini_integration.py:316-329 | the step loop takes one line at a time |
| Gemini.StepLines | src/rag_system/gemini_integration.py:316-329 | the append loop collects exactly the stripped step lines, with the intended bullet marker |
| Gemini.ExtractReasoningChain | src/rag_system/gemini_integration.py:316-329 | the method computes the capped reasoning chain, with the intended bullet marker |
| Gemini.CitationsExact | src/rag_system/gemini_integration.py:331-354 | one citation per retrieved result with no highlighted terms or a term in the lower-cased answer, in order, numbered by original position; never more citations than results |
| Gemini.Citations | src/rag_system/gemini_integration.py:331-354 | never more citations than retrieved results |
| Gemini.ExtractSourceCitations | src/rag_system/gemini_integration.py:331-354 | the append loop computes the citations |
| Gemini.ReasoningBonus | src/rag_system/gemini_integration.py:356-377 | the reasoning bonus lies between 0 and 0.2 |
| Gemini.EnhancedConfidence | src/rag_system/gemini_integration.py:356-377 | the weighted confidence never exceeds 1 |
| Gemini.EnhancedConfidenceBounds | src/rag_system/gemini_integration.py:356-377 | with both inputs in [0, 1] the confidence is 0.4·rag + 0.4·gemini + the bonus, between 0 and 0.84 |
| Gemini.EnhancedConfidenceChain | src/rag_system/gemini_integration.py:356-377 | a longer chain never lowers the confidence, and chains of 4 or more steps all give the same bonus |
| Gemini.FallbackResult | src/rag_system/gemini_integration.py:379-410 | an error result has confidence 0, an empty context, no reasoning chain and no citations |
| Gemini.ResultFrom | src/rag_system/gemini_integration.py:162-180 | the result keeps the query, the retrieval context and the model response |
| Gemini.ResultFromConfidence | src/rag_system/gemini_integration.py:162-180 | a result's confidence is between 0 and 0.84, with at most 10 steps and no more citations than retrieved results |
| Gemini.OfflineConfidence | src/rag_system/gemini_integration.py:277-297 | without the model the response is the fallback, and the confidence is 0.4·rag plus 0.12 to 0.16 |
| Gemini.CallApi | src/rag_system/gemini_integration.py:246-275 | a successful call gives its text, the model name and confidence 0.8; a failed call gives the fallback text with confidence 0.3 |
| Gemini.Enhanced | src/rag_system/gemini_integration.py:128-188 | the result answers the given query, and a raised error gives the fallback result |
| Gemini.BatchExact | src/rag_system/gemini_integration.py:481-495 | one result per query, in query order; a failing query gets the error result |
| Gemini.GeminiRagIntegration.constructor | src/rag_system/gemini_integration.py:85-126 | the client is ready iff the library is available and a non-empty key is configured; the generation defaults are 30000, 0.7 and 0.9 |
| Gemini.GeminiRagIntegration.GenerateEnhancedResponse | src/rag_system/gemini_integration.py:190-220 | the response comes from the model or the fallback, and the answer is extracted from it |
| Gemini.GeminiRagIntegration.EnhancedQuery | src/rag_system/gemini_integration.py:128-188 | the method computes the enhanced query over the current store |
| Gemini.GeminiRagIntegration.BatchQuery | src/rag_system/gemini_integration.py:481-495 | one query of the batch is answered as a single enhanced query |
| Gemini.GeminiRagIntegration.BatchStep | src/rag_system/gemini_integration.py:481-495 | the batch loop answers one more query |
| Gemini.GeminiRagIntegration.BatchProcessQueries | src/rag_system/gemini_integration.py:481-495 | the batch gives one result per query, in query order |
| DigitalTwin.UpdatedMetrics | src/digital_twin/cognitive_core.py:175-186 | the new metrics carry the time, id, type and state; a given metric is taken; an omitted load, memory, success rate or coordination score is kept, and an omitted response time or complexity resets to 0 |
| DigitalTwin.ProcessingCount | src/digital_twin/cognitive_core.py:240 | the PROCESSING count never exceeds the history length |
| DigitalTwin.PredictConfidence | src/digital_twin/cognitive_core.py:215-257 | the predicted confidence is between 0.4 and 0.8, so always positive; a change of state carries at least 0.5 |
| DigitalTwin.PredictRules | src/digital_twin/cognitive_core.py:224-248 | high load predicts OPTIMIZING at 0.7; light PROCESSING predicts IDLE at 0.8; IDLE with more than 3 entries predicts PROCESSING iff at least 2 of the last 3 were PROCESSING |
| DigitalTwin.PredictLastThree | src/digital_twin/cognitive_core.py:224-248 | beyond three entries only the last three of the history matter |
| DigitalTwin.Predict | src/digital_twin/cognitive_core.py:215-257 | the confidence is one of the five table values 0.4 to 0.8, and the lowest, 0.4, only when the current state is predicted to persist |
| DigitalTwin.KeptExact | src/digital_twin/cognitive_core.py:285-293 | cleanup keeps exactly the entries newer than the cutoff, in their original order |
| DigitalTwin.KeptAppend | src/digital_twin/cognitive_core.py:285-293 | cleaning a history with one more entry keeps that entry iff it is newer than the cutoff |
| DigitalTwin.AgentIndex | src/digital_twin/cognitive_core.py:275-283 | every agent type has an index below 4 |
| DigitalTwin.AgentIndexBijective | src/digital_twin/cognitive_core.py:275-283 | the index maps the four agent types one-to-one onto 0..3 |
| DigitalTwin.Items | src/digital_twin/cognitive_core.py:316-348 | the entries of the twin table in dictionary order |
| DigitalTwin.LoadRecommendationsExact | src/digital_twin/cognitive_core.py:316-331 | one load_balancing recommendation per non-IDLE agent with load above 0.8, in dictionary order, and no other |
| DigitalTwin.IdleIdsExact | src/digital_twin/cognitive_core.py:333-337 | an id is listed as idle iff that agent is IDLE |
| DigitalTwin.LoadRecommendationsSnoc | src/digital_twin/cognitive_core.py:316-331 | the recommendation loop takes one agent at a time |
| DigitalTwin.Recommendations | src/digital_twin/cognitive_core.py:303-354 | never more recommendations than tracked agents |
| DigitalTwin.ActiveIdleSplit | src/digital_twin/cognitive_core.py:316-337 | every tracked agent is either active or idle, so the two lists together have one entry per agent |
| DigitalTwin.CoordinationOpportunityExact | src/digital_twin/cognitive_core.py:316-348 | exactly one coordination_opportunity, placed last, iff some agent is not IDLE and some agent is IDLE; every other recommendation is load_balancing |
| DigitalTwin.DigitalTwinEngine.constructor | src/digital_twin/cognitive_core.py:78-91 | after construction there are exactly the four primary agents, all IDLE, each with a history of one entry |
| DigitalTwin.DigitalTwinEngine.UpdateAgentState | src/digital_twin/cognitive_core.py:151-213 | an unknown id returns false and nothing changes; otherwise the twin takes the new state, the updated metrics and the prediction from the earlier history, the history gains one entry and is cut to the retention window, and the other agents are untouched |
| DigitalTwin.DigitalTwinEngine.CleanupHistory | src/digital_twin/cognitive_core.py:285-293 | the agent's history becomes the entries newer than now − retention; the twins and the other histories are unchanged |
| DigitalTwin.DigitalTwinEngine.GetCoordinationRecommendations | src/digital_twin/cognitive_core.py:303-354 | the loop computes the recommendation rules |
| CognitiveCore.PreferenceEngine.constructor | digital_twin_cognitive_core.py:3-5 | no preference is stored at first |
| CognitiveCore.PreferenceEngine.Update | digital_twin_cognitive_core.py:6-7 | after an update the user's preference is the new one; other users keep theirs |
| CognitiveCore.PreferenceEngine.Get | digital_twin_cognitive_core.py:8-9 | the stored preference, or an empty mapping (not None) for an unknown user |
| CognitiveCore.AdaptationMetrics.constructor | digital_twin_cognitive_core.py:11-13 | no metrics are stored at first |
| CognitiveCore.AdaptationMetrics.Log | digital_twin_cognitive_core.py:14-17 | the metric is appended to the end of the user's list, which is created on first use; other users are unchanged |
| CognitiveCore.AdaptationMetrics.Get | digital_twin_cognitive_core.py:18-19 | the user's metrics, or [] for an unknown user |
| CognitiveCore.Assignment | digital_twin_cognitive_core.py:54-62 | fails iff the preference is not a mapping; otherwise exactly claude, codex and gemini, each 1.0 plus 0.5 iff the preference for it is truthy |
| CognitiveCore.AssignmentScores | digital_twin_cognitive_core.py:54-62 | every score is 1.0 or 1.5, and all are 1.0 with no preferences |
| CognitiveCore.DigitalTwinCognitiveCore.constructor | digital_twin_cognitive_core.py:22-30 | the cognitive model starts as an empty mapping, with fresh, empty preference and metric stores |
| CognitiveCore.DigitalTwinCognitiveCore.ModelUserWorkflowPatterns | digital_twin_cognitive_core.py:32-52 | the four stages return the history unchanged, and it becomes the cognitive model |
| CognitiveCore.DigitalTwinCognitiveCore.OptimizeAgentAssignment | digital_twin_cognitive_core.py:54-62 | the in-place `+=` loop computes the assignment scores for the user's stored preference |
| AgentHub.PatternKey | agent-communication-prototype.py:236-249 | a communication key has the form "sender->recipient:type" |
| AgentHub.PlanKey | agent-communication-prototype.py:251-272 | a plan key "type:Nagents" contains no "->" |
| AgentHub.KeysDisjoint | agent-communication-prototype.py:236-272 | communication and plan keys never collide |
| AgentHub.Logged | agent-communication-prototype.py:236-249 | logging raises that key's count by exactly one and leaves every other key as it was |
| AgentHub.Incremented | agent-communication-prototype.py:240-248 | the in-place increment raises the pattern's count by one |
| AgentHub.LoggedAsWritten | agent-communication-prototype.py:236-249 | creating the entry and then incrementing it is one logging step |
| AgentHub.LoggedAll | agent-communication-prototype.py:236-249 | logging a list of messages keeps the pattern table well formed |
| AgentHub.CountAfterLogging | agent-communication-prototype.py:236-249 | after logging a list, each key's count has grown by the number of its messages, and other keys are unchanged |
| AgentHub.CountFromEmpty | agent-communication-prototype.py:236-249 | from an empty table, the count of a key is the number of logged messages with that key |
| AgentHub.AllKeyCount | agent-communication-prototype.py:236-249 | after n messages all with the same key, the count is exactly n |
| AgentHub.CreateTaskPlan | agent-communication-prototype.py:109-150 | IMPLEMENTATION yields architecture_review, implementation and optimization in order, each depending only on earlier steps, all sharing the request's context, no agent broadcasting to itself; any other type yields no step |
| AgentHub.FirstField | agent-communication-prototype.py:309-334 | reading `d.get(key, [{}])[0].get(field, default)` fails only on a value of the wrong shape, and gives the field when the path is present |
| AgentHub.ParseClaude | agent-communication-prototype.py:309-316 | always success True from Claude; the content is the first text block when present and empty when the content key is missing |
| AgentHub.ParseCodex | agent-communication-prototype.py:318-325 | always success True from Codex; the content is the first choice's message when present and empty when the choices key is missing |
| AgentHub.ParseGemini | agent-communication-prototype.py:327-334 | always success True from Gemini; the content is the first candidate's first part when present and empty when the candidates key is missing |
| AgentHub.ParseReply | agent-communication-prototype.py:309-334 | replies are parsed by the backend of the recipient |
| AgentHub.Routed | agent-communication-prototype.py:63-75 | an unregistered recipient or a missing API key fails; otherwise the reply is parsed from exactly the recipient's backend and comes from that agent |
| AgentHub.AgentCommunicationHub.constructor | agent-communication-prototype.py:47-51 | no agents, no history and an empty pattern table |
| AgentHub.AgentCommunicationHub.RegisterAgent | agent-communication-prototype.py:53-61 | the entry has status 'available', no current tasks and the given config; re-registering overwrites it |
| AgentHub.AgentCommunicationHub.LogCommunicationPattern | agent-communication-prototype.py:236-249 | the pattern table becomes the table after one more logged message |
| AgentHub.AgentCommunicationHub.SendMessage | agent-communication-prototype.py:63-75 | the pattern is logged before routing, and the reply is the routed one |
| AgentHub.AgentCommunicationHub.UpdateCoordinationPatterns | agent-communication-prototype.py:251-272 | the plan key holds a coordination pattern; the plan is appended to successful_plans iff overall success exceeds 0.8; other keys are unchanged |
| IntegrationValidation.CriteriaMetExact | scripts/end_to_end_integration.py:607-618 | the number of met criteria is at most the number of criteria, equal to it iff every criterion is met, and zero iff none is |
| IntegrationValidation.Validate | scripts/end_to_end_integration.py:587-621 | the score is in 0..10, valid iff the score is at least 7, no issues iff the score is 10, and a wrong agent records "Expected X, got Y" first |
| IntegrationValidation.ValidIff | scripts/end_to_end_integration.py:587-621 | a response is valid iff every criterion is met with the right agent or a quality of 80, or the right agent has a quality of 60 and meets some criterion |
| IntegrationValidation.CountCriteria | scripts/end_to_end_integration.py:607-608 | the counting loop computes the number of criteria found, case-insensitively, in the response |
| IntegrationValidation.ValidateResponse | scripts/end_to_end_integration.py:587-621 | the step-by-step scorer computes the validation specification |
| Populate.HeadingTitle | scripts/populate_rag_system.py:500-505 | None iff no line starts with "# "; otherwise the stripped text after "# " on the first such line |
| Populate.ExtractTitle | scripts/populate_rag_system.py:500-506 | the title is the first heading's text, or, when there is no heading, the file name with ".md" removed, underscores as spaces, in title case |
| Populate.FileTitle | scripts/populate_rag_system.py:506 | the title made from the file name is no longer than the name and has no underscores left |
| Populate.TagNamesDistinct | scripts/populate_rag_system.py:512-522 | the five keyword tags are distinct |
| Populate.KeywordTagsExact | scripts/populate_rag_system.py:512-522 | a keyword's tag is added iff the lower-cased content mentions it, and no other tag is added |
| Populate.KeywordTags | scripts/populate_rag_system.py:512-522 | at most one tag per keyword tested |
| Populate.AddTagIf | scripts/populate_rag_system.py:512-522 | one keyword test appends its tag exactly when the content mentions the keyword |
| Populate.AppendKeywordTags | scripts/populate_rag_system.py:508-522 | the list is the category followed by the tags of the mentioned keywords |
| Populate.TagsBuilt | scripts/populate_rag_system.py:508-522 | that list contains the category and exactly the tags of the mentioned keywords, at most 6 in all |
| Populate.GenerateTags | scripts/populate_rag_system.py:508-524 | the tags contain the category, and each keyword tag iff its keyword is mentioned or it is the category; nothing else, no duplicates, at most 6 |
| Config.Validate | src/core/config.py:88-106 | the settings are accepted iff production has all keys and the JWT secret, the database URL is a postgres URL and the Redis URL is a redis URL; the first failing check names the error |
| Config.KeysOnlyMatterInProduction | src/core/config.py:91-99 | outside production the API keys and secret are never consulted |
| Config.N8nBaseUrl | src/core/config.py:108-111 | the URL is protocol://host: followed by the port in decimal |
| Config.DefaultN8nBaseUrl | src/core/config.py:34-36 | the defaults give "http://localhost:5678" |
| Config.DefaultPortText | src/core/config.py:36 | the default port 5678 is written "5678" |
| Config.EnvironmentsExclusive | src/core/config.py:113-121 | development and production are never both true, and the default environment is development |

## Left out

- Embeddings, the FAISS index and SentenceTransformer: similarity is a function passed in as a parameter, because the vector arithmetic and model inference lie outside a logical model.
- The random and zero fallback embeddings: there is no embedding to model once similarity is an oracle.
- Document ids from md5 and timestamps from the clock: both are parameters, because hashing and clocks are outside the model.
- `_persist_document` and `load_knowledge_base`: these are file I/O.
- `get_stats` in the store and in the Gemini integration: these only report counters.
- The real Gemini client (`configure`, `GenerativeModel`): whether the library and the client are ready is a parameter, and a model call is a function passed in that either succeeds or fails.
- The five prompt templates: their wording is fixed text with no property. Only the prompt's source selection is modelled.
- Float formatting in prompts and fallback texts (`{score:.3f}`): the text of a number is not modelled, only where it appears.
- Exceptions inside `enhanced_query`: a raised error is a `failure` parameter that selects the fallback result, because the places that throw are foreign calls.
- Async execution: every coroutine is a sequential method, because nothing in the core runs concurrently.
- Logging: it has no effect on state.
- The twin engine's numpy coordination matrix (`_update_coordination_matrix`): this is float matrix arithmetic whose result is never read by the modelled operations.
- `export_state` and `_load_config`: these are file I/O. The retention window is a constructor parameter.
- `get_agent_state` and `get_all_states`: they only read the table.
- The recommendation messages' fixed wording and timestamps: recommendations carry their kind, agents and load.
- The two clock reads in `update_agent_state`: they are taken as one `now`.
- `coordinate_multi_agent_task` and `_calculate_success_metrics`: they call helpers that are never defined. `overall_success` is a parameter of `UpdateCoordinationPatterns`.
- The `_send_to_*` HTTP calls and the `_format_*` request builders: each backend is a function passed in, with the API-key lookup modelled.
- The hub's `message_queue`: the asyncio queue is never used.
- The hub's `task_history`: it is never written.
- AgentIntegration.FromDict: `datetime.fromisoformat` followed by `isoformat` is a partial function passed in, since calendar parsing is outside the model; and a non-string sender, recipient, task id, message type or correlation id, or a content that is not a dictionary, is refused, whereas the dataclass stores any value it is given.
- AgentIntegration.Task: `created_at` and `updated_at` are not modelled, so the `updated_at` writes in `add_task` and `complete_task` are absent, and AgentIntegration.TaskValue, AgentIntegration.Agent.AddTask and AgentIntegration.Agent.CompleteTask say nothing about them.
- AgentIntegration.TaskValue: the assignment message carries `task.__dict__` itself, a live view that later task updates change; the model carries a snapshot of that task as it is on assignment, with the enum members by value.
- AgentIntegration.Framework.GetSystemStatus: "framework_status", "timestamp" and "coordination_rules" are not modelled, because they are a constant, a clock read and the configuration dictionary.
- Gemini.ReasoningChain, Gemini.ExtractReasoningChain, Gemini.ResultFrom and Gemini.Enhanced use the intended bullet marker; the marker as written is Gemini.StepsAsWritten, and the difference is stated under "## Findings".
- Rag.HighlightedTerms: `list(set(...))[:10]` has no defined order in Python; the model takes query order, and its contract states membership, no duplicates and the bound only.
- Rag.Collect: its contract is stated by Rag.CollectIsTake and Rag.CollectFacts, not on the function itself.
- Populate.GenerateTags: `list(set(tags))` has no defined order in Python, so the model keeps first-occurrence order and its contract states membership, no duplicates and the bound, not the order.
- `lower`, `title`, `strip` and `split` are modelled on ASCII only: letters are A to Z, and whitespace is space, tab, line feed, carriage return, vertical tab, form feed and the four separators `\x1c` to `\x1f`; Unicode case mapping and the non-ASCII whitespace characters are outside the model.
- pydantic environment loading and the settings fields that no check reads: they only carry values.
- AgentIntegration.StatusOf: of the "performance" dictionary of `get_status` only the two task counters are modelled, not "average_response_time" (never updated) or "last_active" (a clock read), and the "last_seen" clock read is left out as well.
- AgentHub.Routed: a backend is a function that always returns a JSON value, so an HTTP or decoding error raised inside `_send_to_*` is not modelled; only the missing API key and the unregistered recipient fail.
- IntegrationValidation.Validate: `str()` of a non-string response is not modelled; the response text is an optional string.
- IntegrationValidation.Validate: a quality score is a real, and a non-numeric score, which would raise, is outside the model.
- Agents' `process_task` and `handle_message` are abstract: a message handler is a function passed in.

## Findings

| source | as written | input that shows it | evidently intended | confidence | as-written member | corrected member |
|---|---|---|---|---|---|---|
| src/rag_system/gemini_integration.py:324 | the bullet marker is the mis-decoded text `'â€¢'` | the line "• Check the index" is not taken as a reasoning step, and the answer "• a" yields no steps | the bullet `'•'` | not executed | Gemini.BulletLineMissedAsWritten | Gemini.BulletLineIsStep |
