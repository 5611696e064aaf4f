# sunshower: experiment validation and team pipelines

sunshower runs experiments in which teams of LLM agents work on a task.
An experiment document names teams. Each team is an ordered list of agent
profiles, and each profile gives a model configuration and a harness of tools.
This project models the deterministic core of that system and proves
properties of it:

- **The older validation path.** `models.Model` checks a model
  configuration with three ordered guards, stopping at the first falsy field
  (module `Models`, `models.dfy`). `AgentProfile.from_dict` builds an agent
  profile from a raw dict through a fixed guard sequence. `get_team_profile`
  builds a team's profiles in plan order and gives up at the first agent that
  fails (module `Profiles`, `profiles.dfy`).
- **The newer typed schema.** This path uses pydantic models, and module
  `Schema` (`schema.dfy`) models them.
  - Fields are read by their external names (aliases).
  - Issues are collected across fields, each with a location.
  - `Harness.model_post_init` resolves tool names against the closed
    registry `serper`/`whois`. It is modelled as a class whose method
    rebuilds `tools` in place.
  - `JudgeProfile.metricsToEvaluate` is keyed by the `Metrics` enum.
  - `ExperimentSet` demands the literals `v1` and `ExperimentSet`.
- **Pipeline topology** (module `Core`, `core.dfy`). `build_team` adds one
  graph node per agent in order. It then chains the entry point, the agents
  and the exit point with edges. It fails on a repeated agent name, which the
  graph rejects, and on an empty team. `evaluate` runs the pipeline on a
  one-message seed conversation and labels the output with the team's name.

Module `Python` (`python.dfy`) holds the part of Python's runtime that the
code relies on:
- the dynamically typed values of a deserialized document, with dicts in
  insertion order;
- truthiness, `in`, `dict.get`, iteration and `str(int)`;
- the exceptions raised along the way.

The two validation paths are kept apart. They disagree, and
`Schema.EmptyFieldsAcceptedOnlyBySchema` and `Schema.SnakeCaseKeyIgnored`
state the disagreement.

The model follows the code in these points, which a reader might not expect:
- An agent error carries only the 1-based agent index, not the team name.
  As written, it does not even carry the index (see Findings).
- The older path stops at the first failing agent and does not aggregate
  errors.
- The older path rejects an agent name only when it is `None`, so an empty
  name is accepted.
- The newer `Model` accepts empty strings.
- The older path reads the snake_case key `system_prompt`, while the newer
  one reads only `systemPrompt`.

## Model

| member | source | states |
|---|---|---|
| Python.Contains | sunshower/profiles.py:22 | `key in container` fails exactly for None, bools and ints, and then always with a TypeError; on a dict it is key membership |
| Python.Iterate | sunshower/profiles.py:52 | iterating a list yields its items; only lists, dicts and strings are iterable |
| Python.NatToString | sunshower/profiles.py:57 | the printed position is a non-empty digit string without a leading zero whose decimal value is the number |
| Models.NewModel | sunshower/models.py:11-19 | construction succeeds iff provider, name and system prompt are all truthy; it then stores them unchanged; every failure is a ValueError |
| Models.FirstEmpty | sunshower/models.py:11-19 | reference order of the guards: the first field in order that is falsy, with every field before it truthy |
| Models.FirstFailingFieldReported | sunshower/models.py:11-19 | the error names exactly the first falsy field in the order provider, name, system_prompt, and none is raised when all are truthy |
| Models.LaterFieldsUnchecked | sunshower/models.py:12-13 | with a falsy provider the outcome is the provider error whatever the later fields hold |
| Profiles.FromDict | sunshower/profiles.py:20-42 | `from_dict` itself: a built profile comes from a dict and carries the document's name; every failure is a ValueError, TypeError or AttributeError; characterised by `FromDictSucceeds`, `GuardOrder` and `NonContainerData` |
| Profiles.FromDictSucceeds | sunshower/profiles.py:20-42 | a profile is built iff the data is a dict with a non-None name, a model dict with three truthy fields (snake_case `system_prompt`) and a harness dict; the profile holds exactly that name, model and harness `tools` |
| Profiles.GuardOrder | sunshower/profiles.py:22-40 | missing name, None name, missing model, a model that is not a dict (AttributeError on `.get`), failing model fields, missing harness and a harness that is not a dict (AttributeError on `.get`) are reported in that order, each whatever the later keys hold |
| Profiles.NonContainerData | sunshower/profiles.py:22 | None, bool or int data fails at `"name" not in data` with a TypeError |
| Profiles.BuildAgents | sunshower/profiles.py:52-54 | all agents build iff the result is the profiles in list order; otherwise the reported agent is the first one that fails, with its error |
| Profiles.ListIndex | sunshower/profiles.py:57 | `list.index` returns the first position holding the element |
| Profiles.WrapAgentError | sunshower/profiles.py:55-58 | a ValueError gets ` in agent profile #<position>` appended; other exceptions pass through |
| Profiles.WrapAgentErrorAsWritten | sunshower/profiles.py:57 | as written, any agent ValueError turns into an AttributeError for `.index` on a dict; others pass through |
| Profiles.TeamProfileOf | sunshower/profiles.py:50-59 | `get_team_profile` with the intended position: a team is built iff the plan has `agents`, they iterate, every agent's profile builds and the plan has a `name`; a built team carries the plan's name, and a plan without `agents` raises KeyError; see also `TeamOrderPreserved` and `FirstFailureAbortsTeam` |
| Profiles.TeamProfileAsWritten | sunshower/profiles.py:50-59 | `get_team_profile` as written: no agent's ValueError escapes it, and it succeeds on exactly the plans the corrected definition accepts, with the same team |
| Profiles.CollectAgentProfiles | sunshower/profiles.py:52-54 | the append loop yields the profiles of all agents in order, or stops at the first agent that fails with its position and error, exactly as `BuildAgents` states |
| Profiles.GetTeamProfile | sunshower/profiles.py:50-59 | the method yields exactly the team that the corrected `get_team_profile` definition gives, its error included |
| Profiles.FirstFailureIndex | sunshower/profiles.py:57 | the first failing agent cannot equal an earlier agent, so `index` finds it at its own position |
| Profiles.TeamOrderPreserved | sunshower/profiles.py:50-59 | a built team has the plan's name and one profile per agent, in plan order |
| Profiles.FirstFailureAbortsTeam | sunshower/profiles.py:52-58 | the first failing agent aborts the team with that agent's error tagged with its 1-based position; no partial team |
| Profiles.AsWrittenHidesAgentError | sunshower/profiles.py:55-58 | as written, every agent ValueError surfaces as the same AttributeError, while the corrected wrapper keeps a ValueError |
| Profiles.AsWrittenCounterexample | sunshower/profiles.py:57 | a plan with one agent `{}` raises an AttributeError as written, and `"name" key not found in agent profile #1` corrected |
| Schema.AsLiteral | sunshower/schema.py:83-84 | an anchored literal pattern accepts exactly the literal string and reports any other string as a pattern mismatch |
| Schema.Required | sunshower/schema.py:13-16 | a required field succeeds iff its external key is present and its value validates; a missing key is a Missing issue located at the key |
| Schema.Defaulted | sunshower/schema.py:20 | a field with a default takes the default when its external key is absent, and otherwise validates the value |
| Schema.AsList | sunshower/schema.py:50 | a list field holds the validated elements, one per input element and in order |
| Schema.ParseModel | sunshower/schema.py:13-16 | a model parses iff it is a dict with string `provider`, `name` and `systemPrompt` (alias); the fields are those strings; it never aborts |
| Schema.SnakeCaseKeyIgnored | sunshower/schema.py:16 | a document spelling `system_prompt` gets exactly one issue: `systemPrompt` missing |
| Schema.EmptyFieldsAcceptedOnlyBySchema | sunshower/schema.py:13-16 | three empty strings pass the schema model but fail the older `models.Model` |
| Schema.ToolOf | sunshower/schema.py:26-37 | exactly `"serper"` and `"whois"` name a tool, and the tool found carries that name |
| Schema.ToolNameRoundTrip | sunshower/schema.py:27-37 | each registered tool is found again under its own name |
| Schema.UnknownToolMessage | sunshower/schema.py:38-39 | the corrected message (see Findings) ends with the unknown name |
| Schema.UnknownToolMessageAsWritten | sunshower/schema.py:39 | the message as written is the corrected message for the decorator's printed form instead of the tool name |
| Schema.AsWrittenMessageLosesName | sunshower/schema.py:39 | as written, two different unknown names produce the same message |
| Schema.UnknownToolMessageNamesTool | sunshower/schema.py:39 | corrected, the message determines the name |
| Schema.ResolveTools | sunshower/schema.py:24-39 | resolution succeeds iff every name is registered; the tools then match the names one for one, in order |
| Schema.ResolveToolsFirstUnknown | sunshower/schema.py:38-39 | resolution fails with a RuntimeError at the first unknown name, with the corrected message naming it |
| Schema.ResolvedToolsByName | sunshower/schema.py:25-37 | when every name is registered, each resolved tool is the one its name dispatches to |
| Schema.ResolveToolsAsWritten | sunshower/schema.py:24-39 | resolution as written succeeds iff every name is registered, and every failure is the same RuntimeError whatever name is unknown |
| Schema.ResolveToolsAsWrittenAgrees | sunshower/schema.py:24-39 | resolution as written succeeds on the same names with the same tools as the corrected one, and fails on the same names with a RuntimeError whose message does not depend on the name |
| Schema.Harness.constructor | sunshower/schema.py:19-21 | a validated harness holds the declared names and the caller-supplied `tools` |
| Schema.Harness.ModelPostInit | sunshower/schema.py:23-39 | `tools` is reset and then rebuilt as the resolved tools in declared order; an unknown name raises the resolution's error; `tool_names` is unchanged |
| Schema.NewHarness | sunshower/schema.py:19-39 | a harness is produced iff resolution succeeds, and its `tools` are then exactly the resolved tools; caller-supplied `tools` are discarded |
| Schema.ParseHarness | sunshower/schema.py:19-21 | `tool_names` is read under the alias `tools`, default empty; the tools are its resolution; an unknown name aborts validation with the resolution's error |
| Schema.ParseAgentProfile | sunshower/schema.py:42-45 | an agent profile parses iff it is a dict with a string `name`, a `model` that parses and a `harness` that parses; it then holds that name, model and harness |
| Schema.ParseTeamProfile | sunshower/schema.py:48-50 | a team profile parses iff it is a dict with a string `name` and a list under the alias `agents` whose every element parses as an agent profile; the profiles are those elements parsed, in order |
| Schema.MetricOf | sunshower/schema.py:53-61 | exactly the eight enum values name a metric, each the metric of that value |
| Schema.MetricValueRoundTrip | sunshower/schema.py:53-61 | every metric is found again under its value |
| Schema.MetricEntries | sunshower/schema.py:67 | a metric map validates iff every key is an enum value and every value a string |
| Schema.MetricEntriesContents | sunshower/schema.py:67 | the validated map holds exactly the metrics whose values are keys, each with that key's string |
| Schema.ParseMetrics | sunshower/schema.py:67 | `Dict[Metrics, str]` accepts exactly dicts whose keys are enum values and whose values are strings |
| Schema.ParseJudgeProfile | sunshower/schema.py:64-68 | a judge profile parses iff it is a dict with a string `name` and a `model`, `harness`, `metricsToEvaluate` and `teamsToEvaluate` (a list of strings) that parse; it then holds exactly those values |
| Schema.ParseSpec | sunshower/schema.py:71-74 | a spec parses iff it is a dict with a string `task`, an integer `rounds` and a list under the alias `teams` whose every element parses as a team profile; it holds those values, the team profiles one per element, in order |
| Schema.ParseMetadata | sunshower/schema.py:77-79 | metadata parses iff name and description are present strings, and then holds exactly those strings |
| Schema.ParseExperimentSet | sunshower/schema.py:82-86 | an experiment set parses iff the document is a dict whose `apiVersion` is exactly `v1`, whose `kind` is exactly `ExperimentSet` and whose `metadata` and `spec` parse; it then holds those literals and the parsed metadata and spec |
| Schema.ApiVersionMismatchReported | sunshower/schema.py:83 | any other `apiVersion` string is rejected, reported first as a `^v1$` pattern mismatch located at `apiVersion` |
| Schema.KindMismatchRejected | sunshower/schema.py:84 | any other `kind` string is rejected |
| Core.StateGraph.constructor | sunshower/core.py:26 | a new graph has no nodes and no edges |
| Core.StateGraph.AddNode | sunshower/core.py:35 | adding a node under a name already registered raises ValueError and changes nothing; otherwise the node is appended; the edges are left alone |
| Core.StateGraph.AddEdge | sunshower/core.py:36-39 | adding an edge appends it and leaves the nodes alone |
| Core.StateGraph.Compile | sunshower/core.py:40 | the compiled pipeline has the graph's nodes and edges |
| Core.NamesOf | sunshower/core.py:29 | the agent names, one per profile, in order |
| Core.NodesOf | sunshower/core.py:28-35 | one node per profile, keyed by its name, built from its model name, harness and system prompt, in profile order |
| Core.ChainEdges | sunshower/core.py:36-39 | n agents give n+1 edges, edge k running from the k-th to the (k+1)-th vertex of START, agents in order, END |
| Core.FirstRepeat | sunshower/core.py:35 | the position of a name that repeats an earlier one, with all names before it distinct; none iff all names are distinct |
| Core.FirstRepeatUnique | sunshower/core.py:35 | that position is unique: any name that repeats an earlier one while all before it are distinct is the first repeat |
| Core.TeamPipeline | sunshower/core.py:25-40 | the outcome of `build_team`: a pipeline iff the team is non-empty with distinct agent names; the failure is a ValueError exactly when a name repeats |
| Core.AddAgentNodes | sunshower/core.py:28-35 | the first loop fails iff a name repeats, with the ValueError of the first repeated name; otherwise it records every agent name and adds one node per profile, in order, and no edge |
| Core.AddChainEdges | sunshower/core.py:36-39 | the edge calls add exactly the chain of edges through the agents and leave the nodes alone |
| Core.BuildTeam | sunshower/core.py:25-40 | construction fails iff an agent name repeats (ValueError) or the team is empty (IndexError); otherwise its nodes are one per agent in order and its edges are exactly the chain |
| Core.StartEdges | sunshower/core.py:36 | the only edge out of START goes to the first agent, and no edge enters START |
| Core.EndEdges | sunshower/core.py:39 | the only edge into END comes from the last agent, and no edge leaves END |
| Core.AgentEdges | sunshower/core.py:37-38 | an agent-to-agent edge exists iff the two agents are consecutive |
| Core.EdgesGoForward | sunshower/core.py:36-39 | with distinct names every edge moves one step forward along START, agents, END, so there is no cycle |
| Core.NoBranches | sunshower/core.py:36-39 | with distinct names no vertex has two outgoing or two incoming edges |
| Core.ChainEndpointsRegistered | sunshower/core.py:35-40 | every agent an edge of a built pipeline names is a registered node |
| Core.BuiltPipelineIsPath | sunshower/core.py:35-40 | a pipeline that builds is a simple path: no vertex has two outgoing or two incoming edges, and every edge moves one step forward |
| Core.SeedConversation | sunshower/core.py:47 | the seed conversation is one message from the user whose content is the task |
| Core.Evaluate | sunshower/core.py:44-54 | evaluation fails with the build's error when the team does not build, and otherwise iff running the pipeline on the seed conversation fails, with its error; the result is named after the team and holds that run's output |

## Left out

- Ray orchestration (`init`, `remote`, `get`, `shutdown`, `start` in `sunshower/core.py`, and `sunshower/engine.py`) is concurrency on a distributed runtime.
- Writing `results.ndjson` and the `dumps` serialisation are file I/O over a foreign serialiser.
- The `environ` assignment at import time is a process-wide side effect.
- `perf_counter` timing and its `:.6f` formatting are floating-point wall-clock values; `Core.Evaluate` takes the formatted time as the parameter `timeTaken`.
- `create_agent`, `StateGraph.compile` and `invoke` belong to foreign agent and graph libraries. An agent is kept as the arguments it is built from, a compiled graph as its nodes and edges, and running it is the parameter `invoke` of `Core.Evaluate`.
- Core.StateGraph.AddNode: of the graph library's checks on a node name only the rejection of a name already present is modelled. Its rejection of reserved names and separator characters, and its handling of a name that is not a string, are not.
- Core.StateGraph.Compile: the graph library's checks at compile time are not run. `Core.ChainEndpointsRegistered` shows that no edge of a built chain names an unknown node.
- Core.BuildTeam: `create_agent` is taken to succeed, so its errors (a model name whose provider cannot be inferred, a model name that is not a string) are not modelled; "fails iff" holds only under that assumption.
- Core.AddAgentNodes: likewise `create_agent` is taken to succeed before each node is added; the loop's failure cases are only the repeated names.
- Core.TeamPipeline: likewise assumes that `create_agent` succeeds for every profile.
- Core.Evaluate: running the pipeline is the parameter `invoke`, so whatever it raises is its `Err` result.
- Schema.ResolveTools: raises the corrected message, which names the unknown tool (see Findings). `Schema.ResolveToolsAsWritten` is the resolution with the message as written, and `Schema.ResolveToolsAsWrittenAgrees` shows that only the message differs.
- Schema.ResolveToolsFirstUnknown: states the corrected message; as written the message is `Schema.UnknownToolMessageAsWritten`, the same for every name.
- Schema.Harness.ModelPostInit: raises the error of `Schema.ResolveTools`, so the corrected message.
- Schema.NewHarness: fails with the error of `Schema.ResolveTools`, so the corrected message.
- Schema.ParseHarness: aborts with the error of `Schema.ResolveTools`, so the corrected message.
- The concrete tools (the search wrapper, `whois` and the `tool` decorator) are enum tags in `Schema.Tool`.
- `sunshower.harnesses`, `sunshower.experiments` and `sunshower.utils` are not part of this model.
  - The older path's harness is kept as the `tools` value it is constructed from (`Profiles.Harness`).
  - Whatever that constructor checks or raises is not modelled.
- The older `TeamProfile` is a pydantic model. Its own validation of `name` and of the agent profiles is not modelled, so a built team takes the plan's name as it is.
- Profiles.TeamProfileOf: `TeamProfile`'s pydantic validation of `name` and of the agent profiles at `sunshower/profiles.py:59` is taken to succeed; a plan whose `name` is not a string would raise a ValidationError there.
- Profiles.TeamProfileAsWritten: likewise assumes `TeamProfile`'s validation succeeds; its ValidationError, a subclass of ValueError, is not modelled, so "no ValueError escapes" covers only the agents' errors.
- Schema.ParseSpec: `rounds` accepts only an integer value; pydantic's lax coercion (numeric strings, booleans) is not modelled, and `rounds` is validated but never consumed.
- Schema.ParseModel: pydantic's type coercion is not modelled. A `str` field accepts exactly a string value.
- Schema.ParseMetrics: pydantic's type coercion is not modelled. A metric key is accepted exactly when it equals an enum value.
- Schema.Required: an issue records its location and kind, not pydantic's message text.
- Schema.ParseExperimentSet: `^v1$` and `^ExperimentSet$` are read as exact matches.
  - This is how pydantic's regex engine treats `$`, as the end of the text.
  - Python's `re` would also let a trailing newline through.
- Python.Lookup: a dict's keys are distinct, as a deserializer produces them. A document with duplicate keys is not modelled.
- Python.Contains: equality of values is structural. Python's `1 == True` and floats are not modelled.

## Findings

| source | as written | input that shows it | evidently intended | confidence | as-written member | corrected member |
|---|---|---|---|---|---|---|
| sunshower/profiles.py:57 | `experiment_plan.index(agent_profile)` calls `.index` on the plan, which is a dict, so every agent ValueError becomes an AttributeError that names neither the agent nor the key | a plan `{"name": "t", "agents": [{}]}` | `experiment_plan["agents"].index(agent_profile) + 1`, giving `"name" key not found in agent profile #1` | high, not executed | Profiles.AsWrittenCounterexample | Profiles.FirstFailureAbortsTeam |
| sunshower/schema.py:39 | the message interpolates `tool`, the imported decorator, instead of `tool_name` | tool names `["doesnotexist"]` and `["serperr"]` give the same message | `f"unknown tool: {tool_name}"` | high, not executed | Schema.AsWrittenMessageLosesName | Schema.UnknownToolMessageNamesTool |
