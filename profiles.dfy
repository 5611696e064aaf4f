/** Agent and team profiles of the older validation path: an agent profile is
    built from a raw dict by a fixed sequence of guards (name, then model,
    then harness) that stops at the first failure, and a team profile is the
    list of its agents' profiles in plan order, abandoned as a whole at the
    first agent that fails. */
module Profiles {
  import opened Python
  import Models

  /** `sunshower.harnesses.Harness` is not part of this model: a harness is
      kept as the `tools` value it was constructed from. */
  datatype Harness = Harness(toolNames: Value)

  datatype AgentProfile = AgentProfile(name: Value, model: Models.Model, harness: Harness)

  datatype TeamProfile = TeamProfile(name: Value, agentProfiles: seq<AgentProfile>)

  function KeyNotFound(key: string): string
  {
    "\"" + key + "\" key not found"
  }

  /** The model sub-dict passes `Model`'s guards. */
  predicate ValidModelDict(m: Value)
  {
    && m.Dict?
    && Truthy(GetOrNone(m.entries, "provider"))
    && Truthy(GetOrNone(m.entries, "name"))
    && Truthy(GetOrNone(m.entries, "system_prompt"))
  }

  /** `AgentProfile.from_dict(data)`. `data` may be any value the plan's
      agent list holds: the first guard is Python's `in`, which also accepts
      a list or a string. */
  function FromDict(data: Value): (r: Result<AgentProfile, Exception>)
    ensures r.Ok? ==> data.Dict? && Lookup(data.entries, "name") == Some(r.value.name)
    ensures r.Err? ==> r.error.ValueError? || r.error.TypeError? || r.error.AttributeError?
  {
    match Contains(data, "name")
    case Err(e) => Err(e)
    case Ok(false) => Err(ValueError(KeyNotFound("name")))
    case Ok(true) =>
      if !data.Dict? then Err(AttributeError(NoAttribute(data, "get")))
      else if GetOrNone(data.entries, "name") == Null then Err(ValueError(Models.EmptyMessage("name")))
      else match ModelFrom(data.entries)
        case Err(e) => Err(e)
        case Ok(model) =>
          match HarnessFrom(data.entries)
          case Err(e) => Err(e)
          case Ok(harness) => Ok(AgentProfile(GetOrNone(data.entries, "name"), model, harness))
  }

  /** The model stage of `from_dict`: the key must be present, and `Model`
      checks the three fields fetched with `.get`. */
  function ModelFrom(d: seq<(string, Value)>): Result<Models.Model, Exception>
  {
    if !Has(d, "model") then Err(ValueError(KeyNotFound("model")))
    else
      var modelData := GetOrNone(d, "model");
      if !modelData.Dict? then Err(AttributeError(NoAttribute(modelData, "get")))
      else Models.NewModel(
             GetOrNone(modelData.entries, "provider"),
             GetOrNone(modelData.entries, "name"),
             GetOrNone(modelData.entries, "system_prompt"))
  }

  /** The harness stage of `from_dict`: the key must be present and its value
      must have a `.get`. */
  function HarnessFrom(d: seq<(string, Value)>): Result<Harness, Exception>
  {
    if !Has(d, "harness") then Err(ValueError(KeyNotFound("harness")))
    else
      var harnessData := GetOrNone(d, "harness");
      if !harnessData.Dict? then Err(AttributeError(NoAttribute(harnessData, "get")))
      else Ok(Harness(GetOrNone(harnessData.entries, "tools")))
  }

  /** A profile is built exactly when the value is a dict with a non-None
      name, a model dict whose three fields are truthy, and a harness dict;
      the profile then holds exactly that name, that model and that
      harness's tools. */
  lemma FromDictSucceeds(data: Value)
    ensures FromDict(data).Ok? <==>
              && data.Dict?
              && Has(data.entries, "name") && Lookup(data.entries, "name") != Some(Null)
              && Has(data.entries, "model") && ValidModelDict(GetOrNone(data.entries, "model"))
              && Has(data.entries, "harness") && GetOrNone(data.entries, "harness").Dict?
    ensures FromDict(data).Ok? ==>
              var p := FromDict(data).value;
              var m := GetOrNone(data.entries, "model").entries;
              && Lookup(data.entries, "name") == Some(p.name)
              && p.model == Models.Model(GetOrNone(m, "provider"), GetOrNone(m, "name"), GetOrNone(m, "system_prompt"))
              && p.harness == Harness(GetOrNone(GetOrNone(data.entries, "harness").entries, "tools"))
  {
  }

  /** Data that does not support `in` (None, a bool, an int) fails at the
      first guard with a TypeError. */
  lemma NonContainerData(data: Value)
    requires data.Null? || data.Bool? || data.Int?
    ensures FromDict(data).Err? && FromDict(data).error.TypeError?
  {
  }

  /** The guards run in the order name, model, model fields, harness: each
      failure is reported whatever the keys checked after it hold. */
  lemma GuardOrder(d: seq<(string, Value)>)
    ensures !Has(d, "name") ==> FromDict(Dict(d)) == Err(ValueError(KeyNotFound("name")))
    ensures Lookup(d, "name") == Some(Null) ==> FromDict(Dict(d)) == Err(ValueError(Models.EmptyMessage("name")))
    ensures Has(d, "name") && Lookup(d, "name") != Some(Null) && !Has(d, "model")
            ==> FromDict(Dict(d)) == Err(ValueError(KeyNotFound("model")))
    ensures Has(d, "name") && Lookup(d, "name") != Some(Null) && Has(d, "model")
            && GetOrNone(d, "model").Dict? && !ValidModelDict(GetOrNone(d, "model"))
            ==> var m := GetOrNone(d, "model").entries;
                FromDict(Dict(d))
                == Err(Models.NewModel(GetOrNone(m, "provider"), GetOrNone(m, "name"), GetOrNone(m, "system_prompt")).error)
    ensures Has(d, "name") && Lookup(d, "name") != Some(Null) && ValidModelDict(GetOrNone(d, "model"))
            && !Has(d, "harness")
            ==> FromDict(Dict(d)) == Err(ValueError(KeyNotFound("harness")))
    ensures Has(d, "name") && Lookup(d, "name") != Some(Null) && Has(d, "model") && !GetOrNone(d, "model").Dict?
            ==> FromDict(Dict(d)) == Err(AttributeError(NoAttribute(GetOrNone(d, "model"), "get")))
    ensures Has(d, "name") && Lookup(d, "name") != Some(Null) && ValidModelDict(GetOrNone(d, "model"))
            && Has(d, "harness") && !GetOrNone(d, "harness").Dict?
            ==> FromDict(Dict(d)) == Err(AttributeError(NoAttribute(GetOrNone(d, "harness"), "get")))
  {
  }

  /** The first agent of a list whose profile cannot be built, paired with the
      error it raised; otherwise the profiles in list order. This is the
      iteration of `get_team_profile` stated by recursion, over any builder
      (`FromDict` in the source). */
  function BuildAgents(agents: seq<Value>, build: Value -> Result<AgentProfile, Exception>)
    : (r: Result<seq<AgentProfile>, (nat, Exception)>)
    ensures r.Ok? <==> forall i :: 0 <= i < |agents| ==> build(agents[i]).Ok?
    ensures r.Ok? ==> |r.value| == |agents|
                      && forall i :: 0 <= i < |agents| ==> r.value[i] == build(agents[i]).value
    ensures r.Err? ==> && r.error.0 < |agents|
                       && build(agents[r.error.0]) == Err(r.error.1)
                       && forall j :: 0 <= j < r.error.0 ==> build(agents[j]).Ok?
  {
    if agents == [] then Ok([])
    else
      var tail := agents[1..];
      var head := build(agents[0]);
      if head.Err? then Err((0, head.error))
      else
        var rest := BuildAgents(tail, build);
        if rest.Err? then
          assert forall j :: 1 <= j <= rest.error.0 ==> agents[j] == tail[j - 1];
          Err((rest.error.0 + 1, rest.error.1))
        else
          var r := [head.value] + rest.value;
          assert forall i :: 1 <= i < |agents| ==> agents[i] == tail[i - 1] && r[i] == rest.value[i - 1];
          Ok(r)
  }

  /** `xs.index(x)`: the position of the first element equal to `x`. */
  function ListIndex(xs: seq<Value>, x: Value): (r: nat)
    requires x in xs
    ensures r < |xs| && xs[r] == x
    ensures forall j :: 0 <= j < r ==> xs[j] != x
  {
    if xs[0] == x then 0
    else
      assert x in xs[1..];
      var r := ListIndex(xs[1..], x);
      assert forall j :: 1 <= j < |xs| ==> xs[j] == xs[1..][j - 1];
      r + 1
  }

  /** The `except ValueError` clause as its authors intended it: a
      `ValueError` from an agent gets the agent's 1-based position appended;
      any other exception passes through untouched. */
  function WrapAgentError(e: Exception, position: nat): (r: Exception)
    ensures e.ValueError? ==> r == ValueError(e.message + " in agent profile #" + NatToString(position))
    ensures !e.ValueError? ==> r == e
  {
    match e
    case ValueError(message) => ValueError(message + " in agent profile #" + NatToString(position))
    case _ => e
  }

  /** The `except ValueError` clause as written: formatting the message calls
      `.index` on the plan, which is a dict, so an AttributeError replaces
      the agent's error. */
  function WrapAgentErrorAsWritten(plan: seq<(string, Value)>, e: Exception): (r: Exception)
    ensures e.ValueError? ==> r == AttributeError(NoAttribute(Dict(plan), "index"))
    ensures !e.ValueError? ==> r == e
  {
    match e
    case ValueError(_) => AttributeError(NoAttribute(Dict(plan), "index"))
    case _ => e
  }

  /** `get_team_profile(plan)` with the intended error wrapper: the position
      reported for a failing agent is `plan["agents"].index(agent) + 1`. */
  function TeamProfileOf(plan: seq<(string, Value)>): (r: Result<TeamProfile, Exception>)
    ensures r.Ok? <==> && Has(plan, "agents")
                       && Iterate(GetOrNone(plan, "agents")).Ok?
                       && (var agents := Iterate(GetOrNone(plan, "agents")).value;
                           forall i :: 0 <= i < |agents| ==> FromDict(agents[i]).Ok?)
                       && Has(plan, "name")
    ensures r.Ok? ==> Lookup(plan, "name") == Some(r.value.name)
    ensures !Has(plan, "agents") ==> r == Err(KeyError("agents"))
  {
    match Lookup(plan, "agents")
    case None => Err(KeyError("agents"))
    case Some(agentsValue) =>
      match Iterate(agentsValue)
      case Err(e) => Err(e)
      case Ok(agents) =>
        match BuildAgents(agents, FromDict)
        case Err((i, e)) => Err(WrapAgentError(e, ListIndex(agents, agents[i]) + 1))
        case Ok(profiles) =>
          match Lookup(plan, "name")
          case None => Err(KeyError("name"))
          case Some(name) => Ok(TeamProfile(name, profiles))
  }

  /** `get_team_profile(plan)` as written: no ValueError escapes it, and
      where it succeeds it agrees with the corrected definition. */
  function TeamProfileAsWritten(plan: seq<(string, Value)>): (r: Result<TeamProfile, Exception>)
    ensures r.Err? ==> !r.error.ValueError?
    ensures r.Ok? <==> TeamProfileOf(plan).Ok?
    ensures r.Ok? ==> r == TeamProfileOf(plan)
  {
    match Lookup(plan, "agents")
    case None => Err(KeyError("agents"))
    case Some(agentsValue) =>
      match Iterate(agentsValue)
      case Err(e) => Err(e)
      case Ok(agents) =>
        match BuildAgents(agents, FromDict)
        case Err((_, e)) => Err(WrapAgentErrorAsWritten(plan, e))
        case Ok(profiles) =>
          match Lookup(plan, "name")
          case None => Err(KeyError("name"))
          case Some(name) => Ok(TeamProfile(name, profiles))
  }

  /** The loop of `get_team_profile`: builds the profile of each agent in
      turn and appends it, stopping at the first agent whose profile cannot
      be built, whose position and error it hands back. */
  method CollectAgentProfiles(agents: seq<Value>)
    returns (r: Result<seq<AgentProfile>, (nat, Exception)>)
    ensures r == BuildAgents(agents, FromDict)
  {
    var agentProfiles: seq<AgentProfile> := [];
    var i := 0;
    while i < |agents|
      invariant 0 <= i <= |agents|
      invariant forall j :: 0 <= j < i ==> FromDict(agents[j]).Ok?
      invariant |agentProfiles| == i
      invariant forall j :: 0 <= j < i ==> agentProfiles[j] == FromDict(agents[j]).value
    {
      var built := FromDict(agents[i]);
      if built.Err? {
        ghost var b := BuildAgents(agents, FromDict);
        assert FromDict(agents[i]).Err?;
        assert FromDict(agents[b.error.0]).Err?;
        assert b.Err? && b.error.0 == i;
        assert b == Err((i, built.error));
        return Err((i, built.error));
      }
      agentProfiles := agentProfiles + [built.value];
      i := i + 1;
    }
    ghost var b := BuildAgents(agents, FromDict);
    assert b.Ok?;
    assert forall j :: 0 <= j < |agents| ==> b.value[j] == agentProfiles[j];
    assert b.value == agentProfiles;
    return Ok(agentProfiles);
  }

  /** `get_team_profile(plan)`: collects the agent profiles in plan order;
      the error of the first agent that fails is wrapped with its 1-based
      position and aborts the team. */
  method GetTeamProfile(plan: seq<(string, Value)>) returns (r: Result<TeamProfile, Exception>)
    ensures r == TeamProfileOf(plan)
  {
    var agentsValue := Lookup(plan, "agents");
    if agentsValue.None? {
      return Err(KeyError("agents"));
    }
    var iterated := Iterate(agentsValue.value);
    if iterated.Err? {
      return Err(iterated.error);
    }
    var agents := iterated.value;
    var collected := CollectAgentProfiles(agents);
    if collected.Err? {
      var (i, error) := collected.error;
      var position := ListIndex(agents, agents[i]) + 1;
      return Err(WrapAgentError(error, position));
    }
    var name := Lookup(plan, "name");
    if name.None? {
      return Err(KeyError("name"));
    }
    r := Ok(TeamProfile(name.value, collected.value));
  }

  /** An agent that fails while every earlier one succeeded cannot equal an
      earlier one, so `index` finds it at its own position. */
  lemma {:induction false} FirstFailureIndex(agents: seq<Value>, i: nat)
    requires i < |agents| && FromDict(agents[i]).Err?
    requires forall j :: 0 <= j < i ==> FromDict(agents[j]).Ok?
    ensures ListIndex(agents, agents[i]) == i
  {
    var k := ListIndex(agents, agents[i]);
    assert FromDict(agents[k]).Err?;
  }

  /** On success the team keeps the plan's name and one profile per agent,
      in plan order. */
  lemma TeamOrderPreserved(plan: seq<(string, Value)>)
    requires TeamProfileOf(plan).Ok?
    ensures Lookup(plan, "agents").Some? && Lookup(plan, "agents").value.List? ==>
              var agents := Lookup(plan, "agents").value.items;
              var team := TeamProfileOf(plan).value;
              && Lookup(plan, "name") == Some(team.name)
              && |team.agentProfiles| == |agents|
              && forall i :: 0 <= i < |agents| ==> FromDict(agents[i]) == Ok(team.agentProfiles[i])
  {
  }

  /** The first failing agent aborts the whole team: no partial team is
      returned, and the error is that agent's, tagged with its 1-based
      position in the agent list. */
  lemma FirstFailureAbortsTeam(plan: seq<(string, Value)>, i: nat)
    requires Lookup(plan, "agents").Some? && Lookup(plan, "agents").value.List?
    requires var agents := Lookup(plan, "agents").value.items;
             && i < |agents| && FromDict(agents[i]).Err?
             && forall j :: 0 <= j < i ==> FromDict(agents[j]).Ok?
    ensures var agents := Lookup(plan, "agents").value.items;
            TeamProfileOf(plan) == Err(WrapAgentError(FromDict(agents[i]).error, i + 1))
  {
    var agents := Lookup(plan, "agents").value.items;
    var b := BuildAgents(agents, FromDict);
    assert FromDict(agents[i]).Err?;
    assert b.error.0 == i;
    FirstFailureIndex(agents, i);
  }

  /** As written, whatever ValueError an agent raises, the caller sees only an
      AttributeError that names neither the agent nor the failing key. */
  lemma AsWrittenHidesAgentError(plan: seq<(string, Value)>, i: nat)
    requires Lookup(plan, "agents").Some? && Lookup(plan, "agents").value.List?
    requires var agents := Lookup(plan, "agents").value.items;
             && i < |agents| && FromDict(agents[i]).Err? && FromDict(agents[i]).error.ValueError?
             && forall j :: 0 <= j < i ==> FromDict(agents[j]).Ok?
    ensures TeamProfileAsWritten(plan) == Err(AttributeError(NoAttribute(Dict(plan), "index")))
    ensures TeamProfileOf(plan).Err? && TeamProfileOf(plan).error.ValueError?
  {
    var agents := Lookup(plan, "agents").value.items;
    var b := BuildAgents(agents, FromDict);
    assert FromDict(agents[i]).Err?;
    assert b.error.0 == i;
    FirstFailureAbortsTeam(plan, i);
  }

  /** A concrete plan: one agent with no "name" key. */
  lemma AsWrittenCounterexample()
    ensures var plan := [("name", Str("t")), ("agents", List([Dict([])]))];
            && TeamProfileAsWritten(plan) == Err(AttributeError(NoAttribute(Dict(plan), "index")))
            && TeamProfileOf(plan) == Err(ValueError(KeyNotFound("name") + " in agent profile #" + "1"))
  {
    var plan := [("name", Str("t")), ("agents", List([Dict([])]))];
    var agents := [Dict([])];
    assert Lookup(plan, "agents") == Some(List(agents));
    assert FromDict(Dict([])) == Err(ValueError(KeyNotFound("name")));
    FirstFailureAbortsTeam(plan, 0);
    assert NatToString(1) == "1";
  }
}
