/** The typed schema of the newer engine. Each pydantic model is a datatype
    and a parse function from a deserialized document. Parsing checks the
    fields in declaration order, reads each one under its external name
    (alias), and collects every field error with its location. A RuntimeError
    raised by a harness while resolving its tools cuts validation short and
    propagates on its own. */
module Schema {
  import opened Python
  import Models

  // ---------------------------------------------------------------------
  // Validation failures
  // ---------------------------------------------------------------------

  /** One step of an error location: a field (by its external name or dict
      key) or a list position. */
  datatype Loc = Field(name: string) | Item(index: nat)

  datatype IssueKind =
    | Missing
    | StringType
    | IntType
    | ListType
    | DictType
    | ModelType
    | EnumMember
    | PatternMismatch(pattern: string)

  datatype Issue = Issue(loc: seq<Loc>, kind: IssueKind)

  /** A validation error that lists every issue found, or an exception
      that escaped validation. */
  datatype Failure = Invalid(issues: seq<Issue>) | Raised(exception: Exception)

  type Parsed<T> = Result<T, Failure>

  function IssuesOf<T>(r: Parsed<T>): seq<Issue>
  {
    if r.Err? && r.error.Invalid? then r.error.issues else []
  }

  predicate Aborted<T>(r: Parsed<T>)
  {
    r.Err? && r.error.Raised?
  }

  /** Prefixes the location of every issue with `loc`. */
  function At<T>(loc: Loc, r: Parsed<T>): (r': Parsed<T>)
    ensures r'.Ok? <==> r.Ok?
    ensures r.Ok? ==> r' == r
    ensures Aborted(r') <==> Aborted(r)
    ensures Aborted(r) ==> r' == r
    ensures |IssuesOf(r')| == |IssuesOf(r)|
    ensures forall i :: 0 <= i < |IssuesOf(r)| ==>
              IssuesOf(r')[i] == Issue([loc] + IssuesOf(r)[i].loc, IssuesOf(r)[i].kind)
  {
    match r
    case Err(Invalid(issues)) =>
      Err(Invalid(seq(|issues|, i requires 0 <= i < |issues| => Issue([loc] + issues[i].loc, issues[i].kind))))
    case _ => r
  }

  /** Validation of two fields in order: both must succeed; an exception in
      the first stops before the second; otherwise the issues of both are
      reported, the first field's first. */
  function Join<A, B>(a: Parsed<A>, b: Parsed<B>): (r: Parsed<(A, B)>)
    ensures r.Ok? <==> a.Ok? && b.Ok?
    ensures r.Ok? ==> r.value == (a.value, b.value)
    ensures Aborted(r) <==> Aborted(a) || Aborted(b)
    ensures Aborted(a) ==> r == Err(a.error)
    ensures !Aborted(a) && Aborted(b) ==> r == Err(b.error)
    ensures !Aborted(r) ==> IssuesOf(r) == IssuesOf(a) + IssuesOf(b)
  {
    if Aborted(a) then Err(a.error)
    else if Aborted(b) then Err(b.error)
    else if a.Ok? && b.Ok? then Ok((a.value, b.value))
    else Err(Invalid(IssuesOf(a) + IssuesOf(b)))
  }

  // ---------------------------------------------------------------------
  // Field validators
  // ---------------------------------------------------------------------

  function AsStr(v: Value): (r: Parsed<string>)
    ensures r.Ok? <==> v.Str?
    ensures r.Ok? ==> v == Str(r.value)
    ensures r.Err? ==> r == Err(Invalid([Issue([], StringType)]))
  {
    if v.Str? then Ok(v.s) else Err(Invalid([Issue([], StringType)]))
  }

  function AsInt(v: Value): (r: Parsed<int>)
    ensures r.Ok? <==> v.Int?
    ensures r.Ok? ==> v == Int(r.value)
  {
    if v.Int? then Ok(v.i) else Err(Invalid([Issue([], IntType)]))
  }

  /** The pattern `^literal$`. */
  function Anchored(literal: string): string
  {
    "^" + literal + "$"
  }

  /** A string constrained by an anchored pattern `^literal$`, which only the
      literal itself matches. */
  function AsLiteral(v: Value, literal: string): (r: Parsed<string>)
    ensures r.Ok? <==> v == Str(literal)
    ensures r.Ok? ==> r.value == literal
    ensures v.Str? && v.s != literal ==> r == Err(Invalid([Issue([], PatternMismatch(Anchored(literal)))]))
  {
    match v
    case Str(s) => if s == literal then Ok(s) else Err(Invalid([Issue([], PatternMismatch(Anchored(literal)))]))
    case _ => Err(Invalid([Issue([], StringType)]))
  }

  /** The elements of a list, validated one by one, the issues of element
      `i` located under `Item(start + i)`. */
  function Items<T>(xs: seq<Value>, parse: Value -> Parsed<T>, start: nat): (r: Parsed<seq<T>>)
    ensures r.Ok? <==> forall i :: 0 <= i < |xs| ==> parse(xs[i]).Ok?
    ensures r.Ok? ==> |r.value| == |xs| && forall i :: 0 <= i < |xs| ==> parse(xs[i]) == Ok(r.value[i])
    decreases |xs|
  {
    if xs == [] then Ok([])
    else
      assert forall i :: 1 <= i < |xs| ==> xs[i] == xs[1..][i - 1];
      match Join(At(Item(start), parse(xs[0])), Items(xs[1..], parse, start + 1))
      case Ok((first, rest)) => Ok([first] + rest)
      case Err(f) => Err(f)
  }

  /** `List[T]`. */
  function AsList<T>(v: Value, parse: Value -> Parsed<T>): (r: Parsed<seq<T>>)
    ensures r.Ok? ==> v.List? && |r.value| == |v.items|
                      && forall i :: 0 <= i < |v.items| ==> parse(v.items[i]) == Ok(r.value[i])
    ensures v.List? && (forall i :: 0 <= i < |v.items| ==> parse(v.items[i]).Ok?) ==> r.Ok?
  {
    match v
    case List(items) => Items(items, parse, 0)
    case _ => Err(Invalid([Issue([], ListType)]))
  }

  /** `List[str]`. */
  function StrList(v: Value): Parsed<seq<string>>
  {
    AsList(v, AsStr)
  }

  /** `List[Any]`: any list is accepted as it is. */
  function AsAnyList(v: Value): (r: Parsed<seq<Value>>)
    ensures r.Ok? <==> v.List?
    ensures r.Ok? ==> r.value == v.items
  {
    if v.List? then Ok(v.items) else Err(Invalid([Issue([], ListType)]))
  }

  /** A required field, read under its external name `key`. */
  function Required<T>(d: seq<(string, Value)>, key: string, parse: Value -> Parsed<T>): (r: Parsed<T>)
    ensures r.Ok? <==> Has(d, key) && parse(GetOrNone(d, key)).Ok?
    ensures r.Ok? ==> parse(GetOrNone(d, key)) == r
    ensures !Has(d, key) ==> r == Err(Invalid([Issue([Field(key)], Missing)]))
  {
    match Lookup(d, key)
    case None => Err(Invalid([Issue([Field(key)], Missing)]))
    case Some(v) => At(Field(key), parse(v))
  }

  /** A field with a default, read under its external name `key`. */
  function Defaulted<T>(d: seq<(string, Value)>, key: string, default: T, parse: Value -> Parsed<T>): (r: Parsed<T>)
    ensures !Has(d, key) ==> r == Ok(default)
    ensures Has(d, key) ==> (r.Ok? <==> parse(GetOrNone(d, key)).Ok?)
    ensures Has(d, key) && r.Ok? ==> parse(GetOrNone(d, key)) == r
  {
    match Lookup(d, key)
    case None => Ok(default)
    case Some(v) => At(Field(key), parse(v))
  }

  // ---------------------------------------------------------------------
  // Model
  // ---------------------------------------------------------------------

  datatype Model = Model(provider: string, name: string, systemPrompt: string)

  /** The document holds a string under `key`. */
  predicate StrField(d: seq<(string, Value)>, key: string)
  {
    Has(d, key) && GetOrNone(d, key).Str?
  }

  /** The document holds a value under `key` that `parse` accepts. */
  predicate Accepts<T>(d: seq<(string, Value)>, key: string, parse: Value -> Parsed<T>)
  {
    Has(d, key) && parse(GetOrNone(d, key)).Ok?
  }

  /** `Model`: three required strings; the system prompt is read under its
      alias `systemPrompt`. Empty strings are accepted. */
  function ParseModel(v: Value): (r: Parsed<Model>)
    ensures r.Ok? <==> v.Dict? && StrField(v.entries, "provider") && StrField(v.entries, "name") && StrField(v.entries, "systemPrompt")
    ensures r.Ok? ==> && Lookup(v.entries, "provider") == Some(Str(r.value.provider))
                      && Lookup(v.entries, "name") == Some(Str(r.value.name))
                      && Lookup(v.entries, "systemPrompt") == Some(Str(r.value.systemPrompt))
    ensures !Aborted(r)
  {
    if !v.Dict? then Err(Invalid([Issue([], ModelType)]))
    else
      var d := v.entries;
      match Join(Required(d, "provider", AsStr), Join(Required(d, "name", AsStr), Required(d, "systemPrompt", AsStr)))
      case Ok((provider, (name, systemPrompt))) => Ok(Model(provider, name, systemPrompt))
      case Err(f) => Err(f)
  }

  /** Only the alias is read: a document that spells the key
      `system_prompt`, as the older path does, is missing `systemPrompt`,
      and that is the only issue. */
  lemma SnakeCaseKeyIgnored(provider: string, name: string, prompt: string)
    ensures ParseModel(Dict([("provider", Str(provider)), ("name", Str(name)), ("system_prompt", Str(prompt))]))
            == Err(Invalid([Issue([Field("systemPrompt")], Missing)]))
  {
    var d := [("provider", Str(provider)), ("name", Str(name)), ("system_prompt", Str(prompt))];
    assert |"provider"| != |"systemPrompt"| && |"name"| != |"systemPrompt"| && |"system_prompt"| != |"systemPrompt"|;
    assert |"provider"| != |"name"|;
    assert d[1..] == [("name", Str(name)), ("system_prompt", Str(prompt))];
    assert d[1..][1..] == [("system_prompt", Str(prompt))];
    assert d[1..][1..][1..] == [];
    assert Lookup(d[1..][1..], "systemPrompt") == None;
    assert Lookup(d, "systemPrompt") == None;
    assert Lookup(d, "name") == Some(Str(name));
    assert Required(d, "provider", AsStr) == Ok(provider);
    assert Required(d, "name", AsStr) == Ok(name);
    var missing := Issue([Field("systemPrompt")], Missing);
    assert Required(d, "systemPrompt", AsStr) == Err(Invalid([missing]));
    assert [] + [missing] == [missing];
    assert Join(Required(d, "name", AsStr), Required(d, "systemPrompt", AsStr)) == Err(Invalid([missing]));
  }

  /** The two paths disagree on empty strings: the schema accepts a model
      whose fields are all empty, the older dataclass rejects it. */
  lemma EmptyFieldsAcceptedOnlyBySchema()
    ensures ParseModel(Dict([("provider", Str("")), ("name", Str("")), ("systemPrompt", Str(""))]))
            == Ok(Model("", "", ""))
    ensures Models.NewModel(Str(""), Str(""), Str("")).Err?
  {
    var d := [("provider", Str("")), ("name", Str("")), ("systemPrompt", Str(""))];
    assert Required(d, "provider", AsStr) == Ok("");
    assert d[1..] == [("name", Str("")), ("systemPrompt", Str(""))];
    assert Required(d, "name", AsStr) == Ok("");
    assert d[1..][1..] == [("systemPrompt", Str(""))];
    assert Required(d, "systemPrompt", AsStr) == Ok("");
  }

  // ---------------------------------------------------------------------
  // Harness: the tool registry and its resolution
  // ---------------------------------------------------------------------

  /** The closed registry of tools a harness can bind. */
  datatype Tool = Serper | Whois

  /** The name a resolved tool is registered under. */
  function ToolName(t: Tool): string
  {
    match t
    case Serper => "serper"
    case Whois => "whois"
  }

  /** Exact-match dispatch on a declared tool name. */
  function ToolOf(name: string): (r: Option<Tool>)
    ensures r.Some? <==> name == "serper" || name == "whois"
    ensures r.Some? ==> ToolName(r.value) == name
  {
    match name
    case "serper" => Some(Serper)
    case "whois" => Some(Whois)
    case _ => None
  }

  /** Every registered tool is found again under its own name. */
  lemma ToolNameRoundTrip(t: Tool)
    ensures ToolOf(ToolName(t)) == Some(t)
  {
  }

  /** The message of the error for an unknown tool, naming the tool. */
  function UnknownToolMessage(name: string): (m: string)
    ensures |m| == |"unknown tool: "| + |name| && m[|"unknown tool: "|..] == name
  {
    "unknown tool: " + name
  }

  /** What the source interpolates into the message instead of the tool
      name: the `tool` decorator it imported, whose printed form does not
      depend on the name (its address is not modelled). */
  const ToolDecoratorRepr: string := "<function tool>"

  /** The message of the error for an unknown tool, as written. */
  function UnknownToolMessageAsWritten(name: string): (m: string)
    ensures m == UnknownToolMessage(ToolDecoratorRepr)
  {
    "unknown tool: " + ToolDecoratorRepr
  }

  /** As written, two different unknown names raise the same message: the
      error cannot tell the user which name was wrong. */
  lemma AsWrittenMessageLosesName()
    ensures ToolOf("doesnotexist").None? && ToolOf("serperr").None?
    ensures UnknownToolMessageAsWritten("doesnotexist") == UnknownToolMessageAsWritten("serperr")
  {
  }

  /** With the name interpolated, the message determines the name. */
  lemma {:induction false} UnknownToolMessageNamesTool(a: string, b: string)
    requires UnknownToolMessage(a) == UnknownToolMessage(b)
    ensures a == b
  {
    var prefix := "unknown tool: ";
    assert UnknownToolMessage(a)[|prefix|..] == a;
    assert UnknownToolMessage(b)[|prefix|..] == b;
  }

  /** The tools of a harness, resolved name by name in declared order; the
      first unknown name aborts the whole resolution. */
  function ResolveTools(names: seq<string>): (r: Result<seq<Tool>, Exception>)
    ensures r.Ok? <==> forall i :: 0 <= i < |names| ==> ToolOf(names[i]).Some?
    ensures r.Ok? ==> |r.value| == |names| && forall i :: 0 <= i < |names| ==> ToolName(r.value[i]) == names[i]
  {
    if names == [] then Ok([])
    else
      assert forall i :: 1 <= i < |names| ==> names[i] == names[1..][i - 1];
      match ToolOf(names[0])
      case None => Err(RuntimeError(UnknownToolMessage(names[0])))
      case Some(t) =>
        var rest := ResolveTools(names[1..]);
        if rest.Err? then Err(rest.error)
        else
          var r := [t] + rest.value;
          assert forall i :: 1 <= i < |names| ==> r[i] == rest.value[i - 1];
          Ok(r)
  }

  /** The error of a failed resolution names the first unknown tool. */
  lemma {:induction false} ResolveToolsFirstUnknown(names: seq<string>, i: nat)
    requires i < |names| && ToolOf(names[i]).None?
    requires forall j :: 0 <= j < i ==> ToolOf(names[j]).Some?
    ensures ResolveTools(names) == Err(RuntimeError(UnknownToolMessage(names[i])))
  {
    if i > 0 {
      assert forall j :: 0 <= j < i - 1 ==> names[1..][j] == names[j + 1];
      ResolveToolsFirstUnknown(names[1..], i - 1);
    }
  }

  /** The resolution of a harness's tools as written: the same dispatch,
      with the message that does not name the tool. */
  function ResolveToolsAsWritten(names: seq<string>): (r: Result<seq<Tool>, Exception>)
    ensures r.Ok? <==> forall i :: 0 <= i < |names| ==> ToolOf(names[i]).Some?
    ensures r.Err? ==> r == Err(RuntimeError(UnknownToolMessageAsWritten("")))
  {
    if names == [] then Ok([])
    else
      match ToolOf(names[0])
      case None => Err(RuntimeError(UnknownToolMessageAsWritten(names[0])))
      case Some(t) =>
        var rest := ResolveToolsAsWritten(names[1..]);
        if rest.Err? then Err(rest.error) else Ok([t] + rest.value)
  }

  /** The resolution as written and the corrected one accept the same names
      and yield the same tools; they differ only in the message of the
      error, which as written is the same for every unknown name. */
  lemma {:induction false} ResolveToolsAsWrittenAgrees(names: seq<string>)
    ensures ResolveToolsAsWritten(names).Ok? <==> ResolveTools(names).Ok?
    ensures ResolveTools(names).Ok? ==> ResolveToolsAsWritten(names) == ResolveTools(names)
    ensures ResolveTools(names).Err? ==>
              && ResolveTools(names).error.RuntimeError?
              && ResolveToolsAsWritten(names) == Err(RuntimeError(UnknownToolMessageAsWritten("")))
  {
    if names != [] {
      ResolveToolsAsWrittenAgrees(names[1..]);
    }
  }

  /** A resolved tool as held in the harness's `tools` list, or a value a
      caller supplied for that list. */
  datatype ToolEntry = Supplied(value: Value) | Bound(tool: Tool)

  function BoundAll(tools: seq<Tool>): (r: seq<ToolEntry>)
    ensures |r| == |tools| && forall i :: 0 <= i < |tools| ==> r[i] == Bound(tools[i])
  {
    seq(|tools|, i requires 0 <= i < |tools| => Bound(tools[i]))
  }

  /** When every name is registered, each resolved tool is the one its
      name dispatches to. */
  lemma ResolvedToolsByName(names: seq<string>)
    requires forall i :: 0 <= i < |names| ==> ToolOf(names[i]).Some?
    ensures ResolveTools(names).Ok?
    ensures forall i :: 0 <= i < |names| ==> ResolveTools(names).value[i] == ToolOf(names[i]).value
  {
    var tools := ResolveTools(names).value;
    forall i | 0 <= i < |names|
      ensures tools[i] == ToolOf(names[i]).value
    {
      ToolNameRoundTrip(tools[i]);
    }
  }

  /** A `Harness` object after field validation: `tool_names` holds the
      declared names, `tools` whatever the caller passed for it. */
  class Harness {
    var toolNames: seq<string>
    var tools: seq<ToolEntry>

    constructor (toolNames: seq<string>, supplied: seq<Value>)
      ensures this.toolNames == toolNames
      ensures |tools| == |supplied| && forall i :: 0 <= i < |supplied| ==> tools[i] == Supplied(supplied[i])
    {
      this.toolNames := toolNames;
      this.tools := seq(|supplied|, i requires 0 <= i < |supplied| => Supplied(supplied[i]));
    }

    /** `model_post_init`: empties `tools`, then appends the tool for each
      declared name in order, raising on the first unknown name. Whatever
      `tools` held before is discarded. */
    method ModelPostInit() returns (error: Option<Exception>)
      modifies this`tools
      ensures toolNames == old(toolNames)
      ensures error.None? <==> ResolveTools(toolNames).Ok?
      ensures error.None? ==> tools == BoundAll(ResolveTools(toolNames).value)
      ensures error.Some? ==> error.value == ResolveTools(toolNames).error
    {
      tools := [];
      var i := 0;
      while i < |toolNames|
        invariant 0 <= i <= |toolNames|
        invariant forall j :: 0 <= j < i ==> ToolOf(toolNames[j]).Some?
        invariant |tools| == i && forall j :: 0 <= j < i ==> tools[j] == Bound(ToolOf(toolNames[j]).value)
      {
        var tool := ToolOf(toolNames[i]);
        if tool.None? {
          error := Some(RuntimeError(UnknownToolMessage(toolNames[i])));
          ResolveToolsFirstUnknown(toolNames, i);
          return;
        }
        tools := tools + [Bound(tool.value)];
        i := i + 1;
      }
      ResolvedToolsByName(toolNames);
      error := None;
    }
  }

  /** Validating a `Harness`: construction followed by `model_post_init`. No
      harness with a partial tool list is ever handed back. */
  method NewHarness(toolNames: seq<string>, supplied: seq<Value>) returns (r: Result<Harness, Exception>)
    ensures r.Ok? <==> ResolveTools(toolNames).Ok?
    ensures r.Ok? ==> fresh(r.value) && r.value.toolNames == toolNames
                      && r.value.tools == BoundAll(ResolveTools(toolNames).value)
    ensures r.Err? ==> r.error == ResolveTools(toolNames).error
  {
    var harness := new Harness(toolNames, supplied);
    var error := harness.ModelPostInit();
    if error.Some? {
      return Err(error.value);
    }
    r := Ok(harness);
  }

  /** The fields of a validated harness: `tool_names`, read under the alias
      `tools` and defaulting to the empty list, and the resolved `tools`. */
  datatype HarnessFields = HarnessFields(toolNames: seq<string>, tools: seq<Tool>)

  /** `Harness`. Both fields take their input from the key `tools`: the
      alias of `tool_names` and the own name of `tools`. `tools` must then be
      a list, but its content is replaced by the resolution. */
  function ParseHarness(v: Value): (r: Parsed<HarnessFields>)
    ensures r.Ok? ==> && v.Dict?
                      && ResolveTools(r.value.toolNames) == Ok(r.value.tools)
                      && (!Has(v.entries, "tools") ==> r.value.toolNames == [])
                      && (Has(v.entries, "tools") ==>
                            var declared := GetOrNone(v.entries, "tools");
                            && declared.List? && |declared.items| == |r.value.toolNames|
                            && forall i :: 0 <= i < |declared.items| ==> declared.items[i] == Str(r.value.toolNames[i]))
    ensures v.Dict? && !Has(v.entries, "tools") ==> r == Ok(HarnessFields([], []))
    ensures v.Dict? && Defaulted(v.entries, "tools", [], StrList).Ok? ==>
              var names := Defaulted(v.entries, "tools", [], StrList).value;
              && (r.Ok? <==> ResolveTools(names).Ok?)
              && (r.Err? ==> r == Err(Raised(ResolveTools(names).error)))
  {
    if !v.Dict? then Err(Invalid([Issue([], ModelType)]))
    else
      var d := v.entries;
      var toolNames := Defaulted(d, "tools", [], StrList);
      var supplied := Defaulted(d, "tools", [], AsAnyList);
      match Join(toolNames, supplied)
      case Err(f) => Err(f)
      case Ok((names, _)) =>
        match ResolveTools(names)
        case Ok(tools) => Ok(HarnessFields(names, tools))
        case Err(e) => Err(Raised(e))
  }

  // ---------------------------------------------------------------------
  // Agent and team profiles
  // ---------------------------------------------------------------------

  datatype AgentProfile = AgentProfile(name: string, model: Model, harness: HarnessFields)

  /** `AgentProfile`: name, model and harness, all required. */
  function ParseAgentProfile(v: Value): (r: Parsed<AgentProfile>)
    ensures r.Ok? <==> && v.Dict? && StrField(v.entries, "name")
                       && Accepts(v.entries, "model", ParseModel)
                       && Accepts(v.entries, "harness", ParseHarness)
    ensures r.Ok? ==> && v.Dict?
                      && Lookup(v.entries, "name") == Some(Str(r.value.name))
                      && ParseModel(GetOrNone(v.entries, "model")) == Ok(r.value.model)
                      && ParseHarness(GetOrNone(v.entries, "harness")) == Ok(r.value.harness)
  {
    if !v.Dict? then Err(Invalid([Issue([], ModelType)]))
    else
      var d := v.entries;
      match Join(Required(d, "name", AsStr), Join(Required(d, "model", ParseModel), Required(d, "harness", ParseHarness)))
      case Ok((name, (model, harness))) => Ok(AgentProfile(name, model, harness))
      case Err(f) => Err(f)
  }

  datatype TeamProfile = TeamProfile(name: string, agentProfiles: seq<AgentProfile>)

  /** `List[AgentProfile]`. */
  function AgentProfiles(v: Value): Parsed<seq<AgentProfile>>
  {
    AsList(v, ParseAgentProfile)
  }

  /** `TeamProfile`: the agent profiles are read under the alias `agents`,
      in document order. */
  function ParseTeamProfile(v: Value): (r: Parsed<TeamProfile>)
    ensures r.Ok? <==> v.Dict? && StrField(v.entries, "name") && Accepts(v.entries, "agents", AgentProfiles)
    ensures r.Ok? ==> && v.Dict?
                      && Lookup(v.entries, "name") == Some(Str(r.value.name))
                      && var agents := GetOrNone(v.entries, "agents");
                         && agents.List? && |agents.items| == |r.value.agentProfiles|
                         && forall i :: 0 <= i < |agents.items| ==> ParseAgentProfile(agents.items[i]) == Ok(r.value.agentProfiles[i])
  {
    if !v.Dict? then Err(Invalid([Issue([], ModelType)]))
    else
      var d := v.entries;
      match Join(Required(d, "name", AsStr), Required(d, "agents", AgentProfiles))
      case Ok((name, agents)) => Ok(TeamProfile(name, agents))
      case Err(f) => Err(f)
  }

  // ---------------------------------------------------------------------
  // Judge profiles and their metrics
  // ---------------------------------------------------------------------

  datatype Metric = Accuracy | Completeness | Cost | Precision | Preferences | Recall | Speed | Trajectory

  /** The value of each member of the `Metrics` enum. */
  function MetricValue(m: Metric): string
  {
    match m
    case Accuracy => "accuracy"
    case Completeness => "completeness"
    case Cost => "cost"
    case Precision => "precision"
    case Preferences => "preferences"
    case Recall => "recall"
    case Speed => "speed"
    case Trajectory => "trajectory"
  }

  /** Enum lookup by value: exactly the eight values name a metric. */
  function MetricOf(s: string): (r: Option<Metric>)
    ensures r.Some? <==> s in {"accuracy", "completeness", "cost", "precision", "preferences", "recall", "speed", "trajectory"}
    ensures r.Some? ==> MetricValue(r.value) == s
  {
    match s
    case "accuracy" => Some(Accuracy)
    case "completeness" => Some(Completeness)
    case "cost" => Some(Cost)
    case "precision" => Some(Precision)
    case "preferences" => Some(Preferences)
    case "recall" => Some(Recall)
    case "speed" => Some(Speed)
    case "trajectory" => Some(Trajectory)
    case _ => None
  }

  /** Every metric is found again under its value. */
  lemma MetricValueRoundTrip(m: Metric)
    ensures MetricOf(MetricValue(m)) == Some(m)
  {
  }

  /** The entries of a `Dict[Metrics, str]`, validated in order: each key
      must be a metric value (an issue located at the key, then `[key]`) and
      each value a string. */
  function MetricEntries(entries: seq<(string, Value)>): (r: Parsed<map<Metric, string>>)
    ensures r.Ok? <==> forall i :: 0 <= i < |entries| ==> MetricOf(entries[i].0).Some? && entries[i].1.Str?
    ensures !Aborted(r)
  {
    if entries == [] then Ok(map[])
    else
      var (key, value) := entries[0];
      assert forall i :: 1 <= i < |entries| ==> entries[i] == entries[1..][i - 1];
      var metric: Parsed<Metric> :=
        match MetricOf(key)
        case Some(m) => Ok(m)
        case None => Err(Invalid([Issue([Field(key), Field("[key]")], EnumMember)]));
      match Join(Join(metric, At(Field(key), AsStr(value))), MetricEntries(entries[1..]))
      case Ok(((m, text), rest)) => Ok(map[m := text] + rest)
      case Err(f) => Err(f)
  }

  /** The keys of a dict are distinct. */
  predicate DistinctKeys(entries: seq<(string, Value)>)
  {
    forall i, j :: 0 <= i < j < |entries| ==> entries[i].0 != entries[j].0
  }

  /** A validated metric map holds exactly the metrics whose values are keys
      of the input, each with the string stored under that key. */
  lemma {:induction false} MetricEntriesContents(entries: seq<(string, Value)>, m: Metric)
    requires DistinctKeys(entries)
    requires MetricEntries(entries).Ok?
    ensures m in MetricEntries(entries).value <==> Has(entries, MetricValue(m))
    ensures m in MetricEntries(entries).value ==> Lookup(entries, MetricValue(m)) == Some(Str(MetricEntries(entries).value[m]))
  {
    if entries != [] {
      var rest := entries[1..];
      assert DistinctKeys(rest) by {
        forall i, j | 0 <= i < j < |rest| ensures rest[i].0 != rest[j].0 {
          assert rest[i] == entries[i + 1] && rest[j] == entries[j + 1];
        }
      }
      assert forall i :: 0 <= i < |rest| ==> rest[i] == entries[i + 1];
      MetricEntriesContents(rest, m);
      var first := MetricOf(entries[0].0).value;
      if entries[0].0 == MetricValue(m) {
        MetricValueRoundTrip(m);
        assert first == m;
        MetricAbsentFromRest(entries, m);
      } else {
        assert first != m;
      }
    }
  }

  /** With distinct keys, the first key does not occur again. */
  lemma MetricAbsentFromRest(entries: seq<(string, Value)>, m: Metric)
    requires DistinctKeys(entries) && |entries| > 0 && entries[0].0 == MetricValue(m)
    ensures !Has(entries[1..], MetricValue(m))
  {
    KeyAbsent(entries[1..], MetricValue(m));
  }

  lemma {:induction false} KeyAbsent(entries: seq<(string, Value)>, key: string)
    requires forall i :: 0 <= i < |entries| ==> entries[i].0 != key
    ensures !Has(entries, key)
  {
    if entries != [] {
      assert forall i :: 0 <= i < |entries[1..]| ==> entries[1..][i] == entries[i + 1];
      KeyAbsent(entries[1..], key);
    }
  }

  /** `Dict[Metrics, str]`. */
  function ParseMetrics(v: Value): (r: Parsed<map<Metric, string>>)
    ensures r.Ok? <==> v.Dict? && forall i :: 0 <= i < |v.entries| ==> MetricOf(v.entries[i].0).Some? && v.entries[i].1.Str?
    ensures r.Ok? ==> r == MetricEntries(v.entries)
  {
    if v.Dict? then MetricEntries(v.entries) else Err(Invalid([Issue([], DictType)]))
  }

  datatype JudgeProfile = JudgeProfile(
    name: string,
    model: Model,
    harness: HarnessFields,
    metricsToEvaluate: map<Metric, string>,
    teamsToEvaluate: seq<string>)

  /** `JudgeProfile`: the fields of an agent profile (a judge needs a harness
      too), then the metrics to evaluate and the teams to judge. */
  function ParseJudgeProfile(v: Value): (r: Parsed<JudgeProfile>)
    ensures r.Ok? <==> && v.Dict? && StrField(v.entries, "name")
                       && Accepts(v.entries, "model", ParseModel)
                       && Accepts(v.entries, "harness", ParseHarness)
                       && Accepts(v.entries, "metricsToEvaluate", ParseMetrics)
                       && Accepts(v.entries, "teamsToEvaluate", StrList)
    ensures r.Ok? ==> && v.Dict?
                      && Lookup(v.entries, "name") == Some(Str(r.value.name))
                      && ParseModel(GetOrNone(v.entries, "model")) == Ok(r.value.model)
                      && ParseHarness(GetOrNone(v.entries, "harness")) == Ok(r.value.harness)
                      && ParseMetrics(GetOrNone(v.entries, "metricsToEvaluate")) == Ok(r.value.metricsToEvaluate)
                      && StrList(GetOrNone(v.entries, "teamsToEvaluate")) == Ok(r.value.teamsToEvaluate)
  {
    if !v.Dict? then Err(Invalid([Issue([], ModelType)]))
    else
      var d := v.entries;
      var name := Required(d, "name", AsStr);
      var metrics := Required(d, "metricsToEvaluate", ParseMetrics);
      var rest := Join(Required(d, "model", ParseModel),
                  Join(Required(d, "harness", ParseHarness),
                  Join(metrics, Required(d, "teamsToEvaluate", StrList))));
      match Join(name, rest)
      case Ok((n, (model, (harness, (m, teams))))) => Ok(JudgeProfile(n, model, harness, m, teams))
      case Err(f) => Err(f)
  }

  // ---------------------------------------------------------------------
  // The experiment set
  // ---------------------------------------------------------------------

  /** `rounds` is validated but nothing reads it. */
  datatype Spec = Spec(task: string, rounds: int, teamProfiles: seq<TeamProfile>)

  /** `List[TeamProfile]`. */
  function TeamProfiles(v: Value): Parsed<seq<TeamProfile>>
  {
    AsList(v, ParseTeamProfile)
  }

  /** `Spec`: the team profiles are read under the alias `teams`, in document
      order. */
  function ParseSpec(v: Value): (r: Parsed<Spec>)
    ensures r.Ok? <==> && v.Dict? && StrField(v.entries, "task")
                       && Has(v.entries, "rounds") && GetOrNone(v.entries, "rounds").Int?
                       && Accepts(v.entries, "teams", TeamProfiles)
    ensures r.Ok? ==> && v.Dict?
                      && Lookup(v.entries, "task") == Some(Str(r.value.task))
                      && Lookup(v.entries, "rounds") == Some(Int(r.value.rounds))
                      && var teams := GetOrNone(v.entries, "teams");
                         && teams.List? && |teams.items| == |r.value.teamProfiles|
                         && forall i :: 0 <= i < |teams.items| ==> ParseTeamProfile(teams.items[i]) == Ok(r.value.teamProfiles[i])
  {
    if !v.Dict? then Err(Invalid([Issue([], ModelType)]))
    else
      var d := v.entries;
      match Join(Required(d, "task", AsStr),
             Join(Required(d, "rounds", AsInt),
                  Required(d, "teams", TeamProfiles)))
      case Ok((task, (rounds, teams))) => Ok(Spec(task, rounds, teams))
      case Err(f) => Err(f)
  }

  datatype Metadata = Metadata(name: string, description: string)

  function ParseMetadata(v: Value): (r: Parsed<Metadata>)
    ensures r.Ok? <==> v.Dict? && StrField(v.entries, "name") && StrField(v.entries, "description")
    ensures r.Ok? ==> && Lookup(v.entries, "name") == Some(Str(r.value.name))
                      && Lookup(v.entries, "description") == Some(Str(r.value.description))
    ensures !Aborted(r)
  {
    if !v.Dict? then Err(Invalid([Issue([], ModelType)]))
    else
      var d := v.entries;
      match Join(Required(d, "name", AsStr), Required(d, "description", AsStr))
      case Ok((name, description)) => Ok(Metadata(name, description))
      case Err(f) => Err(f)
  }

  const ApiVersion: string := "v1"
  const Kind: string := "ExperimentSet"

  datatype ExperimentSet = ExperimentSet(apiVersion: string, kind: string, metadata: Metadata, spec: Spec)

  /** `ExperimentSet`: `apiVersion` and `kind` must be exactly "v1" and
      "ExperimentSet"; keys the schema does not declare are ignored. */
  function ParseExperimentSet(doc: Value): (r: Parsed<ExperimentSet>)
    ensures r.Ok? ==> r.value.apiVersion == ApiVersion && r.value.kind == Kind
    ensures r.Ok? <==> && doc.Dict?
                       && Lookup(doc.entries, "apiVersion") == Some(Str(ApiVersion))
                       && Lookup(doc.entries, "kind") == Some(Str(Kind))
                       && Accepts(doc.entries, "metadata", ParseMetadata)
                       && Accepts(doc.entries, "spec", ParseSpec)
    ensures r.Ok? ==> && doc.Dict?
                      && ParseMetadata(GetOrNone(doc.entries, "metadata")) == Ok(r.value.metadata)
                      && ParseSpec(GetOrNone(doc.entries, "spec")) == Ok(r.value.spec)
  {
    if !doc.Dict? then Err(Invalid([Issue([], ModelType)]))
    else
      var d := doc.entries;
      match Join(ApiVersionField(d), Join(Required(d, "kind", (x: Value) => AsLiteral(x, Kind)), SetBody(d)))
      case Ok((apiVersion, (kind, (metadata, spec)))) => Ok(ExperimentSet(apiVersion, kind, metadata, spec))
      case Err(f) => Err(f)
  }

  function ApiVersionField(d: seq<(string, Value)>): Parsed<string>
  {
    Required(d, "apiVersion", (x: Value) => AsLiteral(x, ApiVersion))
  }

  function SetBody(d: seq<(string, Value)>): Parsed<(Metadata, Spec)>
  {
    Join(Required(d, "metadata", ParseMetadata), Required(d, "spec", ParseSpec))
  }

  /** Any other `apiVersion` string is rejected, and it is the first issue
      reported, located at `apiVersion` and naming the pattern `^v1$`, unless
      a harness further down raised. */
  lemma ApiVersionMismatchReported(doc: Value, version: string)
    requires doc.Dict? && Lookup(doc.entries, "apiVersion") == Some(Str(version)) && version != ApiVersion
    ensures ParseExperimentSet(doc).Err?
    ensures !Aborted(ParseExperimentSet(doc)) ==>
              |IssuesOf(ParseExperimentSet(doc))| > 0
              && IssuesOf(ParseExperimentSet(doc))[0] == Issue([Field("apiVersion")], PatternMismatch(Anchored(ApiVersion)))
  {
    var a := ApiVersionField(doc.entries);
    var inner := AsLiteral(Str(version), ApiVersion);
    assert inner == Err(Invalid([Issue([], PatternMismatch(Anchored(ApiVersion)))]));
    assert [Field("apiVersion")] + [] == [Field("apiVersion")];
    assert a == At(Field("apiVersion"), inner);
    assert IssuesOf(a) == [Issue([Field("apiVersion")], PatternMismatch(Anchored(ApiVersion)))];
  }

  /** Likewise any other `kind` string is rejected. */
  lemma KindMismatchRejected(doc: Value, kind: string)
    requires doc.Dict? && Lookup(doc.entries, "kind") == Some(Str(kind)) && kind != Kind
    ensures ParseExperimentSet(doc).Err?
  {
  }
}
