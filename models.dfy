/** The model configuration of the older validation path: a dataclass whose
    `__post_init__` rejects a falsy provider, name or system prompt, checked
    in that order, reporting only the first failure. */
module Models {
  import opened Python

  /** The fields hold whatever the caller passed; the dataclass annotations
      (`str`) are not enforced at run time. */
  datatype Model = Model(provider: Value, name: Value, systemPrompt: Value)

  /** The message of the error raised for an empty field. */
  function EmptyMessage(key: string): string
  {
    "\"" + key + "\" key cannot be empty"
  }

  /** `Model(provider, name, system_prompt)`: the dataclass constructor
      followed by `__post_init__`. */
  function NewModel(provider: Value, name: Value, systemPrompt: Value): (r: Result<Model, Exception>)
    ensures r.Ok? <==> Truthy(provider) && Truthy(name) && Truthy(systemPrompt)
    ensures r.Ok? ==> r.value.provider == provider && r.value.name == name && r.value.systemPrompt == systemPrompt
    ensures r.Err? ==> r.error.ValueError?
  {
    if !Truthy(provider) then Err(ValueError(EmptyMessage("provider")))
    else if !Truthy(name) then Err(ValueError(EmptyMessage("name")))
    else if !Truthy(systemPrompt) then Err(ValueError(EmptyMessage("system_prompt")))
    else Ok(Model(provider, name, systemPrompt))
  }

  /** The fields in the order `__post_init__` inspects them, with the key each
      one is reported under. */
  function Fields(provider: Value, name: Value, systemPrompt: Value): seq<(string, Value)>
  {
    [("provider", provider), ("name", name), ("system_prompt", systemPrompt)]
  }

  /** The key of the first falsy field, if any: a reference definition of the
      guard order, independent of `NewModel`. */
  function FirstEmpty(fields: seq<(string, Value)>): (r: Option<string>)
    ensures r.None? <==> forall i :: 0 <= i < |fields| ==> Truthy(fields[i].1)
    ensures r.Some? ==> exists i :: 0 <= i < |fields| && fields[i].0 == r.value && !Truthy(fields[i].1)
                          && forall j :: 0 <= j < i ==> Truthy(fields[j].1)
  {
    if fields == [] then None
    else if !Truthy(fields[0].1) then Some(fields[0].0)
    else
      var r := FirstEmpty(fields[1..]);
      assert forall i :: 1 <= i < |fields| ==> fields[i] == fields[1..][i - 1];
      r
  }

  /** Construction fails exactly when some field is falsy, and the error
      names the first falsy field in the order provider, name,
      system_prompt. */
  lemma FirstFailingFieldReported(provider: Value, name: Value, systemPrompt: Value)
    ensures var first := FirstEmpty(Fields(provider, name, systemPrompt));
            && (NewModel(provider, name, systemPrompt).Ok? <==> first.None?)
            && (first.Some? ==>
                  NewModel(provider, name, systemPrompt)
                  == Err(ValueError(EmptyMessage(first.value))))
  {
    var fs := Fields(provider, name, systemPrompt);
    assert fs[1..] == [("name", name), ("system_prompt", systemPrompt)];
    assert fs[1..][1..] == [("system_prompt", systemPrompt)];
    assert fs[1..][1..][1..] == [];
    assert FirstEmpty(fs[1..][1..][1..]) == None;
    assert FirstEmpty(fs[1..][1..]) == if Truthy(systemPrompt) then None else Some("system_prompt");
    assert FirstEmpty(fs[1..]) == if !Truthy(name) then Some("name") else FirstEmpty(fs[1..][1..]);
  }

  /** Once the provider is falsy, the later fields are never looked at. */
  lemma LaterFieldsUnchecked(provider: Value, name: Value, systemPrompt: Value, name': Value, systemPrompt': Value)
    requires !Truthy(provider)
    ensures NewModel(provider, name, systemPrompt) == NewModel(provider, name', systemPrompt')
                                                   == Err(ValueError(EmptyMessage("provider")))
  {
  }
}
