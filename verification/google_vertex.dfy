/** The option checks of the GoogleVertexClient constructor and the options it forwards to GoogleClient. */
module GoogleVertex {
  import opened Values

  /** Client options: a plain object from property names to values. */
  type Options = map<string, JsValue>

  /** The three configuration errors, one per required field. */
  datatype ConfigError = VertexaiRequired | ProjectRequired | LocationRequired

  /** `options?.[key]`: `undefined` when the options or the property are missing. */
  function Field(options: Option<Options>, key: string): JsValue {
    if options.Some? && key in options.value then options.value[key] else Undefined
  }

  /** The required fields in the order the constructor tests them, each with the error it raises. */
  const RequiredFields: seq<(string, ConfigError)> :=
    [("vertexai", VertexaiRequired), ("project", ProjectRequired), ("location", LocationRequired)]

  /** The constructor: checks `vertexai`, `project` and `location` in that order, then forwards
      the options with `vertexai` forced to `true`. */
  function NewVertexOptions(options: Option<Options>): (r: Result<Options, ConfigError>)
    ensures r.Success? <==>
      Truthy(Field(options, "vertexai")) && Truthy(Field(options, "project")) && Truthy(Field(options, "location"))
    ensures !Truthy(Field(options, "vertexai")) ==> r == Failure(VertexaiRequired)
    ensures Truthy(Field(options, "vertexai")) && !Truthy(Field(options, "project")) ==> r == Failure(ProjectRequired)
    ensures (Truthy(Field(options, "vertexai")) && Truthy(Field(options, "project")) &&
             !Truthy(Field(options, "location"))) ==> r == Failure(LocationRequired)
    ensures r.Success? ==> options.Some? && r.value.Keys == options.value.Keys + {"vertexai"}
    ensures r.Success? ==> r.value["vertexai"] == Bool(true)
    ensures r.Success? ==> forall k :: k in options.value && k != "vertexai" ==> r.value[k] == options.value[k]
  {
    if !Truthy(Field(options, "vertexai")) then Failure(VertexaiRequired)
    else if !Truthy(Field(options, "project")) then Failure(ProjectRequired)
    else if !Truthy(Field(options, "location")) then Failure(LocationRequired)
    else Success(options.value["vertexai" := Bool(true)])
  }

  /** The reported error names the first required field, in `RequiredFields` order, that is
      missing or falsy; every field before it is present. */
  lemma {:induction false} FirstMissingFieldReported(options: Option<Options>)
    ensures NewVertexOptions(options).Failure? <==>
      exists i :: 0 <= i < |RequiredFields| && !Truthy(Field(options, RequiredFields[i].0))
    ensures NewVertexOptions(options).Failure? ==>
      exists i :: 0 <= i < |RequiredFields|
        && !Truthy(Field(options, RequiredFields[i].0))
        && (forall j :: 0 <= j < i ==> Truthy(Field(options, RequiredFields[j].0)))
        && NewVertexOptions(options).error == RequiredFields[i].1
  {
    var r := NewVertexOptions(options);
    if !Truthy(Field(options, "vertexai")) {
      assert !Truthy(Field(options, RequiredFields[0].0));
    } else if !Truthy(Field(options, "project")) {
      assert Truthy(Field(options, RequiredFields[0].0));
      assert !Truthy(Field(options, RequiredFields[1].0));
    } else if !Truthy(Field(options, "location")) {
      assert Truthy(Field(options, RequiredFields[0].0)) && Truthy(Field(options, RequiredFields[1].0));
      assert !Truthy(Field(options, RequiredFields[2].0));
    } else {
      forall i | 0 <= i < |RequiredFields|
        ensures Truthy(Field(options, RequiredFields[i].0))
      {
      }
    }
  }

  /** A missing project with the vertex flag set fails before the location is looked at. */
  lemma MissingProjectIsConfigurationError(location: JsValue)
    ensures NewVertexOptions(Some(map["vertexai" := Bool(true), "location" := location]))
              == Failure(ProjectRequired)
    ensures NewVertexOptions(Some(map["vertexai" := Bool(true), "project" := Str(""), "location" := location]))
              == Failure(ProjectRequired)
  {
  }
}
