/**
  Discovery of order number generator plugins: every definition must
  carry a non-empty `id` and `label`.
*/
module OrderNumberGenerators {
  import opened Php

  datatype Result<T> = Success(value: T) | Failure(error: string)

  const RequiredProperties: seq<string> := ["id", "label"]

  /** The first of `properties` that the definition leaves empty (in PHP's `empty()` sense). */
  function FirstMissing(definition: map<string, Value>, properties: seq<string>): (missing: Option<string>)
    ensures missing.None? <==> forall i :: 0 <= i < |properties| ==> !Empty(Lookup(definition, properties[i]))
    ensures missing.Some? ==>
      exists i :: 0 <= i < |properties| && properties[i] == missing.value &&
        Empty(Lookup(definition, properties[i])) &&
        forall j :: 0 <= j < i ==> !Empty(Lookup(definition, properties[j]))
  {
    if |properties| == 0 then None
    else if Empty(Lookup(definition, properties[0])) then Some(properties[0])
    else
      var rest := FirstMissing(definition, properties[1..]);
      assert forall i :: 1 <= i < |properties| ==> properties[i] == properties[1..][i - 1];
      rest
  }

  function MissingPropertyMessage(pluginId: string, property: string): string {
    "The order number generator " + pluginId + " must define the " + property + " property."
  }

  /**
    Processes a discovered definition: the generic processing `parent`
    first, then the check that `id` and then `label` are set, failing on
    the first that is not.
  */
  function ProcessDefinition(definition: map<string, Value>, pluginId: string,
                             parent: map<string, Value> -> map<string, Value>): Result<map<string, Value>>
  {
    var processed := parent(definition);
    match FirstMissing(processed, RequiredProperties)
    case Some(property) => Failure(MissingPropertyMessage(pluginId, property))
    case None => Success(processed)
  }

  /**
    A definition passes exactly when, after the generic processing, both
    `id` and `label` are non-empty, and it then passes unchanged; the
    message of a failure names `id` whenever `id` is empty, and `label`
    only when `id` is set.
  */
  lemma ProcessDefinitionOutcome(definition: map<string, Value>, pluginId: string,
                                 parent: map<string, Value> -> map<string, Value>)
    ensures var processed := parent(definition);
      var r := ProcessDefinition(definition, pluginId, parent);
      (r.Success? <==> !Empty(Lookup(processed, "id")) && !Empty(Lookup(processed, "label"))) &&
      (r.Success? ==> r.value == processed) &&
      (Empty(Lookup(processed, "id")) ==> r == Failure(MissingPropertyMessage(pluginId, "id"))) &&
      (!Empty(Lookup(processed, "id")) && Empty(Lookup(processed, "label")) ==>
        r == Failure(MissingPropertyMessage(pluginId, "label")))
  {
    var processed := parent(definition);
    var missing := FirstMissing(processed, RequiredProperties);
    if missing.Some? {
      var i :| 0 <= i < 2 && RequiredProperties[i] == missing.value &&
        Empty(Lookup(processed, RequiredProperties[i])) &&
        forall j :: 0 <= j < i ==> !Empty(Lookup(processed, RequiredProperties[j]));
      assert i == 0 ==> missing.value == "id";
      assert i == 1 ==> missing.value == "label" && !Empty(Lookup(processed, "id"));
    } else {
      assert !Empty(Lookup(processed, RequiredProperties[0])) && !Empty(Lookup(processed, RequiredProperties[1]));
    }
  }

  /** The check sees the processed definition: a label the generic processing fills in is enough. */
  lemma ParentRunsFirst(definition: map<string, Value>, pluginId: string, title: Value)
    requires "id" in definition && !Empty(definition["id"]) && !Empty(title)
    ensures ProcessDefinition(definition, pluginId, d => d["label" := title]).Success?
  {
    ProcessDefinitionOutcome(definition, pluginId, d => d["label" := title]);
  }
}
