/**
  The menu links taxonomy menu provides for terms: only a few definition
  keys may be overridden, and overrides are saved to the static overrides
  store on request.
*/
module TaxonomyMenuLink {
  import opened Php

  /** The definition keys a taxonomy menu link lets callers override. */
  const OverrideAllowed: set<string> := {"weight", "expanded", "enabled"}

  /** `array_intersect_key($values, $this->overrideAllowed)`: the allowed part of the new values. */
  function AllowedOverrides(newValues: map<string, Value>): (o: map<string, Value>)
    ensures o.Keys == newValues.Keys * OverrideAllowed
    ensures forall k :: k in o ==> o[k] == newValues[k]
  {
    map k | k in newValues && k in OverrideAllowed :: newValues[k]
  }

  /** The definition after an update: allowed new values replace, everything else stays. */
  function UpdatedDefinition(definition: map<string, Value>, newValues: map<string, Value>): map<string, Value> {
    Union(AllowedOverrides(newValues), definition)
  }

  /**
    Exactly `weight`, `expanded` and `enabled` are taken from the new
    values; every other key of the definition keeps its value, and no new
    key other than those three appears.
  */
  lemma UpdatedDefinitionWhitelist(definition: map<string, Value>, newValues: map<string, Value>)
    ensures var d := UpdatedDefinition(definition, newValues);
      d.Keys == definition.Keys + (newValues.Keys * OverrideAllowed) &&
      (forall k :: k in newValues && k in OverrideAllowed ==> d[k] == newValues[k]) &&
      (forall k :: k in definition && (k !in newValues || k !in OverrideAllowed) ==> d[k] == definition[k])
  {
  }

  /** Applying the same values twice gives the same definition as applying them once. */
  lemma UpdatedDefinitionIdempotent(definition: map<string, Value>, newValues: map<string, Value>)
    ensures UpdatedDefinition(UpdatedDefinition(definition, newValues), newValues) == UpdatedDefinition(definition, newValues)
  {
    var once := UpdatedDefinition(definition, newValues);
    var twice := UpdatedDefinition(once, newValues);
    assert twice.Keys == once.Keys;
    assert forall k :: k in twice ==> twice[k] == once[k];
  }

  /** Values for keys outside the whitelist, such as a new title or parent, change nothing. */
  lemma IgnoresOtherKeys(definition: map<string, Value>, newValues: map<string, Value>)
    requires newValues.Keys !! OverrideAllowed
    ensures UpdatedDefinition(definition, newValues) == definition
  {
    assert AllowedOverrides(newValues) == map[];
  }

  /** A taxonomy menu link plugin; `savedOverrides` records what the static overrides store was asked to save. */
  class MenuLink {
    const pluginId: string
    var pluginDefinition: map<string, Value>
    var savedOverrides: seq<(string, map<string, Value>)>

    constructor (pluginId: string, pluginDefinition: map<string, Value>)
      ensures this.pluginId == pluginId && this.pluginDefinition == pluginDefinition && savedOverrides == []
    {
      this.pluginId := pluginId;
      this.pluginDefinition := pluginDefinition;
      savedOverrides := [];
    }

    /**
      Merges the allowed new values into the definition and returns it;
      when persisting, the plugin id and the whole updated definition are
      saved as an override, and otherwise nothing is saved.
    */
    method UpdateLink(newValues: map<string, Value>, persist: bool) returns (r: map<string, Value>)
      modifies this`pluginDefinition, this`savedOverrides
      ensures pluginDefinition == UpdatedDefinition(old(pluginDefinition), newValues)
      ensures r == pluginDefinition
      ensures savedOverrides == old(savedOverrides) + (if persist then [(pluginId, pluginDefinition)] else [])
    {
      var overrides := AllowedOverrides(newValues);
      pluginDefinition := Union(overrides, pluginDefinition);
      if persist {
        // The menu name recorded here goes nowhere: only the definition is saved.
        overrides := overrides["menu_name" := Lookup(pluginDefinition, "menu_name")];
        savedOverrides := savedOverrides + [(pluginId, pluginDefinition)];
      }
      return pluginDefinition;
    }

    /** Taxonomy menu links may always be deleted. */
    function IsDeletable(): (deletable: bool)
      ensures deletable
    {
      true
    }

    /** Deleting a link needs no clean-up of its own. */
    method DeleteLink()
      ensures unchanged(this)
    {
    }
  }
}
