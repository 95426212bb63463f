/**
  One payment method plugin per off-site payment method configuration
  entity (the deriver), and the way back from such a plugin's id to its
  configuration entity (the operations provider).
*/
module OffsiteDeriver {
  import opened Php
  import OffsiteController
  import LiqpayMethod
  import LiqpayConfiguration

  /**
    A payment method configuration entity as the deriver sees it:
    `configuration` is what its configuration plugin reports, and
    `offsite` whether that plugin is an off-site configuration plugin.
  */
  datatype ConfigEntity = ConfigEntity(
    id: string,
    pluginId: string,
    status: bool,
    title: Value,
    offsite: bool,
    configuration: map<string, Value>)

  /** The entity yields a derivative of the base plugin. */
  predicate Derives(baseId: string, e: ConfigEntity) {
    e.pluginId == baseId && e.offsite
  }

  /**
    The derivative definition for an entity: its own id, status and label
    first, then its plugin configuration, then the base definition, each
    only filling keys the earlier ones lack.
  */
  function Derivative(baseId: string, baseDefinition: map<string, Value>, e: ConfigEntity): (d: map<string, Value>)
    ensures d.Keys == {"id", "active", "label"} + e.configuration.Keys + baseDefinition.Keys
    ensures d["id"] == Str(OffsiteController.PluginInstanceId(baseId, e.id))
    ensures d["active"] == Bool(e.status) && d["label"] == e.title
    ensures forall k :: k in e.configuration && k !in {"id", "active", "label"} ==> d[k] == e.configuration[k]
    ensures forall k :: k in baseDefinition && k !in e.configuration && k !in {"id", "active", "label"} ==> d[k] == baseDefinition[k]
  {
    Union(Union(map["id" := Str(baseId + ":" + e.id), "active" := Bool(e.status), "label" := e.title], e.configuration), baseDefinition)
  }

  /** The derivatives after visiting `entities` in order, starting from `derivatives`. */
  function Derived(derivatives: map<string, map<string, Value>>, baseId: string, baseDefinition: map<string, Value>,
                   entities: seq<ConfigEntity>): map<string, map<string, Value>>
    decreases |entities|
  {
    if |entities| == 0 then derivatives
    else
      var before := Derived(derivatives, baseId, baseDefinition, entities[..|entities| - 1]);
      var e := entities[|entities| - 1];
      if Derives(baseId, e) then before[e.id := Derivative(baseId, baseDefinition, e)] else before
  }

  /** The ids of the entities that yield derivatives. */
  function DerivedIds(baseId: string, entities: seq<ConfigEntity>): set<string> {
    set i | 0 <= i < |entities| && Derives(baseId, entities[i]) :: entities[i].id
  }

  /**
    Exactly the earlier derivatives and the entities of the base plugin
    with an off-site configuration plugin are derived; nothing is removed.
  */
  lemma {:induction false} DerivedKeys(derivatives: map<string, map<string, Value>>, baseId: string,
                                       baseDefinition: map<string, Value>, entities: seq<ConfigEntity>)
    ensures Derived(derivatives, baseId, baseDefinition, entities).Keys == derivatives.Keys + DerivedIds(baseId, entities)
    decreases |entities|
  {
    if |entities| > 0 {
      var prefix := entities[..|entities| - 1];
      DerivedKeys(derivatives, baseId, baseDefinition, prefix);
      var e := entities[|entities| - 1];
      assert forall i :: 0 <= i < |prefix| ==> prefix[i] == entities[i];
      if Derives(baseId, e) {
        assert DerivedIds(baseId, entities) == DerivedIds(baseId, prefix) + {e.id};
      } else {
        assert DerivedIds(baseId, entities) == DerivedIds(baseId, prefix);
      }
    }
  }

  /** Entity ids are unique, as they are in configuration storage. */
  predicate UniqueIds(entities: seq<ConfigEntity>) {
    forall i, j :: 0 <= i < j < |entities| ==> entities[i].id != entities[j].id
  }

  /** Each entity that yields a derivative ends up with its own definition. */
  lemma {:induction false} DerivedEntry(derivatives: map<string, map<string, Value>>, baseId: string,
                                        baseDefinition: map<string, Value>, entities: seq<ConfigEntity>, i: int)
    requires UniqueIds(entities) && 0 <= i < |entities| && Derives(baseId, entities[i])
    ensures var r := Derived(derivatives, baseId, baseDefinition, entities);
      entities[i].id in r && r[entities[i].id] == Derivative(baseId, baseDefinition, entities[i])
    decreases |entities|
  {
    var prefix := entities[..|entities| - 1];
    if i < |entities| - 1 {
      assert UniqueIds(prefix);
      DerivedEntry(derivatives, baseId, baseDefinition, prefix, i);
      assert entities[|entities| - 1].id != entities[i].id;
    }
  }

  /** An entity id that no entity derives keeps its earlier definition, if any. */
  lemma {:induction false} DerivedKeepsOthers(derivatives: map<string, map<string, Value>>, baseId: string,
                                              baseDefinition: map<string, Value>, entities: seq<ConfigEntity>, id: string)
    requires id in derivatives && id !in DerivedIds(baseId, entities)
    ensures var r := Derived(derivatives, baseId, baseDefinition, entities);
      id in r && r[id] == derivatives[id]
    decreases |entities|
  {
    if |entities| > 0 {
      var prefix := entities[..|entities| - 1];
      assert forall i :: 0 <= i < |prefix| ==> prefix[i] == entities[i];
      assert id !in DerivedIds(baseId, prefix);
      DerivedKeepsOthers(derivatives, baseId, baseDefinition, prefix, id);
      assert Derives(baseId, entities[|entities| - 1]) ==> entities[|entities| - 1].id != id;
    }
  }

  /** The deriver; its derivatives persist between calls. */
  class Deriver {
    var derivatives: map<string, map<string, Value>>

    constructor ()
      ensures derivatives == map[]
    {
      derivatives := map[];
    }

    /** Visits the loaded entities in order, adding a derivative for each that belongs to the base plugin. */
    method GetDerivativeDefinitions(baseDefinition: map<string, Value>, entities: seq<ConfigEntity>)
      returns (r: map<string, map<string, Value>>)
      requires "id" in baseDefinition && baseDefinition["id"].Str?
      modifies this`derivatives
      ensures derivatives == Derived(old(derivatives), baseDefinition["id"].s, baseDefinition, entities)
      ensures r == derivatives
    {
      var baseId := baseDefinition["id"].s;
      var i := 0;
      while i < |entities|
        invariant 0 <= i <= |entities|
        invariant derivatives == Derived(old(derivatives), baseId, baseDefinition, entities[..i])
      {
        var e := entities[i];
        assert entities[..i + 1][..i] == entities[..i];
        if e.pluginId != baseId {
          i := i + 1;
          continue;
        }
        if !e.offsite {
          i := i + 1;
          continue;
        }
        derivatives := derivatives[e.id := Derivative(baseId, baseDefinition, e)];
        i := i + 1;
      }
      assert entities[..|entities|] == entities;
      return derivatives;
    }
  }

  /** The configuration entity id in a derived plugin id `<base id>:<entity id>`; none when there is no second part. */
  function EntityIdOf(pluginId: string): (id: Option<string>)
    ensures id.Some? <==> ':' in pluginId
    ensures id.Some? ==> ':' !in id.value
  {
    var parts := Explode(':', pluginId);
    ExplodeCountsSeparators(pluginId);
    if |parts| >= 2 then Some(parts[1]) else None
  }

  /** `explode` yields a second part exactly when the separator occurs. */
  lemma {:induction false} ExplodeCountsSeparators(s: string)
    ensures |Explode(':', s)| >= 2 <==> ':' in s
    decreases |s|
  {
    if |s| > 0 {
      ExplodeCountsSeparators(s[1..]);
      assert s == [s[0]] + s[1..];
    }
  }

  /** The configuration entity the operations provider loads for a plugin id. */
  function PaymentMethodConfiguration(storage: map<string, ConfigEntity>, pluginId: string): (e: Option<ConfigEntity>)
    ensures e.Some? <==> EntityIdOf(pluginId).Some? && EntityIdOf(pluginId).value in storage
    ensures e.Some? ==> e.value == storage[EntityIdOf(pluginId).value]
  {
    match EntityIdOf(pluginId)
    case None => None
    case Some(id) => if id in storage then Some(storage[id]) else None
  }

  /**
    The operations provider finds the entity each derivative came from:
    the derivative's id splits back into the base id and the entity id.
  */
  lemma DerivativeIdRoundTrip(baseId: string, baseDefinition: map<string, Value>, e: ConfigEntity, storage: map<string, ConfigEntity>)
    requires ':' !in baseId && ':' !in e.id
    requires e.id in storage
    ensures EntityIdOf(Derivative(baseId, baseDefinition, e)["id"].s) == Some(e.id)
    ensures PaymentMethodConfiguration(storage, Derivative(baseId, baseDefinition, e)["id"].s) == Some(storage[e.id])
  {
    ExplodeJoined(':', baseId, e.id);
  }

  /** Only the second part counts: a third part is dropped and the first is not checked. */
  lemma EntityIdIgnoresOtherParts(a: string, b: string, c: string)
    requires ':' !in a && ':' !in b && ':' !in c
    ensures EntityIdOf(a + ":" + b + ":" + c) == Some(b)
  {
    ExplodeAfterFirst(':', a, b + ":" + c);
    ExplodeAfterFirst(':', b, c);
    assert a + ":" + b + ":" + c == a + [':'] + (b + [':'] + c);
  }

  /**
    A derived Liqpay method reads its gateway settings from the `config`
    section its configuration entity stored: the method's getters return
    what the configuration's setters wrote.
  */
  lemma DerivedMethodReadsStoredSettings(baseId: string, baseDefinition: map<string, Value>, e: ConfigEntity, key: string)
    requires "config" in e.configuration
    ensures LiqpayMethod.Config(Derivative(baseId, baseDefinition, e), key) == LiqpayConfiguration.ConfigEntry(e.configuration, key)
  {
    var d := Derivative(baseId, baseDefinition, e);
    assert d["config"] == e.configuration["config"];
  }

  /**
    A Liqpay configuration entity saved with the default settings yields a
    method that is not configured: the default action URL is empty.
  */
  lemma DefaultLiqpayMethodUnconfigured(baseId: string, baseDefinition: map<string, Value>, e: ConfigEntity,
                                        supplied: map<string, Value>, parentDefaults: map<string, Value>)
    requires "config" !in supplied && "config" !in parentDefaults
    requires e.configuration == Union(supplied, LiqpayConfiguration.LiqpayDefaults(parentDefaults))
    ensures Empty(LiqpayMethod.Config(Derivative(baseId, baseDefinition, e), "action_url"))
  {
    DerivedMethodReadsStoredSettings(baseId, baseDefinition, e, "action_url");
    assert e.configuration["config"] == Arr(LiqpayConfiguration.LiqpayConfig);
  }
}
