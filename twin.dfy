/**
 * A digital twin: an identified, typed entity with free-form attributes and
 * a map of named features.  `DigitalTwin` is the object its methods change in
 * place; `Twin` is its value, which is what the registry stores.
 */
module DigitalTwins {
  import opened Common
  import opened FeatureStates

  /** The error values of the twin package. */
  datatype TwinError = FeatureNotFound | FeatureAlreadyExists | PropertyNotFound | InvalidValue

  /** The value of a digital twin, as the registry holds it. */
  datatype Twin = Twin(
    id: string,
    twinType: string,
    definition: string,
    attributes: map<string, Value>,
    features: map<string, Feature>,
    createdAt: Time,
    modifiedAt: Time)

  class DigitalTwin {
    // The identifier and the creation time are set once, by the constructor.
    const id: string
    const createdAt: Time
    var twinType: string
    var definition: string
    var attributes: map<string, Value>
    var features: map<string, Feature>
    var modifiedAt: Time

    /** `NewDigitalTwin(id, twinType)` at time `now`. */
    constructor (id: string, twinType: string, now: Time)
      ensures this.id == id && this.twinType == twinType && definition == ""
      ensures attributes == map[] && features == map[]
      ensures createdAt == now && modifiedAt == createdAt
    {
      this.id := id;
      this.twinType := twinType;
      definition := "";
      attributes := map[];
      features := map[];
      createdAt := now;
      modifiedAt := now;
    }

    /** The value the registry stores for this twin. */
    function Snapshot(): Twin
      reads this
    {
      Twin(id, twinType, definition, attributes, features, createdAt, modifiedAt)
    }

    method SetDefinition(definition: string, now: Time)
      modifies this
      ensures GetDefinition() == definition
      ensures twinType == old(twinType) && attributes == old(attributes) && features == old(features)
      ensures modifiedAt == now
    {
      this.definition := definition;
      modifiedAt := now;
    }

    function GetDefinition(): (d: string)
      reads this
      ensures d == definition
    {
      definition
    }

    function GetAttribute(key: string): (r: Option<Value>)
      reads this
      ensures r.Some? <==> key in attributes
      ensures r.Some? ==> r.value == attributes[key]
    {
      Lookup(attributes, key)
    }

    method SetAttribute(key: string, value: Value, now: Time)
      modifies this
      ensures attributes == old(attributes)[key := value]
      ensures GetAttribute(key) == Some(value)
      ensures forall k :: k != key ==> GetAttribute(k) == old(GetAttribute(k))
      ensures twinType == old(twinType) && definition == old(definition) && features == old(features)
      ensures modifiedAt == now
    {
      attributes := attributes[key := value];
      modifiedAt := now;
    }

    method RemoveAttribute(key: string, now: Time)
      modifies this
      ensures attributes == old(attributes) - {key}
      ensures GetAttribute(key) == None
      ensures forall k :: k != key ==> GetAttribute(k) == old(GetAttribute(k))
      ensures twinType == old(twinType) && definition == old(definition) && features == old(features)
      ensures modifiedAt == now
    {
      attributes := attributes - {key};
      modifiedAt := now;
    }

    method GetAllAttributes() returns (r: map<string, Value>)
      ensures r == attributes
    {
      r := CopyMap(attributes);
    }

    /** A copy of the feature stored under `featureId`, if there is one. */
    function GetFeature(featureId: string): (r: Option<Feature>)
      reads this
      ensures r.Some? <==> featureId in features
      ensures r.Some? ==> r.value == features[featureId]
    {
      Lookup(features, featureId)
    }

    method AddFeature(featureId: string, feature: Feature, now: Time) returns (err: Outcome<TwinError>)
      modifies this
      ensures err == (if featureId in old(features) then Fail(FeatureAlreadyExists) else Pass)
      ensures err.Fail? ==> features == old(features) && modifiedAt == old(modifiedAt)
      ensures err.Pass? ==> features == old(features)[featureId := feature] && modifiedAt == now
      ensures twinType == old(twinType) && definition == old(definition) && attributes == old(attributes)
    {
      if featureId in features {
        return Fail(FeatureAlreadyExists);
      }
      features := features[featureId := feature];
      modifiedAt := now;
      return Pass;
    }

    method UpdateFeature(featureId: string, feature: Feature, now: Time) returns (err: Outcome<TwinError>)
      modifies this
      ensures err == (if featureId in old(features) then Pass else Fail(FeatureNotFound))
      ensures err.Fail? ==> features == old(features) && modifiedAt == old(modifiedAt)
      ensures err.Pass? ==> features == old(features)[featureId := feature] && modifiedAt == now
      ensures features.Keys == old(features).Keys
      ensures twinType == old(twinType) && definition == old(definition) && attributes == old(attributes)
    {
      if featureId !in features {
        return Fail(FeatureNotFound);
      }
      features := features[featureId := feature];
      modifiedAt := now;
      return Pass;
    }

    method RemoveFeature(featureId: string, now: Time) returns (err: Outcome<TwinError>)
      modifies this
      ensures err == (if featureId in old(features) then Pass else Fail(FeatureNotFound))
      ensures err.Fail? ==> features == old(features) && modifiedAt == old(modifiedAt)
      ensures err.Pass? ==> features == old(features) - {featureId} && modifiedAt == now
      ensures GetFeature(featureId) == None
      ensures forall f :: f != featureId ==> GetFeature(f) == old(GetFeature(f))
      ensures twinType == old(twinType) && definition == old(definition) && attributes == old(attributes)
    {
      if featureId !in features {
        return Fail(FeatureNotFound);
      }
      features := features - {featureId};
      modifiedAt := now;
      return Pass;
    }

    method GetAllFeatures() returns (r: map<string, Feature>)
      ensures r == features
    {
      r := CopyMap(features);
    }
  }
}
