/**
 * Client runs of the registry, built only from the contracts of the twin and
 * registry operations: the life cycle of one twin, and the lookups of the
 * registry's find test.
 */
module Scenarios {
  import opened Common
  import opened FeatureStates
  import opened DigitalTwins
  import opened TwinRegistry

  /** Makes the given property edits on a feature, in order, through its own methods. */
  method EditProperties(fs: FeatureState, edits: seq<PropertyEdit>, now: Time)
    modifies fs
    ensures fs.properties == Replay(old(fs.properties), edits)
    ensures fs.desiredProps == old(fs.desiredProps)
  {
    for i := 0 to |edits|
      invariant fs.properties == Replay(old(fs.properties), edits[..i])
      invariant fs.desiredProps == old(fs.desiredProps)
    {
      assert edits[..i + 1][..i] == edits[..i];
      match edits[i]
      case Put(k, v) => fs.SetProperty(k, v, now);
      case Drop(k) => fs.RemoveProperty(k, now);
    }
    assert edits[..|edits|] == edits;
  }

  /**
   * On a new feature, after any series of edits, the copy of all properties
   * holds one entry per key that was set and not removed since.
   */
  method PropertyCount(edits: seq<PropertyEdit>) returns (props: map<string, Value>)
    ensures props.Keys == LiveKeys(edits)
    ensures |props| == |LiveKeys(edits)|
  {
    var fs := new FeatureState(0);
    EditProperties(fs, edits, 1);
    props := fs.GetAllProperties();
    ReplayKeys(edits);
    ReplaySize(edits);
  }

  /**
   * Set three properties, copy them all, remove one and copy again: three
   * entries, then two, and the removed one is gone.
   */
  method ThreeProperties(power: Value, brightness: Value, color: Value)
    returns (before: map<string, Value>, removed: Option<Value>, after: map<string, Value>)
    ensures |before| == 3 && Lookup(before, "brightness") == Some(brightness)
    ensures removed == None
    ensures |after| == 2 && after.Keys == {"power", "color"}
  {
    var fs := new FeatureState(0);
    fs.SetProperty("power", power, 1);
    fs.SetProperty("brightness", brightness, 2);
    fs.SetProperty("color", color, 3);
    before := fs.GetAllProperties();
    assert before.Keys == {"power", "brightness", "color"};
    fs.RemoveProperty("brightness", 4);
    removed := fs.GetProperty("brightness");
    after := fs.GetAllProperties();
    assert after.Keys == {"power", "color"};
  }

  /**
   * Create a twin with an attribute, read it back, change it and write it
   * back, delete it: afterwards the twin is not found and the registry is
   * empty again.
   */
  method Lifecycle(livingRoom: Value, warm: Value) returns (
    created: Result<Twin, RegistryError>,
    updated: Result<Twin, RegistryError>,
    afterDelete: Result<Twin, RegistryError>,
    remaining: seq<Twin>)
    ensures created.Ok? && created.value.id == "test-twin-1"
    ensures Lookup(created.value.attributes, "location") == Some(livingRoom)
    ensures updated.Ok? && Lookup(updated.value.attributes, "temperature") == Some(warm)
    ensures afterDelete == Err(TwinNotFound)
    ensures remaining == []
  {
    var reg := new Registry();
    var dt := new DigitalTwin("test-twin-1", "sensor", 0);
    dt.SetAttribute("location", livingRoom, 1);
    var err := reg.Create(dt.Snapshot());
    created := reg.Get("test-twin-1");
    dt.SetAttribute("temperature", warm, 2);
    err := reg.Update(dt.Snapshot());
    updated := reg.Get("test-twin-1");
    err := reg.Delete("test-twin-1");
    afterDelete := reg.Get("test-twin-1");
    remaining := reg.List();
  }

  /** A new twin with one "location" attribute and, optionally, one feature. */
  method LocatedTwin(id: string, twinType: string, location: Value, featureId: string, feature: Option<Feature>)
    returns (t: Twin)
    ensures t.id == id && t.attributes == map["location" := location]
    ensures feature.Some? ==> t.features == map[featureId := feature.value]
    ensures feature.None? ==> t.features == map[]
  {
    var dt := new DigitalTwin(id, twinType, 0);
    dt.SetAttribute("location", location, 0);
    if feature.Some? {
      var err := dt.AddFeature(featureId, feature.value, 0);
    }
    t := dt.Snapshot();
  }

  /** A new feature holding one "temperature" property. */
  method TemperatureFeature(reading: Value) returns (f: Feature)
    ensures f.properties == map["temperature" := reading] && f.desiredProps == map[]
  {
    var fs := new FeatureState(0);
    fs.SetProperty("temperature", reading, 0);
    f := fs.Snapshot();
  }

  /** A registry holding the three given twins, created one after the other. */
  method RegistryOf(t1: Twin, t2: Twin, t3: Twin) returns (reg: Registry)
    requires t1.id != t2.id && t1.id != t3.id && t2.id != t3.id
    ensures fresh(reg) && reg.Valid()
    ensures reg.twins == map[t1.id := t1, t2.id := t2, t3.id := t3]
  {
    reg := new Registry();
    var e := reg.Create(t1);
    e := reg.Create(t2);
    e := reg.Create(t3);
  }

  /** The registry of the find test: three twins, the first two with a "temperature" feature. */
  method FindTestRegistry(id1: string, id2: string, id3: string,
                          livingRoom: Value, bedroom: Value, kitchen: Value, reading: Value)
    returns (reg: Registry, t1: Twin, t2: Twin, t3: Twin)
    requires id1 != id2 && id1 != id3 && id2 != id3
    ensures fresh(reg) && reg.Valid()
    ensures reg.twins == map[id1 := t1, id2 := t2, id3 := t3]
    ensures t1.id == id1 && t2.id == id2 && t3.id == id3
    ensures t1.attributes == map["location" := livingRoom] && "temperature" in t1.features
    ensures t2.attributes == map["location" := bedroom] && "temperature" in t2.features
    ensures t3.attributes == map["location" := kitchen] && t3.features == map[]
  {
    var f := TemperatureFeature(reading);
    t1 := LocatedTwin(id1, "sensor", livingRoom, "temperature", Some(f));
    t2 := LocatedTwin(id2, "sensor", bedroom, "temperature", Some(f));
    t3 := LocatedTwin(id3, "actuator", kitchen, "", None);
    reg := RegistryOf(t1, t2, t3);
  }

  /** In that registry, looking up the kitchen finds exactly the third twin. */
  method FindInKitchen(id1: string, id2: string, id3: string,
                       livingRoom: Value, bedroom: Value, kitchen: Value, reading: Value)
    returns (inKitchen: seq<Twin>)
    requires id1 != id2 && id1 != id3 && id2 != id3
    requires kitchen != livingRoom && kitchen != bedroom
    ensures |inKitchen| == 1 && inKitchen[0].id == id3
  {
    var reg, t1, t2, t3 := FindTestRegistry(id1, id2, id3, livingRoom, bedroom, kitchen, reading);
    assert reg.twins[id3] == t3;
    inKitchen := reg.FindByAttribute("location", kitchen);
    assert Ids(inKitchen) == {id3} by {
      assert t3 in reg.twins.Values;
      forall t | t in inKitchen ensures t == t3 {
        var id :| id in reg.twins && reg.twins[id] == t;
      }
    }
    DistinctIdsCount(inKitchen);
    assert inKitchen[0] in inKitchen;
  }

  /** In that registry, looking up the "temperature" feature finds exactly the first two twins. */
  method FindTemperature(id1: string, id2: string, id3: string,
                         livingRoom: Value, bedroom: Value, kitchen: Value, reading: Value)
    returns (withTemperature: seq<Twin>)
    requires id1 != id2 && id1 != id3 && id2 != id3
    ensures |withTemperature| == 2
    ensures forall t :: t in withTemperature ==> t.id == id1 || t.id == id2
    ensures Ids(withTemperature) == {id1, id2} && DistinctIds(withTemperature)
  {
    var reg, t1, t2, t3 := FindTestRegistry(id1, id2, id3, livingRoom, bedroom, kitchen, reading);
    assert reg.twins[id1] == t1 && reg.twins[id2] == t2;
    withTemperature := reg.FindByFeature("temperature");
    assert Ids(withTemperature) == {id1, id2} by {
      assert t1 in reg.twins.Values && t2 in reg.twins.Values;
      forall t | t in withTemperature ensures t == t1 || t == t2 {
        var id :| id in reg.twins && reg.twins[id] == t;
      }
    }
    DistinctIdsCount(withTemperature);
  }
}
