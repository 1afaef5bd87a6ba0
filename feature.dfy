/**
 * A feature of a digital twin: a bag of current properties, a bag of desired
 * (target) properties, an ordered list of definition identifiers and the
 * time of the last change.  `FeatureState` is the object whose methods change
 * it in place; `Feature` is its value, which is what a twin stores and hands
 * out (Go copies the struct).
 */
module FeatureStates {
  import opened Common

  /** The value of a feature, as held in a twin's feature map. */
  datatype Feature = Feature(
    properties: map<string, Value>,
    desiredProps: map<string, Value>,
    definition: seq<string>,
    lastModified: Time)

  /** One change to a property bag: a `Set…Property` or a `Remove…Property`. */
  datatype PropertyEdit = Put(key: string, value: Value) | Drop(key: string)

  /** The effect of one edit on a property bag. */
  function Apply(m: map<string, Value>, e: PropertyEdit): map<string, Value>
  {
    match e
    case Put(k, v) => m[k := v]
    case Drop(k) => m - {k}
  }

  /** The property bag after a sequence of edits, applied in order. */
  function Replay(m: map<string, Value>, edits: seq<PropertyEdit>): map<string, Value>
    decreases |edits|
  {
    if edits == [] then m
    else Apply(Replay(m, edits[..|edits| - 1]), edits[|edits| - 1])
  }

  /** No edit after position `i` touches the key that edit `i` touches. */
  ghost predicate LastTouch(edits: seq<PropertyEdit>, i: int)
    requires 0 <= i < |edits|
  {
    forall j :: i < j < |edits| ==> edits[j].key != edits[i].key
  }

  /** The keys that were set and not removed afterwards. */
  ghost function LiveKeys(edits: seq<PropertyEdit>): set<string>
  {
    set i | 0 <= i < |edits| && edits[i].Put? && LastTouch(edits, i) :: edits[i].key
  }

  /** How the live keys change when one more edit is made. */
  lemma LiveKeysStep(init: seq<PropertyEdit>, e: PropertyEdit)
    ensures LiveKeys(init + [e]) ==
      if e.Put? then LiveKeys(init) + {e.key} else LiveKeys(init) - {e.key}
  {
    var s := init + [e];
    var n := |init|;
    forall k | k in LiveKeys(s)
      ensures k in (if e.Put? then LiveKeys(init) + {e.key} else LiveKeys(init) - {e.key})
    {
      var i :| 0 <= i < |s| && s[i].Put? && LastTouch(s, i) && s[i].key == k;
      if i < n {
        assert s[n] == e && s[n].key != k;
        assert init[i] == s[i];
        assert LastTouch(init, i) by {
          forall j | i < j < n ensures init[j].key != init[i].key {
            assert init[j] == s[j];
          }
        }
      }
    }
    forall k | k in (if e.Put? then LiveKeys(init) + {e.key} else LiveKeys(init) - {e.key})
      ensures k in LiveKeys(s)
    {
      if e.Put? && k == e.key {
        assert s[n] == e && LastTouch(s, n);
      } else {
        var i :| 0 <= i < n && init[i].Put? && LastTouch(init, i) && init[i].key == k;
        assert s[i] == init[i];
        assert LastTouch(s, i);
      }
    }
  }

  /** One edit adds its key to the bag's keys or takes it away. */
  lemma ApplyKeys(m: map<string, Value>, e: PropertyEdit)
    ensures Apply(m, e).Keys == if e.Put? then m.Keys + {e.key} else m.Keys - {e.key}
  {
  }

  /**
   * Starting from an empty bag, the stored keys are exactly the keys set and
   * not removed since.
   */
  lemma {:induction false} ReplayKeys(edits: seq<PropertyEdit>)
    ensures Replay(map[], edits).Keys == LiveKeys(edits)
    decreases |edits|
  {
    if edits == [] {
      assert LiveKeys(edits) == {};
    } else {
      var init, e := edits[..|edits| - 1], edits[|edits| - 1];
      assert edits == init + [e];
      ReplayKeys(init);
      LiveKeysStep(init, e);
      ApplyKeys(Replay(map[], init), e);
    }
  }

  /** So the size of the bag is the number of keys set and not removed since. */
  lemma ReplaySize(edits: seq<PropertyEdit>)
    ensures |Replay(map[], edits)| == |LiveKeys(edits)|
  {
    ReplayKeys(edits);
    assert |Replay(map[], edits)| == |Replay(map[], edits).Keys|;
  }

  class FeatureState {
    var properties: map<string, Value>
    var desiredProps: map<string, Value>
    var definition: array<string>
    var lastModified: Time

    /** `NewFeatureState`: empty bags, an empty definition, stamped `now`. */
    constructor (now: Time)
      ensures properties == map[] && desiredProps == map[]
      ensures fresh(definition) && definition[..] == []
      ensures lastModified == now
    {
      properties := map[];
      desiredProps := map[];
      definition := new string[0];
      lastModified := now;
    }

    /** The value a twin stores when it is given this feature (`*fs`). */
    function Snapshot(): Feature
      reads this, definition
    {
      Feature(properties, desiredProps, definition[..], lastModified)
    }

    function GetProperty(key: string): (r: Option<Value>)
      reads this
      ensures r.Some? <==> key in properties
      ensures r.Some? ==> r.value == properties[key]
    {
      Lookup(properties, key)
    }

    method SetProperty(key: string, value: Value, now: Time)
      modifies this
      ensures properties == Apply(old(properties), Put(key, value))
      ensures GetProperty(key) == Some(value)
      ensures forall k :: k != key ==> GetProperty(k) == old(GetProperty(k))
      ensures desiredProps == old(desiredProps) && definition == old(definition)
      ensures lastModified == now
    {
      properties := properties[key := value];
      lastModified := now;
    }

    method RemoveProperty(key: string, now: Time)
      modifies this
      ensures properties == Apply(old(properties), Drop(key))
      ensures GetProperty(key) == None
      ensures forall k :: k != key ==> GetProperty(k) == old(GetProperty(k))
      ensures key !in old(properties) ==> properties == old(properties)
      ensures desiredProps == old(desiredProps) && definition == old(definition)
      ensures lastModified == now
    {
      properties := properties - {key};
      lastModified := now;
    }

    method GetAllProperties() returns (r: map<string, Value>)
      ensures r == properties
    {
      r := CopyMap(properties);
    }

    function GetDesiredProperty(key: string): (r: Option<Value>)
      reads this
      ensures r.Some? <==> key in desiredProps
      ensures r.Some? ==> r.value == desiredProps[key]
    {
      Lookup(desiredProps, key)
    }

    method SetDesiredProperty(key: string, value: Value, now: Time)
      modifies this
      ensures desiredProps == Apply(old(desiredProps), Put(key, value))
      ensures GetDesiredProperty(key) == Some(value)
      ensures forall k :: k != key ==> GetDesiredProperty(k) == old(GetDesiredProperty(k))
      ensures properties == old(properties) && definition == old(definition)
      ensures lastModified == now
    {
      desiredProps := desiredProps[key := value];
      lastModified := now;
    }

    method RemoveDesiredProperty(key: string, now: Time)
      modifies this
      ensures desiredProps == Apply(old(desiredProps), Drop(key))
      ensures GetDesiredProperty(key) == None
      ensures forall k :: k != key ==> GetDesiredProperty(k) == old(GetDesiredProperty(k))
      ensures key !in old(desiredProps) ==> desiredProps == old(desiredProps)
      ensures properties == old(properties) && definition == old(definition)
      ensures lastModified == now
    {
      desiredProps := desiredProps - {key};
      lastModified := now;
    }

    method GetAllDesiredProperties() returns (r: map<string, Value>)
      ensures r == desiredProps
    {
      r := CopyMap(desiredProps);
    }

    /**
     * Stores a copy of `definitions`: the new list is a fresh array, so later
     * writes to the caller's array are not seen here, and vice versa.
     */
    method SetDefinition(definitions: array<string>, now: Time)
      modifies this
      ensures fresh(definition) && definition[..] == definitions[..]
      ensures properties == old(properties) && desiredProps == old(desiredProps)
      ensures lastModified == now
    {
      definition := CopyArray(definitions);
      lastModified := now;
    }

    /** Hands out a copy of the definition list, never the stored array. */
    method GetDefinition() returns (r: array<string>)
      ensures fresh(r) && r[..] == definition[..]
    {
      r := CopyArray(definition);
    }
  }
}
