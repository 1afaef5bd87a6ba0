/**
 * The registry: the index of all live twins by identifier, with create, read,
 * update and delete, and linear scans over all twins.
 */
module TwinRegistry {
  import opened Common
  import opened DigitalTwins

  /** The error values of the registry package. */
  datatype RegistryError = TwinNotFound | TwinAlreadyExists

  /** No two twins of the list share an identifier. */
  ghost predicate DistinctIds(ts: seq<Twin>)
  {
    forall i, j :: 0 <= i < j < |ts| ==> ts[i].id != ts[j].id
  }

  /** The identifiers of the twins of a list. */
  ghost function Ids(ts: seq<Twin>): set<string>
  {
    set t | t in ts :: t.id
  }

  /** Dropping the head of a list keeps its identifiers distinct, and the head's is not among the rest. */
  lemma DistinctIdsTail(ts: seq<Twin>)
    requires DistinctIds(ts) && ts != []
    ensures DistinctIds(ts[1..]) && ts[0].id !in Ids(ts[1..])
  {
  }

  /** The identifiers of a list are its head's and those of the rest. */
  lemma IdsCons(ts: seq<Twin>)
    requires ts != []
    ensures Ids(ts) == Ids(ts[1..]) + {ts[0].id}
  {
  }

  /** A list without repeated identifiers has one element per identifier. */
  lemma {:induction false} DistinctIdsCount(ts: seq<Twin>)
    requires DistinctIds(ts)
    ensures |ts| == |Ids(ts)|
    decreases |ts|
  {
    if ts != [] {
      DistinctIdsTail(ts);
      DistinctIdsCount(ts[1..]);
      IdsCons(ts);
    }
  }

  /** Every entry is stored under its own twin's identifier. */
  ghost predicate KeyedById(twins: map<string, Twin>)
  {
    forall id :: id in twins ==> twins[id].id == id
  }

  class Registry {
    var twins: map<string, Twin>

    ghost predicate Valid()
      reads this
    {
      KeyedById(twins)
    }

    /** `NewRegistry`: no twins. */
    constructor ()
      ensures Valid() && twins == map[]
    {
      twins := map[];
    }

    method Create(dt: Twin) returns (err: Outcome<RegistryError>)
      requires Valid()
      modifies this
      ensures Valid()
      ensures err == (if dt.id in old(twins) then Fail(TwinAlreadyExists) else Pass)
      ensures err.Fail? ==> twins == old(twins)
      ensures err.Pass? ==> twins == old(twins)[dt.id := dt] && |twins| == |old(twins)| + 1
    {
      if dt.id in twins {
        return Fail(TwinAlreadyExists);
      }
      twins := twins[dt.id := dt];
      return Pass;
    }

    function Get(id: string): (r: Result<Twin, RegistryError>)
      requires Valid()
      reads this
      ensures r.Ok? <==> id in twins
      ensures r.Ok? ==> r.value == twins[id] && r.value.id == id
      ensures r.Err? ==> r.error == TwinNotFound
    {
      if id in twins then Ok(twins[id]) else Err(TwinNotFound)
    }

    method Update(dt: Twin) returns (err: Outcome<RegistryError>)
      requires Valid()
      modifies this
      ensures Valid()
      ensures err == (if dt.id in old(twins) then Pass else Fail(TwinNotFound))
      ensures err.Fail? ==> twins == old(twins)
      ensures err.Pass? ==> twins == old(twins)[dt.id := dt]
      ensures twins.Keys == old(twins).Keys
    {
      if dt.id !in twins {
        return Fail(TwinNotFound);
      }
      twins := twins[dt.id := dt];
      return Pass;
    }

    method Delete(id: string) returns (err: Outcome<RegistryError>)
      requires Valid()
      modifies this
      ensures Valid()
      ensures err == (if id in old(twins) then Pass else Fail(TwinNotFound))
      ensures err.Fail? ==> twins == old(twins)
      ensures err.Pass? ==> twins == old(twins) - {id} && |twins| == |old(twins)| - 1
      ensures Get(id) == Err(TwinNotFound)
    {
      if id !in twins {
        return Fail(TwinNotFound);
      }
      twins := twins - {id};
      return Pass;
    }

    /**
     * The scan shared by List, FindByAttribute and FindByFeature: visit every
     * entry once, in an unspecified order, and append the twins `keep` accepts.
     */
    method Select(keep: Twin -> bool) returns (r: seq<Twin>)
      requires Valid()
      ensures forall t :: t in r <==> t in twins.Values && keep(t)
      ensures DistinctIds(r)
    {
      r := [];
      var rest := twins.Keys;
      while rest != {}
        invariant rest <= twins.Keys
        invariant forall i :: 0 <= i < |r| ==>
          r[i].id in twins && r[i].id !in rest && twins[r[i].id] == r[i] && keep(r[i])
        invariant forall id :: id in twins && id !in rest && keep(twins[id]) ==> twins[id] in r
        invariant DistinctIds(r)
        decreases rest
      {
        var id :| id in rest;
        if keep(twins[id]) {
          r := r + [twins[id]];
        }
        rest := rest - {id};
      }
      forall t | t in twins.Values && keep(t) ensures t in r {
        var id :| id in twins && twins[id] == t;
      }
    }

    /** Every stored twin, each exactly once. */
    method List() returns (r: seq<Twin>)
      requires Valid()
      ensures forall t :: t in r <==> t in twins.Values
      ensures DistinctIds(r)
      ensures |r| == |twins|
    {
      r := Select((t: Twin) => true);
      DistinctIdsCount(r);
      assert Ids(r) == twins.Keys by {
        forall id | id in twins ensures id in Ids(r) {
          assert twins[id] in twins.Values;
        }
        forall id | id in Ids(r) ensures id in twins {
          var t :| t in r && t.id == id;
          var k :| k in twins && twins[k] == t;
        }
      }
      assert |twins| == |twins.Keys|;
    }

    /** The stored twins whose attribute `key` is present and equal to `value`. */
    method FindByAttribute(key: string, value: Value) returns (r: seq<Twin>)
      requires Valid()
      ensures forall t :: t in r <==> t in twins.Values && key in t.attributes && t.attributes[key] == value
      ensures DistinctIds(r)
    {
      r := Select((t: Twin) => Lookup(t.attributes, key) == Some(value));
    }

    /** The stored twins that hold a feature named `featureId`. */
    method FindByFeature(featureId: string) returns (r: seq<Twin>)
      requires Valid()
      ensures forall t :: t in r <==> t in twins.Values && featureId in t.features
      ensures DistinctIds(r)
    {
      r := Select((t: Twin) => featureId in t.features);
    }
  }
}
