/** The per-region snapshot of known service identifiers, kept as one object per
    region in an object store. The JSON encoding is taken as the identity
    between a list of strings and its stored form. */
module SnapshotStore {
  import opened Outcomes

  /** The body of a stored object: empty, or a (decoded) JSON array of strings. */
  datatype Payload = Blank | Body(services: seq<string>)

  type Store = map<string, Payload>

  const JsonPath: string := "services.json"

  /** The key of the object that holds `region`'s snapshot. */
  function ObjectKey(region: string): string
  {
    region + "/" + JsonPath
  }

  /** Different regions never share a snapshot object. */
  lemma ObjectKeyInjective(r1: string, r2: string)
    ensures ObjectKey(r1) == ObjectKey(r2) ==> r1 == r2
  {
    if ObjectKey(r1) == ObjectKey(r2) {
      assert |r1| == |r2|;
      assert r1 == ObjectKey(r1)[..|r1|];
      assert r2 == ObjectKey(r2)[..|r2|];
    }
  }

  /** Reads `region`'s snapshot. A missing object is an error; an empty body is
      the empty list. */
  function LoadRecentServices(store: Store, region: string): (r: Result<seq<string>>)
    ensures r.Err? <==> ObjectKey(region) !in store
    ensures r.Err? ==> r.error == NoSuchKey(ObjectKey(region))
    ensures r == Ok([]) <==> ObjectKey(region) in store && store[ObjectKey(region)] in {Blank, Body([])}
  {
    var key := ObjectKey(region);
    if key !in store then Err(NoSuchKey(key))
    else match store[key]
      case Blank => Ok([])
      case Body(services) => Ok(services)
  }

  /** Overwrites `region`'s snapshot with `services`, creating it if needed. */
  function Save(store: Store, region: string, services: seq<string>): (store': Store)
    ensures store'.Keys == store.Keys + {ObjectKey(region)}
    ensures forall key :: key in store && key != ObjectKey(region) ==> store'[key] == store[key]
  {
    store[ObjectKey(region) := Body(services)]
  }

  /** A save replaces the whole snapshot: what is read back is exactly what was
      saved, neither merged with nor appended to the old one. */
  lemma LoadAfterSave(store: Store, region: string, services: seq<string>)
    ensures LoadRecentServices(Save(store, region, services), region) == Ok(services)
  {
  }

  /** A save for one region leaves every other region's snapshot as it was. */
  lemma SaveIsolated(store: Store, region: string, services: seq<string>, other: string)
    requires other != region
    ensures LoadRecentServices(Save(store, region, services), other) == LoadRecentServices(store, other)
  {
    ObjectKeyInjective(region, other);
  }

  /** An empty stored body reads as the empty list, not as an error. */
  lemma BlankLoadsEmpty(store: Store, region: string)
    requires ObjectKey(region) in store && store[ObjectKey(region)] == Blank
    ensures LoadRecentServices(store, region) == Ok([])
  {
  }
}
