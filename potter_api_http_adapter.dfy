/**
 * PotterApiHttpAdapter: the house provider. It projects the upstream records to houses,
 * answers a lookup by id with a first-match scan of the full list behind the "houses"
 * cache, and refreshes that cache from the full list.
 *
 * The cache annotations are written out: `getHouseById` checks the cache, and on a miss
 * fetches, scans and stores what it found; the refresh stores every fetched house.
 */
module HouseProvider {
  import opened Wrappers
  import opened Domain
  import opened Errors
  import opened HouseClient

  /** `toHouse`: only id, name and school survive. */
  function ToHouse(m: HouseModel): House {
    House(m.id, m.name, m.school)
  }

  /** `stream().map(this::toHouse)`: one house per record, in the same order. */
  function ToHouses(ms: seq<HouseModel>): (hs: seq<House>)
    ensures |hs| == |ms|
    ensures forall i :: 0 <= i < |ms| ==>
      hs[i].id == ms[i].id && hs[i].name == ms[i].name && hs[i].school == ms[i].school
  {
    if ms == [] then [] else [ToHouse(ms[0])] + ToHouses(ms[1..])
  }

  /** `filter(h -> id.equals(h.getId())).findFirst()`. */
  function FirstWithId(hs: seq<House>, id: string): (r: Option<House>)
    ensures r.None? <==> forall h :: h in hs ==> h.id != id
    ensures r.Some? ==> r.value in hs && r.value.id == id
  {
    if hs == [] then None
    else if hs[0].id == id then Some(hs[0])
    else FirstWithId(hs[1..], id)
  }

  /** The scan returns the earliest house with the id, in list order. */
  lemma {:induction false} FirstWithIdIsEarliest(hs: seq<House>, id: string, i: nat)
    requires i < |hs| && hs[i].id == id
    requires forall j :: 0 <= j < i ==> hs[j].id != id
    ensures FirstWithId(hs, id) == Some(hs[i])
  {
    if i > 0 {
      assert hs[0].id != id;
      FirstWithIdIsEarliest(hs[1..], id, i - 1);
    }
  }

  /** `getHouses()` from the client's outcome: PotterApiCallException is translated, nothing else is caught. */
  function HousesFrom(o: Result<HouseModelRoot, Exception>): (r: Result<seq<House>, Exception>)
    ensures o.Ok? <==> r.Ok?
    ensures o.Ok? ==> r.value == ToHouses(o.value.houses)
    ensures o.Err? && o.error.PotterApiCall? ==> r.error == ErrorObtainingHouses(o.error)
    ensures o.Err? && !o.error.PotterApiCall? ==> r.error == o.error
    ensures r.Err? ==> !r.error.PotterApiCall?
  {
    match o
    case Ok(root) => Ok(ToHouses(root.houses))
    case Err(e) => if e.PotterApiCall? then Err(ErrorObtainingHouses(e)) else Err(e)
  }

  /**
   * The body of `getHouseById` on a cache miss: scan the fetched list; every exception,
   * the already translated ErrorObtainingHousesException included, is wrapped once more.
   */
  function LookupFrom(fetched: Result<seq<House>, Exception>, id: string): (r: Result<Option<House>, Exception>)
    ensures fetched.Ok? ==> r == Ok(FirstWithId(fetched.value, id))
    ensures fetched.Err? ==> r.Err? && r.error.ErrorObtainingHouses? && Cause(r.error) == Some(fetched.error)
  {
    match fetched
    case Ok(hs) => Ok(FirstWithId(hs, id))
    case Err(e) => Err(ErrorObtainingHouses(e))
  }

  /** Every cache entry is stored under its house's own id. */
  ghost predicate KeyedById(cache: map<string, House>) {
    forall k :: k in cache ==> cache[k].id == k
  }

  /** The cache after `updateCache` has been applied to each house of `hs`, in order. */
  function StoreAll(cache: map<string, House>, hs: seq<House>): map<string, House> {
    if hs == [] then cache
    else StoreAll(cache, hs[..|hs| - 1])[hs[|hs| - 1].id := hs[|hs| - 1]]
  }

  /** The last house of `hs` with the id, if any. */
  function LastWithId(hs: seq<House>, id: string): (r: Option<House>)
    ensures r.None? <==> forall h :: h in hs ==> h.id != id
    ensures r.Some? ==> r.value in hs && r.value.id == id
  {
    if hs == [] then None
    else if hs[|hs| - 1].id == id then Some(hs[|hs| - 1])
    else LastWithId(hs[..|hs| - 1], id)
  }

  /** The backward scan returns the latest house with the id, in list order. */
  lemma {:induction false} LastWithIdIsLatest(hs: seq<House>, id: string, i: nat)
    requires i < |hs| && hs[i].id == id
    requires forall j :: i < j < |hs| ==> hs[j].id != id
    ensures LastWithId(hs, id) == Some(hs[i])
  {
    if i < |hs| - 1 {
      assert hs[|hs| - 1].id != id;
      LastWithIdIsLatest(hs[..|hs| - 1], id, i);
    }
  }

  /**
   * After the refresh, the entry for an id is the last fetched house with that id, and an
   * id no fetched house has keeps its old entry (or stays absent).
   */
  lemma {:induction false} StoreAllAt(cache: map<string, House>, hs: seq<House>, id: string)
    ensures LastWithId(hs, id).Some? ==> id in StoreAll(cache, hs) && StoreAll(cache, hs)[id] == LastWithId(hs, id).value
    ensures LastWithId(hs, id).None? ==> (id in StoreAll(cache, hs) <==> id in cache)
    ensures LastWithId(hs, id).None? && id in cache ==> StoreAll(cache, hs)[id] == cache[id]
  {
    if hs != [] {
      StoreAllAt(cache, hs[..|hs| - 1], id);
    }
  }

  /** The refresh keeps every entry under its own id. */
  lemma StoreAllKeyedById(cache: map<string, House>, hs: seq<House>)
    requires KeyedById(cache)
    ensures KeyedById(StoreAll(cache, hs))
  {
    forall k | k in StoreAll(cache, hs) ensures StoreAll(cache, hs)[k].id == k {
      StoreAllAt(cache, hs, k);
    }
  }

  /** Every fetched house has an entry under its id; with distinct ids, that entry is the house itself. */
  lemma StoreAllHoldsEveryHouse(cache: map<string, House>, hs: seq<House>, i: nat)
    requires i < |hs|
    requires forall j :: 0 <= j < |hs| && j != i ==> hs[j].id != hs[i].id
    ensures hs[i].id in StoreAll(cache, hs) && StoreAll(cache, hs)[hs[i].id] == hs[i]
  {
    StoreAllAt(cache, hs, hs[i].id);
    LastWithIdUnique(hs, i);
  }

  lemma {:induction false} LastWithIdUnique(hs: seq<House>, i: nat)
    requires i < |hs|
    requires forall j :: 0 <= j < |hs| && j != i ==> hs[j].id != hs[i].id
    ensures LastWithId(hs, hs[i].id) == Some(hs[i])
  {
    if i < |hs| - 1 {
      LastWithIdUnique(hs[..|hs| - 1], i);
    }
  }

  /**
   * Where the refresh as written and the intended refresh part: an entry whose house the
   * upstream now reports differently is replaced by the intended refresh and stays stale
   * when the refresh leaves the cache untouched.
   */
  lemma RefreshReplacesStaleEntry(cache: map<string, House>, hs: seq<House>, id: string)
    requires id in cache && LastWithId(hs, id).Some? && LastWithId(hs, id).value != cache[id]
    ensures id in StoreAll(cache, hs) && StoreAll(cache, hs)[id] != cache[id]
    ensures StoreAll(cache, hs)[id] == LastWithId(hs, id).value
  {
    StoreAllAt(cache, hs, id);
  }

  /** A renamed house: the cached entry goes stale unless the refresh writes it. */
  lemma RenamedHouseExample()
    ensures
      var cache := map["1" := House("1", "Gryffindor", "Hogwarts")];
      var renamed := House("1", "Gryffindor House", "Hogwarts");
      StoreAll(cache, [renamed])["1"] == renamed && cache["1"] != renamed
  {
    var cache := map["1" := House("1", "Gryffindor", "Hogwarts")];
    var renamed := House("1", "Gryffindor House", "Hogwarts");
    assert [renamed][..0] == [];
  }

  class PotterApiHttpAdapter {
    const server: nat -> Reply       // what the upstream house API answers to each request
    var requests: nat                // requests the upstream has received so far
    var houses: map<string, House>   // the "houses" cache

    ghost predicate Valid()
      reads this
    {
      KeyedById(houses)
    }

    constructor (server: nat -> Reply)
      ensures Valid()
      ensures this.server == server && requests == 0 && houses == map[]
    {
      this.server := server;
      requests := 0;
      houses := map[];
    }

    /** `getHouses()`: the full list from the client, never cached. */
    method GetHouses() returns (r: Result<seq<House>, Exception>)
      modifies this`requests
      ensures (HousesFrom(GetHousesSpec(server, old(requests)).0), requests)
        == (r, GetHousesSpec(server, old(requests)).1)
      ensures old(requests) < requests <= old(requests) + MaxRetries + 1
    {
      var root;
      root, requests := HouseClient.GetHouses(server, requests);
      r := HousesFrom(root);
    }

    /** `getHouseById(id)` behind `@Cacheable("houses")`. */
    method GetHouseById(id: string) returns (r: Result<Option<House>, Exception>)
      requires Valid()
      modifies this`requests, this`houses
      ensures Valid()
      ensures r.Ok? && r.value.Some? ==> r.value.value.id == id
      ensures r.Err? ==> r.error.ErrorObtainingHouses? && houses == old(houses)
      // a hit: the cached house, and the upstream is not called
      ensures id in old(houses) ==>
        r == Ok(Some(old(houses)[id])) && requests == old(requests) && houses == old(houses)
      // a miss: one client call, the first match of the fetched list, which is then cached
      ensures id !in old(houses) ==>
        && requests == GetHousesSpec(server, old(requests)).1
        && r == LookupFrom(HousesFrom(GetHousesSpec(server, old(requests)).0), id)
        && houses - {id} == old(houses)
        && (r.Ok? && r.value.Some? ==> houses == old(houses)[id := r.value.value])
    {
      if id in houses {
        return Ok(Some(houses[id]));
      }
      var fetched := GetHouses();
      r := LookupFrom(fetched, id);
      if r.Ok? && r.value.Some? {
        houses := houses[id := r.value.value];
      }
    }

    /** `updateCache(house)` behind `@CachePut(value = "houses", key = "#house.id")`. */
    method UpdateCache(house: House) returns (r: House)
      requires Valid()
      modifies this`houses
      ensures Valid()
      ensures r == house && houses == old(houses)[house.id := house]
    {
      houses := houses[house.id := house];
      r := house;
    }

    /**
     * The hourly refresh as it behaves when `updateCache` is reached through `this`: the
     * call does not pass the caching proxy, so the cache write never happens and the
     * fetched houses are dropped. Whether the refresh runs at all also depends on scheduling
     * being enabled for a private method; the cache gets no write either way.
     */
    method UpdateHousesAsWritten() returns (o: Outcome<Exception>)
      requires Valid()
      modifies this`requests
      ensures Valid()
      ensures requests == GetHousesSpec(server, old(requests)).1
      ensures houses == old(houses)
      ensures
        match HousesFrom(GetHousesSpec(server, old(requests)).0)
        case Ok(_) => o == Pass
        case Err(e) => o == (if e.ErrorObtainingHouses? then Pass else Fail(e))
    {
      var fetched := GetHouses();
      if fetched.Err? {
        return if fetched.error.ErrorObtainingHouses? then Pass else Fail(fetched.error);
      }
      o := Pass;
    }

    /**
     * The hourly refresh `updateHouses()`: every fetched house is written into the cache.
     * ErrorObtainingHousesException is swallowed and leaves the cache as it was; any other
     * exception leaves the cache as it was and propagates to the scheduler.
     */
    method UpdateHouses() returns (o: Outcome<Exception>)
      requires Valid()
      modifies this`requests, this`houses
      ensures Valid()
      ensures requests == GetHousesSpec(server, old(requests)).1
      ensures
        match HousesFrom(GetHousesSpec(server, old(requests)).0)
        case Ok(hs) => o == Pass && houses == StoreAll(old(houses), hs)
        case Err(e) => houses == old(houses) && o == (if e.ErrorObtainingHouses? then Pass else Fail(e))
    {
      var fetched := GetHouses();
      if fetched.Err? {
        return if fetched.error.ErrorObtainingHouses? then Pass else Fail(fetched.error);
      }
      var hs := fetched.value;
      ghost var sent := requests;
      var i := 0;
      while i < |hs|
        invariant i <= |hs|
        invariant requests == sent
        invariant Valid()
        invariant houses == StoreAll(old(houses), hs[..i])
      {
        assert hs[..i + 1][..i] == hs[..i];
        var _ := UpdateCache(hs[i]);
        i := i + 1;
      }
      assert hs[..i] == hs;
      o := Pass;
    }
  }
}
