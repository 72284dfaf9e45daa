/**
 * The memoised spatial range query of app.py: `get_paginated_data` with its
 * module-level cache, and the `get_data` endpoint that calls it.
 *
 * The MongoDB collections become in-memory sequences of documents; the
 * store's answer to the range query is the subsequence of a collection that
 * falls inside the half-open window, in store order.
 */
module PaginatedData {
  import opened Wrappers
  import opened JsonValues

  /** The dataset identifiers of the collection table. */
  const Datasets: set<string> := {"chl", "carbon", "sst"}

  /** The three value fields, in the order the `or` chain tries them. */
  const ChlorophyllField: string := "chlorophyll_a"
  const CarbonField: string := "carbon_phyto"
  const SstField: string := "sst"

  /** The five query parameters. The source joins them into one string with
      `_`; float text never contains `_`, so the tuple and the string
      identify the same entries. */
  datatype CacheKey = CacheKey(
    dataset: string,
    startLat: real,
    startLon: real,
    latChunk: real,
    lonChunk: real)

  /** A cached result: three parallel columns. */
  datatype Page = Page(latitudes: seq<real>, longitudes: seq<real>, dataValues: seq<Value>)

  /** A field filter `{'$gte': start, '$lt': start + chunk}`: a numeric value
      in the half-open interval; a missing or non-numeric field never matches. */
  predicate InRange(d: Document, field: string, start: real, chunk: real)
  {
    field in d && d[field].Num? && start <= d[field].x < start + chunk
  }

  /** The whole filter of the range query. */
  predicate InWindow(d: Document, k: CacheKey)
  {
    InRange(d, "latitude", k.startLat, k.latChunk) && InRange(d, "longitude", k.startLon, k.lonChunk)
  }

  /** A document that can be turned into a point: numeric coordinates. */
  predicate HasPosition(d: Document)
  {
    "latitude" in d && d["latitude"].Num? && "longitude" in d && d["longitude"].Num?
  }

  /** `document['latitude']` of a document that has a position. */
  function Latitude(d: Document): real
    requires HasPosition(d)
  {
    d["latitude"].x
  }

  /** `document['longitude']` of a document that has a position. */
  function Longitude(d: Document): real
    requires HasPosition(d)
  {
    d["longitude"].x
  }

  /** The documents the store returns for the window, in store order. */
  function Matching(docs: seq<Document>, k: CacheKey): (r: seq<Document>)
    ensures |r| <= |docs|
    ensures forall i | 0 <= i < |r| :: InWindow(r[i], k) && r[i] in docs
  {
    if docs == [] then []
    else (if InWindow(docs[0], k) then [docs[0]] else []) + Matching(docs[1..], k)
  }

  /** The value picked for one document:
      `chlorophyll_a or carbon_phyto or sst`. */
  function DataValue(d: Document): (r: Value)
    ensures r == Get(d, ChlorophyllField) || r == Get(d, CarbonField) || r == Get(d, SstField)
    ensures Truthy(Get(d, ChlorophyllField)) ==> r == Get(d, ChlorophyllField)
    ensures !Truthy(Get(d, ChlorophyllField)) && Truthy(Get(d, CarbonField)) ==> r == Get(d, CarbonField)
    ensures Truthy(r) <==> Truthy(Get(d, ChlorophyllField)) || Truthy(Get(d, CarbonField)) || Truthy(Get(d, SstField))
    ensures !Truthy(r) ==> r == Get(d, SstField)
  {
    Or(Or(Get(d, ChlorophyllField), Get(d, CarbonField)), Get(d, SstField))
  }

  /** The three columns for a list of documents: element `i` of each column
      comes from document `i`. */
  function PageOf(docs: seq<Document>): (p: Page)
    requires forall i {:trigger docs[i]} | 0 <= i < |docs| :: HasPosition(docs[i])
    ensures |p.latitudes| == |docs| && |p.longitudes| == |docs| && |p.dataValues| == |docs|
    ensures forall i | 0 <= i < |docs| ::
      && p.latitudes[i] == Latitude(docs[i])
      && p.longitudes[i] == Longitude(docs[i])
      && p.dataValues[i] == DataValue(docs[i])
  {
    if docs == [] then Page([], [], [])
    else
      var rest := PageOf(docs[..|docs| - 1]);
      var d := docs[|docs| - 1];
      Page(rest.latitudes + [Latitude(d)],
           rest.longitudes + [Longitude(d)],
           rest.dataValues + [DataValue(d)])
  }

  /** What a cache miss computes: nothing for an unknown dataset or an empty
      window, otherwise the columns of the matching documents. */
  function Fetch(collections: map<string, seq<Document>>, k: CacheKey): (r: Option<Page>)
    ensures k.dataset !in collections ==> r == None
    ensures k.latChunk <= 0.0 || k.lonChunk <= 0.0 ==> r == None
    ensures r.Some? ==>
      && k.dataset in collections
      && |r.value.latitudes| > 0
      && |r.value.latitudes| == |r.value.longitudes| == |r.value.dataValues|
      && (forall i | 0 <= i < |r.value.latitudes| ::
            k.startLat <= r.value.latitudes[i] < k.startLat + k.latChunk)
      && (forall i | 0 <= i < |r.value.longitudes| ::
            k.startLon <= r.value.longitudes[i] < k.startLon + k.lonChunk)
  {
    if k.dataset !in collections then None
    else
      var documents := Matching(collections[k.dataset], k);
      if documents == [] then None else Some(PageOf(documents))
  }

  /** A miss yields a result exactly for a known dataset whose collection
      holds a document inside the window. */
  lemma FetchSomeIff(collections: map<string, seq<Document>>, k: CacheKey)
    ensures Fetch(collections, k).Some? <==>
      k.dataset in collections
      && exists i | 0 <= i < |collections[k.dataset]| :: InWindow(collections[k.dataset][i], k)
  {
    if k.dataset in collections {
      MatchingEmptyIff(collections[k.dataset], k);
    }
  }

  /** Filtering distributes over concatenation: the store keeps document order. */
  lemma {:induction false} MatchingAppend(a: seq<Document>, b: seq<Document>, k: CacheKey)
    ensures Matching(a + b, k) == Matching(a, k) + Matching(b, k)
  {
    if a == [] {
      assert a + b == b;
    } else {
      assert (a + b)[1..] == a[1..] + b;
      MatchingAppend(a[1..], b, k);
    }
  }

  /** Every document of the collection inside the window is returned. */
  lemma {:induction false} MatchingComplete(docs: seq<Document>, k: CacheKey, i: nat)
    requires i < |docs| && InWindow(docs[i], k)
    ensures docs[i] in Matching(docs, k)
  {
    if i > 0 {
      MatchingComplete(docs[1..], k, i - 1);
    }
  }

  /** A window holds no document exactly when its query returns none. */
  lemma {:induction false} MatchingEmptyIff(docs: seq<Document>, k: CacheKey)
    ensures Matching(docs, k) == [] <==> forall i | 0 <= i < |docs| :: !InWindow(docs[i], k)
  {
    if Matching(docs, k) == [] {
      forall i | 0 <= i < |docs| ensures !InWindow(docs[i], k) {
        if InWindow(docs[i], k) {
          MatchingComplete(docs, k, i);
        }
      }
    } else {
      var d := Matching(docs, k)[0];
      var i :| 0 <= i < |docs| && docs[i] == d;
      assert InWindow(docs[i], k);
    }
  }

  /** A chlorophyll document at the given position with the given reading. */
  function Point(lat: real, lon: real, reading: real): Document
  {
    map["latitude" := Num(lat), "longitude" := Num(lon), ChlorophyllField := Num(reading)]
  }

  lemma PointFields(lat: real, lon: real, reading: real)
    ensures HasPosition(Point(lat, lon, reading))
    ensures Latitude(Point(lat, lon, reading)) == lat && Longitude(Point(lat, lon, reading)) == lon
    ensures reading != 0.0 ==> DataValue(Point(lat, lon, reading)) == Num(reading)
  {
  }

  /** A three-point example: points at (1,1), (5,5), (9,9). The window
      [0,6) x [0,6) returns the first two in order; [10,11) x [10,11) none. */
  lemma ThreePointWindows()
    ensures var chl := [Point(1.0, 1.0, 0.5), Point(5.0, 5.0, 0.7), Point(9.0, 9.0, 0.9)];
      && Fetch(map["chl" := chl], CacheKey("chl", 0.0, 0.0, 6.0, 6.0))
           == Some(Page([1.0, 5.0], [1.0, 5.0], [Num(0.5), Num(0.7)]))
      && Fetch(map["chl" := chl], CacheKey("chl", 10.0, 10.0, 1.0, 1.0)) == None
  {
    var chl := [Point(1.0, 1.0, 0.5), Point(5.0, 5.0, 0.7), Point(9.0, 9.0, 0.9)];
    PointFields(1.0, 1.0, 0.5);
    PointFields(5.0, 5.0, 0.7);
    PointFields(9.0, 9.0, 0.9);
    var k := CacheKey("chl", 0.0, 0.0, 6.0, 6.0);
    assert Matching(chl[2..], k) == [] by {
      assert chl[2..][1..] == [];
    }
    assert Matching(chl[1..], k) == [chl[1]] by {
      assert chl[1..][1..] == chl[2..];
    }
    assert Matching(chl, k) == chl[..2];
    var p := PageOf(chl[..2]);
    assert p.latitudes == [1.0, 5.0];
    assert p.longitudes == [1.0, 5.0];
    assert p.dataValues == [Num(0.5), Num(0.7)];
    MatchingEmptyIff(chl, CacheKey("chl", 10.0, 10.0, 1.0, 1.0));
  }

  /** A zero chlorophyll reading is falsy, so it falls through to the other
      fields and comes back as `None` when they are absent. */
  lemma ZeroReadingFallsThrough()
    ensures DataValue(Point(1.0, 1.0, 0.0)) == Null
  {
  }

  /** A query parameter of `get_data`: absent, a parsed float, or text that
      `float()` rejects. */
  datatype Param = Absent | Given(x: real) | Malformed

  /** The outcome of `get_data`: 200 with the columns, 404 or 400. */
  datatype DataResponse = Found(page: Page) | NotFound | InvalidParameters

  /** `float(request.args.get(name, default))`, or `None` for a parse error. */
  function ParamValue(p: Param, default: real): Option<real>
  {
    match p
    case Absent => Some(default)
    case Given(x) => Some(x)
    case Malformed => None
  }

  /** The key `get_data` queries with, after defaults are applied. */
  function DefaultedKey(startLat: Param, startLon: Param, latChunk: Param, lonChunk: Param,
                        dataset: Option<string>): (r: Option<CacheKey>)
    ensures r.None? <==> Malformed in [startLat, startLon, latChunk, lonChunk]
    ensures r.Some? && startLat == Absent ==> r.value.startLat == 0.0
    ensures r.Some? && startLon == Absent ==> r.value.startLon == 0.0
    ensures r.Some? && latChunk == Absent ==> r.value.latChunk == 10.0
    ensures r.Some? && lonChunk == Absent ==> r.value.lonChunk == 10.0
    ensures r.Some? && startLat.Given? ==> r.value.startLat == startLat.x
    ensures r.Some? && startLon.Given? ==> r.value.startLon == startLon.x
    ensures r.Some? && latChunk.Given? ==> r.value.latChunk == latChunk.x
    ensures r.Some? && lonChunk.Given? ==> r.value.lonChunk == lonChunk.x
    ensures r.Some? ==> r.value.dataset == (if dataset.Some? then dataset.value else "chl")
  {
    match (ParamValue(startLat, 0.0), ParamValue(startLon, 0.0),
           ParamValue(latChunk, 10.0), ParamValue(lonChunk, 10.0))
    case (Some(a), Some(b), Some(c), Some(d)) =>
      Some(CacheKey(if dataset.Some? then dataset.value else "chl", a, b, c, d))
    case _ => None
  }

  /** The process-wide state of app.py: the fixed collection table and the
      memo cache. */
  class DataService {
    const collections: map<string, seq<Document>>
    var cache: map<CacheKey, Page>

    /** The table holds exactly the known datasets, and every cached entry is
        what a fresh query for its key would compute. */
    ghost predicate Valid()
      reads this
    {
      && collections.Keys == Datasets
      && forall k | k in cache :: Fetch(collections, k) == Some(cache[k])
    }

    constructor (chlorophyll: seq<Document>, carbon: seq<Document>, sst: seq<Document>)
      ensures Valid()
      ensures collections == map["chl" := chlorophyll, "carbon" := carbon, "sst" := sst]
      ensures cache == map[]
    {
      collections := map["chl" := chlorophyll, "carbon" := carbon, "sst" := sst];
      cache := map[];
    }

    /** `get_paginated_data`: the cache is consulted first, before the
        dataset is checked; a miss queries the store, builds the columns and
        caches only a non-empty result. */
    method GetPaginatedData(startLat: real, startLon: real, latChunk: real, lonChunk: real, dataset: string)
      returns (r: Option<Page>)
      requires Valid()
      modifies this
      ensures Valid()
      ensures var k := CacheKey(dataset, startLat, startLon, latChunk, lonChunk);
        && (k in old(cache) ==> r == Some(old(cache)[k]) && cache == old(cache))
        && (k !in old(cache) ==>
              cache == if r.Some? then old(cache)[k := r.value] else old(cache))
        && r == Fetch(collections, k)
        && (dataset !in Datasets ==> r == None && cache == old(cache))
    {
      var key := CacheKey(dataset, startLat, startLon, latChunk, lonChunk);
      if key in cache {
        return Some(cache[key]);
      }
      if dataset !in collections {
        return None;
      }
      var documents := Matching(collections[dataset], key);
      if documents == [] {
        return None;
      }
      var latitudes: seq<real> := [];
      var longitudes: seq<real> := [];
      var dataValues: seq<Value> := [];
      for i := 0 to |documents|
        invariant Page(latitudes, longitudes, dataValues) == PageOf(documents[..i])
      {
        var document := documents[i];
        assert documents[..i + 1][..i] == documents[..i];
        latitudes := latitudes + [Latitude(document)];
        longitudes := longitudes + [Longitude(document)];
        dataValues := dataValues + [DataValue(document)];
      }
      assert documents[..|documents|] == documents;
      var data := Page(latitudes, longitudes, dataValues);
      cache := cache[key := data];
      r := Some(data);
    }

    /** `get_data`: defaults `0, 0, 10, 10, 'chl'`, 400 when a number does
        not parse, 404 when there is no result. */
    method GetData(startLat: Param, startLon: Param, latChunk: Param, lonChunk: Param, dataset: Option<string>)
      returns (resp: DataResponse)
      requires Valid()
      modifies this
      ensures Valid()
      ensures var key := DefaultedKey(startLat, startLon, latChunk, lonChunk, dataset);
        && (key.None? ==> resp == InvalidParameters && cache == old(cache))
        && (key.Some? ==>
              && resp == (if Fetch(collections, key.value).Some?
                          then Found(Fetch(collections, key.value).value) else NotFound)
              && cache == (if key.value in old(cache) || Fetch(collections, key.value).None?
                           then old(cache)
                           else old(cache)[key.value := Fetch(collections, key.value).value]))
    {
      var key := DefaultedKey(startLat, startLon, latChunk, lonChunk, dataset);
      if key.None? {
        return InvalidParameters;
      }
      var k := key.value;
      var data := GetPaginatedData(k.startLat, k.startLon, k.latChunk, k.lonChunk, k.dataset);
      if data.Some? {
        resp := Found(data.value);
      } else {
        resp := NotFound;
      }
    }
  }

  /** Two identical requests in a row: the second is a cache hit that
      returns the first's result and leaves the cache as the first left it. */
  method RepeatedQuery(service: DataService, k: CacheKey) returns (first: Option<Page>, second: Option<Page>)
    requires service.Valid()
    modifies service
    ensures service.Valid()
    ensures first == second
    ensures first.Some? ==> service.cache == old(service.cache)[k := first.value]
    ensures first.None? ==> service.cache == old(service.cache)
  {
    first := service.GetPaginatedData(k.startLat, k.startLon, k.latChunk, k.lonChunk, k.dataset);
    second := service.GetPaginatedData(k.startLat, k.startLon, k.latChunk, k.lonChunk, k.dataset);
  }
}
