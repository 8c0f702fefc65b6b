/**
 * Exact-match catalog search (manifold/exactsearch.py): parsing catalog entries
 * with their optional purchase information and InChIKey match, classifying the
 * single-query response, filtering exact matches, and the batched search.
 */
module ExactSearchApi {
  import opened Json
  import opened ManifoldCore

  datatype InchiKeyMatches = InchiKeyMatches(isExact: bool, parent: bool, connectivity: bool)

  /** The lead time and the price range are kept as decoded; the flags are their truthiness. */
  datatype PurchaseInfo =
    PurchaseInfo(leadTimeWeeks: Json, priceInformation: Json, isBuildingBlock: bool, isScreening: bool)

  datatype CatalogEntry = CatalogEntry(
    supplier: Json,
    id: Json,
    smiles: Json,
    link: Json,
    purchaseInfo: Option<PurchaseInfo>,
    inchiMatch: Option<InchiKeyMatches>)

  /** Whether a purchase-info dict carries all four fields the record needs. */
  predicate HasPurchaseFields(item: Json) {
    && Has(item, "scrLeadTimeWeeks")
    && Has(item, "scrPriceRange")
    && Has(item, "isBuildingBlock")
    && Has(item, "isScreening")
  }

  /** The four subscripts of the `try` block, in source order. */
  function ReadPurchaseInfo(item: Json): Result<PurchaseInfo> {
    var leadTime :- Lookup(item, "scrLeadTimeWeeks");
    var price :- Lookup(item, "scrPriceRange");
    var buildingBlock :- Lookup(item, "isBuildingBlock");
    var screening :- Lookup(item, "isScreening");
    Success(PurchaseInfo(leadTime, price, Truthy(buildingBlock), Truthy(screening)))
  }

  /**
   * parse_supplier_purchase_information: a missing field makes the whole record
   * absent (the KeyError is caught); only a value that is not a dict raises.
   */
  function ParsePurchaseInfo(item: Json): (r: Result<Option<PurchaseInfo>>)
    ensures r.Failure? <==> !item.Object?
    ensures r.Failure? ==> r.error == TypeMismatch
    ensures r.Success? ==> (r.value.Some? <==> HasPurchaseFields(item))
    ensures r.Success? && r.value.Some? ==>
              var f := item.fields;
              r.value.value == PurchaseInfo(f["scrLeadTimeWeeks"], f["scrPriceRange"],
                                            Truthy(f["isBuildingBlock"]), Truthy(f["isScreening"]))
  {
    match ReadPurchaseInfo(item)
    case Success(info) => Success(Some(info))
    case Failure(KeyError(_)) => Success(None)
    case Failure(e) => Failure(e)
  }

  /**
   * _parse_inchi_matches: each of the three fields is required; the first one
   * missing, in the order exact, parent, connectivity, is the KeyError raised.
   */
  function ParseInchiMatches(v: Json): (r: Result<InchiKeyMatches>)
    ensures r.Success? <==> Has(v, "exact") && Has(v, "parent") && Has(v, "connectivity")
    ensures r.Success? ==>
              r.value == InchiKeyMatches(Truthy(v.fields["exact"]), Truthy(v.fields["parent"]),
                                         Truthy(v.fields["connectivity"]))
    ensures !v.Object? ==> r == Failure(TypeMismatch)
    ensures v.Object? && !Has(v, "exact") ==> r == Failure(KeyError("exact"))
    ensures Has(v, "exact") && !Has(v, "parent") ==> r == Failure(KeyError("parent"))
    ensures Has(v, "exact") && Has(v, "parent") && !Has(v, "connectivity") ==>
              r == Failure(KeyError("connectivity"))
  {
    var exact :- Lookup(v, "exact");
    var parent :- Lookup(v, "parent");
    var connectivity :- Lookup(v, "connectivity");
    Success(InchiKeyMatches(Truthy(exact), Truthy(parent), Truthy(connectivity)))
  }

  /** One iteration of the loop in _parse_catalog_entries. */
  function ParseCatalogEntry(item: Json): (r: Result<CatalogEntry>)
    ensures r.Failure? ==> r.error.TypeMismatch? || r.error.KeyError?
    ensures !item.Object? ==> r == Failure(TypeMismatch)
    ensures item.Object? ==>
              var f := item.fields;
              r.Failure? <==>
                || (Optional(f, "inchikeyMatches").Some? && ParseInchiMatches(f["inchikeyMatches"]).Failure?)
                || (Optional(f, "purchaseInfo").Some? && !f["purchaseInfo"].Object?)
    ensures r.Success? ==>
              var f := item.fields;
              && ("catalogName" in f ==> r.value.supplier == f["catalogName"])
              && ("catalogName" !in f ==> r.value.supplier == Str("N/A"))
              && ("catalogId" in f ==> r.value.id == f["catalogId"])
              && ("catalogId" !in f ==> r.value.id == Str("N/A"))
              && ("link" in f ==> r.value.link == f["link"])
              && ("link" !in f ==> r.value.link == Str("N/A"))
              && ("smiles" in f ==> r.value.smiles == f["smiles"])
              && ("smiles" !in f ==> r.value.smiles == Str(""))
    ensures r.Success? ==>
              var f := item.fields;
              && (r.value.inchiMatch.None? <==> Optional(f, "inchikeyMatches").None?)
              && (r.value.inchiMatch.Some? ==>
                    ParseInchiMatches(f["inchikeyMatches"]) == Success(r.value.inchiMatch.value))
    ensures r.Success? ==>
              var f := item.fields;
              && (r.value.purchaseInfo.None? <==>
                    Optional(f, "purchaseInfo").None? || !HasPurchaseFields(f["purchaseInfo"]))
              && (r.value.purchaseInfo.Some? ==>
                    ParsePurchaseInfo(f["purchaseInfo"]) == Success(r.value.purchaseInfo))
  {
    match item
    case Object(f) =>
      var matches :-
        if Optional(f, "inchikeyMatches").Some? then Optionally(ParseInchiMatches(f["inchikeyMatches"]))
        else Success(None);
      var purchase :-
        if Optional(f, "purchaseInfo").Some? then ParsePurchaseInfo(f["purchaseInfo"])
        else Success(None);
      Success(CatalogEntry(Get(f, "catalogName", Str("N/A")), Get(f, "catalogId", Str("N/A")),
                           Get(f, "smiles", Str("")), Get(f, "link", Str("N/A")), purchase, matches))
    case _ => Failure(TypeMismatch)
  }

  /** What _parse_catalog_entries returns or raises for the value it iterates. */
  function CatalogEntries(values: Json): (r: Result<seq<CatalogEntry>>)
    ensures r.Failure? ==> r.error.TypeMismatch? || r.error.KeyError?
  {
    var items :- AsList(values);
    TraverseRaisesStepError(items, ParseCatalogEntry);
    Traverse(items, ParseCatalogEntry)
  }

  /**
   * One entry per item, in input order; the list is returned exactly when no
   * item raises.
   */
  lemma CatalogEntriesAligned(items: seq<Json>)
    ensures CatalogEntries(Array(items)).Success? <==>
              forall i | 0 <= i < |items| :: ParseCatalogEntry(items[i]).Success?
    ensures CatalogEntries(Array(items)).Success? ==>
              var entries := CatalogEntries(Array(items)).value;
              |entries| == |items| &&
              forall i | 0 <= i < |items| :: ParseCatalogEntry(items[i]) == Success(entries[i])
  {
    TraverseSucceeds(items, ParseCatalogEntry);
  }

  /**
   * An incomplete purchase-info record is dropped but the entry survives; an
   * incomplete InChIKey record fails the whole entry list.
   */
  lemma IncompleteSubrecords(f: map<string, Json>, sub: map<string, Json>)
    requires "connectivity" !in sub && "isScreening" !in sub
    ensures var withPurchase := Object(f["purchaseInfo" := Object(sub)] - {"inchikeyMatches"});
      var r := CatalogEntries(Array([withPurchase]));
      r.Success? && r.value[0].purchaseInfo.None?
    ensures var withMatch := Object(f["inchikeyMatches" := Object(sub)]);
      CatalogEntries(Array([withMatch])).Failure?
  {
    var withPurchase := Object(f["purchaseInfo" := Object(sub)] - {"inchikeyMatches"});
    assert !HasPurchaseFields(Object(sub));
    assert ParseCatalogEntry(withPurchase).Success?;
    CatalogEntriesAligned([withPurchase]);
    var withMatch := Object(f["inchikeyMatches" := Object(sub)]);
    assert ParseInchiMatches(Object(sub)).Failure?;
    assert ParseCatalogEntry(withMatch).Failure?;
    CatalogEntriesAligned([withMatch]);
  }

  /** _parse_catalog_entries: the loop appending one entry per item. */
  method ParseCatalogEntries(values: Json) returns (r: Result<seq<CatalogEntry>>)
    ensures r == CatalogEntries(values)
  {
    if !values.Array? {
      return Failure(TypeMismatch);
    }
    var items := values.items;
    var entries: seq<CatalogEntry> := [];
    for i := 0 to |items|
      invariant |entries| == i
      invariant forall k | 0 <= k < i :: ParseCatalogEntry(items[k]) == Success(entries[k])
    {
      var entry := ParseCatalogEntry(items[i]);
      if entry.Failure? {
        TraverseFails(items, ParseCatalogEntry, i);
        return Failure(entry.error);
      }
      entries := entries + [entry.value];
    }
    TraverseSucceeds(items, ParseCatalogEntry);
    assert Traverse(items, ParseCatalogEntry).value == entries;
    assert CatalogEntries(values) == Traverse(items, ParseCatalogEntry);
    r := Success(entries);
  }

  /**
   * The response handling of ExactSearch.__init__. An undecodable body and
   * status 500 give no entries, 422 raises InvalidSmilesError(body["error"]),
   * anything else parses body["results"] (no results key: no entries). There
   * is no check for a rate-limit `detail` key.
   */
  function ExactSearchResponse(status: int, body: Decoded): (r: Result<seq<CatalogEntry>>)
    ensures body.Undecodable? || status == 500 ==> r == Success([])
    ensures body.Parsed? && status == 422 ==> r.Failure?
    ensures body.Parsed? && status == 422 && Has(body.json, "error") ==>
              r == Failure(InvalidSmiles(body.json.fields["error"]))
    ensures r.Failure? && r.error.InvalidSmiles? ==> status == 422
    ensures r.Failure? ==> !r.error.TooManyRequests?
    ensures body.Parsed? && status != 422 && status != 500 && body.json.Object? ==>
              r == CatalogEntries(Get(body.json.fields, "results", Array([])))
  {
    match body
    case Undecodable => Success([])
    case Parsed(json) =>
      if status == 422 then
        var message :- Lookup(json, "error");
        Failure(InvalidSmiles(message))
      else if status == 500 then Success([])
      else
        var values :- GetOr(json, "results", Array([]));
        CatalogEntries(values)
  }

  /** Whether an entry's InChIKey match is present and exact. */
  predicate IsExact(entry: CatalogEntry) {
    entry.inchiMatch.Some? && entry.inchiMatch.value.isExact
  }

  /** The entries result_exact_matches keeps. */
  function ExactMatches(entries: seq<CatalogEntry>): seq<CatalogEntry> {
    if entries == [] then []
    else (if IsExact(entries[0]) then [entries[0]] else []) + ExactMatches(entries[1..])
  }

  /** Filtering respects concatenation, so the kept entries stay in their original order. */
  lemma {:induction false} ExactMatchesAppend(a: seq<CatalogEntry>, b: seq<CatalogEntry>)
    ensures ExactMatches(a + b) == ExactMatches(a) + ExactMatches(b)
  {
    if a != [] {
      assert (a + b)[1..] == a[1..] + b;
      ExactMatchesAppend(a[1..], b);
    } else {
      assert a + b == b;
    }
  }

  /** Exactly the exact matches are kept, and nothing is invented. */
  lemma {:induction false} ExactMatchesMembers(entries: seq<CatalogEntry>)
    ensures forall e :: e in ExactMatches(entries) <==> e in entries && IsExact(e)
    ensures |ExactMatches(entries)| <= |entries|
  {
    if entries != [] {
      ExactMatchesMembers(entries[1..]);
      assert entries == [entries[0]] + entries[1..];
    }
  }

  /** The single-query wrapper: its result list is set once, at construction. */
  class ExactSearch {
    const manifold: Manifold
    const smiles: string
    var results: seq<CatalogEntry>

    constructor (smiles: string, apiKey: string)
      ensures this.smiles == smiles && manifold.ApiKey() == apiKey && results == []
    {
      this.smiles := smiles;
      manifold := new Manifold(apiKey);
      results := [];
    }

    /**
     * ExactSearch.__init__ given the status code and decoded body of the
     * response: the object exactly when the response does not raise.
     */
    static method Create(smiles: string, apiKey: string, status: int, body: Decoded)
      returns (r: Result<ExactSearch>)
      ensures r.Success? <==> ExactSearchResponse(status, body).Success?
      ensures r.Failure? ==> r.error == ExactSearchResponse(status, body).error
      ensures r.Success? ==>
                && fresh(r.value)
                && r.value.smiles == smiles
                && r.value.manifold.ApiKey() == apiKey
                && r.value.results == ExactSearchResponse(status, body).value
    {
      var search := new ExactSearch(smiles, apiKey);
      match body {
        case Undecodable =>
          search.results := [];
        case Parsed(json) =>
          if status == 422 {
            var message := Lookup(json, "error");
            if message.Failure? {
              return Failure(message.error);
            }
            return Failure(InvalidSmiles(message.value));
          } else if status == 500 {
            search.results := [];
          } else {
            var values := GetOr(json, "results", Array([]));
            if values.Failure? {
              return Failure(values.error);
            }
            var entries := ParseCatalogEntries(values.value);
            if entries.Failure? {
              return Failure(entries.error);
            }
            search.results := entries.value;
          }
      }
      r := Success(search);
    }

    /** result_exact_matches: the exact matches among the results, in their original order. */
    method ResultExactMatches() returns (exact: seq<CatalogEntry>)
      ensures exact == ExactMatches(results)
      ensures forall e :: e in exact <==> e in results && IsExact(e)
    {
      exact := [];
      for i := 0 to |results|
        invariant exact == ExactMatches(results[..i])
      {
        var entry := results[i];
        assert results[..i + 1] == results[..i] + [entry];
        ExactMatchesAppend(results[..i], [entry]);
        assert ExactMatches([entry]) == if IsExact(entry) then [entry] else [] by {
          assert [entry][1..] == [];
        }
        if entry.inchiMatch.Some? && entry.inchiMatch.value.isExact {
          exact := exact + [entry];
        }
      }
      assert results[..|results|] == results;
      ExactMatchesMembers(results);
    }
  }

  const MaxBatchSize: nat := 1000

  /**
   * One item of a batch response: an item reporting an error gives an empty
   * list, any other item the entries parsed from its catalogEntries.
   */
  function BatchItem(item: Json): (r: Result<seq<CatalogEntry>>)
    ensures Has(item, "error") ==> r == Success([])
    ensures !Has(item, "error") && Has(item, "catalogEntries") ==>
              r == CatalogEntries(item.fields["catalogEntries"])
    ensures item.Object? && !Has(item, "error") && !Has(item, "catalogEntries") ==>
              r == Failure(KeyError("catalogEntries"))
    ensures !item.Object? ==> r == Failure(TypeMismatch)
  {
    if Has(item, "error") then Success([])
    else
      var entries :- Lookup(item, "catalogEntries");
      CatalogEntries(entries)
  }

  /**
   * One list per item of one batch response's results, in order. The body is
   * decoded without a guard, and `results` is required.
   */
  function BatchBody(body: Decoded): (r: Result<seq<seq<CatalogEntry>>>)
    ensures body.Undecodable? ==> r == Failure(DecodeError)
    ensures body.Parsed? && body.json.Object? && !Has(body.json, "results") ==> r == Failure(KeyError("results"))
    ensures r.Success? ==>
              && body.Parsed? && Has(body.json, "results") && body.json.fields["results"].Array?
              && |r.value| == |body.json.fields["results"].items|
  {
    var json :- DecodeBody(body);
    var results :- Lookup(json, "results");
    var items :- AsList(results);
    Traverse(items, BatchItem)
  }

  /** Each list comes from the item in the same place; the batch fails exactly when some item does. */
  lemma BatchBodyAligned(f: map<string, Json>, items: seq<Json>)
    requires "results" in f && f["results"] == Array(items)
    ensures var r := BatchBody(Parsed(Object(f)));
      && (r.Success? <==> forall i | 0 <= i < |items| :: BatchItem(items[i]).Success?)
      && (r.Success? ==> forall i | 0 <= i < |items| :: BatchItem(items[i]) == Success(r.value[i]))
  {
    TraverseSucceeds(items, BatchItem);
  }

  /** The per-item loop over one decoded batch response. */
  method ParseBatchBody(body: Decoded) returns (r: Result<seq<seq<CatalogEntry>>>)
    ensures r == BatchBody(body)
  {
    if body.Undecodable? {
      return Failure(DecodeError);
    }
    var returnValues := Lookup(body.json, "results");
    if returnValues.Failure? {
      return Failure(returnValues.error);
    }
    var items := AsList(returnValues.value);
    if items.Failure? {
      return Failure(items.error);
    }
    var lists: seq<seq<CatalogEntry>> := [];
    for j := 0 to |items.value|
      invariant |lists| == j
      invariant forall t | 0 <= t < j :: BatchItem(items.value[t]) == Success(lists[t])
    {
      var item := items.value[j];
      if Has(item, "error") {
        lists := lists + [[]];
      } else {
        var catalogEntries := Lookup(item, "catalogEntries");
        if catalogEntries.Failure? {
          TraverseFails(items.value, BatchItem, j);
          return Failure(catalogEntries.error);
        }
        var entries := ParseCatalogEntries(catalogEntries.value);
        if entries.Failure? {
          TraverseFails(items.value, BatchItem, j);
          return Failure(entries.error);
        }
        lists := lists + [entries.value];
      }
    }
    TraverseSucceeds(items.value, BatchItem);
    assert Traverse(items.value, BatchItem).value == lists;
    r := Success(lists);
  }

  /** The lists of all batch responses, concatenated in batch order; the first failing batch stops it. */
  function SearchBatches(bodies: seq<Decoded>): Result<seq<seq<CatalogEntry>>> {
    if bodies == [] then Success([])
    else Join(BatchBody(bodies[0]), SearchBatches(bodies[1..]))
  }

  /** Searching two runs of batches is searching the first, then the second. */
  lemma {:induction false} SearchBatchesAppend(a: seq<Decoded>, b: seq<Decoded>)
    ensures SearchBatches(a + b) == Join(SearchBatches(a), SearchBatches(b))
  {
    if a == [] {
      assert a + b == b;
      match SearchBatches(b)
      case Success(ys) => assert [] + ys == ys;
      case Failure(_) =>
    } else {
      assert (a + b)[0] == a[0];
      assert (a + b)[1..] == a[1..] + b;
      SearchBatchesAppend(a[1..], b);
      JoinAssociative(BatchBody(a[0]), SearchBatches(a[1..]), SearchBatches(b));
    }
  }

  /** A batch that raises ends the search with its error once all earlier batches succeeded. */
  lemma SearchBatchesFailsAt(bodies: seq<Decoded>, k: int)
    requires 0 <= k < |bodies|
    requires SearchBatches(bodies[..k]).Success?
    requires BatchBody(bodies[k]).Failure?
    ensures SearchBatches(bodies) == Failure(BatchBody(bodies[k]).error)
  {
    assert bodies == bodies[..k] + bodies[k..];
    SearchBatchesAppend(bodies[..k], bodies[k..]);
  }

  /** What ExactSearchBatch computes for `smiles` when `post` answers each batch. */
  function ExactSearchBatchResults(smiles: seq<string>, post: seq<string> -> Decoded): Result<seq<seq<CatalogEntry>>> {
    SearchBatches(PostAll(Chunks(smiles, MaxBatchSize), post))
  }

  /** The batched wrapper: one list of entries per query, appended batch by batch. */
  class ExactSearchBatch {
    const manifold: Manifold
    const smiles: seq<string>
    var results: seq<seq<CatalogEntry>>

    constructor (smiles: seq<string>, apiKey: string)
      ensures this.smiles == smiles && manifold.ApiKey() == apiKey && results == []
    {
      this.smiles := smiles;
      manifold := new Manifold(apiKey);
      results := [];
    }

    /**
     * ExactSearchBatch.__init__, with `post` standing for the request of one
     * batch and the body it returns.
     */
    static method Create(smiles: seq<string>, apiKey: string, post: seq<string> -> Decoded)
      returns (r: Result<ExactSearchBatch>)
      ensures r.Success? <==> ExactSearchBatchResults(smiles, post).Success?
      ensures r.Failure? ==> r.error == ExactSearchBatchResults(smiles, post).error
      ensures r.Success? ==>
                && fresh(r.value)
                && r.value.smiles == smiles
                && r.value.manifold.ApiKey() == apiKey
                && r.value.results == ExactSearchBatchResults(smiles, post).value
    {
      var search := new ExactSearchBatch(smiles, apiKey);
      var batches := MakeBatches(smiles, MaxBatchSize);
      ghost var bodies := PostAll(batches, post);
      for k := 0 to |batches|
        invariant SearchBatches(bodies[..k]) == Success(search.results)
      {
        var body := post(batches[k]);
        assert body == bodies[k];
        var lists := ParseBatchBody(body);
        if lists.Failure? {
          SearchBatchesFailsAt(bodies, k);
          return Failure(lists.error);
        }
        assert bodies[..k + 1] == bodies[..k] + [bodies[k]];
        SearchBatchesAppend(bodies[..k], [bodies[k]]);
        assert SearchBatches([bodies[k]]) == BatchBody(bodies[k]) by {
          assert [bodies[k]][1..] == [];
          assert lists.value + [] == lists.value;
        }
        search.results := search.results + lists.value;
      }
      assert bodies[..|batches|] == bodies;
      r := Success(search);
    }
  }

  /**
   * The difference from the synthetic-accessibility classifier: a status-200
   * body holding only a rate-limit `detail` is not an error here, just no entries.
   */
  lemma DetailIsNotChecked(detail: Json)
    ensures ExactSearchResponse(200, Parsed(Object(map["detail" := detail]))) == Success([])
  {
  }

  /** 2500 queries go out as three batches of 1000, 1000 and 500. */
  lemma BatchSizesExample(smiles: seq<string>)
    requires |smiles| == 2500
    ensures var batches := Chunks(smiles, MaxBatchSize);
      |batches| == 3 && |batches[0]| == 1000 && |batches[1]| == 1000 && |batches[2]| == 500
  {
    ChunksCount(smiles, MaxBatchSize);
    ChunksSizes(smiles, MaxBatchSize);
    ChunksFlatten(smiles, MaxBatchSize);
    var batches := Chunks(smiles, MaxBatchSize);
    assert Flatten(batches) == batches[0] + Flatten(batches[1..]);
    assert Flatten(batches[1..]) == batches[1] + Flatten(batches[2..]);
    assert Flatten(batches[2..]) == batches[2] + Flatten(batches[3..]);
    assert batches[3..] == [];
  }
}
