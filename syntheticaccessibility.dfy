/**
 * Synthetic-accessibility scoring (manifold/syntheticaccessibility.py): the two
 * response shapes of one score, the per-item list parser, the single-query
 * classifier, the batched parser, and the projection to plain scores.
 */
module SyntheticAccessibilityApi {
  import opened Json
  import opened ManifoldCore

  /** A score with its optional step count, alert level and supporting URL; values kept as decoded. */
  datatype AccessibilityResult =
    AccessibilityResult(score: Json, numSteps: Option<Json>, warning: Option<Json>, url: Option<Json>)

  /** The two scoring algorithms; they differ in endpoint and in batch size. */
  datatype Algorithm = Fast | RetroSynthesis

  /** MAX_BATCH_SIZE of the two batch wrappers. */
  function MaxBatchSize(algorithm: Algorithm): (n: nat)
    ensures algorithm == Fast ==> n == 100
    ensures algorithm == RetroSynthesis ==> n == 10
  {
    match algorithm
    case Fast => 100
    case RetroSynthesis => 10
  }

  /**
   * parse_synthetic_accessibility: the fast shape (`fastSAScore`, URL from
   * `SAAlertImgURL`) is tried before the retrosynthesis shape (`score`, URL from
   * `manifoldLink`); a record with neither raises.
   */
  function ParseSyntheticAccessibility(entry: Json): (r: Result<AccessibilityResult>)
    ensures !entry.Object? ==> r == Failure(TypeMismatch)
    ensures entry.Object? ==>
              (r.Success? <==> "fastSAScore" in entry.fields || "score" in entry.fields)
    ensures r.Failure? && entry.Object? ==> r.error == NoAccessibilityShape
    ensures r.Success? ==>
              var f := entry.fields;
              && r.value.numSteps == Optional(f, "minNumSteps")
              && r.value.warning == Optional(f, "SAAlertLevel")
    ensures r.Success? && "fastSAScore" in entry.fields ==>
              r.value.score == entry.fields["fastSAScore"] &&
              r.value.url == Optional(entry.fields, "SAAlertImgURL")
    ensures r.Success? && "fastSAScore" !in entry.fields ==>
              r.value.score == entry.fields["score"] &&
              r.value.url == Optional(entry.fields, "manifoldLink")
  {
    match entry
    case Object(f) =>
      var numSteps := Optional(f, "minNumSteps");
      var warning := Optional(f, "SAAlertLevel");
      if "fastSAScore" in f then
        Success(AccessibilityResult(f["fastSAScore"], numSteps, warning, Optional(f, "SAAlertImgURL")))
      else if "score" in f then
        Success(AccessibilityResult(f["score"], numSteps, warning, Optional(f, "manifoldLink")))
      else
        Failure(NoAccessibilityShape)
    case _ => Failure(TypeMismatch)
  }

  /** A record of the fast shape parses the same whether or not it also carries `score`. */
  lemma FastShapeWins(f: map<string, Json>)
    requires "fastSAScore" in f
    ensures ParseSyntheticAccessibility(Object(f)) == ParseSyntheticAccessibility(Object(f - {"score"}))
  {
  }

  /**
   * One iteration of parse_synthetic_accessibilities: an item without `SAData`
   * gives None; otherwise its `SAData` is parsed, and a parse error escapes.
   */
  function ParseItem(item: Json): (r: Result<Option<AccessibilityResult>>)
    ensures !item.Object? ==> r == Failure(TypeMismatch)
    ensures r.Success? ==> (r.value.None? <==> item.Object? && "SAData" !in item.fields)
    ensures item.Object? && "SAData" !in item.fields ==> r == Success(None)
    ensures item.Object? && "SAData" in item.fields ==>
              r == Optionally(ParseSyntheticAccessibility(item.fields["SAData"]))
  {
    match item
    case Object(f) =>
      if "SAData" in f then Optionally(ParseSyntheticAccessibility(f["SAData"])) else Success(None)
    case _ => Failure(TypeMismatch)
  }

  /** What parse_synthetic_accessibilities returns or raises for the value it iterates. */
  function Accessibilities(entries: Json): Result<seq<Option<AccessibilityResult>>> {
    var items :- AsList(entries);
    Traverse(items, ParseItem)
  }

  /**
   * The list lines up with the input: None exactly where an item has no
   * `SAData`, the parsed record everywhere else; it is returned exactly when no
   * item raises.
   */
  lemma AccessibilitiesAligned(items: seq<Json>)
    ensures Accessibilities(Array(items)).Success? <==>
              forall i | 0 <= i < |items| :: ParseItem(items[i]).Success?
    ensures Accessibilities(Array(items)).Success? ==>
              var results := Accessibilities(Array(items)).value;
              && |results| == |items|
              && forall i | 0 <= i < |items| ::
                   && items[i].Object?
                   && (results[i].None? <==> "SAData" !in items[i].fields)
                   && (results[i].Some? ==>
                         ParseSyntheticAccessibility(items[i].fields["SAData"]) == Success(results[i].value))
  {
    TraverseSucceeds(items, ParseItem);
  }

  /** parse_synthetic_accessibilities: the loop appending one optional result per item. */
  method ParseSyntheticAccessibilities(entries: Json) returns (r: Result<seq<Option<AccessibilityResult>>>)
    ensures r == Accessibilities(entries)
  {
    if !entries.Array? {
      return Failure(TypeMismatch);
    }
    var items := entries.items;
    var results: seq<Option<AccessibilityResult>> := [];
    for i := 0 to |items|
      invariant |results| == i
      invariant forall k | 0 <= k < i :: ParseItem(items[k]) == Success(results[k])
    {
      var item := items[i];
      if !item.Object? {
        TraverseFails(items, ParseItem, i);
        return Failure(TypeMismatch);
      }
      if "SAData" !in item.fields {
        results := results + [None];
      } else {
        var value := ParseSyntheticAccessibility(item.fields["SAData"]);
        if value.Failure? {
          TraverseFails(items, ParseItem, i);
          return Failure(value.error);
        }
        results := results + [Some(value.value)];
      }
    }
    TraverseSucceeds(items, ParseItem);
    assert Traverse(items, ParseItem).value == results;
    r := Success(results);
  }

  /**
   * SyntheticAccessibility._parse_response, in its order: an undecodable body or
   * status 500 gives no result, 422 raises InvalidSmilesError(body["error"]), a
   * `detail` key raises TooManyRequestsError(body["detail"]) whatever the
   * status, and anything else is parsed as one record.
   */
  function SingleResponse(status: int, body: Decoded): (r: Result<Option<AccessibilityResult>>)
    ensures body.Undecodable? || status == 500 ==> r == Success(None)
    ensures body.Parsed? && status == 422 ==> r.Failure?
    ensures body.Parsed? && status == 422 && Has(body.json, "error") ==>
              r == Failure(InvalidSmiles(body.json.fields["error"]))
    ensures body.Parsed? && status != 422 && status != 500 && Has(body.json, "detail") ==>
              r == Failure(TooManyRequests(body.json.fields["detail"]))
    ensures r.Failure? && r.error.InvalidSmiles? ==> status == 422
    ensures r.Failure? && r.error.TooManyRequests? ==> status != 422 && status != 500
    ensures body.Parsed? && status != 422 && status != 500 && !Has(body.json, "detail") ==>
              r == Optionally(ParseSyntheticAccessibility(body.json))
    ensures r.Success? && r.value.Some? ==>
              && body.Parsed? && status != 422 && status != 500 && !Has(body.json, "detail")
              && ParseSyntheticAccessibility(body.json) == Success(r.value.value)
  {
    match body
    case Undecodable => Success(None)
    case Parsed(json) =>
      if status == 500 then Success(None)
      else if status == 422 then
        var message :- Lookup(json, "error");
        Failure(InvalidSmiles(message))
      else if Has(json, "detail") then Failure(TooManyRequests(json.fields["detail"]))
      else Optionally(ParseSyntheticAccessibility(json))
  }

  /**
   * A `detail` key takes precedence over a body that would otherwise parse as a
   * score, even with status 200.
   */
  lemma DetailTakesPrecedence(f: map<string, Json>)
    requires "detail" in f && "fastSAScore" in f
    ensures ParseSyntheticAccessibility(Object(f)).Success?
    ensures SingleResponse(200, Parsed(Object(f))) == Failure(TooManyRequests(f["detail"]))
  {
  }

  /** 250 queries scored by the fast algorithm go out as batches of 100, 100 and 50. */
  lemma FastBatchSizesExample(smiles: seq<string>)
    requires |smiles| == 250
    ensures var batches := Chunks(smiles, MaxBatchSize(Fast));
      |batches| == 3 && |batches[0]| == 100 && |batches[1]| == 100 && |batches[2]| == 50
  {
    ChunksCount(smiles, MaxBatchSize(Fast));
    ChunksSizes(smiles, MaxBatchSize(Fast));
    ChunksFlatten(smiles, MaxBatchSize(Fast));
    var batches := Chunks(smiles, MaxBatchSize(Fast));
    assert Flatten(batches) == batches[0] + Flatten(batches[1..]);
    assert Flatten(batches[1..]) == batches[1] + Flatten(batches[2..]);
    assert Flatten(batches[2..]) == batches[2] + Flatten(batches[3..]);
    assert batches[3..] == [];
  }

  /** The float `as_floats` reports for one optional result: 1.0 stands in for an absent one. */
  function ScoreOf(result: Option<AccessibilityResult>): Json {
    if result.None? then Number(1.0) else result.value.score
  }

  /**
   * The score reported for an item of a batch response: 1.0 for an item without
   * `SAData`, otherwise the `fastSAScore` of its record, or its `score` when it
   * has no `fastSAScore`.
   */
  lemma ItemScores(items: seq<Json>, i: int)
    requires 0 <= i < |items|
    requires Accessibilities(Array(items)).Success?
    ensures var score := ScoreOf(Accessibilities(Array(items)).value[i]);
      var item := items[i];
      && item.Object?
      && ("SAData" !in item.fields ==> score == Number(1.0))
      && ("SAData" in item.fields ==>
            var data := item.fields["SAData"];
            && data.Object?
            && ("fastSAScore" in data.fields || "score" in data.fields)
            && score == if "fastSAScore" in data.fields then data.fields["fastSAScore"] else data.fields["score"])
  {
    AccessibilitiesAligned(items);
  }

  /** The single-query wrapper: its optional result is set by _parse_response. */
  class SyntheticAccessibility {
    const manifold: Manifold
    const smiles: string
    var results: Option<AccessibilityResult>

    constructor (smiles: string, apiKey: string)
      ensures this.smiles == smiles && manifold.ApiKey() == apiKey && results == None
    {
      this.smiles := smiles;
      manifold := new Manifold(apiKey);
      results := None;
    }

    /**
     * _parse_response: sets the result, or reports the exception and leaves the
     * result as it was.
     */
    method ParseResponse(status: int, body: Decoded) returns (err: Option<Error>)
      modifies this
      ensures SingleResponse(status, body).Success? ==>
                err == None && results == SingleResponse(status, body).value
      ensures SingleResponse(status, body).Failure? ==>
                err == Some(SingleResponse(status, body).error) && results == old(results)
    {
      err := None;
      match body {
        case Undecodable =>
          results := None;
        case Parsed(json) =>
          if status == 500 {
            results := None;
          } else if status == 422 {
            var message := Lookup(json, "error");
            if message.Failure? {
              return Some(message.error);
            }
            return Some(InvalidSmiles(message.value));
          } else {
            if Has(json, "detail") {
              return Some(TooManyRequests(json.fields["detail"]));
            }
            var parsed := ParseSyntheticAccessibility(json);
            if parsed.Failure? {
              return Some(parsed.error);
            }
            results := Some(parsed.value);
          }
      }
    }

    /** as_floats: 1.0 when there is no result, the score otherwise. */
    function AsFloats(): (score: Json)
      reads this
      ensures results.None? ==> score == Number(1.0)
      ensures results.Some? ==> score == results.value.score
    {
      ScoreOf(results)
    }

    /**
     * The constructor of either single-query wrapper, given the status code and
     * decoded body of its response.
     */
    static method Create(smiles: string, apiKey: string, status: int, body: Decoded)
      returns (r: Result<SyntheticAccessibility>)
      ensures r.Success? <==> SingleResponse(status, body).Success?
      ensures r.Failure? ==> r.error == SingleResponse(status, body).error
      ensures r.Success? ==>
                && fresh(r.value)
                && r.value.smiles == smiles
                && r.value.manifold.ApiKey() == apiKey
                && r.value.results == SingleResponse(status, body).value
    {
      var sa := new SyntheticAccessibility(smiles, apiKey);
      var err := sa.ParseResponse(status, body);
      if err.Some? {
        return Failure(err.value);
      }
      r := Success(sa);
    }
  }

  /**
   * One response of a batch: its `results` list parsed; without `results`, a
   * `detail` raises TooManyRequestsError and anything else a KeyError.
   */
  function ResponseResults(response: Json): (r: Result<seq<Option<AccessibilityResult>>>)
    ensures Has(response, "results") ==> r == Accessibilities(response.fields["results"])
    ensures response.Object? && !Has(response, "results") && Has(response, "detail") ==>
              r == Failure(TooManyRequests(response.fields["detail"]))
    ensures response.Object? && !Has(response, "results") && !Has(response, "detail") ==>
              r == Failure(KeyError("results"))
    ensures !response.Object? ==> r == Failure(TypeMismatch)
  {
    match response
    case Object(f) =>
      if "results" in f then Accessibilities(f["results"])
      else if "detail" in f then Failure(TooManyRequests(f["detail"]))
      else Failure(KeyError("results"))
    case _ => Failure(TypeMismatch)
  }

  /** How far _parse_response gets: what it has appended, and the exception that stopped it. */
  datatype BatchProgress = BatchProgress(parsed: seq<Option<AccessibilityResult>>, failure: Option<Error>)

  function ParseBatches(responses: seq<Json>): BatchProgress {
    if responses == [] then BatchProgress([], None)
    else
      match ResponseResults(responses[0])
      case Failure(e) => BatchProgress([], Some(e))
      case Success(results) =>
        var rest := ParseBatches(responses[1..]);
        BatchProgress(results + rest.parsed, rest.failure)
  }

  /**
   * Responses are handled in order and the first failing one stops the rest:
   * parsing two runs of responses is parsing the first and, if it completed,
   * the second after it.
   */
  lemma {:induction false} ParseBatchesAppend(a: seq<Json>, b: seq<Json>)
    ensures ParseBatches(a + b) ==
              if ParseBatches(a).failure.Some? then ParseBatches(a)
              else BatchProgress(ParseBatches(a).parsed + ParseBatches(b).parsed, ParseBatches(b).failure)
  {
    if a == [] {
      assert a + b == b;
    } else {
      assert (a + b)[0] == a[0];
      assert (a + b)[1..] == a[1..] + b;
      ParseBatchesAppend(a[1..], b);
      match ResponseResults(a[0])
      case Failure(_) =>
      case Success(results) =>
        var pa := ParseBatches(a[1..]);
        assert results + (pa.parsed + ParseBatches(b).parsed) == (results + pa.parsed) + ParseBatches(b).parsed;
    }
  }

  /** The parse completes exactly when every response carries a parseable `results` list. */
  lemma {:induction false} ParseBatchesCompletes(responses: seq<Json>)
    ensures ParseBatches(responses).failure.None? <==>
              forall i | 0 <= i < |responses| :: ResponseResults(responses[i]).Success?
  {
    if responses != [] {
      ParseBatchesCompletes(responses[1..]);
      assert forall i | 1 <= i < |responses| :: responses[1..][i - 1] == responses[i];
    }
  }

  /** The decoded bodies of posting each batch, or the first decode error. */
  function CollectResponses(batches: seq<seq<string>>, post: seq<string> -> Decoded): Result<seq<Json>> {
    Traverse(PostAll(batches, post), DecodeBody)
  }

  /** What the batched wrapper's constructor yields for `smiles` when `post` answers each batch. */
  function BatchOutcome(smiles: seq<string>, algorithm: Algorithm, post: seq<string> -> Decoded)
    : Result<seq<Option<AccessibilityResult>>>
  {
    var responses :- CollectResponses(Chunks(smiles, MaxBatchSize(algorithm)), post);
    var progress := ParseBatches(responses);
    if progress.failure.Some? then Failure(progress.failure.value) else Success(progress.parsed)
  }

  /** The batched wrapper for either algorithm, selected by a tag instead of a subclass. */
  class SyntheticAccessibilityBatch {
    const manifold: Manifold
    const smiles: seq<string>
    const algorithm: Algorithm
    var results: seq<Option<AccessibilityResult>>

    constructor (smiles: seq<string>, apiKey: string, algorithm: Algorithm)
      ensures this.smiles == smiles && this.algorithm == algorithm
      ensures manifold.ApiKey() == apiKey && results == []
    {
      this.smiles := smiles;
      this.algorithm := algorithm;
      manifold := new Manifold(apiKey);
      results := [];
    }

    /**
     * _setup_requests: one request per batch of MAX_BATCH_SIZE queries, in
     * order; a body that does not decode raises.
     */
    method SetupRequests(post: seq<string> -> Decoded) returns (r: Result<seq<Json>>)
      ensures r == CollectResponses(Chunks(smiles, MaxBatchSize(algorithm)), post)
    {
      var batches := MakeBatches(smiles, MaxBatchSize(algorithm));
      ghost var bodies := PostAll(batches, post);
      var responses: seq<Json> := [];
      for k := 0 to |batches|
        invariant |responses| == k
        invariant forall t | 0 <= t < k :: DecodeBody(bodies[t]) == Success(responses[t])
      {
        var response := post(batches[k]);
        assert response == bodies[k];
        if response.Undecodable? {
          TraverseFails(bodies, DecodeBody, k);
          return Failure(DecodeError);
        }
        responses := responses + [response.json];
      }
      TraverseSucceeds(bodies, DecodeBody);
      assert Traverse(bodies, DecodeBody).value == responses;
      r := Success(responses);
    }

    /**
     * _parse_response: extends the results with each response's list in turn,
     * so a failing response leaves the lists of the earlier ones in place.
     */
    method ParseResponse(responses: seq<Json>) returns (err: Option<Error>)
      modifies this
      ensures results == old(results) + ParseBatches(responses).parsed
      ensures err == ParseBatches(responses).failure
    {
      for i := 0 to |responses|
        invariant ParseBatches(responses[..i]).failure.None?
        invariant results == old(results) + ParseBatches(responses[..i]).parsed
      {
        var parsed := ParseOneResponse(responses[i]);
        if parsed.Failure? {
          ParseBatchesStop(responses, i);
          return Some(parsed.error);
        }
        ParseBatchesStep(responses, i);
        results := results + parsed.value;
      }
      assert responses[..|responses|] == responses;
      err := None;
    }

    /** The body of _parse_response's loop for one response, without the extend. */
    static method ParseOneResponse(response: Json) returns (r: Result<seq<Option<AccessibilityResult>>>)
      ensures r == ResponseResults(response)
    {
      if !response.Object? {
        return Failure(TypeMismatch);
      }
      if "results" !in response.fields {
        if "detail" in response.fields {
          return Failure(TooManyRequests(response.fields["detail"]));
        }
        return Failure(KeyError("results"));
      }
      r := ParseSyntheticAccessibilities(response.fields["results"]);
    }

    /** as_floats: one score per result, 1.0 for an absent one. */
    function AsFloats(): (scores: seq<Json>)
      reads this
      ensures |scores| == |results|
      ensures forall i | 0 <= i < |results| ::
                scores[i] == if results[i].None? then Number(1.0) else results[i].value.score
    {
      var rs := results;
      seq(|rs|, i requires 0 <= i < |rs| => ScoreOf(rs[i]))
    }

    /**
     * The constructor of either batched wrapper, with `post` standing for the
     * request of one batch and the body it returns.
     */
    static method Create(smiles: seq<string>, apiKey: string, algorithm: Algorithm, post: seq<string> -> Decoded)
      returns (r: Result<SyntheticAccessibilityBatch>)
      ensures r.Success? <==> BatchOutcome(smiles, algorithm, post).Success?
      ensures r.Failure? ==> r.error == BatchOutcome(smiles, algorithm, post).error
      ensures r.Success? ==>
                && fresh(r.value)
                && r.value.smiles == smiles
                && r.value.algorithm == algorithm
                && r.value.manifold.ApiKey() == apiKey
                && r.value.results == BatchOutcome(smiles, algorithm, post).value
    {
      var batch := new SyntheticAccessibilityBatch(smiles, apiKey, algorithm);
      var responses := batch.SetupRequests(post);
      if responses.Failure? {
        return Failure(responses.error);
      }
      var err := batch.ParseResponse(responses.value);
      if err.Some? {
        return Failure(err.value);
      }
      r := Success(batch);
    }
  }

  /** A response that parses extends what the earlier ones gave. */
  lemma ParseBatchesStep(responses: seq<Json>, i: int)
    requires 0 <= i < |responses|
    requires ParseBatches(responses[..i]).failure.None?
    requires ResponseResults(responses[i]).Success?
    ensures ParseBatches(responses[..i + 1]) ==
              BatchProgress(ParseBatches(responses[..i]).parsed + ResponseResults(responses[i]).value, None)
  {
    var response := responses[i];
    assert responses[..i + 1] == responses[..i] + [response];
    ParseBatchesAppend(responses[..i], [response]);
    assert [response][1..] == [];
    assert ResponseResults(response).value + [] == ResponseResults(response).value;
  }

  /** A response that raises ends the parse with its error, after the lists of all earlier ones. */
  lemma ParseBatchesStop(responses: seq<Json>, i: int)
    requires 0 <= i < |responses|
    requires ParseBatches(responses[..i]).failure.None?
    requires ResponseResults(responses[i]).Failure?
    ensures ParseBatches(responses) ==
              BatchProgress(ParseBatches(responses[..i]).parsed, Some(ResponseResults(responses[i]).error))
  {
    assert responses == responses[..i] + responses[i..];
    ParseBatchesAppend(responses[..i], responses[i..]);
    assert ParseBatches(responses[..i]).parsed + [] == ParseBatches(responses[..i]).parsed;
  }
}
