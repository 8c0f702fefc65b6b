/**
 * The shared part of the Manifold client (manifold/manifold.py): the errors that
 * escape to callers, the base object holding the API key, and `make_batches`.
 * It also states once how Python's subscript and iteration behave on decoded JSON,
 * and what a `for` loop that stops at the first exception computes.
 */
module ManifoldCore {
  import opened Json

  /** The exceptions that reach the caller of a wrapper. */
  datatype Error =
    | InvalidSmiles(message: Json)   // InvalidSmilesError(body["error"]), raised on status 422
    | TooManyRequests(detail: Json)  // TooManyRequestsError(body["detail"])
    | KeyError(key: string)          // a dict subscript on a missing key
    | NoAccessibilityShape           // the ValueError of parse_synthetic_accessibility
    | DecodeError                    // a JSONDecodeError from an unguarded response.json()
    | TypeMismatch                   // TypeError/AttributeError: a non-dict indexed, a non-list iterated

  datatype Result<+T> = Success(value: T) | Failure(error: Error) {
    predicate IsFailure() { Failure? }
    function PropagateFailure<U>(): Result<U> requires Failure? { Failure(error) }
    function Extract(): T requires Success? { value }
  }

  /** `v[key]`: KeyError on a dict without the key, TypeError on anything else. */
  function Lookup(v: Json, key: string): Result<Json> {
    match v
    case Object(fields) => if key in fields then Success(fields[key]) else Failure(KeyError(key))
    case _ => Failure(TypeMismatch)
  }

  /** `v.get(key, default)`: AttributeError on anything but a dict. */
  function GetOr(v: Json, key: string, default: Json): Result<Json> {
    match v
    case Object(fields) => Success(Get(fields, key, default))
    case _ => Failure(TypeMismatch)
  }

  /** The elements `for x in v` visits; only a list is accepted. */
  function AsList(v: Json): Result<seq<Json>> {
    match v
    case Array(items) => Success(items)
    case _ => Failure(TypeMismatch)
  }

  /** `response.json()` where the client does not catch the decode error. */
  function DecodeBody(body: Decoded): Result<Json> {
    match body
    case Undecodable => Failure(DecodeError)
    case Parsed(json) => Success(json)
  }

  /** Turns `x = parse(...)` into the Optional result the record field holds. */
  function Optionally<T>(r: Result<T>): Result<Option<T>> {
    match r
    case Success(v) => Success(Some(v))
    case Failure(e) => Failure(e)
  }

  /**
   * A loop that appends `f(x)` for each `x` of `xs` in order and lets the first
   * exception escape.
   */
  function Traverse<T, U>(xs: seq<T>, f: T -> Result<U>): (r: Result<seq<U>>)
    ensures r.Success? ==> |r.value| == |xs|
  {
    if xs == [] then Success([])
    else
      match f(xs[0])
      case Failure(e) => Failure(e)
      case Success(y) =>
        match Traverse(xs[1..], f)
        case Failure(e) => Failure(e)
        case Success(ys) => Success([y] + ys)
  }

  /** The loop completes exactly when every step does, and then keeps every step's value in place. */
  lemma {:induction false} TraverseSucceeds<T, U>(xs: seq<T>, f: T -> Result<U>)
    ensures Traverse(xs, f).Success? <==> forall i | 0 <= i < |xs| :: f(xs[i]).Success?
    ensures Traverse(xs, f).Success? ==>
              forall i | 0 <= i < |xs| :: Traverse(xs, f).value[i] == f(xs[i]).value
  {
    if xs != [] {
      TraverseSucceeds(xs[1..], f);
      assert forall i | 1 <= i < |xs| :: xs[1..][i - 1] == xs[i];
    }
  }

  /** The loop raises the exception of the first step that raises. */
  lemma {:induction false} TraverseFails<T, U>(xs: seq<T>, f: T -> Result<U>, j: int)
    requires 0 <= j < |xs|
    requires forall i | 0 <= i < j :: f(xs[i]).Success?
    requires f(xs[j]).Failure?
    ensures Traverse(xs, f) == Failure(f(xs[j]).error)
  {
    if j > 0 {
      assert forall i | 0 <= i < j - 1 :: xs[1..][i] == xs[i + 1];
      TraverseFails(xs[1..], f, j - 1);
    }
  }

  /** Any exception the loop raises is one some step raised. */
  lemma {:induction false} TraverseRaisesStepError<T, U>(xs: seq<T>, f: T -> Result<U>)
    ensures Traverse(xs, f).Failure? ==>
              exists i | 0 <= i < |xs| :: f(xs[i]) == Failure(Traverse(xs, f).error)
  {
    if xs != [] && f(xs[0]).Success? {
      TraverseRaisesStepError(xs[1..], f);
      if Traverse(xs, f).Failure? {
        var i :| 0 <= i < |xs[1..]| && f(xs[1..][i]) == Failure(Traverse(xs, f).error);
        assert xs[1..][i] == xs[i + 1];
      }
    }
  }

  /** Running two result-producing steps in sequence and concatenating their lists. */
  function Join<U>(first: Result<seq<U>>, rest: Result<seq<U>>): Result<seq<U>> {
    match first
    case Failure(e) => Failure(e)
    case Success(xs) =>
      match rest
      case Failure(e) => Failure(e)
      case Success(ys) => Success(xs + ys)
  }

  lemma JoinAssociative<U>(x: Result<seq<U>>, y: Result<seq<U>>, z: Result<seq<U>>)
    ensures Join(x, Join(y, z)) == Join(Join(x, y), z)
  {
    if x.Success? && y.Success? && z.Success? {
      assert x.value + (y.value + z.value) == (x.value + y.value) + z.value;
    }
  }

  function Flatten<T>(batches: seq<seq<T>>): seq<T> {
    if batches == [] then [] else batches[0] + Flatten(batches[1..])
  }

  function Min(a: int, b: int): int {
    if a <= b then a else b
  }

  /** The batches `make_batches` produces: consecutive slices of `size` elements, the last one shorter. */
  function Chunks<T>(values: seq<T>, size: nat): seq<seq<T>>
    requires size > 0
    decreases |values|
  {
    if values == [] then []
    else
      var k := Min(size, |values|);
      [values[..k]] + Chunks(values[k..], size)
  }

  /** Concatenating the batches gives back the input, in order. */
  lemma {:induction false} ChunksFlatten<T>(values: seq<T>, size: nat)
    requires size > 0
    ensures Flatten(Chunks(values, size)) == values
    decreases |values|
  {
    if values != [] {
      var k := Min(size, |values|);
      ChunksFlatten(values[k..], size);
      assert Chunks(values, size)[1..] == Chunks(values[k..], size);
      assert values == values[..k] + values[k..];
    }
  }

  /** Every batch but the last holds exactly `size` values; none is empty and none exceeds `size`. */
  lemma {:induction false} ChunksSizes<T>(values: seq<T>, size: nat)
    requires size > 0
    ensures var batches := Chunks(values, size);
      forall i | 0 <= i < |batches| ::
        && 1 <= |batches[i]| <= size
        && (i < |batches| - 1 ==> |batches[i]| == size)
    decreases |values|
  {
    if values != [] {
      var k := Min(size, |values|);
      ChunksSizes(values[k..], size);
      var batches := Chunks(values, size);
      assert batches[1..] == Chunks(values[k..], size);
      assert forall i | 1 <= i < |batches| :: batches[i] == batches[1..][i - 1];
    }
  }

  /** A quotient is fixed by the interval its dividend lies in. */
  lemma DivisionByInterval(a: int, n: int, q: int)
    requires n > 0 && q * n <= a < q * n + n
    ensures a / n == q
  {
    var d := a / n - q;
    assert a == (a / n) * n + a % n;
    assert d * n == (a / n) * n - q * n;
    if d > 0 {
      assert false;
    } else if d < 0 {
      assert false;
    }
  }

  /** How ceil(n / s) steps down when one batch of `s` is taken off `n`. */
  lemma CeilingStep(n: int, s: int)
    requires s > 0 && n >= 0
    ensures (n + s - 1) / s == if n == 0 then 0 else if n <= s then 1 else (n - 1) / s + 1
  {
    if n == 0 {
      DivisionByInterval(s - 1, s, 0);
    } else if n <= s {
      DivisionByInterval(n + s - 1, s, 1);
    } else {
      var q := (n - 1) / s;
      assert n - 1 == q * s + (n - 1) % s;
      assert (q + 1) * s == q * s + s;
      DivisionByInterval(n + s - 1, s, q + 1);
    }
  }

  /** There are ceil(|values| / size) batches. */
  lemma {:induction false} ChunksCount<T>(values: seq<T>, size: nat)
    requires size > 0
    ensures |Chunks(values, size)| == (|values| + size - 1) / size
    decreases |values|
  {
    CeilingStep(|values|, size);
    if |values| > size {
      ChunksCount(values[size..], size);
      assert |values[size..]| + size - 1 == |values| - 1;
    }
  }

  /**
   * make_batches: splits `values` into consecutive batches of `batchSize`, the
   * last one possibly shorter, leaving `values` itself untouched.
   */
  method MakeBatches<T>(values: seq<T>, batchSize: nat) returns (batches: seq<seq<T>>)
    requires batchSize > 0
    ensures batches == Chunks(values, batchSize)
    ensures Flatten(batches) == values
    ensures |batches| == (|values| + batchSize - 1) / batchSize
    ensures forall i | 0 <= i < |batches| ::
              && 1 <= |batches[i]| <= batchSize
              && (i < |batches| - 1 ==> |batches[i]| == batchSize)
  {
    batches := [];
    var i := 0;
    while i < |values|
      invariant 0 <= i
      invariant batches + Chunks(values[Min(i, |values|)..], batchSize) == Chunks(values, batchSize)
      decreases |values| - i
    {
      var rest := values[i..];
      var k := Min(batchSize, |rest|);
      assert Chunks(rest, batchSize) == [rest[..k]] + Chunks(rest[k..], batchSize);
      assert rest[..k] == values[i..Min(i + batchSize, |values|)];
      assert rest[k..] == values[Min(i + batchSize, |values|)..];
      batches := batches + [values[i..Min(i + batchSize, |values|)]];
      i := i + batchSize;
    }
    assert values[Min(i, |values|)..] == [];
    ChunksFlatten(values, batchSize);
    ChunksCount(values, batchSize);
    ChunksSizes(values, batchSize);
  }

  /**
   * The response bodies of posting each batch in order; `post` stands for one
   * request and the body that comes back.
   */
  function PostAll(batches: seq<seq<string>>, post: seq<string> -> Decoded): (bodies: seq<Decoded>)
    ensures |bodies| == |batches|
    ensures forall i | 0 <= i < |batches| :: bodies[i] == post(batches[i])
  {
    seq(|batches|, i requires 0 <= i < |batches| => post(batches[i]))
  }

  const UrlApi: string := "https://api.postera.ai/api/v1/"

  /** The base of every wrapper: the API key, and the URL of an endpoint. */
  class Manifold {
    const apiKey: string

    constructor (apiKey: string)
      ensures ApiKey() == apiKey
    {
      this.apiKey := apiKey;
    }

    function ApiKey(): string {
      apiKey
    }

    /** The API root followed by the endpoint path, so the endpoint can be read back off the URL. */
    function ApiEndpoint(endpoint: string): (url: string)
      ensures |url| == |UrlApi| + |endpoint|
      ensures url[..|UrlApi|] == UrlApi && url[|UrlApi|..] == endpoint
    {
      UrlApi + endpoint
    }
  }
}
