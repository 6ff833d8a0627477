/**
 * `StreamMongoCursorInterceptor` (src/stream-mongo-cursor.interceptor.ts).
 *
 * The handler's return value, the items a source yields and the failures
 * along the way are values; the response is the `Http.Response` object the
 * interceptor writes to; what the interceptor signals to its rxjs observer is
 * an `Outcome`.
 */
module Interceptor {
  import opened Wrappers
  import opened Metadata
  import opened Chunks
  import opened Http

  /** A thrown JavaScript error. */
  datatype Exception = Exception(name: string, message: string)

  /** What `for await` throws for a value that is neither async- nor sync-iterable. */
  const NotAsyncIterable := Exception("TypeError", "data is not async iterable")

  const JsonContentType := "application/json"
  const StreamErrorMessage := "An error occurred while processing the stream"

  /** How iteration of a source stops once its items are produced. */
  datatype Ending = Exhausted | PullError(error: Exception)

  /** What iterating a source gives: its items in order, then the end or a failing pull. */
  datatype Stream<D> = Stream(docs: seq<D>, ending: Ending)

  /**
   * A JavaScript value as the interceptor sees it. `Nullish` is `null` or
   * `undefined`; any other value is described by its capabilities:
   * `readable` for `instanceof Readable`, `asyncIterator` when
   * `value[Symbol.asyncIterator]` is a function (with what iterating through
   * it yields), `syncIterator` likewise for `Symbol.iterator`, and `streamFn`
   * when `value.stream` is a function (with what calling it gives).
   * Every Node `Readable` has `Symbol.asyncIterator`, so a value that stands
   * for one has `readable ==> asyncIterator.Some?`; the two flags are kept
   * apart because `isStreamable` tests them separately.
   */
  datatype Value<D> =
    | Nullish
    | Defined(readable: bool, asyncIterator: Option<Stream<D>>, syncIterator: Option<Stream<D>>,
              streamFn: Option<Call<D>>)

  /** The effect of calling a zero-argument function. */
  datatype Call<D> = Returns(result: Value<D>) | Throws(error: Exception)

  /** What the handler's observable (`next.handle()`) delivers. */
  datatype Emission<D> = Emits(value: Value<D>) | Fails(error: Exception)

  /**
   * What the interceptor's own observer receives: `next(value)` followed by
   * `complete()`, or `error(e)`, or nothing at all.
   */
  datatype Outcome<D> = Delivered(value: Value<D>) | Errored(error: Exception) | Silent

  /**
   * The serialization collaborators: `JSON.stringify` and class-transformer's
   * `plainToInstance(type, doc, { excludeExtraneousValues: true })`. Either
   * may fail.
   */
  datatype Codec<!D> = Codec(stringify: D -> Result<string, Exception>,
                            project: (ClassRef, D) -> Result<D, Exception>)

  /** `isStreamable`. On `null` or `undefined` the source throws, hence the precondition. */
  predicate IsStreamable<D>(v: Value<D>)
    requires v.Defined?
  {
    v.readable || v.asyncIterator.Some? || v.streamFn.Some?
  }

  /** The interceptor takes over the response exactly when this holds. */
  predicate Streams<D>(meta: Meta, v: Value<D>)
  {
    IsMarked(meta) && v.Defined? && IsStreamable(v)
  }

  /** What `for await (const doc of v)` iterates, or the TypeError it throws. */
  function ForAwait<D>(v: Value<D>): Result<Stream<D>, Exception>
  {
    if v.Defined? && v.asyncIterator.Some? then Success(v.asyncIterator.value)
    else if v.Defined? && v.syncIterator.Some? then Success(v.syncIterator.value)
    else Failure(NotAsyncIterable)
  }

  /** The source actually iterated: the result of `data.stream()` when `stream` is a function. */
  function IterationSource<D>(data: Value<D>): Result<Stream<D>, Exception>
  {
    if data.Defined? && data.streamFn.Some? then
      match data.streamFn.value
      case Throws(e) => Failure(e)
      case Returns(w) => ForAwait(w)
    else
      ForAwait(data)
  }

  /** The text written for one item: projected first when the handler has a `cursorType`. */
  function Serialize<D>(codec: Codec<D>, projection: Option<ClassRef>, doc: D): Result<string, Exception>
  {
    match projection
    case None => codec.stringify(doc)
    case Some(t) =>
      match codec.project(t, doc)
      case Failure(e) => Failure(e)
      case Success(p) => codec.stringify(p)
  }

  function SerializeAll<D>(codec: Codec<D>, projection: Option<ClassRef>, docs: seq<D>): seq<Result<string, Exception>>
  {
    seq(|docs|, i requires 0 <= i < |docs| => Serialize(codec, projection, docs[i]))
  }

  /** The texts of items that all serialize, in order. */
  function Rendered<D>(codec: Codec<D>, projection: Option<ClassRef>, docs: seq<D>): seq<string>
    requires forall i :: 0 <= i < |docs| ==> Serialize(codec, projection, docs[i]).Success?
  {
    seq(|docs|, i requires 0 <= i < |docs| => Serialize(codec, projection, docs[i]).value)
  }

  /** The index of the first failed result, or the length when none failed. */
  function FirstFailure<R, E>(rs: seq<Result<R, E>>): (k: nat)
    ensures k <= |rs|
    ensures forall i :: 0 <= i < k ==> rs[i].Success?
    ensures k < |rs| ==> rs[k].Failure?
  {
    if |rs| == 0 || rs[0].Failure? then 0 else 1 + FirstFailure(rs[1..])
  }

  /** The texts of the first `k` results, all of them successful. */
  function Texts(rs: seq<Result<string, Exception>>, k: nat): seq<string>
    requires k <= |rs|
    requires forall i :: 0 <= i < k ==> rs[i].Success?
  {
    seq(k, i requires 0 <= i < k => rs[i].value)
  }

  /** The chunks one streamed response is made of, and the error it stops with, if any. */
  datatype Run = Run(chunks: seq<string>, error: Option<Exception>)

  /**
   * Reference definition of draining a stream, for what follows the opening
   * `[`: the serialized items up to the first failing one, with a comma
   * before each item after the first, and then `]` on success, a dangling
   * comma when item `k > 0` failed to serialize (its comma was written
   * first), or nothing more after a failing pull.
   */
  function Drain<D>(codec: Codec<D>, projection: Option<ClassRef>, s: Stream<D>): Run
  {
    var rs := SerializeAll(codec, projection, s.docs);
    var k := FirstFailure(rs);
    var items := WithSeparators(Texts(rs, k), ",");
    if k < |rs| then
      Run(items + (if k > 0 then [","] else []), Some(rs[k].error))
    else
      match s.ending
      case Exhausted => Run(items + ["]"], None)
      case PullError(e) => Run(items, Some(e))
  }

  /** The whole streaming branch: `[` is written before the source is even obtained. */
  function ExpectedRun<D>(codec: Codec<D>, projection: Option<ClassRef>, data: Value<D>): Run
  {
    match IterationSource(data)
    case Failure(e) => Run(["["], Some(e))
    case Success(s) =>
      var tail := Drain(codec, projection, s);
      Run(["["] + tail.chunks, tail.error)
  }

  /** The first failure is the first index that is not a success. */
  lemma FirstFailureAt<R, E>(rs: seq<Result<R, E>>, i: nat)
    requires i <= |rs|
    requires forall j :: 0 <= j < i ==> rs[j].Success?
    requires i < |rs| ==> rs[i].Failure?
    ensures FirstFailure(rs) == i
  {
  }

  /** One more successful result adds its text at the end. */
  lemma TextsSnoc(rs: seq<Result<string, Exception>>, i: nat)
    requires i < |rs|
    requires forall j :: 0 <= j <= i ==> rs[j].Success?
    ensures Texts(rs, i + 1) == Texts(rs, i) + [rs[i].value]
  {
  }

  /**
   * The body of the `try` block: open the array, obtain and drain the source,
   * close the array and end the response. Returns the exception that left the
   * block, if one did.
   */
  method WriteArray<D>(response: Response, codec: Codec<D>, projection: Option<ClassRef>, data: Value<D>)
    returns (error: Option<Exception>)
    requires data.Defined?
    requires response.Valid() && !response.ended
    modifies response
    ensures response.written == old(response.written) + ExpectedRun(codec, projection, data).chunks
    ensures error == ExpectedRun(codec, projection, data).error
    ensures response.Valid() && response.headersSent && response.ended == error.None?
    ensures response.headers == old(response.headers) && response.statusCode == old(response.statusCode)
    ensures response.jsonBody == old(response.jsonBody)
  {
    response.Write("[");
    var source := data;
    if data.streamFn.Some? {
      match data.streamFn.value
      case Throws(e) =>
        return Some(e);
      case Returns(w) =>
        source := w;
    }
    match ForAwait(source)
    case Failure(e) =>
      return Some(e);
    case Success(stream) =>
      assert IterationSource(data) == Success(stream);
      error := DrainInto(response, codec, projection, stream);
  }

  /** The `for await` loop and what follows it in the `try` block. */
  method DrainInto<D>(response: Response, codec: Codec<D>, projection: Option<ClassRef>, stream: Stream<D>)
    returns (error: Option<Exception>)
    requires response.Valid() && response.headersSent && !response.ended
    modifies response
    ensures response.written == old(response.written) + Drain(codec, projection, stream).chunks
    ensures error == Drain(codec, projection, stream).error
    ensures response.Valid() && response.headersSent && response.ended == error.None?
    ensures response.headers == old(response.headers) && response.statusCode == old(response.statusCode)
    ensures response.jsonBody == old(response.jsonBody)
  {
    ghost var rs := SerializeAll(codec, projection, stream.docs);
    var first := true;
    var i := 0;
    while i < |stream.docs|
      invariant 0 <= i <= |stream.docs|
      invariant first <==> i == 0
      invariant forall j :: 0 <= j < i ==> rs[j].Success?
      invariant response.written == old(response.written) + WithSeparators(Texts(rs, i), ",")
      invariant response.Valid() && response.headersSent && !response.ended
      invariant response.headers == old(response.headers) && response.statusCode == old(response.statusCode)
      invariant response.jsonBody == old(response.jsonBody)
    {
      if !first {
        response.Write(",");
      }
      var text := Serialize(codec, projection, stream.docs[i]);
      assert rs[i] == text;
      if text.Failure? {
        FirstFailureAt(rs, i);
        return Some(text.error);
      }
      response.Write(text.value);
      TextsSnoc(rs, i);
      WithSeparatorsSnoc(Texts(rs, i), ",", text.value);
      first := false;
      i := i + 1;
    }
    FirstFailureAt(rs, i);
    match stream.ending
    case PullError(e) =>
      return Some(e);
    case Exhausted =>
      response.Write("]");
      response.End();
      return None;
  }

  /**
   * The `catch` block's response handling: the 500 error body is sent only
   * while the headers are still unsent; otherwise the response is left as it is.
   */
  method HandleFailure(response: Response)
    requires response.Valid()
    modifies response
    ensures old(response.headersSent) ==> response.statusCode == old(response.statusCode)
    ensures old(response.headersSent) ==> response.jsonBody == old(response.jsonBody)
    ensures !old(response.headersSent) ==> response.statusCode == 500
    ensures !old(response.headersSent) ==> response.jsonBody == Some(ErrorBody(StreamErrorMessage))
    ensures !old(response.headersSent) ==> response.ended
    ensures response.Valid() && response.headersSent == (old(response.headersSent) || response.ended)
    ensures response.headers == old(response.headers) && response.written == old(response.written)
    ensures old(response.headersSent) ==> response.ended == old(response.ended)
  {
    if !response.headersSent {
      response.Status(500);
      response.Json(ErrorBody(StreamErrorMessage));
    }
  }

  /**
   * `intercept`, for one handler invocation whose observable emits `upstream`.
   * An error from the handler is passed on; a value is passed on unchanged
   * unless the handler is marked and the value is streamable, in which case
   * the interceptor writes the JSON array itself. Failures while streaming end
   * in `observer.error`; success sends nothing to the observer.
   */
  method Intercept<D>(registry: Registry, handler: HandlerId, upstream: Emission<D>, codec: Codec<D>,
                      response: Response)
    returns (outcome: Outcome<D>)
    requires response.Untouched()
    requires upstream.Emits? && IsMarked(registry.Lookup(handler)) ==> upstream.value.Defined?
    modifies response
    ensures upstream.Fails? ==> outcome == Errored(upstream.error) && unchanged(response)
    ensures upstream.Emits? && !Streams(registry.Lookup(handler), upstream.value) ==>
              outcome == Delivered(upstream.value) && unchanged(response)
    ensures upstream.Emits? && Streams(registry.Lookup(handler), upstream.value) ==>
              var run := ExpectedRun(codec, registry.Lookup(handler).cursorType, upstream.value);
              && response.headers == old(response.headers)["Content-Type" := JsonContentType]
              && response.written == run.chunks
              && response.headersSent
              && response.ended == run.error.None?
              && response.statusCode == old(response.statusCode)
              && response.jsonBody == None
              && outcome == (if run.error.None? then Silent else Errored(run.error.value))
  {
    match upstream
    case Fails(e) =>
      outcome := Errored(e);
    case Emits(data) =>
      var isMongoStream := registry.Lookup(handler).mongoCursor;
      var projection := registry.Lookup(handler).cursorType;
      if isMongoStream == Some(true) && IsStreamable(data) {
        response.SetHeader("Content-Type", JsonContentType);
        var error := WriteArray(response, codec, projection, data);
        if error.Some? {
          HandleFailure(response);
          outcome := Errored(error.value);
        } else {
          outcome := Silent;
        }
      } else {
        outcome := Delivered(data);
      }
  }
}
