# Streaming JSON-array bridge for NestJS handlers

This project models the core of `nestjs-mongodb-cursor`: the
`@StreamMongoCursor()` method decorator and the
`StreamMongoCursorInterceptor`. The decorator marks a handler in the
process-wide metadata table (`mongoCursor = true`, optionally a
class-transformer `cursorType`). The interceptor runs after the handler. If
the handler is marked and its return value is streamable (a `Readable`, an
async iterable, or something with a `stream()` factory), it writes the items
to the HTTP response one at a time as a JSON array. Otherwise it passes the
value on through the rxjs observer.

Modules:

- `Wrappers` (wrappers.dfy): `Option` and `Result`.
- `Metadata` (metadata.dfy): the metadata table as a `Registry` class whose
  `entries: map<HandlerId, Meta>` field is updated in place, the decorator
  factory `StreamMongoCursor`, and `Apply`, which writes the two entries.
- `Chunks` (chunks.dfy): `Flatten` (what the client receives from a sequence
  of writes), `Join` (JavaScript `Array.prototype.join`), and
  `WithSeparators` (the chunks the write loop produces). It proves that
  flattening the separated chunks gives the join.
- `Http` (http.dfy): the slice of the Node/Express response object that is
  used: `setHeader`, `write`, `end`, `status`, `json` and `headersSent`.
- `Interceptor` (interceptor.dfy): the handler's return value as a
  capability-tagged `Value`, the serializers as an abstract `Codec`, the
  reference definition `ExpectedRun` of what the streaming branch writes, the
  imperative `WriteArray`/`DrainInto` (the `try` block and its `for await`
  loop, with the `first` flag), `HandleFailure` (the `catch` block) and
  `Intercept`.
- `StreamOutput` (output.dfy): lemmas about `ExpectedRun`. They cover the
  exact text on success, the text after each kind of failure, and which
  source is iterated.

How the model follows the code where a natural reading would differ:

- `data.stream()` is called after `response.write('[')`. A factory that
  throws leaves `[` on the wire (`FactoryFailureOutput`). The same holds for a
  factory result that cannot be iterated.
- The comma for item `k` is written before item `k` is serialized. A
  serialization failure on item `k > 0` leaves a trailing comma
  (`SerializeFailureOutput`).
- While the connection is open, the first `write('[')` commits the headers,
  and everything that can fail comes after it. The model has no closed
  connection: every `write` commits the headers. So in the model the
  `status(500).json(...)` branch never runs from `intercept`, and `Intercept`
  proves that the response status and JSON body are left alone in every
  failure. On a real connection that is already closed, a `write` does not
  send the headers. The 500 branch can then run (closed connections are left
  out, with disconnects). The branch itself is modelled in `HandleFailure`.
- The loop never checks whether the client disconnected.
- The result of `stream()` is not re-classified. `for await` iterates it, and
  a value that is not iterable throws a `TypeError` inside the `try`.
- On streaming success the observer receives neither `next` nor `complete`
  (`Outcome.Silent`).

## Model

| member | source | states |
|---|---|---|
| Metadata.Registry.DefineMongoCursor | src/stream-mongo-cursor.decorator.ts:8 | sets `mongoCursor` of one handler; that handler's `cursorType` and every other handler's entries are kept |
| Metadata.Registry.DefineCursorType | src/stream-mongo-cursor.decorator.ts:10 | sets `cursorType` of one handler; that handler's `mongoCursor` and every other handler's entries are kept |
| Metadata.NoArgumentIsEmptyOptions | src/stream-mongo-cursor.decorator.ts:3 | calling the factory with no argument is the same as passing `{}` (neither gives a projection type) |
| Metadata.Apply | src/stream-mongo-cursor.decorator.ts:4-11 | afterwards the method's function is marked; its `cursorType` is the given type when one was given, else what it was before; only that function's key is added, and every other handler's entries are unchanged |
| Metadata.DecorateFresh | src/stream-mongo-cursor.decorator.ts:3-11 | decorating a handler that had no metadata leaves exactly `mongoCursor = true` and `cursorType` = the supplied type (absent without one); all other lookups are unchanged |
| Chunks.FlattenWithSeparators | src/stream-mongo-cursor.interceptor.ts:25-34 | the text of the item chunks with a comma before every item but the first is `items.join(",")` |
| Chunks.WithSeparatorsAt | src/stream-mongo-cursor.interceptor.ts:25-34 | item `i` is chunk `2i` and every odd chunk is the separator, so items keep source order |
| Http.Response.SetHeader | src/stream-mongo-cursor.interceptor.ts:17 | only possible while the headers are unsent; sets one header and changes nothing else |
| Http.Response.Write | src/stream-mongo-cursor.interceptor.ts:19 | appends one chunk and commits the headers; not possible after `end()` |
| Http.Response.End | src/stream-mongo-cursor.interceptor.ts:37 | finishes the response; the written chunks are kept |
| Http.Response.Status | src/stream-mongo-cursor.interceptor.ts:41 | sets the status code only |
| Http.Response.Json | src/stream-mongo-cursor.interceptor.ts:41 | sends the error body and finishes the response |
| Interceptor.IsStreamable | src/stream-mongo-cursor.interceptor.ts:66-72 | definition: a non-null value is streamable iff it is a `Readable`, or its `Symbol.asyncIterator` is a function, or its `stream` is a function |
| Interceptor.ForAwait | src/stream-mongo-cursor.interceptor.ts:25 | definition: `for await` iterates through `Symbol.asyncIterator`, falls back to `Symbol.iterator`, and otherwise throws a `TypeError` |
| Interceptor.IterationSource | src/stream-mongo-cursor.interceptor.ts:22-25 | definition: with a `stream` function, the source is what `stream()` returns (its exception when it throws), iterated by `for await`; otherwise the value itself is iterated |
| Interceptor.Serialize | src/stream-mongo-cursor.interceptor.ts:29-31 | definition: `stringify(doc)` without a `cursorType`; with one, `project(type, doc)` and then `stringify` of the projection, where either failure is the item's failure |
| Interceptor.Drain | src/stream-mongo-cursor.interceptor.ts:25-37 | reference definition of what follows `[`: the texts up to the first failing item, a comma before each item after the first, then `]` on normal exhaustion, a dangling comma when item `k > 0` fails to serialize, nothing more after a failing pull; the error is the first failure |
| Interceptor.ExpectedRun | src/stream-mongo-cursor.interceptor.ts:19-37 | reference definition of the streaming branch: `[` always comes first; a source that cannot be obtained stops right there with its error, otherwise `Drain` follows |
| Interceptor.FirstFailure | src/stream-mongo-cursor.interceptor.ts:25-34 | the index where draining stops: every earlier item serialized, and the item at that index failed (or all items serialized) |
| Interceptor.WriteArray | src/stream-mongo-cursor.interceptor.ts:18-37 | the `try` block appends exactly `ExpectedRun`'s chunks, returns the error that escapes it, and ends the response exactly when nothing failed; headers, status code and JSON body are untouched |
| Interceptor.DrainInto | src/stream-mongo-cursor.interceptor.ts:25-37 | the `for await` loop with its `first` flag, then `]` and `end()`, writes exactly `Drain`'s chunks and stops at the first failing pull or serialization |
| Interceptor.HandleFailure | src/stream-mongo-cursor.interceptor.ts:40-42 | unsent headers: status 500, body `{error: "An error occurred while processing the stream"}`, and the response is finished; headers already sent: status, body and end state are left alone; the written chunks are never changed |
| Interceptor.Intercept | src/stream-mongo-cursor.interceptor.ts:8-53 | an upstream error goes to `observer.error` and the response is untouched; for an unmarked handler, or a marked one whose value is not streamable, the value goes to `next` then `complete` and the response is untouched; otherwise Content-Type is set to `application/json` (before any write, since `setHeader` needs unsent headers), the writes are exactly `ExpectedRun` for the handler's `cursorType`, `end()` ran iff streaming succeeded, status and JSON body are never set, and the observer gets `error(e)` on failure and nothing on success |
| StreamOutput.SucceedsIff | src/stream-mongo-cursor.interceptor.ts:22-37 | streaming succeeds iff the source is obtained, every item serializes and iteration ends normally |
| StreamOutput.SuccessRun | src/stream-mongo-cursor.interceptor.ts:19-37 | on success the writes are `[`, the items' texts separated by `,`, then `]`, with no error |
| StreamOutput.SuccessOutput | src/stream-mongo-cursor.interceptor.ts:19-37 | on success the client receives `"[" + texts.join(",") + "]"`, the texts being the items' serializations in source order |
| StreamOutput.SuccessChunks | src/stream-mongo-cursor.interceptor.ts:19-37 | on success the writes are `[`, item 0, then `,` and item `i` for each later item, and `]` last: exactly one write per item |
| StreamOutput.EmptySourceOutput | src/stream-mongo-cursor.interceptor.ts:19-37 | an empty source gives exactly the writes `[`, `]`, i.e. `[]`, with no error |
| StreamOutput.PullFailureOutput | src/stream-mongo-cursor.interceptor.ts:25 | a pull failing after `k` items leaves `"[" + first-k.join(",")` and reports that error; no `]` |
| StreamOutput.SerializeFailureOutput | src/stream-mongo-cursor.interceptor.ts:26-32 | when item `k` is the first that fails to serialize, `"[" + first-k.join(",")` is written, followed by a trailing `,` when `k > 0`, and that error is reported |
| StreamOutput.SourceFailureOutput | src/stream-mongo-cursor.interceptor.ts:19-25 | when the source cannot be obtained, only `[` is written, and the error is reported |
| StreamOutput.FirstStepFailureOutput | src/stream-mongo-cursor.interceptor.ts:19-34 | a failure when obtaining the source, on the first pull or on the first serialization leaves exactly `[` |
| StreamOutput.FactoryTakesPrecedence | src/stream-mongo-cursor.interceptor.ts:22-25 | when `stream` is a function, its result is iterated even if the value is itself async-iterable |
| StreamOutput.FactoryFailureOutput | src/stream-mongo-cursor.interceptor.ts:19-23 | a throwing `stream()` leaves `[` on the wire, with the thrown error reported |
| StreamOutput.RenderedItems | src/stream-mongo-cursor.interceptor.ts:29-31 | without `cursorType` an item's text is `JSON.stringify(doc)`; with one it is `JSON.stringify(plainToInstance(type, doc, ...))`, and the projection succeeded |

## Left out

- The NestJS `ExecutionContext` and `CallHandler`, and the rxjs `Observable`/`subscribe` plumbing (interceptor lines 8-11, 50-52). The handler's observable is one `Emission` (a value or an error). What reaches the observer is one `Outcome`. An upstream that completes without a value is not modelled.
- `console.error` logging in the `catch` block (line 39): it has no effect on the response or the observer.
- The commented-out `isStreamable1` (lines 55-64).
- `Intercept`: requires the return value to be non-null when the handler is marked. For `null`/`undefined`, `isStreamable` throws at line 69, outside the `try`, and the model does not invent a behaviour for that.
- `Intercept`: requires a response that was not yet written to. `setHeader` after the headers are sent throws outside the `try`.
- Node `Readable` internals and the async-iteration protocol. A source is a finite item sequence followed by a normal end or a failing pull. `for await` uses `Symbol.asyncIterator`, then falls back to `Symbol.iterator`, and otherwise throws a `TypeError`. Suspension at `await` is not modelled. Neither is the `return()` that `for await` calls on the iterator when the loop body throws.
- `JSON.stringify` and `plainToInstance` are opaque functions that may fail (`Codec`), not their text rules. A `JSON.stringify` that yields `undefined`, which makes `write` throw, counts as a serialization failure.
- `write` returning `false` (back-pressure), `write` itself failing, and client disconnects. The code has no logic for any of them.
- Express details of `json()`, such as the Content-Type header it sets and the body text. The model records only the body value and that the response is finished.
- `Reflect` metadata as a library: prototype-chain lookup and keys other than `mongoCursor` and `cursorType`.
- `Metadata.Apply`: `target`, `key` and `descriptor` are values in the model, so "left unchanged" holds by construction. Only the table is state.
- `Metadata.StreamMongoCursor`: the truthiness test `if (type)` is modelled with `Option`. A falsy non-`undefined` type (such as `null`) is treated as absent.
