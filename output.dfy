/**
 * What a streamed response looks like on the wire, proved about the reference
 * definition `ExpectedRun` that `Interceptor.Intercept` is verified against.
 */
module StreamOutput {
  import opened Wrappers
  import opened Metadata
  import opened Chunks
  import opened Interceptor

  /** The texts of the first `k` results are the rendered first `k` items. */
  lemma TextsAreRendered<D>(codec: Codec<D>, projection: Option<ClassRef>, docs: seq<D>, k: nat)
    requires k <= |docs|
    requires forall i :: 0 <= i < k ==> Serialize(codec, projection, docs[i]).Success?
    ensures Texts(SerializeAll(codec, projection, docs), k) == Rendered(codec, projection, docs[..k])
  {
  }

  /** Streaming succeeds exactly when the source is obtained, every item serializes and iteration ends normally. */
  lemma SucceedsIff<D>(codec: Codec<D>, projection: Option<ClassRef>, data: Value<D>)
    ensures ExpectedRun(codec, projection, data).error.None? <==>
              && IterationSource(data).Success?
              && IterationSource(data).value.ending.Exhausted?
              && forall i :: 0 <= i < |IterationSource(data).value.docs| ==>
                   Serialize(codec, projection, IterationSource(data).value.docs[i]).Success?
  {
    match IterationSource(data)
    case Failure(_) =>
    case Success(s) =>
      var rs := SerializeAll(codec, projection, s.docs);
      var k := FirstFailure(rs);
      if k < |rs| {
        assert rs[k] == Serialize(codec, projection, s.docs[k]);
        assert ExpectedRun(codec, projection, data).error == Some(rs[k].error);
      } else {
        assert forall i :: 0 <= i < |s.docs| ==> rs[i] == Serialize(codec, projection, s.docs[i]);
      }
  }

  /** The text of `[`, the separated items, and then `tail`. */
  lemma FlattenBracketed(texts: seq<string>, tail: seq<string>)
    ensures Flatten(["["] + WithSeparators(texts, ",") + tail) == "[" + Join(",", texts) + Flatten(tail)
  {
    var items := WithSeparators(texts, ",");
    FlattenAppend(["["] + items, tail);
    FlattenAppend(["["], items);
    FlattenWithSeparators(texts, ",");
    assert Flatten(["["]) == Flatten([]) + "[";
  }

  /** On success the run is `[`, the separated texts of all items, and `]`. */
  lemma SuccessRun<D>(codec: Codec<D>, projection: Option<ClassRef>, data: Value<D>, s: Stream<D>)
    requires IterationSource(data) == Success(s) && s.ending == Exhausted
    requires forall i :: 0 <= i < |s.docs| ==> Serialize(codec, projection, s.docs[i]).Success?
    ensures ExpectedRun(codec, projection, data) ==
              Run(["["] + WithSeparators(Rendered(codec, projection, s.docs), ",") + ["]"], None)
  {
    var rs := SerializeAll(codec, projection, s.docs);
    FirstFailureAt(rs, |rs|);
    TextsAreRendered(codec, projection, s.docs, |s.docs|);
    assert s.docs[..|s.docs|] == s.docs;
  }

  /**
   * On success the client receives `"[" + items.join(",") + "]"` with the
   * items' serialized texts in source order.
   */
  lemma SuccessOutput<D>(codec: Codec<D>, projection: Option<ClassRef>, data: Value<D>, s: Stream<D>)
    requires IterationSource(data) == Success(s) && s.ending == Exhausted
    requires forall i :: 0 <= i < |s.docs| ==> Serialize(codec, projection, s.docs[i]).Success?
    ensures ExpectedRun(codec, projection, data).error == None
    ensures Flatten(ExpectedRun(codec, projection, data).chunks) ==
              "[" + Join(",", Rendered(codec, projection, s.docs)) + "]"
  {
    SuccessRun(codec, projection, data, s);
    FlattenBracketed(Rendered(codec, projection, s.docs), ["]"]);
    assert Flatten(["]"]) == Flatten([]) + "]";
  }

  /**
   * On success the writes are `[`, then item 0, and a comma followed by item
   * `i` for every later item, and last `]`: one write per item, in order.
   */
  lemma SuccessChunks<D>(codec: Codec<D>, projection: Option<ClassRef>, data: Value<D>, s: Stream<D>, j: nat)
    requires IterationSource(data) == Success(s) && s.ending == Exhausted
    requires forall i :: 0 <= i < |s.docs| ==> Serialize(codec, projection, s.docs[i]).Success?
    requires j < |ExpectedRun(codec, projection, data).chunks|
    ensures |ExpectedRun(codec, projection, data).chunks| == if s.docs == [] then 2 else 2 * |s.docs| + 1
    ensures ExpectedRun(codec, projection, data).chunks[j] ==
              if j == 0 then "["
              else if j == |ExpectedRun(codec, projection, data).chunks| - 1 then "]"
              else if j % 2 == 0 then ","
              else Rendered(codec, projection, s.docs)[(j - 1) / 2]
  {
    SuccessRun(codec, projection, data, s);
    var texts := Rendered(codec, projection, s.docs);
    var chunks := ["["] + WithSeparators(texts, ",") + ["]"];
    assert ExpectedRun(codec, projection, data).chunks == chunks;
    if texts != [] {
      WithSeparatorsAt(texts, ",", 0);
      if 0 < j < |chunks| - 1 {
        WithSeparatorsAt(texts, ",", j - 1);
        assert chunks[j] == WithSeparators(texts, ",")[j - 1];
      }
    }
  }

  /** A source that yields nothing gives exactly `[]`. */
  lemma EmptySourceOutput<D>(codec: Codec<D>, projection: Option<ClassRef>, data: Value<D>)
    requires IterationSource(data) == Success(Stream([], Exhausted))
    ensures ExpectedRun(codec, projection, data) == Run(["[", "]"], None)
    ensures Flatten(ExpectedRun(codec, projection, data).chunks) == "[]"
  {
  }

  /**
   * A pull that fails after `k` items were written leaves
   * `"[" + first-k.join(",")`, with no closing bracket.
   */
  lemma PullFailureOutput<D>(codec: Codec<D>, projection: Option<ClassRef>, data: Value<D>, s: Stream<D>, e: Exception)
    requires IterationSource(data) == Success(s) && s.ending == PullError(e)
    requires forall i :: 0 <= i < |s.docs| ==> Serialize(codec, projection, s.docs[i]).Success?
    ensures ExpectedRun(codec, projection, data).error == Some(e)
    ensures Flatten(ExpectedRun(codec, projection, data).chunks) == "[" + Join(",", Rendered(codec, projection, s.docs))
  {
    var rs := SerializeAll(codec, projection, s.docs);
    FirstFailureAt(rs, |rs|);
    TextsAreRendered(codec, projection, s.docs, |s.docs|);
    assert s.docs[..|s.docs|] == s.docs;
    var texts := Rendered(codec, projection, s.docs);
    assert ExpectedRun(codec, projection, data).chunks == ["["] + WithSeparators(texts, ",") + [];
    FlattenBracketed(texts, []);
  }

  /**
   * When item `k` is the first that fails to serialize, the first `k` items are
   * on the wire and, for `k > 0`, so is the comma written before item `k`;
   * the closing bracket never is.
   */
  lemma SerializeFailureOutput<D>(codec: Codec<D>, projection: Option<ClassRef>, data: Value<D>, s: Stream<D>, k: nat)
    requires IterationSource(data) == Success(s) && k < |s.docs|
    requires forall i :: 0 <= i < k ==> Serialize(codec, projection, s.docs[i]).Success?
    requires Serialize(codec, projection, s.docs[k]).Failure?
    ensures ExpectedRun(codec, projection, data).error == Some(Serialize(codec, projection, s.docs[k]).error)
    ensures Flatten(ExpectedRun(codec, projection, data).chunks) ==
              "[" + Join(",", Rendered(codec, projection, s.docs[..k])) + (if k > 0 then "," else "")
  {
    var rs := SerializeAll(codec, projection, s.docs);
    assert rs[k] == Serialize(codec, projection, s.docs[k]);
    FirstFailureAt(rs, k);
    TextsAreRendered(codec, projection, s.docs, k);
    var texts := Rendered(codec, projection, s.docs[..k]);
    var comma: seq<string> := if k > 0 then [","] else [];
    assert ExpectedRun(codec, projection, data).chunks == ["["] + WithSeparators(texts, ",") + comma;
    FlattenBracketed(texts, comma);
    assert Flatten([","]) == Flatten([]) + ",";
  }

  /**
   * When the source cannot be obtained (`stream()` throws, or the value is not
   * iterable), only the `[` written beforehand is on the wire.
   */
  lemma SourceFailureOutput<D>(codec: Codec<D>, projection: Option<ClassRef>, data: Value<D>)
    requires IterationSource(data).Failure?
    ensures ExpectedRun(codec, projection, data) == Run(["["], Some(IterationSource(data).error))
  {
  }

  /**
   * A failure at the very first step (obtaining the source, the first pull or
   * the first serialization) leaves exactly `[`.
   */
  lemma FirstStepFailureOutput<D>(codec: Codec<D>, projection: Option<ClassRef>, data: Value<D>)
    requires
      || IterationSource(data).Failure?
      || (IterationSource(data).value.docs == [] && IterationSource(data).value.ending.PullError?)
      || (IterationSource(data).value.docs != [] &&
          Serialize(codec, projection, IterationSource(data).value.docs[0]).Failure?)
    ensures ExpectedRun(codec, projection, data).chunks == ["["]
    ensures ExpectedRun(codec, projection, data).error.Some?
  {
  }

  /** When `stream` is a function its result is iterated, even if the value is itself async-iterable. */
  lemma FactoryTakesPrecedence<D>(data: Value<D>, w: Value<D>)
    requires data.Defined? && data.streamFn == Some(Returns(w))
    ensures IterationSource(data) == ForAwait(w)
  {
  }

  /** When `stream()` throws, the response holds only `[` and the thrown error is reported. */
  lemma FactoryFailureOutput<D>(codec: Codec<D>, projection: Option<ClassRef>, data: Value<D>, e: Exception)
    requires data.Defined? && data.streamFn == Some(Throws(e))
    ensures ExpectedRun(codec, projection, data) == Run(["["], Some(e))
  {
  }

  /**
   * Each successful text is `JSON.stringify(doc)` without a projection type and
   * `JSON.stringify(plainToInstance(type, doc, ...))` with one.
   */
  lemma RenderedItems<D>(codec: Codec<D>, projection: Option<ClassRef>, docs: seq<D>, i: nat)
    requires forall j :: 0 <= j < |docs| ==> Serialize(codec, projection, docs[j]).Success?
    requires i < |docs|
    ensures |Rendered(codec, projection, docs)| == |docs|
    ensures projection.None? ==> Success(Rendered(codec, projection, docs)[i]) == codec.stringify(docs[i])
    ensures projection.Some? ==>
              && codec.project(projection.value, docs[i]).Success?
              && Success(Rendered(codec, projection, docs)[i]) ==
                   codec.stringify(codec.project(projection.value, docs[i]).value)
  {
  }
}
