/**
 * The text the client receives is the concatenation of the chunks passed to
 * `response.write`. This module relates the chunk sequence the write loop
 * produces (an item, then a separator before every later item) to the usual
 * `join` of the items.
 */
module Chunks {

  /** Concatenation of the written chunks, in order. */
  function Flatten(chunks: seq<string>): string
  {
    if chunks == [] then "" else Flatten(chunks[..|chunks| - 1]) + chunks[|chunks| - 1]
  }

  /** `items.join(sep)`. */
  function Join(sep: string, items: seq<string>): string
  {
    if |items| == 0 then ""
    else if |items| == 1 then items[0]
    else items[0] + sep + Join(sep, items[1..])
  }

  /** The chunks written for `items`: each item, with `sep` written before every item but the first. */
  function WithSeparators(items: seq<string>, sep: string): seq<string>
  {
    if |items| == 0 then []
    else if |items| == 1 then [items[0]]
    else WithSeparators(items[..|items| - 1], sep) + [sep, items[|items| - 1]]
  }

  lemma {:induction false} FlattenAppend(a: seq<string>, b: seq<string>)
    ensures Flatten(a + b) == Flatten(a) + Flatten(b)
  {
    if b == [] {
      assert a + b == a;
    } else {
      var b' := b[..|b| - 1];
      assert (a + b)[..|a + b| - 1] == a + b';
      FlattenAppend(a, b');
    }
  }

  lemma {:induction false} JoinSnoc(sep: string, items: seq<string>, x: string)
    requires |items| > 0
    ensures Join(sep, items + [x]) == Join(sep, items) + sep + x
  {
    if |items| > 1 {
      assert (items + [x])[1..] == items[1..] + [x];
      JoinSnoc(sep, items[1..], x);
    }
  }

  /** Writing the separated chunks puts `Join(sep, items)` on the wire. */
  lemma {:induction false} FlattenWithSeparators(items: seq<string>, sep: string)
    ensures Flatten(WithSeparators(items, sep)) == Join(sep, items)
  {
    if |items| == 1 {
      assert Flatten([items[0]]) == Flatten([]) + items[0];
    } else if |items| > 1 {
      var init := items[..|items| - 1];
      var last := items[|items| - 1];
      FlattenWithSeparators(init, sep);
      FlattenAppend(WithSeparators(init, sep), [sep, last]);
      assert Flatten([sep, last]) == Flatten([sep]) + last;
      assert Flatten([sep]) == Flatten([]) + sep;
      JoinSnoc(sep, init, last);
      assert init + [last] == items;
    }
  }

  /** Item `i` is chunk `2i`, and every odd chunk is the separator: items keep their order. */
  lemma {:induction false} WithSeparatorsAt(items: seq<string>, sep: string, j: nat)
    requires j < 2 * |items| - 1
    ensures |WithSeparators(items, sep)| == 2 * |items| - 1
    ensures WithSeparators(items, sep)[j] == if j % 2 == 0 then items[j / 2] else sep
  {
    if |items| > 1 {
      var init := items[..|items| - 1];
      if j < 2 * |init| - 1 {
        WithSeparatorsAt(init, sep, j);
      } else {
        WithSeparatorsAt(init, sep, 0);
      }
    }
  }

  /** Adding one item to the written prefix adds a separator (unless it is the first) and the item. */
  lemma WithSeparatorsSnoc(items: seq<string>, sep: string, x: string)
    ensures WithSeparators(items + [x], sep) ==
              WithSeparators(items, sep) + (if |items| > 0 then [sep] else []) + [x]
  {
  }
}
