/**
 * Packing a stream of items into chunk payloads of at most `maxItems` items and `maxBytes` serialised bytes.
 *
 * An item is its value with the length of its JSON text; a payload serialises as the items between brackets with commas
 * between them.
 */
module ChunkBuffer {
  import opened Common
  import Runner

  datatype Item<T> = Item(value: T, bytes: nat)

  datatype Limits = Limits(maxItems: int, maxBytes: int)

  /** An item that no payload could hold. */
  datatype TooLarge = TooLarge(bytes: nat)

  function Total<T>(items: seq<Item<T>>): nat {
    if items == [] then 0 else items[0].bytes + Total(items[1..])
  }

  function PayloadBytes<T>(items: seq<Item<T>>): nat {
    2 + Total(items) + (if items == [] then 0 else |items| - 1)
  }

  /** A limit below one item acts as one. */
  predicate Legal<T>(limits: Limits, items: seq<Item<T>>) {
    0 < |items| <= Max(1, limits.maxItems) && PayloadBytes(items) <= limits.maxBytes
  }

  predicate Fits<T>(limits: Limits, item: Item<T>) { item.bytes + 2 <= limits.maxBytes }

  function Flatten<T>(payloads: seq<seq<T>>): seq<T> {
    if payloads == [] then [] else payloads[0] + Flatten(payloads[1..])
  }

  /** An in-order split of `items` into legal payloads. */
  ghost predicate IsSplit<T>(limits: Limits, payloads: seq<seq<Item<T>>>, items: seq<Item<T>>) {
    Flatten(payloads) == items && forall p | p in payloads :: Legal(limits, p)
  }

  lemma {:induction false} TotalAppends<T>(a: seq<Item<T>>, b: seq<Item<T>>)
    ensures Total(a + b) == Total(a) + Total(b)
  {
    if a == [] {
      assert a + b == b;
    } else {
      assert (a + b)[1..] == a[1..] + b;
      TotalAppends(a[1..], b);
    }
  }

  lemma SingleBytes<T>(item: Item<T>)
    ensures PayloadBytes([item]) == item.bytes + 2
  {
    var one := [item];
    assert one[1..] == [];
    assert Total(one) == one[0].bytes + Total(one[1..]);
  }

  /** Texts with commas between them. */
  function Joined(texts: seq<string>): string {
    if texts == [] then "" else if |texts| == 1 then texts[0] else texts[0] + "," + Joined(texts[1..])
  }

  /** The bytes of a payload are those of its items in brackets, with commas between them. */
  lemma {:induction false} PayloadBytesAreOfText<T>(items: seq<Item<T>>, texts: seq<string>)
    requires |texts| == |items| && forall i | 0 <= i < |items| :: items[i].bytes == |texts[i]|
    ensures PayloadBytes(items) == |"[" + Joined(texts) + "]"|
  {
    if |items| == 1 {
      SingleBytes(items[0]);
      assert items == [items[0]];
    } else if items != [] {
      PayloadBytesAreOfText(items[1..], texts[1..]);
    }
  }

  /** An item is refused exactly if not even a payload with nothing else could hold it. */
  lemma FitsIff<T>(limits: Limits, item: Item<T>)
    ensures Fits(limits, item) <==> Legal(limits, [item])
  {
    SingleBytes(item);
  }

  class Buffer<T> {
    const limits: Limits
    var items: seq<Item<T>>
    var bytes: int

    ghost predicate Valid() reads this {
      bytes == PayloadBytes(items) && (items == [] || (Legal(limits, items) && |items| < Max(1, limits.maxItems)))
    }

    constructor (limits: Limits)
      ensures Valid() && items == [] && this.limits == limits
    {
      this.limits := limits;
      items, bytes := [], 2;
    }

    /** The remaining items, or None. */
    method Flush() returns (out: Option<seq<Item<T>>>)
      modifies this
      ensures items == [] && bytes == 2
      ensures out == if old(items) == [] then None else Some(old(items))
    {
      if |items| == 0 {
        bytes := 2;
        return None;
      }
      out := Some(items);
      items, bytes := [], 2;
    }

    /**
     * Takes one item, and returns a payload when one is complete: what is buffered when the item does not fit behind
     * it, or the buffer with the item when that makes it full.
     */
    method Push(item: Item<T>) returns (out: Result<Option<seq<Item<T>>>, TooLarge>)
      requires Valid()
      modifies this
      ensures Valid()
      ensures !Fits(limits, item) ==> out == Rejected(TooLarge(item.bytes)) && items == old(items)
      ensures Fits(limits, item) ==> out.Ok? && (items, out.value) == Pushed(limits, old(items), item)
    {
      if item.bytes + 2 > limits.maxBytes { return Rejected(TooLarge(item.bytes)); }
      var flushed: Option<seq<Item<T>>> := None;
      var separator := if |items| > 0 then 1 else 0;
      TotalAppends(items, [item]);
      SingleBytes(item);
      if |items| >= limits.maxItems || bytes + separator + item.bytes > limits.maxBytes {
        flushed := Flush();
      }
      assert [] + [item] == [item];
      bytes := bytes + (if |items| > 0 then 1 else 0) + item.bytes;
      items := items + [item];
      if |items| >= limits.maxItems {
        if flushed.None? { flushed := Flush(); }
      }
      out := Ok(flushed);
    }
  }

  /** What the buffer holds, and what it hands out, after taking an item that fits a payload of its own. */
  function Pushed<T>(limits: Limits, items: seq<Item<T>>, item: Item<T>): (seq<Item<T>>, Option<seq<Item<T>>>) {
    if items != [] && !Legal(limits, items + [item]) then ([item], Some(items))
    else if |items| + 1 == Max(1, limits.maxItems) then ([], Some(items + [item]))
    else (items + [item], None)
  }

  // ---- The packing is the one that takes as much as possible each time -------------------------------------------

  /** The longest legal beginning of a stream whose items all fit. */
  function Longest<T>(limits: Limits, items: seq<Item<T>>, n: nat): (m: nat)
    requires n <= |items|
    ensures m <= n
    ensures m > 0 ==> Legal(limits, items[..m])
    ensures forall k | m < k <= n :: !Legal(limits, items[..k])
  {
    if n == 0 || Legal(limits, items[..n]) then n else Longest(limits, items, n - 1)
  }

  lemma {:induction false} LegalPrefix<T>(limits: Limits, items: seq<Item<T>>, k: nat)
    requires Legal(limits, items) && 0 < k <= |items|
    ensures Legal(limits, items[..k])
  {
    assert items == items[..k] + items[k..];
    TotalAppends(items[..k], items[k..]);
  }

  lemma {:induction false} LegalSuffix<T>(limits: Limits, items: seq<Item<T>>, k: nat)
    requires Legal(limits, items) && k < |items|
    ensures Legal(limits, items[k..])
  {
    assert items == items[..k] + items[k..];
    TotalAppends(items[..k], items[k..]);
  }

  /** Every item fits a payload of its own, so the longest legal beginning is not empty. */
  lemma LongestIsPositive<T>(limits: Limits, items: seq<Item<T>>)
    requires items != [] && Fits(limits, items[0])
    ensures Longest(limits, items, |items|) > 0
  {
    assert items[..1] == [items[0]];
    SingleBytes(items[0]);
    assert Legal(limits, items[..1]);
  }

  function Greedy<T>(limits: Limits, items: seq<Item<T>>): seq<seq<Item<T>>>
    requires forall x | x in items :: Fits(limits, x)
  {
    if items == [] then []
    else
      LongestIsPositive(limits, items);
      var m := Longest(limits, items, |items|);
      [items[..m]] + Greedy(limits, items[m..])
  }

  /** Lossless and bounded: the greedy payloads are legal and hold the items in order. */
  lemma {:induction false} GreedyIsSplit<T>(limits: Limits, items: seq<Item<T>>)
    requires forall x | x in items :: Fits(limits, x)
    ensures IsSplit(limits, Greedy(limits, items), items)
  {
    if items != [] {
      LongestIsPositive(limits, items);
      var m := Longest(limits, items, |items|);
      GreedyIsSplit(limits, items[m..]);
      assert items == items[..m] + items[m..];
    }
  }

  /** A split of a stream gives a split of any end of it with no more payloads. */
  lemma {:induction false} SplitOfSuffix<T>(limits: Limits, payloads: seq<seq<Item<T>>>, items: seq<Item<T>>, k: nat)
    returns (rest: seq<seq<Item<T>>>)
    requires IsSplit(limits, payloads, items) && k <= |items|
    ensures IsSplit(limits, rest, items[k..]) && |rest| <= |payloads|
  {
    if payloads == [] {
      rest := [];
    } else {
      var first := payloads[0];
      assert items == first + Flatten(payloads[1..]);
      if k < |first| {
        LegalSuffix(limits, first, k);
        rest := [first[k..]] + payloads[1..];
        assert rest[1..] == payloads[1..];
        assert items[k..] == first[k..] + Flatten(payloads[1..]);
      } else {
        rest := SplitOfSuffix(limits, payloads[1..], Flatten(payloads[1..]), k - |first|);
        assert items[k..] == Flatten(payloads[1..])[k - |first|..];
      }
    }
  }

  /** Optimal: no in-order split into legal payloads uses fewer payloads. */
  lemma {:induction false} GreedyIsOptimal<T>(limits: Limits, items: seq<Item<T>>, other: seq<seq<Item<T>>>)
    requires forall x | x in items :: Fits(limits, x)
    requires IsSplit(limits, other, items)
    ensures |Greedy(limits, items)| <= |other|
    decreases |items|
  {
    if items != [] {
      LongestIsPositive(limits, items);
      var m := Longest(limits, items, |items|);
      var first := other[0];
      assert items == first + Flatten(other[1..]) && items[..|first|] == first;
      assert |first| <= m;
      var tail := Flatten(other[1..]);
      var rest := SplitOfSuffix(limits, other[1..], tail, m - |first|);
      assert tail[m - |first|..] == items[m..];
      GreedyIsOptimal(limits, items[m..], rest);
    }
  }

  lemma LongestIs<T>(limits: Limits, items: seq<Item<T>>, m: nat)
    requires 0 < m <= |items| && Legal(limits, items[..m])
    requires m == |items| || !Legal(limits, items[..m + 1])
    ensures Longest(limits, items, |items|) == m
  {
    var n := Longest(limits, items, |items|);
    if n > m {
      assert items[..n][..m + 1] == items[..m + 1];
      LegalPrefix(limits, items[..n], m + 1);
    }
  }

  /** One push, seen from the greedy packing of everything that is still to come. */
  lemma PushIsGreedy<T>(limits: Limits, items: seq<Item<T>>, item: Item<T>, rest: seq<Item<T>>)
    requires items == [] || (Legal(limits, items) && |items| < Max(1, limits.maxItems))
    requires forall x | x in items + [item] + rest :: Fits(limits, x)
    ensures var (items', out) := Pushed(limits, items, item);
            && (forall x | x in items' + rest :: Fits(limits, x))
            && Greedy(limits, items + [item] + rest)
               == (if out.Some? then [out.value] else []) + Greedy(limits, items' + rest)
  {
    var all := items + [item] + rest;
    var (items', out) := Pushed(limits, items, item);
    if out.Some? {
      var p := out.value;
      assert item in all;
      SingleBytes(item);
      assert [] + [item] == [item];
      assert all[..|p|] == p && all[|p|..] == items' + rest;
      if |p| < |all| && p == items {
        assert all[..|p| + 1] == items + [item];
      }
      LongestIs(limits, all, |p|);
    } else {
      assert all == items' + rest;
    }
  }

  /** After `i` pushes: what was handed out, followed by the greedy packing of the buffer and what is to come. */
  ghost predicate PackedSoFar<T>(
    limits: Limits, items: seq<Item<T>>, payloads: seq<seq<Item<T>>>, buffered: seq<Item<T>>, i: nat)
  {
    && i <= |items| && (forall x | x in items :: Fits(limits, x))
    && (forall x | x in buffered + items[i..] :: Fits(limits, x))
    && Greedy(limits, items) == payloads + Greedy(limits, buffered + items[i..])
  }

  lemma PushKeepsPacking<T>(
    limits: Limits, items: seq<Item<T>>, payloads: seq<seq<Item<T>>>, buffered: seq<Item<T>>, i: nat)
    requires PackedSoFar(limits, items, payloads, buffered, i) && i < |items|
    requires buffered == [] || (Legal(limits, buffered) && |buffered| < Max(1, limits.maxItems))
    ensures var (next, out) := Pushed(limits, buffered, items[i]);
            PackedSoFar(limits, items, payloads + (if out.Some? then [out.value] else []), next, i + 1)
  {
    assert buffered + items[i..] == buffered + [items[i]] + items[i + 1..];
    PushIsGreedy(limits, buffered, items[i], items[i + 1..]);
  }

  lemma FlushKeepsPacking<T>(
    limits: Limits, items: seq<Item<T>>, payloads: seq<seq<Item<T>>>, buffered: seq<Item<T>>)
    requires PackedSoFar(limits, items, payloads, buffered, |items|)
    requires buffered == [] || Legal(limits, buffered)
    ensures Greedy(limits, items) == payloads + (if buffered == [] then [] else [buffered])
  {
  }

  method PackOne<T>(buffer: Buffer<T>, items: seq<Item<T>>, payloads: seq<seq<Item<T>>>, i: nat)
    returns (next: seq<seq<Item<T>>>)
    requires i < |items| && buffer.Valid() && PackedSoFar(buffer.limits, items, payloads, buffer.items, i)
    modifies buffer
    ensures buffer.Valid() && PackedSoFar(buffer.limits, items, next, buffer.items, i + 1)
  {
    PushKeepsPacking(buffer.limits, items, payloads, buffer.items, i);
    assert items[i] in items;
    var out := buffer.Push(items[i]);
    next := if out.value.Some? then payloads + [out.value.value] else payloads;
    assert payloads + [] == payloads;
  }

  /**
   * A collector's whole run over items that fit: pushing each one and flushing at the end hands out exactly the greedy
   * packing.
   */
  method Pack<T>(limits: Limits, items: seq<Item<T>>) returns (payloads: seq<seq<Item<T>>>)
    requires forall x | x in items :: Fits(limits, x)
    ensures payloads == Greedy(limits, items)
  {
    var buffer := new Buffer<T>(limits);
    payloads := [];
    var i := 0;
    assert buffer.items + items[0..] == items;
    assert PackedSoFar(limits, items, payloads, buffer.items, 0);
    while i < |items|
      invariant 0 <= i <= |items|
      invariant buffer.Valid() && buffer.limits == limits && fresh(buffer)
      invariant PackedSoFar(limits, items, payloads, buffer.items, i)
    {
      payloads := PackOne(buffer, items, payloads, i);
      i := i + 1;
    }
    FlushKeepsPacking(limits, items, payloads, buffer.items);
    var last := buffer.Flush();
    if last.Some? { payloads := payloads + [last.value]; }
  }

  /**
   * The runner's own check never refuses a payload packed under the default limit for its size: a run that is collecting
   * sends every such payload, unless it has sent as many chunks as a run may.
   */
  lemma {:induction false} PackedPayloadsPassTheRunner<T>(
    limits: Limits, items: seq<Item<T>>, p: seq<Item<T>>, run: Runner.Run, name: string)
    requires limits.maxBytes <= Runner.OPERATION_CHUNK_MAX_BYTES
    requires forall x | x in items :: Fits(limits, x)
    requires p in Greedy(limits, items)
    requires run.place.Collecting? && !run.localAborted
    ensures var chunk := Runner.Chunk(Runner.Kind(name), |p|, PayloadBytes(p));
            var next := Runner.Next(run, Runner.Yields(chunk));
            if run.tally.chunks < Runner.OPERATION_CHUNKS_MAX
            then next.place == Runner.Sending(Runner.PutFor(run.tally, chunk)) && next.place.put.payload == |p| > 0
            else next.place == Runner.ClosingStream(Runner.ChunkTooLarge)
  {
    GreedyIsSplit(limits, items);
    var chunk := Runner.Chunk(Runner.Kind(name), |p|, PayloadBytes(p));
    var t := Runner.Yielded(run.tally, chunk);
    if t.chunks < Runner.OPERATION_CHUNKS_MAX {
      var put := Runner.PutFor(t, chunk);
      assert Runner.OnYield(run, chunk)
          == Runner.Write(run, put).(tally := Runner.Sent(t, put), place := Runner.Sending(put));
    } else {
      assert Runner.OnYield(run, chunk) == run.(tally := t, place := Runner.ClosingStream(Runner.ChunkTooLarge));
    }
  }
}
