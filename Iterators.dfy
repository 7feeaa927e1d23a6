/**
 Section 1 of the study notes: iterators and generators.

 `Iterator` is a cursor over a list: `next` hands out the element under the
 cursor and moves it on, and once the cursor has reached the end every call
 raises `StopIteration`. `generator` produces the same elements with a
 `for ... yield` loop. Here the exhaustion signal is the `Exhausted` output
 rather than a raised exception.
 */
module Iterators {

  /** What one call of `next` gives back: an element, or the exhaustion signal. */
  datatype Output<T> = Item(value: T) | Exhausted

  // ---------------------------------------------------------------------------
  // The cursor as a value: what one `next` does, and what n calls in a row give.
  // ---------------------------------------------------------------------------

  /**
   One `next` call on a cursor at `index` over `data`: its output and the new
   index. It hands out an element exactly when the cursor is inside the list,
   and that element is the one under the cursor; the cursor then moves on by
   one, otherwise it stays put, so it never leaves the list once inside it.
   */
  function Step<T>(data: seq<T>, index: nat): (step: (Output<T>, nat))
    ensures step.0.Item? <==> index < |data|
    ensures step.0.Item? ==> step.0.value == data[index] && step.1 == index + 1
    ensures step.0.Exhausted? ==> step.1 == index
    ensures index <= |data| ==> step.1 <= |data|
  {
    if index >= |data| then (Exhausted, index) else (Item(data[index]), index + 1)
  }

  /**
   The outputs of `n` successive `next` calls on a cursor that starts at
   `index`: one output per call; every element handed out is the list's
   element at the matching offset from `index`; a cursor at or past the end
   gives nothing but exhaustion; and once a call signals exhaustion, so does
   every later one.
   */
  function Calls<T>(data: seq<T>, index: nat, n: nat): (outs: seq<Output<T>>)
    ensures |outs| == n
    ensures forall i :: 0 <= i < n && outs[i].Item? ==> index + i < |data| && outs[i].value == data[index + i]
    ensures index >= |data| ==> forall i :: 0 <= i < n ==> outs[i] == Exhausted
    ensures forall i, j :: 0 <= i < j < n && outs[i].Exhausted? ==> outs[j].Exhausted?
    decreases n
  {
    if n == 0 then []
    else
      var (out, index') := Step(data, index);
      [out] + Calls(data, index', n - 1)
  }

  /** Each element of `s` as the output that hands it out. */
  function Items<T>(s: seq<T>): (outs: seq<Output<T>>)
  {
    seq(|s|, i requires 0 <= i < |s| => Item(s[i]))
  }

  /** `k` exhaustion signals in a row. */
  function ExhaustedTimes<T>(k: nat): (outs: seq<Output<T>>)
  {
    seq(k, _ => Exhausted)
  }

  /** Handing out a first element, then the rest. */
  lemma ItemsCons<T>(x: T, s: seq<T>)
    ensures Items([x] + s) == [Item(x)] + Items(s)
  {
  }

  /** One exhaustion signal, then `k` more. */
  lemma ExhaustedTimesCons<T>(k: nat)
    ensures ExhaustedTimes<T>(k + 1) == [Exhausted] + ExhaustedTimes(k)
  {
  }

  /** A cursor that sits at or past the end stays there: every later call signals exhaustion. */
  lemma {:induction false} ExhaustionRepeats<T>(data: seq<T>, index: nat, n: nat)
    requires index >= |data|
    ensures Calls(data, index, n) == ExhaustedTimes(n)
  {
    if n > 0 {
      ExhaustionRepeats(data, index, n - 1);
      ExhaustedTimesCons<T>(n - 1);
    }
  }

  /** While the cursor stays inside the list, the calls hand out its elements in order. */
  lemma {:induction false} CallsInOrder<T>(data: seq<T>, index: nat, n: nat)
    requires index + n <= |data|
    ensures Calls(data, index, n) == Items(data[index..index + n])
    decreases n
  {
    if n > 0 {
      CallsInOrder(data, index + 1, n - 1);
      assert data[index..index + n] == [data[index]] + data[index + 1..index + n];
      ItemsCons(data[index], data[index + 1..index + n]);
    }
  }

  /**
   Draining a cursor: as many calls as there are elements left hand out exactly
   those elements, in order, and every call after that signals exhaustion.
   */
  lemma {:induction false} CallsDrain<T>(data: seq<T>, index: nat, k: nat)
    requires index <= |data|
    ensures Calls(data, index, |data| - index + k) == Items(data[index..]) + ExhaustedTimes(k)
    decreases |data| - index
  {
    if index == |data| {
      ExhaustionRepeats(data, index, k);
      assert Items(data[index..]) == [];
    } else {
      CallsDrain(data, index + 1, k);
      assert data[index..] == [data[index]] + data[index + 1..];
      ItemsCons(data[index], data[index + 1..]);
    }
  }

  // ---------------------------------------------------------------------------
  // `generator`: a `for item in list: yield item` loop.
  // ---------------------------------------------------------------------------

  /** The values `generator(array)` yields, in the order its loop yields them (`array` is a Dafny keyword, hence `list`). */
  function Generator<T>(list: seq<T>): (yielded: seq<T>)
    ensures |yielded| == |list|
  {
    if list == [] then [] else [list[0]] + Generator(list[1..])
  }

  /** The generator yields every element of its input exactly once, in order, and nothing else. */
  lemma {:induction false} GeneratorYieldsArray<T>(list: seq<T>)
    ensures Generator(list) == list
  {
    if list != [] {
      GeneratorYieldsArray(list[1..]);
    }
  }

  /**
   A fresh `Iterator` hands out the same values as the generator over the same
   list: `|data|` explicit calls of its `next` method give exactly what the
   generator yields, and every call after that signals exhaustion.
   */
  lemma IteratorMatchesGenerator<T>(data: seq<T>, k: nat)
    ensures Calls(data, 0, |data| + k) == Items(Generator(data)) + ExhaustedTimes(k)
  {
    CallsDrain(data, 0, k);
    GeneratorYieldsArray(data);
  }

  // ---------------------------------------------------------------------------
  // The `Iterator` class: the cursor as an object whose `index` field moves.
  // ---------------------------------------------------------------------------

  class Iterator<T> {
    var data: seq<T>
    var index: nat

    /** The cursor never sits past the end of the list. */
    ghost predicate Valid()
      reads this
    {
      index <= |data|
    }

    /** The elements the cursor has yet to hand out. */
    ghost function Remaining(): seq<T>
      reads this
      requires Valid()
    {
      data[index..]
    }

    /** `Iterator(data)`: keeps the list as given and starts the cursor at its first element. */
    constructor (data: seq<T>)
      ensures this.data == data && index == 0
      ensures Valid() && Remaining() == data
    {
      this.data := data;
      index := 0;
    }

    /**
     `next`: past the end it signals exhaustion and leaves the cursor where it is;
     otherwise it hands out the element under the cursor and moves the cursor on by one.
     The list itself is never changed.
     */
    method Next() returns (r: Output<T>)
      modifies this`index
      ensures data == old(data)
      ensures old(index) >= |data| ==> r == Exhausted && index == old(index)
      ensures old(index) < |data| ==> r == Item(data[old(index)]) && index == old(index) + 1
      ensures (r, index) == Step(data, old(index))
      ensures old(Valid()) ==> Valid() && (r.Item? <==> old(Remaining()) != [])
      ensures old(Valid()) && r.Item? ==> old(Remaining()) == [r.value] + Remaining()
    {
      if index >= |data| {
        return Exhausted;
      }
      var value := data[index];
      index := index + 1;
      assert old(data[index..]) == [value] + data[index..];
      return Item(value);
    }
  }

  /**
   Calls `it.next()` explicitly, again and again, until it signals exhaustion.
   The items come out in order and are exactly the ones the cursor still had
   to hand out; the cursor ends at the end of the list.
   */
  method Drain<T>(it: Iterator<T>) returns (items: seq<T>)
    requires it.Valid()
    modifies it
    ensures it.data == old(it.data) && it.index == |it.data|
    ensures items == old(it.Remaining())
  {
    items := [];
    while true
      invariant it.data == old(it.data)
      invariant old(it.index) <= it.index <= |it.data|
      invariant items == it.data[old(it.index)..it.index]
      decreases |it.data| - it.index
    {
      var out := it.Next();
      if out.Exhausted? {
        break;
      }
      items := items + [out.value];
    }
  }

  /**
   `obj = Iterator([2, 4, 4, 6])` followed by explicit `obj.next()` calls until
   exhaustion: they hand out the list's elements in order, the same values
   `generator` would yield, and a further `next` signals exhaustion.
   */
  method IterateFresh<T>(data: seq<T>) returns (items: seq<T>, after: Output<T>)
    ensures items == data && items == Generator(data)
    ensures after == Exhausted
  {
    var it := new Iterator(data);
    items := Drain(it);
    after := it.Next();
    GeneratorYieldsArray(data);
  }
}
