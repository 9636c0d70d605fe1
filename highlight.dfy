/**
 * The highlight cycler of the architecture slide: each click of its button
 * restores the previously highlighted list item to the default colour and
 * highlights the next one, wrapping around; cleanup restores every item.
 * The index is a JavaScript number, so it can become NaN.
 */
module Highlight {

  const HighlightColor: string := "#4a86e8"
  const DefaultColor: string := "#333"

  /** The highlight index: an integer, or NaN once `(i + 1) % 0` has been taken. */
  datatype Index = Number(value: int) | NaN

  /** JavaScript's `%` on integers: it truncates, so the result takes the dividend's sign. */
  function JsRemainder(a: int, n: int): (r: int)
    requires n > 0
    ensures -n < r < n
    ensures a >= 0 ==> r == a % n
    ensures a <= 0 ==> r <= 0
  {
    if a >= 0 then a % n else -((-a) % n)
  }

  /** The truncating remainder is odd in its dividend; with the non-negative case this fixes every value. */
  lemma JsRemainderOdd(a: int, n: int)
    requires n > 0
    ensures JsRemainder(-a, n) == -JsRemainder(a, n)
  {
  }

  /**
   * The index after a click with `count` items on the page: the successor
   * modulo `count`, NaN when there are no items, and NaN forever after NaN.
   */
  function NextIndex(i: Index, count: nat): (r: Index)
    ensures r.Number? <==> i.Number? && count > 0
    ensures i.Number? && i.value >= -1 && count > 0 ==> 0 <= r.value < count
    ensures count > 0 && i == Number(-1) ==> r == Number(0)
    ensures count > 0 && i == Number(count - 1) ==> r == Number(0)
    ensures count > 0 && i.Number? && 0 <= i.value < count - 1 ==> r == Number(i.value + 1)
  {
    match i
    case NaN => NaN
    case Number(v) => if count == 0 then NaN else Number(JsRemainder(v + 1, count))
  }

  /** The index addresses an item: only then is the previous item restored. */
  predicate InRange(i: Index, count: nat) {
    i.Number? && 0 <= i.value < count
  }

  /** The item colours after a click from index i. */
  function ClickColors(colors: seq<string>, i: Index): (r: seq<string>)
    ensures |r| == |colors|
  {
    var reset := if InRange(i, |colors|) then colors[i.value := DefaultColor] else colors;
    var next := NextIndex(i, |colors|);
    if next.Number? && 0 <= next.value < |colors| then reset[next.value := HighlightColor] else reset
  }

  /** Every item wearing the highlight colour is the one at the index. */
  ghost predicate Consistent(colors: seq<string>, i: Index) {
    forall k :: 0 <= k < |colors| && colors[k] == HighlightColor ==> i == Number(k)
  }

  /** From a consistent state, a click leaves exactly one item highlighted: the one at the new index. */
  lemma ClickHighlightsExactlyOne(colors: seq<string>, i: Index)
    requires |colors| > 0 && i.Number? && i.value >= -1
    requires Consistent(colors, i)
    ensures var next := NextIndex(i, |colors|);
            forall k :: 0 <= k < |colors| ==> (ClickColors(colors, i)[k] == HighlightColor <==> next == Number(k))
  {
    var next := NextIndex(i, |colors|);
    var r := ClickColors(colors, i);
    forall k | 0 <= k < |colors|
      ensures r[k] == HighlightColor <==> next == Number(k)
    {
      if next != Number(k) && InRange(i, |colors|) && k == i.value {
        assert r[k] == DefaultColor;
      }
    }
  }

  /** A click changes at most two items: the previously highlighted one and the newly highlighted one. */
  lemma ClickTouchesOnlyTwo(colors: seq<string>, i: Index)
    requires i.Number? ==> i.value >= -1
    ensures var r := ClickColors(colors, i);
            var next := NextIndex(i, |colors|);
            && (next.Number? ==> r[next.value] == HighlightColor)
            && (InRange(i, |colors|) && next != i ==> r[i.value] == DefaultColor)
            && forall k :: 0 <= k < |colors| && i != Number(k) && next != Number(k) ==> r[k] == colors[k]
  {
  }

  /** A stale index at or beyond the item count restores nothing; only the new item is written. */
  lemma StaleIndexNoReset(colors: seq<string>, i: Index)
    requires i.Number? && i.value >= |colors| > 0
    ensures NextIndex(i, |colors|).Number?
    ensures ClickColors(colors, i) == colors[NextIndex(i, |colors|).value := HighlightColor]
  {
  }

  /** A NaN index writes no colour and stays NaN; a click with no items makes the index NaN. */
  lemma NaNIsSticky(colors: seq<string>, i: Index)
    ensures i.NaN? ==> ClickColors(colors, i) == colors && NextIndex(i, |colors|) == NaN
    ensures colors == [] ==> NextIndex(i, |colors|) == NaN
  {
  }

  /** A click keeps the colours consistent with the index. */
  lemma ClickPreservesConsistent(colors: seq<string>, i: Index)
    requires i.Number? ==> i.value >= -1
    requires Consistent(colors, i)
    ensures Consistent(ClickColors(colors, i), NextIndex(i, |colors|))
  {
    if colors != [] && i.Number? {
      ClickHighlightsExactlyOne(colors, i);
    }
  }

  /** The items of the slide and its module state: the highlight index and the button listener. */
  class HighlightSlide {
    const items: array<string>
    var index: Index
    var listening: bool

    ghost predicate Valid()
      reads this, items
    {
      && (index.Number? ==> index.value >= -1)
      && Consistent(items[..], index)
    }

    /** The slide's markup: count items in the default colour; the index starts at -1. */
    constructor (count: nat)
      ensures Valid() && fresh(items) && items.Length == count
      ensures forall k :: 0 <= k < count ==> items[k] == DefaultColor
      ensures index == Number(-1) && !listening
    {
      items := new string[count](_ => DefaultColor);
      index := Number(-1);
      listening := false;
    }

    /** Registers the click listener when the button is present. */
    method Initialize(buttonPresent: bool)
      modifies this`listening
      ensures listening == (old(listening) || buttonPresent)
    {
      if buttonPresent {
        listening := true;
      }
    }

    /** One click: restore the previous item, advance the index, highlight the new item. */
    method HighlightNextItem()
      requires Valid()
      modifies this`index, items
      ensures Valid()
      ensures index == NextIndex(old(index), items.Length)
      ensures items[..] == ClickColors(old(items[..]), old(index))
    {
      ghost var colors := items[..];
      ghost var before := index;
      if index.Number? && 0 <= index.value < items.Length {
        items[index.value] := DefaultColor;
      }
      index := NextIndex(index, items.Length);
      if index.Number? && index.value < items.Length {
        items[index.value] := HighlightColor;
      }
      ClickPreservesConsistent(colors, before);
    }

    /** Removes the click listener, restores every item to the default colour and resets the index. */
    method Cleanup(buttonPresent: bool)
      modifies this`index, this`listening, items
      ensures Valid()
      ensures forall k :: 0 <= k < items.Length ==> items[k] == DefaultColor
      ensures index == Number(-1)
      ensures listening == (old(listening) && !buttonPresent)
    {
      if buttonPresent {
        listening := false;
      }
      for k := 0 to items.Length
        invariant forall j :: 0 <= j < k ==> items[j] == DefaultColor
        invariant listening == (old(listening) && !buttonPresent)
      {
        items[k] := DefaultColor;
      }
      index := Number(-1);
      assert HighlightColor[1] != DefaultColor[1];
    }
  }
}
