/**
 * The order in which a day's itinerary items are listed (the `tbd`
 * comparator of the itinerary GET handler and of the PDF export): items
 * with a start time first, by start time and then title; items with no
 * start time or the start time 'TBD' last.
 */
module ItemOrder {
  import opened Json
  import opened Store

  /**
   * `a.localeCompare(b)`, taken as plain lexicographic order on code
   * points: -1, 0 or 1.
   */
  function StrCompare(a: string, b: string): (r: int)
    ensures r == -1 || r == 0 || r == 1
    ensures r == 0 <==> a == b
    decreases |a|
  {
    if a == [] then (if b == [] then 0 else -1)
    else if b == [] then 1
    else if a[0] < b[0] then -1
    else if a[0] > b[0] then 1
    else
      var r := StrCompare(a[1..], b[1..]);
      assert r == 0 ==> a == [a[0]] + a[1..] && b == [b[0]] + b[1..];
      r
  }

  /** Swapping the arguments flips the sign. */
  lemma {:induction false} StrCompareFlip(a: string, b: string)
    ensures StrCompare(b, a) == -StrCompare(a, b)
    decreases |a|
  {
    if a != [] && b != [] && a[0] == b[0] {
      StrCompareFlip(a[1..], b[1..]);
    }
  }

  /** Lexicographic order is transitive. */
  lemma {:induction false} StrCompareTrans(a: string, b: string, c: string)
    requires StrCompare(a, b) <= 0 && StrCompare(b, c) <= 0
    ensures StrCompare(a, c) <= 0
    decreases |a|
  {
    if a != [] && b != [] && c != [] && a[0] == b[0] && b[0] == c[0] {
      StrCompareTrans(a[1..], b[1..], c[1..]);
    }
  }

  /** `!a.startTime || a.startTime === 'TBD'`: the item has no fixed start. */
  predicate Untimed(it: Item) {
    !Truthy(it.startTime) || it.startTime == JStr("TBD")
  }

  /** `a.startTime || ''` as the text the comparator compares. */
  function TimeKey(it: Item): string {
    if Truthy(it.startTime) then ToJsString(it.startTime) else ""
  }

  /** The `tbd` comparator: negative when `a` goes first, positive when `b` does. */
  function Compare(a: Item, b: Item): (r: int)
    ensures r == -1 || r == 0 || r == 1
  {
    if Untimed(a) && !Untimed(b) then 1
    else if !Untimed(a) && Untimed(b) then -1
    else
      var byTime := StrCompare(TimeKey(a), TimeKey(b));
      if byTime != 0 then byTime else StrCompare(ToJsString(a.title), ToJsString(b.title))
  }

  /** `a` may be listed before `b`. */
  predicate Before(a: Item, b: Item) {
    Compare(a, b) <= 0
  }

  /** An untimed item sorts after every timed item, and a timed one before every untimed one. */
  lemma UntimedLast(a: Item, b: Item)
    requires Untimed(a) && !Untimed(b)
    ensures Compare(a, b) > 0 && Compare(b, a) < 0
  {
  }

  /** Two items of the same kind are ordered by start time, and by title when the start times are equal. */
  lemma SameKindByTimeThenTitle(a: Item, b: Item)
    requires Untimed(a) == Untimed(b)
    ensures TimeKey(a) != TimeKey(b) ==> (Before(a, b) <==> StrCompare(TimeKey(a), TimeKey(b)) < 0)
    ensures TimeKey(a) == TimeKey(b) ==> (Before(a, b) <==> StrCompare(ToJsString(a.title), ToJsString(b.title)) <= 0)
  {
  }

  /** The comparator is antisymmetric: swapping its arguments flips its sign. */
  lemma CompareFlip(a: Item, b: Item)
    ensures Compare(b, a) == -Compare(a, b)
  {
    StrCompareFlip(TimeKey(a), TimeKey(b));
    StrCompareFlip(ToJsString(a.title), ToJsString(b.title));
  }

  /** Any two items can be ordered one way or the other. */
  lemma BeforeTotal(a: Item, b: Item)
    ensures Before(a, b) || Before(b, a)
  {
    CompareFlip(a, b);
  }

  /** The comparator is transitive, so it is a consistent order for `Array.prototype.sort`. */
  lemma BeforeTrans(a: Item, b: Item, c: Item)
    requires Before(a, b) && Before(b, c)
    ensures Before(a, c)
  {
    var ta, tb, tc := TimeKey(a), TimeKey(b), TimeKey(c);
    var na, nb, nc := ToJsString(a.title), ToJsString(b.title), ToJsString(c.title);
    if Untimed(a) == Untimed(b) && Untimed(b) == Untimed(c) {
      StrCompareTrans(ta, tb, tc);
      if ta == tc {
        StrCompareFlip(ta, tb);
        assert ta == tb && tb == tc;
        StrCompareTrans(na, nb, nc);
      }
    }
  }

  /** `s` lists its items in comparator order. */
  predicate Sorted(s: seq<Item>) {
    forall i, j :: 0 <= i < j < |s| ==> Before(s[i], s[j])
  }

  /** `Before` is a total preorder, the kind of comparator `Array.prototype.sort` needs. */
  lemma BeforeIsTotalPreorder()
    ensures TotalPreorder(Before)
  {
    forall x, y, z | Before(x, y) && Before(y, z)
      ensures Before(x, z)
    {
      BeforeTrans(x, y, z);
    }
    forall x, y
      ensures Before(x, y) || Before(y, x)
    {
      BeforeTotal(x, y);
    }
  }

  /** `d.items.sort(tbd)`: sorts a day's items in place. */
  method SortItems(a: array<Item>)
    modifies a
    ensures Sorted(a[..])
    ensures multiset(a[..]) == multiset(old(a[..]))
    ensures forall i, j :: 0 <= i < j < a.Length && Untimed(a[i]) ==> Untimed(a[j])
  {
    BeforeIsTotalPreorder();
    InsertionSort(a, Before);
    forall i, j | 0 <= i < j < a.Length && Untimed(a[i])
      ensures Untimed(a[j])
    {
      assert Before(a[i], a[j]);
    }
  }

  /** `le` orders any two values one way or the other, and transitively. */
  ghost predicate TotalPreorder<T(!new)>(le: (T, T) -> bool) {
    && (forall x, y :: le(x, y) || le(y, x))
    && (forall x, y, z :: le(x, y) && le(y, z) ==> le(x, z))
  }

  /**
   * `Array.prototype.sort` with a consistent comparator, here by insertion
   * with adjacent swaps (which keeps equal values in their original order).
   */
  method InsertionSort<T(!new)>(a: array<T>, le: (T, T) -> bool)
    requires TotalPreorder(le)
    modifies a
    ensures forall p, q :: 0 <= p < q < a.Length ==> le(a[p], a[q])
    ensures multiset(a[..]) == multiset(old(a[..]))
  {
    var i := 0;
    while i < a.Length
      invariant 0 <= i <= a.Length
      invariant forall p, q :: 0 <= p < q < i ==> le(a[p], a[q])
      invariant multiset(a[..]) == multiset(old(a[..]))
    {
      InsertIntoSorted(a, i, le);
      i := i + 1;
    }
  }

  /** Moves `a[i]` left past every value that sorts after it, so that `a[..i + 1]` is sorted. */
  method InsertIntoSorted<T(!new)>(a: array<T>, i: nat, le: (T, T) -> bool)
    requires TotalPreorder(le)
    requires i < a.Length
    requires forall p, q :: 0 <= p < q < i ==> le(a[p], a[q])
    modifies a
    ensures forall p, q :: 0 <= p < q <= i ==> le(a[p], a[q])
    ensures multiset(a[..]) == multiset(old(a[..]))
  {
    var j := i;
    while j > 0 && !le(a[j - 1], a[j])
      invariant 0 <= j <= i
      invariant forall p, q :: 0 <= p < q <= i && p != j && q != j ==> le(a[p], a[q])
      invariant forall q :: j < q <= i ==> le(a[j], a[q])
      invariant multiset(a[..]) == multiset(old(a[..]))
    {
      a[j - 1], a[j] := a[j], a[j - 1];
      j := j - 1;
    }
  }
}
