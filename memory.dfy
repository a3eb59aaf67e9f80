/** The bounded conversation memory: an order-preserving list of items that, once
    it grows past its capacity, keeps only its most recent half and raises a
    sticky "summarized" marker. */
module Memory {
  import opened Text

  const DefaultCapacity := 12
  const SummaryMarker := "[older messages summarized]"

  /** One remembered item. The source also stamps each item with the wall-clock
      time; the clock is not part of this model. */
  datatype MemoryItem = MemoryItem(role: string, content: string)

  /** Python's `s[start:]` for any integer `start`: a negative start counts from
      the end and is clamped at the front, a start past the end gives `[]`. */
  function SliceFrom<T>(s: seq<T>, start: int): seq<T>
  {
    if start >= 0 then (if start <= |s| then s[start..] else [])
    else if -start <= |s| then s[|s| + start..]
    else s
  }

  /** The slice is the suffix of `s` of the length Python gives it: `len(s) - start`
      items for a start within `s` and none past the end; `-start` items for a
      negative start within `s`, and all of `s` beyond it. */
  lemma SliceFromShape<T>(s: seq<T>, start: int)
    ensures var r := SliceFrom(s, start);
      && (start >= 0 ==> |r| == if start <= |s| then |s| - start else 0)
      && (start < 0 ==> |r| == if -start <= |s| then -start else |s|)
      && r == s[|s| - |r|..]
  { }

  /** Whether adding one item to a list of `count` items triggers the eviction. */
  predicate Evicts(count: nat, maxItems: int)
  {
    count + 1 > maxItems
  }

  /** The list after `add`: append, then keep `items[-(maxItems // 2):]` when the
      list has grown past the capacity. Dafny's `/` by 2 rounds down like `//`. */
  function Added(items: seq<MemoryItem>, item: MemoryItem, maxItems: int): seq<MemoryItem>
  {
    var grown := items + [item];
    if Evicts(|items|, maxItems) then SliceFrom(grown, -(maxItems / 2)) else grown
  }

  /** `recent(n)`: `items[-n:]`. */
  function Recent(items: seq<MemoryItem>, n: int): (r: seq<MemoryItem>)
    ensures n >= 1 ==> r == items[|items| - Min(n, |items|)..]
    ensures n == 0 ==> r == items
    ensures n < 0 ==> r == if -n <= |items| then items[-n..] else []
  {
    SliceFrom(items, -n)
  }

  /** What one `add` does to the list: it is the old list plus the new item,
      with a prefix dropped; for a non-negative capacity the new item is last;
      with a capacity of at least 2 the size bound is kept and an eviction
      leaves exactly `maxItems // 2` items; with a capacity of 0 or 1 the slice
      `items[-0:]` keeps everything. */
  lemma AddedShape(items: seq<MemoryItem>, item: MemoryItem, maxItems: int)
    ensures var r := Added(items, item, maxItems);
      && |r| <= |items| + 1
      && r == (items + [item])[|items| + 1 - |r|..]
      && (maxItems >= 0 ==> |r| >= 1 && r[|r| - 1] == item)
      && (maxItems >= 2 && |items| <= maxItems ==> |r| <= maxItems)
      && (maxItems >= 2 && Evicts(|items|, maxItems) && |items| <= maxItems ==> |r| == maxItems / 2)
      && (0 <= maxItems < 2 ==> r == items + [item])
      && (!Evicts(|items|, maxItems) ==> r == items + [item])
  {
  }

  /** Adding the given contents one after another. */
  function AddAll(items: seq<MemoryItem>, added: seq<MemoryItem>, maxItems: int): seq<MemoryItem>
    decreases |added|
  {
    if added == [] then items else AddAll(Added(items, added[0], maxItems), added[1..], maxItems)
  }

  /** Up to the capacity nothing is dropped. */
  lemma {:induction false} FillWithoutEviction(items: seq<MemoryItem>, added: seq<MemoryItem>, maxItems: int)
    requires |items| + |added| <= maxItems
    ensures AddAll(items, added, maxItems) == items + added
    decreases |added|
  {
    if added != [] {
      assert !Evicts(|items|, maxItems);
      assert (items + [added[0]]) + added[1..] == items + added;
      FillWithoutEviction(items + [added[0]], added[1..], maxItems);
    }
  }

  /** Adding `C + 1` items to an empty memory of capacity `C >= 2` leaves exactly
      the last `C // 2` of them, in order. */
  lemma FillPastCapacity(added: seq<MemoryItem>, maxItems: int)
    requires maxItems >= 2 && |added| == maxItems + 1
    ensures AddAll([], added, maxItems) == added[|added| - maxItems / 2..]
  {
    var front, last := added[..maxItems], added[maxItems];
    assert added == front + [last];
    AddAllAppend([], front, [last], maxItems);
    FillWithoutEviction([], front, maxItems);
    assert [] + front == front;
    assert AddAll(front, [last], maxItems) == Added(front, last, maxItems);
  }

  lemma {:induction false} AddAllAppend(items: seq<MemoryItem>, a: seq<MemoryItem>, b: seq<MemoryItem>, maxItems: int)
    ensures AddAll(items, a + b, maxItems) == AddAll(AddAll(items, a, maxItems), b, maxItems)
    decreases |a|
  {
    if a != [] {
      assert (a + b)[1..] == a[1..] + b;
      AddAllAppend(Added(items, a[0], maxItems), a[1..], b, maxItems);
    } else {
      assert a + b == b;
    }
  }

  class ConversationMemory {
    const maxItems: int
    var items: seq<MemoryItem>
    var summary: string

    /** The object invariant: the size bound (meaningful from a capacity of 2 up)
        and a summary that is either empty or the marker. */
    ghost predicate Valid()
      reads this
    {
      && (maxItems >= 2 ==> |items| <= maxItems)
      && (summary == "" || summary == SummaryMarker)
    }

    constructor (maxItems: int)
      ensures Valid()
      ensures this.maxItems == maxItems && items == [] && summary == ""
    {
      this.maxItems := maxItems;
      items := [];
      summary := "";
    }

    /** `add(role, content)`. */
    method Add(role: string, content: string)
      requires Valid()
      modifies this
      ensures Valid()
      ensures items == Added(old(items), MemoryItem(role, content), maxItems)
      ensures summary == if Evicts(|old(items)|, maxItems) then SummaryMarker else old(summary)
    {
      AddedShape(items, MemoryItem(role, content), maxItems);
      items := items + [MemoryItem(role, content)];
      if |items| > maxItems {
        summary := SummaryMarker;
        items := SliceFrom(items, -(maxItems / 2));
      }
    }

    /** `recent(n)`: a read-only view of the last items. */
    function RecentItems(n: int): (r: seq<MemoryItem>)
      reads this
      ensures n >= 1 ==> |r| == Min(n, |items|) && r == items[|items| - |r|..]
      ensures n == 0 ==> r == items
    {
      Recent(items, n)
    }
  }
}
