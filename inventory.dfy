/** The player's inventory of src/objects.py: two parallel lists, the items
    kept in the order of their display names and each item's amount, and the
    index of the selected entry. */
module Inventory {
  import opened Items

  /** Strictly increasing by display name, hence without duplicates. */
  predicate Sorted(items: seq<Item>) {
    forall i, j :: 0 <= i < j < |items| ==> Less(items[i], items[j])
  }

  /** The shape `Player` keeps: parallel lists, sorted items, and a
      selection inside the list (0 when it is empty). */
  predicate Wellformed(items: seq<Item>, counts: seq<int>, selected: int) {
    && |items| == |counts|
    && Sorted(items)
    && (if |items| == 0 then selected == 0 else 0 <= selected < |items|)
  }

  /** The amount of `it` held: its entry's count, 0 when it has none. */
  function CountOf(items: seq<Item>, counts: seq<int>, it: Item): int
    requires |items| == |counts|
  {
    if |items| == 0 then 0
    else if items[0] == it then counts[0]
    else CountOf(items[1..], counts[1..], it)
  }

  /** An item's count is the count at its entry. */
  lemma {:induction false} CountAtEntry(items: seq<Item>, counts: seq<int>, i: int)
    requires |items| == |counts| && Sorted(items) && 0 <= i < |items|
    ensures CountOf(items, counts, items[i]) == counts[i]
  {
    if i > 0 {
      assert items[0] != items[i] by { assert Less(items[0], items[i]); }
      assert items[1..][i - 1] == items[i];
      CountAtEntry(items[1..], counts[1..], i - 1);
    }
  }

  /** An item without an entry counts 0. */
  lemma {:induction false} CountOfAbsent(items: seq<Item>, counts: seq<int>, it: Item)
    requires |items| == |counts| && it !in items
    ensures CountOf(items, counts, it) == 0
  {
    if |items| > 0 {
      assert it !in items[1..];
      CountOfAbsent(items[1..], counts[1..], it);
    }
  }

  /** Changing the count at an entry changes that item's amount and no
      other. */
  lemma {:induction false} CountOfUpdate(items: seq<Item>, counts: seq<int>, i: int, c: int, it: Item)
    requires |items| == |counts| && Sorted(items) && 0 <= i < |items|
    ensures CountOf(items, counts[i := c], it) == if it == items[i] then c else CountOf(items, counts, it)
  {
    if items[0] != it {
      if i == 0 {
        assert counts[i := c][1..] == counts[1..];
      } else {
        assert counts[i := c][1..] == counts[1..][i - 1 := c];
        assert items[1..][i - 1] == items[i];
        CountOfUpdate(items[1..], counts[1..], i - 1, c, it);
      }
    } else if i > 0 {
      assert Less(items[0], items[i]);
    }
  }

  /** Inserting an entry for an item that had none gives it that amount and
      leaves every other amount as it was. */
  lemma {:induction false} CountOfInsert(items: seq<Item>, counts: seq<int>, i: int, x: Item, c: int, it: Item)
    requires |items| == |counts| && 0 <= i <= |items| && x !in items
    ensures CountOf(items[..i] + [x] + items[i..], counts[..i] + [c] + counts[i..], it)
      == if it == x then c else CountOf(items, counts, it)
  {
    var items', counts' := items[..i] + [x] + items[i..], counts[..i] + [c] + counts[i..];
    if i == 0 {
      assert items'[0] == x && counts'[0] == c;
      assert items'[1..] == items && counts'[1..] == counts;
      if it == x {
      } else {
        assert CountOf(items', counts', it) == CountOf(items, counts, it);
      }
    } else {
      assert items'[0] == items[0] && counts'[0] == counts[0];
      assert items'[1..] == items[1..][..i - 1] + [x] + items[1..][i - 1..];
      assert counts'[1..] == counts[1..][..i - 1] + [c] + counts[1..][i - 1..];
      assert x !in items[1..];
      CountOfInsert(items[1..], counts[1..], i - 1, x, c, it);
      if it == x {
        assert items[0] != x;
      }
    }
  }

  /** Removing an entry whose count is 0 changes no item's amount. */
  lemma {:induction false} CountOfRemove(items: seq<Item>, counts: seq<int>, i: int, it: Item)
    requires |items| == |counts| && Sorted(items) && 0 <= i < |items| && counts[i] == 0
    ensures CountOf(items[..i] + items[i + 1..], counts[..i] + counts[i + 1..], it) == CountOf(items, counts, it)
  {
    var items', counts' := items[..i] + items[i + 1..], counts[..i] + counts[i + 1..];
    if i == 0 {
      assert items' == items[1..] && counts' == counts[1..];
      if it == items[0] {
        assert it !in items[1..] by {
          forall j | 1 <= j < |items| ensures items[j] != it {
            assert Less(items[0], items[j]);
          }
        }
        CountOfAbsent(items[1..], counts[1..], it);
      }
    } else {
      assert items'[0] == items[0] && counts'[0] == counts[0];
      assert items'[1..] == items[1..][..i - 1] + items[1..][i..];
      assert counts'[1..] == counts[1..][..i - 1] + counts[1..][i..];
      CountOfRemove(items[1..], counts[1..], i - 1, it);
    }
  }

  /** Splicing an item into the place `BisectLeft` finds keeps the list
      sorted. */
  lemma InsertKeepsSorted(items: seq<Item>, i: int, x: Item)
    requires Sorted(items) && 0 <= i <= |items|
    requires forall j :: 0 <= j < i ==> Less(items[j], x)
    requires forall j :: i <= j < |items| ==> Less(x, items[j])
    ensures Sorted(items[..i] + [x] + items[i..])
  {
    var s := items[..i] + [x] + items[i..];
    forall a, b | 0 <= a < b < |s| ensures Less(s[a], s[b]) {
      if b < i {
        assert s[a] == items[a] && s[b] == items[b];
      } else if b == i {
        assert s[a] == items[a];
      } else if a < i {
        assert s[a] == items[a] && s[b] == items[b - 1];
      } else if a == i {
        assert s[b] == items[b - 1];
      } else {
        assert s[a] == items[a - 1] && s[b] == items[b - 1];
      }
    }
  }

  lemma RemoveKeepsSorted(items: seq<Item>, i: int)
    requires Sorted(items) && 0 <= i < |items|
    ensures Sorted(items[..i] + items[i + 1..])
  {
    var s := items[..i] + items[i + 1..];
    forall a, b | 0 <= a < b < |s| ensures Less(s[a], s[b]) {
      var a', b' := if a < i then a else a + 1, if b < i then b else b + 1;
      assert s[a] == items[a'] && s[b] == items[b'];
    }
  }

  /** `bisect.bisect_left` as `add_item` uses it: the first index whose item
      is not below `x`. */
  method BisectLeft(a: seq<Item>, x: Item) returns (lo: int)
    requires Sorted(a)
    ensures 0 <= lo <= |a|
    ensures forall j :: 0 <= j < lo ==> Less(a[j], x)
    ensures forall j :: lo <= j < |a| ==> !Less(a[j], x)
  {
    lo := 0;
    var hi := |a|;
    while lo < hi
      invariant 0 <= lo <= hi <= |a|
      invariant forall j :: 0 <= j < lo ==> Less(a[j], x)
      invariant forall j :: hi <= j < |a| ==> !Less(a[j], x)
      decreases hi - lo
    {
      var mid := (lo + hi) / 2;
      if Less(a[mid], x) {
        lo := mid + 1;
      } else {
        hi := mid;
      }
    }
  }

  /** Adding to an existing entry: that item's amount grows, the others
      stay, and the shape is kept. */
  lemma AddToEntry(items: seq<Item>, counts: seq<int>, selected: int, index: int, amount: int)
    requires Wellformed(items, counts, selected) && 0 <= index < |items|
    ensures Wellformed(items, counts[index := counts[index] + amount], selected)
    ensures forall it :: (CountOf(items, counts[index := counts[index] + amount], it)
      == CountOf(items, counts, it) + (if it == items[index] then amount else 0))
  {
    forall it ensures CountOf(items, counts[index := counts[index] + amount], it)
      == CountOf(items, counts, it) + (if it == items[index] then amount else 0)
    {
      CountOfUpdate(items, counts, index, counts[index] + amount, it);
      CountAtEntry(items, counts, index);
    }
  }

  /** Inserting a new entry where `BisectLeft` stopped: the list stays
      sorted, the new item gets the amount, the others keep theirs, and the
      selection, shifted when the entry goes in at or before it, stays on
      the same item. */
  lemma AddAsEntry(items: seq<Item>, counts: seq<int>, selected: int, index: int, x: Item, amount: int)
    requires Wellformed(items, counts, selected) && |items| != 0 && 0 <= index <= |items|
    requires forall j :: 0 <= j < index ==> Less(items[j], x)
    requires forall j :: index <= j < |items| ==> !Less(items[j], x)
    requires index < |items| ==> items[index] != x
    ensures x !in items
    ensures var items', counts' := items[..index] + [x] + items[index..], counts[..index] + [amount] + counts[index..];
      var selected' := if index <= selected then selected + 1 else selected;
      && Wellformed(items', counts', selected')
      && items'[selected'] == items[selected]
      && forall it :: CountOf(items', counts', it) == CountOf(items, counts, it) + (if it == x then amount else 0)
  {
    forall j | index <= j < |items| ensures Less(x, items[j]) && items[j] != x {
      if index < j {
        assert Less(items[index], items[j]);
      }
    }
    var items', counts' := items[..index] + [x] + items[index..], counts[..index] + [amount] + counts[index..];
    InsertKeepsSorted(items, index, x);
    forall it ensures CountOf(items', counts', it) == CountOf(items, counts, it) + (if it == x then amount else 0) {
      CountOfInsert(items, counts, index, x, amount, it);
      if it == x {
        CountOfAbsent(items, counts, x);
      }
    }
    var selected' := if index <= selected then selected + 1 else selected;
    assert items'[selected'] == items[selected];
  }

  /** The first item into an empty inventory. */
  lemma AddToEmpty(x: Item, amount: int)
    ensures Wellformed([x], [amount], 0)
    ensures forall it :: CountOf([x], [amount], it) == if it == x then amount else 0
  {
    forall it ensures CountOf([x], [amount], it) == if it == x then amount else 0 {
      assert [x][1..] == [] && [amount][1..] == [];
    }
  }
}
