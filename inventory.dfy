/**
 * The Gilded Rose inventory updater: an object that borrows the caller's list
 * of items and ages every item in place, at most once per day.
 */
module Inventory {
  import opened Rules

  /** An item of stock. Its name is fixed; SellIn and Quality change in place. */
  class Item {
    const name: string
    var sellIn: int
    var quality: int

    constructor (name: string, sellIn: int, quality: int)
      ensures this.name == name && this.sellIn == sellIn && this.quality == quality
    {
      this.name := name;
      this.sellIn := sellIn;
      this.quality := quality;
    }
  }

  /**
   * The updater. `items` is the caller's own list: the objects in it are shared
   * with the caller, so whatever UpdateQuality does to them the caller sees.
   * `ranToday` is the object's own copy of the once-per-day flag.
   */
  class GildedRose {
    const items: seq<Item>
    var ranToday: bool

    constructor (items: seq<Item>, hasBeenRunToday: bool)
      ensures this.items == items && ranToday == hasBeenRunToday
    {
      this.items := items;
      ranToday := hasBeenRunToday;
    }

    /**
     * Ages every item by one day, unless that was already done today. An item
     * object that the list holds k times is aged k days, once per occurrence.
     * The list itself (its length and order) never changes: `items` is constant.
     */
    method UpdateQuality()
      modifies this, items
      ensures ranToday
      ensures old(ranToday) ==>
        forall o :: o in items ==> o.sellIn == old(o.sellIn) && o.quality == old(o.quality)
      ensures !old(ranToday) ==>
        forall o :: o in items ==>
          (o.sellIn, o.quality) == Age(o.name, old(o.sellIn), old(o.quality), multiset(items)[o])
      ensures !old(ranToday) && NoRepeats(items) ==>
        forall k :: 0 <= k < |items| ==>
          (items[k].sellIn, items[k].quality)
            == Step(items[k].name, old(items[k].sellIn), old(items[k].quality))
    {
      if ranToday {
        return;
      }
      var i := 0;
      while i < |items|
        invariant 0 <= i <= |items|
        invariant !ranToday
        invariant forall o :: o in items ==>
          (o.sellIn, o.quality) == Age(o.name, old(o.sellIn), old(o.quality), multiset(items[..i])[o])
      {
        var item := items[i];
        assert items[..i + 1] == items[..i] + [item];
        var next := Step(item.name, item.sellIn, item.quality);
        label Before:
        item.sellIn, item.quality := next.0, next.1;
        forall o | o in items
          ensures (o.sellIn, o.quality)
               == Age(o.name, old(o.sellIn), old(o.quality), multiset(items[..i + 1])[o])
        {
          assert (old@Before(o.sellIn), old@Before(o.quality))
              == Age(o.name, old(o.sellIn), old(o.quality), multiset(items[..i])[o]);
        }
        i := i + 1;
      }
      assert items[..i] == items;
      ranToday := true;
      if NoRepeats(items) {
        forall k | 0 <= k < |items| {
          OccursOnce(items, k);
        }
      }
    }
  }

  /** No item object appears twice in the list. */
  predicate NoRepeats(items: seq<Item>) {
    forall i, j :: 0 <= i < j < |items| ==> items[i] != items[j]
  }

  /** Each object of a list without repetitions occurs in it exactly once. */
  lemma {:induction false} OccursOnce(items: seq<Item>, k: nat)
    requires k < |items| && NoRepeats(items)
    ensures multiset(items)[items[k]] == 1
  {
    if k == |items| - 1 {
      var init := items[..|items| - 1];
      assert items == init + [items[k]];
      assert items[k] !in init by {
        forall j | 0 <= j < |init| ensures init[j] != items[k] {
          assert init[j] == items[j];
        }
      }
    } else {
      var init := items[..|items| - 1];
      assert items == init + [items[|items| - 1]];
      OccursOnce(init, k);
      assert init[k] == items[k];
    }
  }
}
