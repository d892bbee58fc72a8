/**
 * The fixture's scenarios, each as a client of Inventory: the caller builds its
 * own list, hands it to a fresh GildedRose whose flag says the update has not
 * run today, calls UpdateQuality and reads the result back through its own
 * list. Each postcondition is the value the scenario expects.
 */
module Scenarios {
  import opened Inventory

  /** A conjured item with 10 days left loses two points: 30 becomes 28. */
  method ConjuredItemLosesTwo() returns (quality: int)
    ensures quality == 28
  {
    var item := new Item("Conjured Item", 10, 30);
    var items := [item];
    var app := new GildedRose(items, false);
    app.UpdateQuality();
    quality := items[0].quality;
  }

  /** SellIn drops from 10 to 9 on the first call and stays 9 on a second call. */
  method SellInUpdatedOnceDaily() returns (first: int, second: int)
    ensures first == 9 && second == 9
  {
    var item := new Item("foo", 10, 30);
    var items := [item];
    var app := new GildedRose(items, false);
    app.UpdateQuality();
    first := items[0].sellIn;
    app.UpdateQuality();
    second := items[0].sellIn;
  }

  /** A default item at SellIn 0 loses twice the normal point: 30 becomes 28. */
  method QualityDegradesTwiceAsFastWhenExpired() returns (quality: int)
    ensures quality == 30 + (-1) * 2
  {
    var item := new Item("foo", 0, 30);
    var items := [item];
    var app := new GildedRose(items, false);
    app.UpdateQuality();
    quality := items[0].quality;
  }

  /** Quality drops from 30 to 29 on the first call and stays 29 on a second call. */
  method QualityUpdatedOnceDaily() returns (first: int, second: int)
    ensures first == 29 && second == 29
  {
    var item := new Item("foo", 10, 30);
    var items := [item];
    var app := new GildedRose(items, false);
    app.UpdateQuality();
    first := items[0].quality;
    app.UpdateQuality();
    second := items[0].quality;
  }

  /** Aged Brie at SellIn 0 gains exactly one point: 30 becomes 31. */
  method AgedBrieQualityIncreasesWithAge() returns (quality: int)
    ensures quality == 30 + 1
  {
    var item := new Item("Aged Brie", 0, 30);
    var items := [item];
    var app := new GildedRose(items, false);
    app.UpdateQuality();
    quality := items[0].quality;
  }

  /** Backstage passes at SellIn 0 fall to zero: 30 becomes 30 + (-1) * 30. */
  method BackstageQualityGoesToZeroWhenExpired() returns (quality: int)
    ensures quality == 0
  {
    var item := new Item("Backstage passes to a TAFKAL80ETC concert", 0, 30);
    var items := [item];
    var app := new GildedRose(items, false);
    app.UpdateQuality();
    quality := items[0].quality;
  }
}
