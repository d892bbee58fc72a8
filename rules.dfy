/**
 * The per-item aging rule of the Gilded Rose inventory: what one day does to
 * an item's SellIn and Quality, chosen by the item's name, and what several
 * days do.
 */
module Rules {

  const AgedBrie := "Aged Brie"
  const BackstagePasses := "Backstage passes to a TAFKAL80ETC concert"
  const ConjuredItem := "Conjured Item"
  const Sulfuras := "Sulfuras, Hand of Ragnaros"

  const MinQuality := 0
  const MaxQuality := 50

  /** An item that follows the default rule: none of the four special names. */
  predicate IsOrdinary(name: string) {
    name != AgedBrie && name != BackstagePasses && name != ConjuredItem && name != Sulfuras
  }

  /** Legendary items never age. */
  predicate IsLegendary(name: string) {
    name == Sulfuras
  }

  /** Keeps a quality inside [MinQuality, MaxQuality]. */
  function Clamp(q: int): (r: int)
    ensures MinQuality <= r <= MaxQuality
    ensures MinQuality <= q <= MaxQuality ==> r == q
  {
    if q < MinQuality then MinQuality else if q > MaxQuality then MaxQuality else q
  }

  /**
   * The change of quality one day brings to a non-legendary item whose SellIn
   * was `sellIn` at the start of the day, before clamping. An item counts as
   * expired when its decremented SellIn is below zero, that is when `sellIn <= 0`.
   * Per branch:
   * - Aged Brie: +1 on every day; the fixture fixes +1 at SellIn 0, and +1
   *   after expiry is this model's own choice.
   * - Backstage passes: all quality is lost once expired (fixed by the fixture
   *   at SellIn 0); the +3 / +2 / +1 gains before the concert are unsourced.
   * - Conjured Item: -2 before expiry (fixed by the fixture at SellIn 10);
   *   -4 once expired is unsourced.
   * - Every other name: -1 before expiry and -2 once expired (both fixed by the
   *   fixture, at SellIn 10 and SellIn 0).
   */
  function Delta(name: string, sellIn: int, quality: int): (d: int) {
    var expired := sellIn - 1 < 0;
    if name == AgedBrie then 1
    else if name == BackstagePasses then
      (if expired then -quality else if sellIn < 6 then 3 else if sellIn < 11 then 2 else 1)
    else if name == ConjuredItem then (if expired then -4 else -2)
    else (if expired then -2 else -1)
  }

  /**
   * One day of aging for one item: the new (SellIn, Quality). Legendary items
   * keep both; every other item loses a day of SellIn and ends the day with a
   * quality inside [MinQuality, MaxQuality].
   */
  function Step(name: string, sellIn: int, quality: int): (r: (int, int))
    ensures IsLegendary(name) ==> r == (sellIn, quality)
    ensures !IsLegendary(name) ==> r.0 == sellIn - 1
    ensures !IsLegendary(name) ==> MinQuality <= r.1 <= MaxQuality
  {
    if IsLegendary(name) then (sellIn, quality)
    else (sellIn - 1, Clamp(quality + Delta(name, sellIn, quality)))
  }

  /** `days` successive days of aging, starting from (sellIn, quality). */
  function Age(name: string, sellIn: int, quality: int, days: nat): (r: (int, int))
    ensures IsLegendary(name) ==> r == (sellIn, quality)
    ensures !IsLegendary(name) ==> r.0 == sellIn - days
    ensures !IsLegendary(name) && days > 0 ==> MinQuality <= r.1 <= MaxQuality
    decreases days
  {
    if days == 0 then (sellIn, quality)
    else
      var before := Age(name, sellIn, quality, days - 1);
      Step(name, before.0, before.1)
  }

  /** A default item before expiry loses exactly one point of quality. */
  lemma OrdinaryLosesOne(name: string, sellIn: int, quality: int)
    requires IsOrdinary(name) && sellIn > 0
    requires MinQuality + 1 <= quality <= MaxQuality
    ensures Step(name, sellIn, quality) == (sellIn - 1, quality - 1)
  {
  }

  /** A default item at or past its sell-by date loses two points of quality. */
  lemma OrdinaryExpiredLosesTwo(name: string, sellIn: int, quality: int)
    requires IsOrdinary(name) && sellIn <= 0
    requires MinQuality + 2 <= quality <= MaxQuality
    ensures Step(name, sellIn, quality) == (sellIn - 1, quality - 2)
  {
  }

  /**
   * Once expired, a default item degrades twice as fast as before: for the
   * same quality, the loss at any SellIn <= 0 is twice the loss at any SellIn > 0.
   */
  lemma OrdinaryExpiredTwiceAsFast(name: string, early: int, expired: int, quality: int)
    requires IsOrdinary(name) && early > 0 && expired <= 0
    requires MinQuality + 2 <= quality <= MaxQuality
    ensures quality - Step(name, expired, quality).1 == 2 * (quality - Step(name, early, quality).1)
  {
  }

  /**
   * A conjured item degrades twice as fast as a default item with the same
   * SellIn and quality (while the floor is not reached).
   */
  lemma ConjuredTwiceAsFast(name: string, sellIn: int, quality: int)
    requires IsOrdinary(name)
    requires MinQuality + 4 <= quality <= MaxQuality
    ensures Step(ConjuredItem, sellIn, quality).0 == Step(name, sellIn, quality).0
    ensures quality - Step(ConjuredItem, sellIn, quality).1 == 2 * (quality - Step(name, sellIn, quality).1)
  {
  }

  /** Aged Brie gains exactly one point a day, also on its last day: no doubling. */
  lemma BrieGainsOne(sellIn: int, quality: int)
    requires MinQuality <= quality < MaxQuality
    ensures Step(AgedBrie, sellIn, quality) == (sellIn - 1, quality + 1)
  {
  }

  /** Backstage passes are worthless once the concert is over. */
  lemma BackstageWorthlessAfterConcert(sellIn: int, quality: int)
    requires sellIn <= 0
    ensures Step(BackstagePasses, sellIn, quality) == (sellIn - 1, MinQuality)
  {
  }

  /**
   * Before the concert backstage passes gain value, faster as it approaches:
   * one point with more than ten days left, two with 6..10, three with 1..5.
   */
  lemma BackstageGainsBeforeConcert(sellIn: int, quality: int)
    requires sellIn > 0
    requires MinQuality <= quality && quality + 3 <= MaxQuality
    ensures var gain := Step(BackstagePasses, sellIn, quality).1 - quality;
            && (sellIn > 10 ==> gain == 1)
            && (5 < sellIn <= 10 ==> gain == 2)
            && (sellIn <= 5 ==> gain == 3)
  {
  }

  /**
   * After the concert, backstage passes stay worthless on every later day
   * (each later day starts at a SellIn below zero).
   */
  lemma BackstageStaysWorthless(sellIn: int, quality: int, days: nat)
    requires sellIn <= 0 && days > 0
    ensures Age(BackstagePasses, sellIn, quality, days).1 == MinQuality
  {
  }

  /**
   * Aged Brie increases with age: from a quality in [0, 50] it gains exactly
   * one point a day until it reaches the ceiling, and then stays there.
   */
  lemma {:induction false} BrieIncreasesWithAge(sellIn: int, quality: int, days: nat)
    requires MinQuality <= quality <= MaxQuality
    ensures Age(AgedBrie, sellIn, quality, days).1
         == if quality + days > MaxQuality then MaxQuality else quality + days
    decreases days
  {
    if days > 0 {
      BrieIncreasesWithAge(sellIn, quality, days - 1);
    }
  }

  /**
   * Default and conjured items never gain quality, over any number of days;
   * after `days` days a default item has lost at least `days` points unless it
   * reached the floor.
   */
  lemma {:induction false} DegradingNeverGains(name: string, sellIn: int, quality: int, days: nat)
    requires IsOrdinary(name) || name == ConjuredItem
    requires MinQuality <= quality <= MaxQuality
    ensures var q := Age(name, sellIn, quality, days).1;
            q <= quality && (q == MinQuality || q <= quality - days)
    decreases days
  {
    if days > 0 {
      DegradingNeverGains(name, sellIn, quality, days - 1);
    }
  }
}
