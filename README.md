# Gilded Rose inventory updater, modelled in Dafny

The Gilded Rose inventory keeps a list of items. Each item has a fixed `Name`, a
`SellIn` (days left to sell it) and a `Quality`. A `GildedRose` object is built
from the caller's list and a "has been run today" flag. Its `UpdateQuality()`
ages every item in that list by one day, in place, so the caller sees the new
values through its own list. It does this at most once: a second call on the
same object changes nothing.

The behaviour is fixed by the NUnit fixture `GildedRoseTest.cs`. The source
files of the `GildedRose` and `Item` classes are not part of this model, so the
per-item rule is reconstructed from the fixture's expected values:

- a default item (for example `"foo"`) loses one point of quality a day, and two
  once its sell-by date has passed; "passed" is judged on the decremented
  SellIn, since an item at SellIn 0 already loses two;
- `"Conjured Item"` loses twice as much as a default item;
- `"Aged Brie"` gains one point a day, and only one at SellIn 0;
- `"Backstage passes to a TAFKAL80ETC concert"` drops to 0 once the concert is
  over (SellIn 0 at the start of the day);
- every item other than a legendary one loses one day of SellIn.

Some rules are not pinned by any visible expected value. They follow the
classic Gilded Rose rules table and are marked "unsourced" in the table below:
quality is clamped to [0, 50] after each day, `"Sulfuras, Hand of Ragnaros"` never
changes, backstage passes gain 1 point with more than 10 days left, 2 points with
6 to 10 days left and 3 points with 1 to 5 days left, and an expired conjured
item loses 4 points. The rules table also says that Aged Brie "increases
further" once expired. The fixture's Brie case (SellIn 0: 30 becomes 31) rules
this out at SellIn 0, so the model keeps Brie at one point a day throughout.

Files:

- `rules.dfy` (module `Rules`): the pure rule `Step` for one item and one day,
  `Age` for several days, and lemmas about them.
- `inventory.dfy` (module `Inventory`): class `Item` with mutable `sellIn` and
  `quality`, and class `GildedRose` with the borrowed list `items` and its own
  flag `ranToday`; `UpdateQuality` is the in-place loop.
- `scenarios.dfy` (module `Scenarios`): each case of the fixture written as a
  client of `GildedRose`. Each postcondition is the value that case expects.

## Model

| member | source | states |
|---|---|---|
| `Rules.Step` | GildedRoseTest.cs:52-58 | One day of aging: a non-legendary item loses exactly one day of SellIn and ends in [0, 50]; a legendary item keeps both values (the clamp and Sulfuras are unsourced) |
| `Rules.Age` | GildedRoseTest.cs:16-19 | After `days` daily updates SellIn has dropped by exactly `days`, quality lies in [0, 50] once at least one day has passed (unsourced clamp), and a legendary item is unchanged |
| `Rules.OrdinaryLosesOne` | GildedRoseTest.cs:105-111 | A default item before expiry goes from (s, q) to (s - 1, q - 1), as in 10/30 becoming 9/29 |
| `Rules.OrdinaryExpiredLosesTwo` | GildedRoseTest.cs:80-90 | A default item at SellIn <= 0 goes from (s, q) to (s - 1, q - 2), as in quality 30 becoming 28 at SellIn 0 |
| `Rules.OrdinaryExpiredTwiceAsFast` | GildedRoseTest.cs:74-90 | For the same quality, the loss of a default item after expiry is exactly twice its loss before expiry |
| `Rules.ConjuredTwiceAsFast` | GildedRoseTest.cs:28-34 | For quality 4..50, a conjured item loses exactly twice what a default item with the same SellIn and quality loses, and its SellIn changes the same way |
| `Rules.BrieGainsOne` | GildedRoseTest.cs:133-143 | Aged Brie below 50 gains exactly one point, with no doubling at SellIn 0 (30 becomes 31); the same +1 at SellIn < 0 is unsourced, the model's own choice |
| `Rules.BackstageWorthlessAfterConcert` | GildedRoseTest.cs:168-180 | Backstage passes at SellIn <= 0 end the day with quality 0, whatever their quality was |
| `Rules.BackstageGainsBeforeConcert` | GildedRoseTest.cs:202-220 | Before the concert, backstage passes gain 1, 2 or 3 points for more than 10, 6..10 and 1..5 days left (amounts unsourced: the fixture's increments are not visible) |
| `Rules.BackstageStaysWorthless` | GildedRoseTest.cs:157-180 | Once the concert is over, backstage passes stay at quality 0 on every later day |
| `Rules.BrieIncreasesWithAge` | GildedRoseTest.cs:122-143 | From a quality q in [0, 50], Aged Brie after d days has quality exactly min(q + d, 50): it increases with age, one point a day, up to the ceiling (the ceiling and the +1 after expiry are unsourced) |
| `Rules.DegradingNeverGains` | GildedRoseTest.cs:99-111 | Default and conjured items never gain quality over any number of days, and after `days` days have lost at least `days` points unless they reached 0 |
| `Inventory.Item.constructor` | GildedRoseTest.cs:29 | An item is created with the given name, SellIn and quality |
| `Inventory.GildedRose.constructor` | GildedRoseTest.cs:28-30 | The updater keeps the caller's list itself and its own copy of the run-today flag |
| `Inventory.GildedRose.UpdateQuality` | GildedRoseTest.cs:53-65 | Afterwards the flag is set. If it was already set, no item changes. Otherwise every item object in the list is aged once per occurrence in the list, so in a list without repeats each item becomes `Step` of its old values. Only the listed items and the flag can change, and the list's length and order cannot |
| `Scenarios.ConjuredItemLosesTwo` | GildedRoseTest.cs:22-37 | Through the caller's list, a fresh "Conjured Item" 10/30 reads quality 28 after one update |
| `Scenarios.SellInUpdatedOnceDaily` | GildedRoseTest.cs:46-66 | "foo" 10/30 reads SellIn 9 after one update and still 9 after a second update on the same object |
| `Scenarios.QualityDegradesTwiceAsFastWhenExpired` | GildedRoseTest.cs:74-91 | "foo" at SellIn 0 with quality 30 reads quality 30 + (-1) * 2 after one update |
| `Scenarios.QualityUpdatedOnceDaily` | GildedRoseTest.cs:99-117 | "foo" 10/30 reads quality 29 after one update and still 29 after a second update on the same object |
| `Scenarios.AgedBrieQualityIncreasesWithAge` | GildedRoseTest.cs:127-144 | "Aged Brie" at SellIn 0 with quality 30 reads quality 30 + 1 after one update |
| `Scenarios.BackstageQualityGoesToZeroWhenExpired` | GildedRoseTest.cs:162-181 | Backstage passes at SellIn 0 with quality 30 read quality 0 after one update |

## Left out

- Reading the run-today flag from persistent storage (GildedRoseTest.cs:24-27) is I/O. The flag is a plain `bool` given to the constructor.
- The NUnit plumbing (`[TestFixture]`, `[Test]`, `Assert.AreEqual`) is not modelled. Each assertion is a postcondition in `Scenarios`.
- The fragments at GildedRoseTest.cs:152-153, 202-205 and 217-220, and the commented-out block at 222-225, are truncated. Their starting quality and `increment` are not visible, so no scenario is written for them.
- The list is modelled as a fixed sequence of shared `Item` references. The model does not capture the caller adding items to, or removing items from, the shared list after the `GildedRose` is built.
- A quality ceiling and floor, Sulfuras, the backstage increments and the expired conjured rate are not fixed by any visible expected value. The model uses the classic rules table for them, as described above.
- Rules.BrieGainsOne: Brie after expiry is not fixed by any visible expected value either. Here the model does not follow the rules table's "increases further": it keeps Brie at +1 on every day, its own choice, so that SellIn 0 and later days follow one rule.
- Rules.Step: SellIn and Quality are unbounded integers. The C# fields are 32-bit `int`, and the wrap-around of unchecked arithmetic (SellIn at `int.MinValue` decremented to `int.MaxValue`) is not modelled; no tested value comes near either bound.
