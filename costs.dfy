/** `dom costs`: the monthly estimate over droplets, volumes and database
    clusters, and the breakdown of droplet prices by tag. All amounts are cents. */
module Costs {
  import opened Base
  import opened Records

  const VolumeCentsPerGb := 10
  /** The flat, explicitly approximate price of any database cluster ($15). */
  const DatabaseCents := 1500

  /** The size table of `costs estimate` ($4 ... $96). */
  const EstimatePrices: map<string, int> := map[
    "s-1vcpu-512mb-10gb" := 400,
    "s-1vcpu-1gb" := 600,
    "s-1vcpu-2gb" := 1200,
    "s-2vcpu-2gb" := 1800,
    "s-2vcpu-4gb" := 2400,
    "s-4vcpu-8gb" := 4800,
    "s-8vcpu-16gb" := 9600]

  /** The size table of `costs by-tag`: the same prices without the largest size. */
  const ByTagPrices: map<string, int> := map[
    "s-1vcpu-512mb-10gb" := 400,
    "s-1vcpu-1gb" := 600,
    "s-1vcpu-2gb" := 1200,
    "s-2vcpu-2gb" := 1800,
    "s-2vcpu-4gb" := 2400,
    "s-4vcpu-8gb" := 4800]

  /** What `costs by-tag` charges for a size missing from its table ($10). */
  const UnknownSizeCents := 1000

  // ---------------------------------------------------------------------------
  // `costs estimate`.

  /** `size_prices.get(slug, 0)`, and when that is 0, `size.price_monthly` or 0. */
  function EstimatePrice(d: Droplet): (cents: int)
    ensures d.sizeSlug in EstimatePrices ==> cents == EstimatePrices[d.sizeSlug]
    ensures d.sizeSlug !in EstimatePrices && d.sizePriceMonthly.Some? ==> cents == d.sizePriceMonthly.value
    ensures d.sizeSlug !in EstimatePrices && d.sizePriceMonthly.None? ==> cents == 0
  {
    var listed := if d.sizeSlug in EstimatePrices then EstimatePrices[d.sizeSlug] else 0;
    if listed == 0 then d.sizePriceMonthly.GetOr(0) else listed
  }

  /** One line of an estimate table: its text cells and its monthly price. */
  datatype PriceRow = PriceRow(cells: seq<string>, cents: int)

  function DropletPriceRow(d: Droplet): PriceRow {
    PriceRow([d.name, d.sizeSlug], EstimatePrice(d))
  }

  function VolumePriceRow(v: Volume): PriceRow {
    PriceRow([v.name, NatToString(v.sizeGigabytes)], v.sizeGigabytes * VolumeCentsPerGb)
  }

  function DatabasePriceRow(db: Database): PriceRow {
    PriceRow([db.name, db.engine, db.size], DatabaseCents)
  }

  /** The sum of the prices of some rows. */
  function RowsTotal(rows: seq<PriceRow>): int {
    if rows == [] then 0 else RowsTotal(rows[..|rows| - 1]) + rows[|rows| - 1].cents
  }

  lemma RowsTotalSnoc(rows: seq<PriceRow>, row: PriceRow)
    ensures RowsTotal(rows + [row]) == RowsTotal(rows) + row.cents
  {
    assert (rows + [row])[..|rows|] == rows;
  }

  datatype Estimate = Estimate(
    droplets: seq<PriceRow>, volumes: seq<PriceRow>, databases: seq<PriceRow>, total: int)

  /** Appends the price row of every item to `rows`, adding each price to `total`. */
  method AddRows<T>(items: seq<T>, row: T -> PriceRow, rows0: seq<PriceRow>, total0: int)
    returns (rows: seq<PriceRow>, total: int)
    requires total0 == RowsTotal(rows0)
    ensures rows == rows0 + Map(row, items)
    ensures total == RowsTotal(rows)
  {
    rows, total := rows0, total0;
    for i := 0 to |items|
      invariant rows == rows0 + Map(row, items[..i])
      invariant total == RowsTotal(rows)
    {
      MapStep(row, items, i);
      RowsTotalSnoc(rows, row(items[i]));
      assert rows0 + Map(row, items[..i + 1]) == rows + [row(items[i])];
      rows, total := rows + [row(items[i])], total + row(items[i]).cents;
    }
    assert items[..|items|] == items;
  }

  /** The droplet and volume listings are not guarded, so their failure ends the
      command; a failing database listing is swallowed and contributes nothing.
      The printed total is the sum of every row printed in the three sections. */
  method CostEstimate(droplets: Listing<Droplet>, volumes: Listing<Volume>,
                      databases: Listing<Database>)
    returns (r: Outcome<Estimate>)
    ensures droplets.ListFailed? || volumes.ListFailed? <==> r == Crash
    ensures r.Done? ==> r.value.droplets == Map(DropletPriceRow, droplets.items)
    ensures r.Done? ==> r.value.volumes == Map(VolumePriceRow, volumes.items)
    ensures r.Done? ==> r.value.databases
                        == (if databases.Listed? then Map(DatabasePriceRow, databases.items) else [])
    ensures r.Done? ==> r.value.total
                        == RowsTotal(r.value.droplets) + RowsTotal(r.value.volumes) + RowsTotal(r.value.databases)
  {
    if droplets.ListFailed? {
      return Crash;
    }
    var dropletRows, total := AddRows(droplets.items, DropletPriceRow, [], 0);
    if volumes.ListFailed? {
      return Crash;
    }
    var volumeRows, t2 := AddRows(volumes.items, VolumePriceRow, [], 0);
    total := total + t2;
    var databaseRows := [];
    if databases.Listed? {
      var t3;
      databaseRows, t3 := AddRows(databases.items, DatabasePriceRow, [], 0);
      total := total + t3;
    }
    assert [] + Map(DropletPriceRow, droplets.items) == Map(DropletPriceRow, droplets.items);
    assert [] + Map(VolumePriceRow, volumes.items) == Map(VolumePriceRow, volumes.items);
    r := Done(Estimate(dropletRows, volumeRows, databaseRows, total));
  }

  /** The droplet section costs the sum of the droplets' prices. */
  lemma {:induction false} DropletRowsTotal(ds: seq<Droplet>)
    ensures RowsTotal(Map(DropletPriceRow, ds)) == Sum(Map(EstimatePrice, ds))
  {
    if ds != [] {
      var init := ds[..|ds| - 1];
      DropletRowsTotal(init);
      assert Map(DropletPriceRow, ds)[..|ds| - 1] == Map(DropletPriceRow, init);
      assert Map(EstimatePrice, ds)[..|ds| - 1] == Map(EstimatePrice, init);
    }
  }

  /** Each volume contributes 10 cents per GB: the section costs 10 cents times the total size. */
  lemma {:induction false} VolumeRowsTotal(vs: seq<Volume>)
    ensures RowsTotal(Map(VolumePriceRow, vs)) == VolumeCentsPerGb * Sum(Map((v: Volume) => v.sizeGigabytes as int, vs))
  {
    if vs != [] {
      var init := vs[..|vs| - 1];
      VolumeRowsTotal(init);
      assert Map(VolumePriceRow, vs)[..|vs| - 1] == Map(VolumePriceRow, init);
      assert Map((v: Volume) => v.sizeGigabytes as int, vs)[..|vs| - 1]
          == Map((v: Volume) => v.sizeGigabytes as int, init);
    }
  }

  /** Every database cluster contributes the same flat price. */
  lemma {:induction false} DatabaseRowsTotal(dbs: seq<Database>)
    ensures RowsTotal(Map(DatabasePriceRow, dbs)) == DatabaseCents * |dbs|
  {
    if dbs != [] {
      var init := dbs[..|dbs| - 1];
      DatabaseRowsTotal(init);
      assert Map(DatabasePriceRow, dbs)[..|dbs| - 1] == Map(DatabasePriceRow, init);
    }
  }

  // ---------------------------------------------------------------------------
  // `costs by-tag`.

  /** `size_prices.get(slug, 10)` over the by-tag table. */
  function ByTagPrice(d: Droplet): (cents: int)
    ensures d.sizeSlug in ByTagPrices ==> cents == ByTagPrices[d.sizeSlug]
    ensures d.sizeSlug !in ByTagPrices ==> cents == UnknownSizeCents
    ensures cents > 0
  {
    if d.sizeSlug in ByTagPrices then ByTagPrices[d.sizeSlug] else UnknownSizeCents
  }

  /** The two commands price the largest size differently: $96 in the estimate,
      the unknown-size $10 by tag. */
  lemma LargestSizePricedDifferently(d: Droplet)
    requires d.sizeSlug == "s-8vcpu-16gb"
    ensures EstimatePrice(d) == 9600 && ByTagPrice(d) == UnknownSizeCents
  {
  }

  /** The state of the tally loop: `tag_costs` (its keys in insertion order, as a
      Python dict keeps them, and its values) and `untagged`. */
  datatype Tally = Tally(order: seq<string>, costs: map<string, int>, untagged: int)

  function Get(m: map<string, int>, k: string): int {
    if k in m then m[k] else 0
  }

  /** `tag_costs[tag] = tag_costs.get(tag, 0) + price`. */
  function AddToTag(t: Tally, tag: string, price: int): Tally {
    if tag in t.costs then t.(costs := t.costs[tag := t.costs[tag] + price])
    else t.(order := t.order + [tag], costs := t.costs[tag := price])
  }

  /** The inner loop: the price added to each of the droplet's tags in turn. */
  function AddToTags(t: Tally, tags: seq<string>, price: int): Tally {
    if tags == [] then t else AddToTag(AddToTags(t, tags[..|tags| - 1], price), tags[|tags| - 1], price)
  }

  /** One turn of the outer loop. */
  function TallyStep(t: Tally, d: Droplet): Tally {
    if d.tags != [] then AddToTags(t, d.tags, ByTagPrice(d))
    else t.(untagged := t.untagged + ByTagPrice(d))
  }

  /** The tally after the outer loop has run over `ds`. */
  function TallyOf(ds: seq<Droplet>): Tally {
    if ds == [] then Tally([], map[], 0) else TallyStep(TallyOf(ds[..|ds| - 1]), ds[|ds| - 1])
  }

  // Reference definitions, stated without the loop.

  /** What a tag costs: each droplet's price once per occurrence of the tag in its tags. */
  function TagCost(ds: seq<Droplet>, tag: string): int {
    if ds == [] then 0
    else TagCost(ds[..|ds| - 1], tag) + ByTagPrice(ds[|ds| - 1]) * Count(tag, ds[|ds| - 1].tags)
  }

  /** The sum of the prices of the droplets without tags. */
  function UntaggedCost(ds: seq<Droplet>): int {
    if ds == [] then 0
    else UntaggedCost(ds[..|ds| - 1]) + (if ds[|ds| - 1].tags == [] then ByTagPrice(ds[|ds| - 1]) else 0)
  }

  /** Every tag of every droplet, in listing order. */
  function AllTags(ds: seq<Droplet>): seq<string> {
    if ds == [] then [] else AllTags(ds[..|ds| - 1]) + ds[|ds| - 1].tags
  }

  /** The distinct elements of `s` in the order of their first occurrence. */
  function FirstSeen(s: seq<string>): seq<string> {
    if s == [] then []
    else if s[|s| - 1] in s[..|s| - 1] then FirstSeen(s[..|s| - 1])
    else FirstSeen(s[..|s| - 1]) + [s[|s| - 1]]
  }

  lemma {:induction false} FirstSeenElements(s: seq<string>)
    ensures forall x :: x in FirstSeen(s) <==> x in s
    ensures forall i, j :: 0 <= i < j < |FirstSeen(s)| ==> FirstSeen(s)[i] != FirstSeen(s)[j]
  {
    if s != [] {
      FirstSeenElements(s[..|s| - 1]);
      assert s == s[..|s| - 1] + [s[|s| - 1]];
    }
  }

  /** The inner loop keeps the keys in first-seen order. */
  lemma {:induction false} AddToTagsOrder(t: Tally, seen: seq<string>, tags: seq<string>, price: int)
    requires t.order == FirstSeen(seen)
    requires forall k :: k in t.costs <==> k in seen
    ensures AddToTags(t, tags, price).order == FirstSeen(seen + tags)
    ensures forall k :: k in AddToTags(t, tags, price).costs <==> k in seen + tags
    decreases |tags|
  {
    if tags != [] {
      var init := tags[..|tags| - 1];
      var x := tags[|tags| - 1];
      AddToTagsOrder(t, seen, init, price);
      var all := seen + tags;
      assert all == (seen + init) + [x];
      assert all[..|all| - 1] == seen + init;
    } else {
      assert seen + tags == seen;
    }
  }

  /** The inner loop adds the price to a tag once per occurrence, and leaves the
      untagged total alone. */
  lemma {:induction false} AddToTagsCost(t: Tally, tags: seq<string>, price: int, k: string)
    ensures Get(AddToTags(t, tags, price).costs, k) == Get(t.costs, k) + price * Count(k, tags)
    ensures AddToTags(t, tags, price).untagged == t.untagged
    decreases |tags|
  {
    if tags != [] {
      var init := tags[..|tags| - 1];
      var x := tags[|tags| - 1];
      var once := if x == k then 1 else 0;
      assert Count(k, tags) == Count(k, init) + once;
      AddToTagsCost(t, init, price, k);
      AddToTagGet(AddToTags(t, init, price), x, price, k);
      assert price * (Count(k, init) + once) == price * Count(k, init) + price * once;
    }
  }

  /** One addition changes only the entry of its own tag. */
  lemma AddToTagGet(t: Tally, tag: string, price: int, k: string)
    ensures Get(AddToTag(t, tag, price).costs, k) == Get(t.costs, k) + price * (if tag == k then 1 else 0)
    ensures AddToTag(t, tag, price).untagged == t.untagged
  {
  }

  lemma {:induction false} TallyOfAgrees(ds: seq<Droplet>)
    ensures TallyOf(ds).order == FirstSeen(AllTags(ds))
    ensures forall k :: k in TallyOf(ds).costs <==> k in AllTags(ds)
    ensures forall k :: Get(TallyOf(ds).costs, k) == TagCost(ds, k)
    ensures TallyOf(ds).untagged == UntaggedCost(ds)
  {
    if ds != [] {
      var init := ds[..|ds| - 1];
      var d := ds[|ds| - 1];
      TallyOfAgrees(init);
      var t := TallyOf(init);
      if d.tags != [] {
        AddToTagsOrder(t, AllTags(init), d.tags, ByTagPrice(d));
        AddToTagsCost(t, d.tags, ByTagPrice(d), "");
        forall k ensures Get(TallyOf(ds).costs, k) == TagCost(ds, k) {
          AddToTagsCost(t, d.tags, ByTagPrice(d), k);
        }
      } else {
        assert AllTags(ds) == AllTags(init);
        forall k ensures Get(TallyOf(ds).costs, k) == TagCost(ds, k) {
          assert Count(k, d.tags) == 0;
        }
      }
    }
  }

  /** One row of the by-tag table. */
  datatype TagRow = TagRow(tag: string, cents: int)

  /** `tag_costs.items()`: the entries in insertion order. */
  function Items(order: seq<string>, costs: map<string, int>): (r: seq<TagRow>)
    ensures |r| == |order|
    ensures forall i :: 0 <= i < |r| ==> r[i] == TagRow(order[i], Get(costs, order[i]))
  {
    if order == [] then []
    else Items(order[..|order| - 1], costs) + [TagRow(order[|order| - 1], Get(costs, order[|order| - 1]))]
  }

  // `sorted(items, key=lambda x: -x[1])`: a stable sort by descending cost.

  /** Places `x` after every leading row that costs at least as much. */
  function InsertByCost(x: TagRow, s: seq<TagRow>): seq<TagRow> {
    if s == [] then [x]
    else if s[0].cents >= x.cents then [s[0]] + InsertByCost(x, s[1..])
    else [x] + s
  }

  function SortByCost(s: seq<TagRow>): seq<TagRow> {
    if s == [] then [] else InsertByCost(s[|s| - 1], SortByCost(s[..|s| - 1]))
  }

  ghost predicate NonIncreasing(s: seq<TagRow>) {
    forall i, j :: 0 <= i < j < |s| ==> s[i].cents >= s[j].cents
  }

  /** The rows that cost exactly `c`, in order. */
  function WithCost(s: seq<TagRow>, c: int): seq<TagRow> {
    if s == [] then [] else (if s[0].cents == c then [s[0]] else []) + WithCost(s[1..], c)
  }

  lemma {:induction false} WithCostAppend(a: seq<TagRow>, b: seq<TagRow>, c: int)
    ensures WithCost(a + b, c) == WithCost(a, c) + WithCost(b, c)
  {
    if a != [] {
      assert (a + b)[1..] == a[1..] + b;
      WithCostAppend(a[1..], b, c);
    } else {
      assert a + b == b;
    }
  }

  lemma {:induction false} WithCostNone(s: seq<TagRow>, c: int)
    requires forall i :: 0 <= i < |s| ==> s[i].cents < c
    ensures WithCost(s, c) == []
  {
    if s != [] {
      WithCostNone(s[1..], c);
    }
  }

  lemma {:induction false} InsertByCostOrdered(x: TagRow, s: seq<TagRow>)
    requires NonIncreasing(s)
    ensures NonIncreasing(InsertByCost(x, s))
    ensures |InsertByCost(x, s)| == |s| + 1
    ensures InsertByCost(x, s)[0] == (if s != [] && s[0].cents >= x.cents then s[0] else x)
  {
    if s != [] && s[0].cents >= x.cents {
      InsertByCostOrdered(x, s[1..]);
      var rest := InsertByCost(x, s[1..]);
      var r := [s[0]] + rest;
      assert rest[0].cents <= s[0].cents by {
        if |s| > 1 { assert s[1] == s[1..][0]; }
      }
      forall i, j | 0 <= i < j < |r| ensures r[i].cents >= r[j].cents {
        if i == 0 {
          assert r[j] == rest[j - 1];
          if j - 1 > 0 { assert rest[0].cents >= rest[j - 1].cents; }
        } else {
          assert r[i] == rest[i - 1] && r[j] == rest[j - 1];
        }
      }
    }
  }

  lemma {:induction false} InsertByCostPermutes(x: TagRow, s: seq<TagRow>)
    ensures multiset(InsertByCost(x, s)) == multiset(s) + multiset{x}
  {
    if s != [] && s[0].cents >= x.cents {
      InsertByCostPermutes(x, s[1..]);
      var rest := InsertByCost(x, s[1..]);
      assert multiset([s[0]] + rest) == multiset{s[0]} + multiset(rest);
      assert s == [s[0]] + s[1..];
      assert multiset(s) == multiset{s[0]} + multiset(s[1..]);
    } else if s != [] {
      assert multiset([x] + s) == multiset{x} + multiset(s);
    }
  }

  lemma NonIncreasingTail(s: seq<TagRow>)
    requires s != [] && NonIncreasing(s)
    ensures NonIncreasing(s[1..])
  {
    forall i, j | 0 <= i < j < |s[1..]| ensures s[1..][i].cents >= s[1..][j].cents {
      assert s[1..][i] == s[i + 1] && s[1..][j] == s[j + 1];
    }
  }

  lemma {:induction false} InsertByCostStable(x: TagRow, s: seq<TagRow>, c: int)
    requires NonIncreasing(s)
    ensures x.cents == c ==> WithCost(InsertByCost(x, s), c) == WithCost(s, c) + [x]
    ensures x.cents != c ==> WithCost(InsertByCost(x, s), c) == WithCost(s, c)
  {
    if s == [] {
    } else if s[0].cents >= x.cents {
      NonIncreasingTail(s);
      InsertByCostStable(x, s[1..], c);
      var rest := InsertByCost(x, s[1..]);
      assert ([s[0]] + rest)[1..] == rest;
      if s[0].cents == c {
        assert WithCost([s[0]] + rest, c) == [s[0]] + WithCost(rest, c);
      } else {
        assert WithCost([s[0]] + rest, c) == WithCost(rest, c);
      }
    } else {
      InsertBeforeStable(x, s, c);
    }
  }

  /** Placing `x` in front of rows that all cost less than it. */
  lemma InsertBeforeStable(x: TagRow, s: seq<TagRow>, c: int)
    requires NonIncreasing(s) && s != [] && s[0].cents < x.cents
    ensures x.cents == c ==> WithCost([x] + s, c) == WithCost(s, c) + [x]
    ensures x.cents != c ==> WithCost([x] + s, c) == WithCost(s, c)
  {
    assert ([x] + s)[1..] == s;
    if x.cents == c {
      forall i | 0 <= i < |s| ensures s[i].cents < c {
        if i > 0 { assert s[0].cents >= s[i].cents; }
      }
      WithCostNone(s, c);
    }
  }

  ghost predicate DistinctTags(s: seq<TagRow>) {
    forall i, j :: 0 <= i < j < |s| ==> s[i].tag != s[j].tag
  }

  /** Every row of `InsertByCost(x, s)` is `x` or a row of `s`. */
  lemma {:induction false} InsertByCostFrom(x: TagRow, s: seq<TagRow>, k: nat)
    requires k < |InsertByCost(x, s)|
    ensures InsertByCost(x, s)[k] == x || exists m :: 0 <= m < |s| && InsertByCost(x, s)[k] == s[m]
  {
    if s != [] && s[0].cents >= x.cents && k > 0 {
      InsertByCostFrom(x, s[1..], k - 1);
      if InsertByCost(x, s)[k] != x {
        var m :| 0 <= m < |s[1..]| && InsertByCost(x, s[1..])[k - 1] == s[1..][m];
        assert InsertByCost(x, s)[k] == s[m + 1];
      }
    } else if s != [] && s[0].cents < x.cents && k > 0 {
      assert InsertByCost(x, s)[k] == s[k - 1];
    }
  }

  lemma {:induction false} InsertByCostDistinct(x: TagRow, s: seq<TagRow>)
    requires DistinctTags(s)
    requires forall i :: 0 <= i < |s| ==> s[i].tag != x.tag
    ensures DistinctTags(InsertByCost(x, s))
  {
    if s != [] && s[0].cents >= x.cents {
      var tail := s[1..];
      assert DistinctTags(tail) by {
        forall i, j | 0 <= i < j < |tail| ensures tail[i].tag != tail[j].tag {
          assert tail[i] == s[i + 1] && tail[j] == s[j + 1];
        }
      }
      InsertByCostDistinct(x, tail);
      var rest := InsertByCost(x, tail);
      forall k | 0 <= k < |rest| ensures rest[k].tag != s[0].tag {
        InsertByCostFrom(x, tail, k);
        if rest[k] != x {
          var m :| 0 <= m < |tail| && rest[k] == tail[m];
          assert tail[m] == s[m + 1];
        }
      }
      var r := [s[0]] + rest;
      forall i, j | 0 <= i < j < |r| ensures r[i].tag != r[j].tag {
        if i == 0 {
          assert r[j] == rest[j - 1];
        } else {
          assert r[i] == rest[i - 1] && r[j] == rest[j - 1];
        }
      }
    } else if s != [] {
      var r := [x] + s;
      forall i, j | 0 <= i < j < |r| ensures r[i].tag != r[j].tag {
        if i == 0 {
          assert r[j] == s[j - 1];
        } else {
          assert r[i] == s[i - 1] && r[j] == s[j - 1];
        }
      }
    }
  }

  /** The descending sort returns the rows it was given, ordered by non-increasing
      cost. */
  lemma {:induction false} SortByCostCorrect(s: seq<TagRow>)
    ensures NonIncreasing(SortByCost(s))
    ensures multiset(SortByCost(s)) == multiset(s)
  {
    SortByCostOrdered(s);
    SortByCostPermutes(s);
  }

  lemma {:induction false} SortByCostPermutes(s: seq<TagRow>)
    ensures multiset(SortByCost(s)) == multiset(s)
  {
    if s != [] {
      var init := s[..|s| - 1];
      var x := s[|s| - 1];
      SortByCostPermutes(init);
      InsertByCostPermutes(x, SortByCost(init));
      assert s == init + [x];
      assert multiset(s) == multiset(init) + multiset{x};
    }
  }

  lemma {:induction false} SortByCostOrdered(s: seq<TagRow>)
    ensures NonIncreasing(SortByCost(s))
  {
    if s != [] {
      SortByCostOrdered(s[..|s| - 1]);
      InsertByCostOrdered(s[|s| - 1], SortByCost(s[..|s| - 1]));
    }
  }

  /** The sort is stable: the rows of any one cost come out in the order they
      went in. */
  lemma {:induction false} SortByCostStable(s: seq<TagRow>, c: int)
    ensures WithCost(SortByCost(s), c) == WithCost(s, c)
  {
    if s != [] {
      var init := s[..|s| - 1];
      var x := s[|s| - 1];
      SortByCostStable(init, c);
      SortByCostOrdered(init);
      InsertByCostStable(x, SortByCost(init), c);
      assert s == init + [x];
      WithCostAppend(init, [x], c);
      assert [x][1..] == [];
      if x.cents == c {
        assert WithCost([x], c) == [x];
      } else {
        assert WithCost([x], c) == [];
      }
    }
  }

  datatype ByTagReport =
    | NoTaggedResources
    | TagTable(rows: seq<TagRow>, untaggedRow: Option<int>)

  /** What `costs by-tag` shows for a droplet listing. */
  function ByTagReportOf(ds: seq<Droplet>): (r: ByTagReport)
    ensures r.TagTable? && r.untaggedRow.Some? ==> r.untaggedRow.value > 0
  {
    var t := TallyOf(ds);
    if t.costs == map[] then NoTaggedResources
    else TagTable(SortByCost(Items(t.order, t.costs)), if t.untagged > 0 then Some(t.untagged) else None)
  }

  /** The inner loop over one droplet's tags: each tag's entry grows by the price,
      a tag seen for the first time being added at the end of the key order. */
  method AddTags(order: seq<string>, tagCosts: map<string, int>, ghost untagged: int, tags: seq<string>, price: int)
    returns (order': seq<string>, tagCosts': map<string, int>)
    ensures Tally(order', tagCosts', untagged) == AddToTags(Tally(order, tagCosts, untagged), tags, price)
  {
    ghost var before := Tally(order, tagCosts, untagged);
    order', tagCosts' := order, tagCosts;
    for j := 0 to |tags|
      invariant Tally(order', tagCosts', untagged) == AddToTags(before, tags[..j], price)
    {
      assert tags[..j + 1][..j] == tags[..j];
      var tag := tags[j];
      if tag in tagCosts' {
        tagCosts' := tagCosts'[tag := tagCosts'[tag] + price];
      } else {
        order' := order' + [tag];
        tagCosts' := tagCosts'[tag := price];
      }
    }
    assert tags[..|tags|] == tags;
  }

  /** The tally as the source computes it: an outer loop over the droplets and an
      inner loop over each droplet's tags, updating the dictionary in place. */
  method CostByTag(droplets: Listing<Droplet>) returns (r: Outcome<ByTagReport>)
    ensures droplets.ListFailed? <==> r == Crash
    ensures r.Done? ==> r.value == ByTagReportOf(droplets.items)
  {
    if droplets.ListFailed? {
      return Crash;
    }
    var ds := droplets.items;
    var order: seq<string>, tagCosts: map<string, int>, untagged := [], map[], 0;
    for i := 0 to |ds|
      invariant Tally(order, tagCosts, untagged) == TallyOf(ds[..i])
    {
      assert ds[..i + 1][..i] == ds[..i];
      var d := ds[i];
      var price := ByTagPrice(d);
      if d.tags != [] {
        order, tagCosts := AddTags(order, tagCosts, untagged, d.tags, price);
      } else {
        untagged := untagged + price;
      }
    }
    assert ds[..|ds|] == ds;
    if tagCosts == map[] {
      return Done(NoTaggedResources);
    }
    var rows := SortByCost(Items(order, tagCosts));
    r := Done(TagTable(rows, if untagged > 0 then Some(untagged) else None));
  }

  lemma {:induction false} UntaggedCostPositive(ds: seq<Droplet>)
    ensures UntaggedCost(ds) >= 0
    ensures UntaggedCost(ds) > 0 <==> exists i :: 0 <= i < |ds| && ds[i].tags == []
  {
    if ds != [] {
      var init := ds[..|ds| - 1];
      UntaggedCostPositive(init);
      if exists i :: 0 <= i < |init| && init[i].tags == [] {
        var i :| 0 <= i < |init| && init[i].tags == [];
        assert ds[i] == init[i];
      }
    }
  }

  lemma {:induction false} AllTagsEmpty(ds: seq<Droplet>)
    ensures AllTags(ds) == [] <==> forall i :: 0 <= i < |ds| ==> ds[i].tags == []
  {
    if ds != [] {
      var init := ds[..|ds| - 1];
      AllTagsEmpty(init);
      assert forall i :: 0 <= i < |init| ==> init[i] == ds[i];
    }
  }

  lemma {:induction false} SortByCostDistinct(s: seq<TagRow>)
    requires DistinctTags(s)
    ensures DistinctTags(SortByCost(s))
  {
    if s != [] {
      var init := s[..|s| - 1];
      var x := s[|s| - 1];
      SortByCostDistinct(init);
      SortByCostCorrect(init);
      var sorted := SortByCost(init);
      forall k | 0 <= k < |sorted| ensures sorted[k].tag != x.tag {
        assert sorted[k] in multiset(sorted);
        var m :| 0 <= m < |init| && init[m] == sorted[k];
        assert s[m] == init[m];
      }
      InsertByCostDistinct(x, sorted);
    }
  }

  /** Reference rows, stated without the loop: one per distinct tag in the order
      the tags first appear in the listing, each at the tag's cost. */
  function FirstSeenRows(ds: seq<Droplet>): seq<TagRow> {
    Map((tag: string) => TagRow(tag, TagCost(ds, tag)), FirstSeen(AllTags(ds)))
  }

  /** The tag rows before sorting are the reference rows: one per distinct tag,
      in first-seen order, each at the tag's cost. */
  lemma TallyItems(ds: seq<Droplet>)
    ensures var t := TallyOf(ds); var items := Items(t.order, t.costs);
      && items == FirstSeenRows(ds)
      && DistinctTags(items)
      && (forall i :: 0 <= i < |items| ==> items[i].cents == TagCost(ds, items[i].tag))
      && (forall tag :: (exists i :: 0 <= i < |items| && items[i].tag == tag) <==> tag in AllTags(ds))
  {
    TallyItemsReference(ds);
    FirstSeenRowsFacts(ds);
  }

  lemma TallyItemsReference(ds: seq<Droplet>)
    ensures Items(TallyOf(ds).order, TallyOf(ds).costs) == FirstSeenRows(ds)
  {
    var t := TallyOf(ds);
    var items := Items(t.order, t.costs);
    var rows := FirstSeenRows(ds);
    TallyOfAgrees(ds);
    forall i | 0 <= i < |items| ensures items[i] == rows[i] {
      assert items[i] == TagRow(t.order[i], Get(t.costs, t.order[i]));
    }
  }

  lemma FirstSeenRowsFacts(ds: seq<Droplet>)
    ensures var rows := FirstSeenRows(ds);
      && DistinctTags(rows)
      && (forall i :: 0 <= i < |rows| ==> rows[i].cents == TagCost(ds, rows[i].tag))
      && (forall tag :: (exists i :: 0 <= i < |rows| && rows[i].tag == tag) <==> tag in AllTags(ds))
  {
    var tags := FirstSeen(AllTags(ds));
    var rows := FirstSeenRows(ds);
    FirstSeenElements(AllTags(ds));
    forall tag | tag in AllTags(ds) ensures exists i :: 0 <= i < |rows| && rows[i].tag == tag {
      var k :| 0 <= k < |tags| && tags[k] == tag;
      assert rows[k].tag == tag;
    }
  }

  /** What the by-tag table promises: one row per distinct tag, each at the tag's
      cost (its droplets' prices, once per occurrence), in non-increasing cost
      order with ties in first-seen order. */
  lemma ByTagRowsCorrect(ds: seq<Droplet>)
    requires ByTagReportOf(ds).TagTable?
    ensures var rows := ByTagReportOf(ds).rows;
      && NonIncreasing(rows)
      && (forall i :: 0 <= i < |rows| ==> rows[i].cents == TagCost(ds, rows[i].tag))
      && (forall tag :: (exists i :: 0 <= i < |rows| && rows[i].tag == tag) <==> tag in AllTags(ds))
      && DistinctTags(rows)
      && (forall c :: WithCost(rows, c) == WithCost(FirstSeenRows(ds), c))
  {
    var t := TallyOf(ds);
    var items := Items(t.order, t.costs);
    var rows := SortByCost(items);
    TallyItems(ds);
    SortByCostOrdered(items);
    SortByCostDistinct(items);
    forall c ensures WithCost(rows, c) == WithCost(FirstSeenRows(ds), c) {
      SortByCostStable(items, c);
    }
    SortByCostSameRows(items);
    forall i | 0 <= i < |rows| ensures rows[i].cents == TagCost(ds, rows[i].tag) {
      assert rows[i] in items;
    }
    forall tag ensures (exists i :: 0 <= i < |rows| && rows[i].tag == tag) <==> tag in AllTags(ds) {
      if tag in AllTags(ds) {
        var k :| 0 <= k < |items| && items[k].tag == tag;
        assert items[k] in rows;
      }
      if exists i :: 0 <= i < |rows| && rows[i].tag == tag {
        var i :| 0 <= i < |rows| && rows[i].tag == tag;
        assert rows[i] in items;
      }
    }
  }

  /** The descending sort keeps exactly the rows it is given. */
  lemma SortByCostSameRows(s: seq<TagRow>)
    ensures forall r :: r in SortByCost(s) <==> r in s
  {
    SortByCostPermutes(s);
    forall r ensures r in SortByCost(s) <==> r in s {
      assert r in SortByCost(s) <==> r in multiset(SortByCost(s));
      assert r in s <==> r in multiset(s);
    }
  }

  /** The untagged row appears exactly when some droplet is tagged and some is
      not, carrying the untagged droplets' prices; with no tagged droplet there is
      no table at all, only the "No tagged resources" message. */
  lemma ByTagUntaggedRow(ds: seq<Droplet>)
    ensures ByTagReportOf(ds).NoTaggedResources? <==> forall i :: 0 <= i < |ds| ==> ds[i].tags == []
    ensures ByTagReportOf(ds).TagTable? ==>
      (ByTagReportOf(ds).untaggedRow.Some? <==> exists i :: 0 <= i < |ds| && ds[i].tags == [])
    ensures ByTagReportOf(ds).TagTable? && ByTagReportOf(ds).untaggedRow.Some? ==>
      ByTagReportOf(ds).untaggedRow.value == UntaggedCost(ds)
  {
    var t := TallyOf(ds);
    TallyOfAgrees(ds);
    UntaggedCostPositive(ds);
    AllTagsEmpty(ds);
    if AllTags(ds) != [] {
      assert AllTags(ds)[0] in t.costs;
    }
    assert t.costs == map[] <==> AllTags(ds) == [];
  }
}
