/** `groupByDay` of the hourly forecast: keep the items at or after the
    current hour, bucket them by local calendar day (`YYYY-MM-DD`), order
    the days, and order each day's items by time.

    Local time is a parameter: `local` gives the local calendar date of a
    timestamp in seconds, as `new Date(dt * 1000)` reads it in the browser's
    time zone. `nowMs` is the current time floored to the hour, in ms. */
module ForecastGrouping {
  import opened Common
  import opened Sorting
  import opened Observations

  /** `getFullYear()`, `getMonth()` (0-based) and `getDate()`. */
  datatype LocalDate = LocalDate(year: int, month0: nat, date: nat)

  datatype DayBucket = DayBucket(key: string, items: seq<Observation>)

  /** The bucket key: year, then the 1-based month and the day, each
      zero-padded to two digits. */
  function DayKey(d: LocalDate): string {
    YearField(d) + "-" + MonthField(d) + "-" + DateField(d)
  }

  function YearField(d: LocalDate): string {
    IntToString(d.year)
  }

  function MonthField(d: LocalDate): string {
    PadStart2(NatToString(d.month0 + 1))
  }

  function DateField(d: LocalDate): string {
    PadStart2(NatToString(d.date))
  }

  /** The key of a timestamp in local time, `dayKey` in the component. */
  function LocalDayKey(local: int -> LocalDate): int -> string {
    t => DayKey(local(t))
  }

  /** The day an item falls on, for a given day-key function. */
  function KeyOf(x: Observation, day: int -> string): string {
    day(x.dt)
  }

  /** `new Date(item.dt * 1000) >= now`. */
  predicate Keep(x: Observation, nowMs: int) {
    x.dt * 1000 >= nowMs
  }

  /** The comparator `a.dt - b.dt`, as an order. */
  predicate DtLe(a: Observation, b: Observation) {
    a.dt <= b.dt
  }

  lemma DtLeIsTotalPreorder()
    ensures TotalPreorder(DtLe)
  {
  }

  /** `bucket.sort((a, b) => a.dt - b.dt)`: a stable sort by time. */
  function SortByDt(items: seq<Observation>): (r: seq<Observation>)
    ensures multiset(r) == multiset(items) && SortedBy(r, DtLe)
  {
    DtLeIsTotalPreorder();
    InsertionSort(items, DtLe)
  }

  /** Slots with the same timestamp keep their input order. */
  lemma SortByDtStable(items: seq<Observation>, e: Observation)
    ensures EquivTo(SortByDt(items), e, DtLe) == EquivTo(items, e, DtLe)
  {
    DtLeIsTotalPreorder();
    InsertionSortStable(items, DtLe, e);
  }

  /** `Object.keys(grouped).sort()`: the default string order. */
  function SortKeys(keys: seq<string>): (r: seq<string>)
    ensures multiset(r) == multiset(keys) && SortedBy(r, KeyLe)
  {
    KeyLeIsTotalPreorder();
    InsertionSort(keys, KeyLe)
  }

  // ---------------------------------------------------------------------
  // Specification, defined from the end so that it follows the loops

  /** The items that survive the filter, in their original order. */
  function Kept(s: seq<Observation>, nowMs: int): seq<Observation> {
    if s == [] then []
    else Kept(s[..|s| - 1], nowMs) + (if Keep(s[|s| - 1], nowMs) then [s[|s| - 1]] else [])
  }

  /** The items of `s` that fall on the day `key`, in their order in `s`. */
  function OnDay(s: seq<Observation>, key: string, day: int -> string): seq<Observation> {
    if s == [] then []
    else OnDay(s[..|s| - 1], key, day) + (if KeyOf(s[|s| - 1], day) == key then [s[|s| - 1]] else [])
  }

  /** The day keys of `s` in order of first appearance (`Object.keys`). */
  function DayKeys(s: seq<Observation>, day: int -> string): seq<string> {
    if s == [] then []
    else
      var ks := DayKeys(s[..|s| - 1], day);
      var k := KeyOf(s[|s| - 1], day);
      if k in ks then ks else ks + [k]
  }

  /** One bucket per key of `ks`, each holding that day's items sorted by time. */
  function Buckets(s: seq<Observation>, ks: seq<string>, day: int -> string): (r: seq<DayBucket>)
    ensures |r| == |ks|
  {
    if ks == [] then []
    else
      var k := ks[|ks| - 1];
      Buckets(s, ks[..|ks| - 1], day) + [DayBucket(k, SortByDt(OnDay(s, k, day)))]
  }

  /** What `groupByDay` returns, as (key, items) pairs in the order
      `Object.entries` lists them. */
  function Grouping(list: seq<Observation>, nowMs: int, day: int -> string): seq<DayBucket> {
    var kept := Kept(list, nowMs);
    Buckets(kept, SortKeys(DayKeys(kept, day)), day)
  }

  // ---------------------------------------------------------------------
  // The component's loops

  /** `forecast.list.filter(...)`: the items at or after the current hour. */
  method FilterFuture(list: seq<Observation>, nowMs: int) returns (filtered: seq<Observation>)
    ensures filtered == Kept(list, nowMs)
  {
    filtered := [];
    var i := 0;
    while i < |list|
      invariant 0 <= i <= |list|
      invariant filtered == Kept(list[..i], nowMs)
    {
      assert list[..i + 1][..i] == list[..i];
      if list[i].dt * 1000 >= nowMs {
        filtered := filtered + [list[i]];
      }
      i := i + 1;
    }
    assert list[..|list|] == list;
  }

  /** `grouped` and its creation order `keys` hold exactly the days of `s`,
      each with its items in their order in `s`. */
  ghost predicate GroupedBy(grouped: map<string, seq<Observation>>, keys: seq<string>,
                            s: seq<Observation>, day: int -> string) {
    && keys == DayKeys(s, day)
    && (forall k :: k in grouped <==> k in keys)
    && (forall k :: k in grouped ==> grouped[k] == OnDay(s, k, day))
  }

  /** Pushing the next item `t[|t| - 1]` onto its day, creating the day if
      needed. */
  lemma {:induction false} GroupedByPush(grouped: map<string, seq<Observation>>, keys: seq<string>,
                                         t: seq<Observation>, day: int -> string)
    requires |t| > 0 && GroupedBy(grouped, keys, t[..|t| - 1], day)
    ensures var x := t[|t| - 1];
      var k := KeyOf(x, day);
      var g := if k in grouped then grouped else grouped[k := []];
      var ks := if k in grouped then keys else keys + [k];
      GroupedBy(g[k := g[k] + [x]], ks, t, day)
  {
    var s := t[..|t| - 1];
    var x := t[|t| - 1];
    var k := KeyOf(x, day);
    if k in grouped {
      PushOnto(grouped, keys, t, day);
    } else {
      assert k !in keys;
      OnDayMissing(s, k, day);
      PushOnto(grouped[k := []], keys + [k], t, day);
    }
  }

  /** The step of `GroupedByPush` once the day exists. */
  lemma {:induction false} PushOnto(grouped: map<string, seq<Observation>>, keys: seq<string>,
                                    t: seq<Observation>, day: int -> string)
    requires |t| > 0
    requires var s := t[..|t| - 1];
      var k := KeyOf(t[|t| - 1], day);
      && keys == DayKeys(t, day)
      && (forall k' :: k' in grouped <==> k' in keys)
      && (forall k' :: k' in grouped ==> grouped[k'] == OnDay(s, k', day))
    ensures var x := t[|t| - 1];
      var k := KeyOf(x, day);
      GroupedBy(grouped[k := grouped[k] + [x]], keys, t, day)
  {
  }

  /** A day that is not among the keys of `s` has no item of `s`. */
  lemma {:induction false} OnDayMissing(s: seq<Observation>, k: string, day: int -> string)
    requires k !in DayKeys(s, day)
    ensures OnDay(s, k, day) == []
  {
    if s != [] {
      OnDayMissing(s[..|s| - 1], k, day);
    }
  }

  /** One step of the `forEach`: push `item`, the last of `t`, onto the
      list of its day `dayKey`, creating that list first if needed. */
  method PushItem(grouped: map<string, seq<Observation>>, keys: seq<string>, item: Observation,
                  dayKey: string, ghost t: seq<Observation>, ghost day: int -> string)
    returns (grouped': map<string, seq<Observation>>, keys': seq<string>)
    requires |t| > 0 && item == t[|t| - 1] && dayKey == KeyOf(item, day)
    requires GroupedBy(grouped, keys, t[..|t| - 1], day)
    ensures GroupedBy(grouped', keys', t, day)
  {
    GroupedByPush(grouped, keys, t, day);
    grouped', keys' := grouped, keys;
    if dayKey !in grouped' {
      grouped' := grouped'[dayKey := []];
      keys' := keys' + [dayKey];
    }
    grouped' := grouped'[dayKey := grouped'[dayKey] + [item]];
  }

  /** The `forEach` that fills `grouped`: each item is pushed onto the list
      of its day, created on the day's first item. `keys` is the order in
      which the days were created, the order `Object.keys` reports. */
  method BucketByDay(filtered: seq<Observation>, local: int -> LocalDate)
    returns (grouped: map<string, seq<Observation>>, keys: seq<string>)
    ensures keys == DayKeys(filtered, LocalDayKey(local))
    ensures forall k :: k in grouped <==> k in keys
    ensures forall k :: k in grouped ==> grouped[k] == OnDay(filtered, k, LocalDayKey(local))
  {
    ghost var day := LocalDayKey(local);
    grouped := map[];
    keys := [];
    var j := 0;
    while j < |filtered|
      invariant 0 <= j <= |filtered|
      invariant GroupedBy(grouped, keys, filtered[..j], day)
    {
      var item := filtered[j];
      var dayKey := DayKey(local(item.dt));
      assert filtered[..j + 1][..j] == filtered[..j];
      grouped, keys := PushItem(grouped, keys, item, dayKey, filtered[..j + 1], day);
      j := j + 1;
    }
    assert filtered[..|filtered|] == filtered;
  }

  method GroupByDay(list: seq<Observation>, nowMs: int, local: int -> LocalDate) returns (days: seq<DayBucket>)
    ensures days == Grouping(list, nowMs, LocalDayKey(local))
  {
    var filtered := FilterFuture(list, nowMs);
    var grouped, keys := BucketByDay(filtered, local);
    // order the days, then the hours within each day
    var sortedDays := SortKeys(keys);
    assert forall k :: k in sortedDays ==> k in grouped by {
      forall k | k in sortedDays ensures k in grouped {
        assert k in multiset(sortedDays);
      }
    }
    days := CollectDays(filtered, grouped, sortedDays, LocalDayKey(local));
  }

  /** The final loop: one bucket per key, in key order, each sorted by time. */
  method CollectDays(filtered: seq<Observation>, grouped: map<string, seq<Observation>>,
                     sortedDays: seq<string>, ghost day: int -> string) returns (days: seq<DayBucket>)
    requires forall k :: k in sortedDays ==> k in grouped
    requires forall k :: k in grouped ==> grouped[k] == OnDay(filtered, k, day)
    ensures days == Buckets(filtered, sortedDays, day)
  {
    days := [];
    var d := 0;
    while d < |sortedDays|
      invariant 0 <= d <= |sortedDays|
      invariant days == Buckets(filtered, sortedDays[..d], day)
    {
      var key := sortedDays[d];
      BucketsSnoc(filtered, sortedDays, d, day);
      var bucket := SortByDt(grouped[key]);
      days := days + [DayBucket(key, bucket)];
      d := d + 1;
    }
    assert sortedDays[..|sortedDays|] == sortedDays;
  }

  lemma BucketsSnoc(s: seq<Observation>, ks: seq<string>, d: nat, day: int -> string)
    requires d < |ks|
    ensures Buckets(s, ks[..d + 1], day) == Buckets(s, ks[..d], day) + [DayBucket(ks[d], SortByDt(OnDay(s, ks[d], day)))]
  {
    assert ks[..d + 1][..d] == ks[..d];
  }

  // ---------------------------------------------------------------------
  // The spec pieces, one by one

  /** The filter keeps every occurrence of a future item and nothing else. */
  lemma {:induction false} KeptCount(s: seq<Observation>, nowMs: int, x: Observation)
    ensures multiset(Kept(s, nowMs))[x] == if Keep(x, nowMs) then multiset(s)[x] else 0
  {
    if s != [] {
      KeptCount(s[..|s| - 1], nowMs, x);
      assert s == s[..|s| - 1] + [s[|s| - 1]];
    }
  }

  /** A day's list holds every occurrence of the items of that day and
      nothing else. */
  lemma {:induction false} OnDayCount(s: seq<Observation>, k: string, day: int -> string, x: Observation)
    ensures multiset(OnDay(s, k, day))[x] == if KeyOf(x, day) == k then multiset(s)[x] else 0
  {
    if s != [] {
      OnDayCount(s[..|s| - 1], k, day, x);
      assert s == s[..|s| - 1] + [s[|s| - 1]];
    }
  }

  /** Each day is created once, and exactly the days that have an item are. */
  lemma {:induction false} DayKeysSpec(s: seq<Observation>, day: int -> string)
    ensures Distinct(DayKeys(s, day))
    ensures forall k :: k in DayKeys(s, day) <==> OnDay(s, k, day) != []
  {
    if s != [] {
      DayKeysSpec(s[..|s| - 1], day);
    }
  }

  /** The day of an item of `s` is among the keys of `s`. */
  lemma ItemDayIsKey(s: seq<Observation>, day: int -> string, x: Observation)
    requires x in s
    ensures KeyOf(x, day) in DayKeys(s, day)
  {
    OnDayCount(s, KeyOf(x, day), day, x);
    DayKeysSpec(s, day);
  }

  lemma {:induction false} BucketsAt(s: seq<Observation>, ks: seq<string>, day: int -> string, i: nat)
    requires i < |ks|
    ensures Buckets(s, ks, day)[i].key == ks[i]
    ensures Buckets(s, ks, day)[i].items == SortByDt(OnDay(s, ks[i], day))
  {
    if i < |ks| - 1 {
      BucketsAt(s, ks[..|ks| - 1], day, i);
    }
  }

  /** All the items of the buckets, bucket after bucket. */
  function Flatten(bs: seq<DayBucket>): seq<Observation> {
    if bs == [] then [] else Flatten(bs[..|bs| - 1]) + bs[|bs| - 1].items
  }

  /** The items of `s` on the days `ks`, as a multiset. */
  function DaysUnion(s: seq<Observation>, ks: seq<string>, day: int -> string): multiset<Observation> {
    if ks == [] then multiset{} else DaysUnion(s, ks[..|ks| - 1], day) + multiset(OnDay(s, ks[|ks| - 1], day))
  }

  lemma {:induction false} FlattenBuckets(s: seq<Observation>, ks: seq<string>, day: int -> string)
    ensures multiset(Flatten(Buckets(s, ks, day))) == DaysUnion(s, ks, day)
  {
    if ks != [] {
      FlattenBuckets(s, ks[..|ks| - 1], day);
      var bs := Buckets(s, ks, day);
      assert bs[..|bs| - 1] == Buckets(s, ks[..|ks| - 1], day);
    }
  }

  lemma {:induction false} DaysUnionCount(s: seq<Observation>, ks: seq<string>, day: int -> string, x: Observation)
    requires Distinct(ks)
    ensures DaysUnion(s, ks, day)[x] == if KeyOf(x, day) in ks then multiset(s)[x] else 0
  {
    if ks != [] {
      var init := ks[..|ks| - 1];
      var k := ks[|ks| - 1];
      assert Distinct(init);
      assert ks == init + [k];
      assert k !in init;
      DaysUnionCount(s, init, day, x);
      OnDayCount(s, k, day, x);
    }
  }

  // ---------------------------------------------------------------------
  // What `groupByDay` guarantees

  /** The sorted day keys are the created ones, strictly ascending. */
  lemma SortedDaysSpec(kept: seq<Observation>, day: int -> string)
    ensures var sorted := SortKeys(DayKeys(kept, day));
      && Distinct(sorted)
      && (forall k :: k in sorted <==> k in DayKeys(kept, day))
      && (forall i, j :: 0 <= i < j < |sorted| ==> KeyLe(sorted[i], sorted[j]) && !KeyLe(sorted[j], sorted[i]))
  {
    var keys := DayKeys(kept, day);
    var sorted := SortKeys(keys);
    DayKeysSpec(kept, day);
    PermutationDistinct(keys, sorted);
    SortedDistinctKeysAscending(sorted);
    forall k ensures k in sorted <==> k in keys {
      assert k in sorted <==> k in multiset(sorted);
      assert k in keys <==> k in multiset(keys);
    }
  }

  /** Bucket `i` is the `i`-th sorted day with that day's items sorted by
      time. */
  lemma GroupingAt(list: seq<Observation>, nowMs: int, day: int -> string, i: nat)
    requires i < |Grouping(list, nowMs, day)|
    ensures var kept := Kept(list, nowMs);
      var g := Grouping(list, nowMs, day);
      && g[i].key == SortKeys(DayKeys(kept, day))[i]
      && g[i].items == SortByDt(OnDay(kept, g[i].key, day))
  {
    BucketsAt(Kept(list, nowMs), SortKeys(DayKeys(Kept(list, nowMs), day)), day, i);
  }

  /** The days come out in strictly ascending key order. */
  lemma GroupingKeysAscending(list: seq<Observation>, nowMs: int, day: int -> string)
    ensures var g := Grouping(list, nowMs, day);
      forall i, j :: 0 <= i < j < |g| ==> KeyLe(g[i].key, g[j].key) && !KeyLe(g[j].key, g[i].key)
  {
    SortedDaysSpec(Kept(list, nowMs), day);
    GroupingKeys(list, nowMs, day);
  }

  /** Each day holds that day's future items, sorted by time, and no other
      item. */
  lemma GroupingBucketSpec(list: seq<Observation>, nowMs: int, day: int -> string, i: nat)
    requires i < |Grouping(list, nowMs, day)|
    ensures var b := Grouping(list, nowMs, day)[i];
      && SortedBy(b.items, DtLe)
      && (forall x :: x in b.items <==> x in list && Keep(x, nowMs) && KeyOf(x, day) == b.key)
  {
    var kept := Kept(list, nowMs);
    var b := Grouping(list, nowMs, day)[i];
    GroupingAt(list, nowMs, day, i);
    forall x ensures x in b.items <==> x in list && Keep(x, nowMs) && KeyOf(x, day) == b.key {
      assert x in b.items <==> x in multiset(b.items);
      OnDayCount(kept, b.key, day, x);
      KeptCount(list, nowMs, x);
      assert x in list <==> x in multiset(list);
    }
  }

  /** Every future item lands in exactly one bucket, the one of its day. */
  lemma GroupingExactlyOnce(list: seq<Observation>, nowMs: int, day: int -> string, x: Observation)
    requires x in list && Keep(x, nowMs)
    ensures var g := Grouping(list, nowMs, day);
      && (exists i :: 0 <= i < |g| && g[i].key == KeyOf(x, day))
      && (forall i :: 0 <= i < |g| ==> (x in g[i].items <==> g[i].key == KeyOf(x, day)))
      && (forall i, j :: 0 <= i < |g| && 0 <= j < |g| && x in g[i].items && x in g[j].items ==> i == j)
  {
    var kept := Kept(list, nowMs);
    var g := Grouping(list, nowMs, day);
    var sorted := SortKeys(DayKeys(kept, day));
    GroupingKeys(list, nowMs, day);
    forall i | 0 <= i < |g| ensures x in g[i].items <==> g[i].key == KeyOf(x, day) {
      GroupingBucketSpec(list, nowMs, day, i);
    }
    assert KeyOf(x, day) in sorted by {
      SortedDaysSpec(kept, day);
      KeptCount(list, nowMs, x);
      assert x in kept by { assert x in multiset(kept); }
      ItemDayIsKey(kept, day, x);
    }
  }

  /** The buckets' keys are the sorted day keys, none repeated. */
  lemma GroupingKeys(list: seq<Observation>, nowMs: int, day: int -> string)
    ensures var g := Grouping(list, nowMs, day);
      var sorted := SortKeys(DayKeys(Kept(list, nowMs), day));
      && |g| == |sorted|
      && (forall i :: 0 <= i < |g| ==> g[i].key == sorted[i])
      && (forall i, j :: 0 <= i < |g| && 0 <= j < |g| && g[i].key == g[j].key ==> i == j)
  {
    var g := Grouping(list, nowMs, day);
    var sorted := SortKeys(DayKeys(Kept(list, nowMs), day));
    SortedDaysSpec(Kept(list, nowMs), day);
    forall i | 0 <= i < |g| ensures g[i].key == sorted[i] {
      GroupingAt(list, nowMs, day, i);
    }
  }

  /** The buckets, laid end to end, are a permutation of the future items. */
  lemma GroupingIsPartition(list: seq<Observation>, nowMs: int, day: int -> string)
    ensures multiset(Flatten(Grouping(list, nowMs, day))) == multiset(Kept(list, nowMs))
  {
    var kept := Kept(list, nowMs);
    var sorted := SortKeys(DayKeys(kept, day));
    SortedDaysSpec(kept, day);
    FlattenBuckets(kept, sorted, day);
    forall x ensures DaysUnion(kept, sorted, day)[x] == multiset(kept)[x] {
      DaysUnionCount(kept, sorted, day, x);
      if KeyOf(x, day) !in sorted && x in kept {
        ItemDayIsKey(kept, day, x);
      }
    }
  }

  /** No day at all (the "no data" text) exactly when no item is in the
      future. */
  lemma GroupingEmpty(list: seq<Observation>, nowMs: int, day: int -> string)
    ensures Grouping(list, nowMs, day) == [] <==> Kept(list, nowMs) == []
    ensures Grouping(list, nowMs, day) == [] <==> forall x :: x in list ==> !Keep(x, nowMs)
  {
    var kept := Kept(list, nowMs);
    var sorted := SortKeys(DayKeys(kept, day));
    SortedDaysSpec(kept, day);
    if kept != [] {
      ItemDayIsKey(kept, day, kept[0]);
    }
    forall x ensures x in kept <==> x in list && Keep(x, nowMs) {
      KeptCount(list, nowMs, x);
      assert x in kept <==> x in multiset(kept);
      assert x in list <==> x in multiset(list);
    }
  }

  // ---------------------------------------------------------------------
  // Key order is calendar order

  /** A date whose key has the fixed `YYYY-MM-DD` width: a four-digit year,
      and a month and day that fit two digits. */
  predicate ValidDate(d: LocalDate) {
    1000 <= d.year <= 9999 && d.month0 < 12 && 1 <= d.date <= 31
  }

  /** Calendar order: year, then month, then day. */
  predicate DateLe(a: LocalDate, b: LocalDate) {
    a.year < b.year || (a.year == b.year && (a.month0 < b.month0 || (a.month0 == b.month0 && a.date <= b.date)))
  }

  lemma KeyFields(d: LocalDate)
    requires ValidDate(d)
    ensures |YearField(d)| == 4 && AllDigits(YearField(d)) && DigitsValue(YearField(d)) == d.year
    ensures |MonthField(d)| == 2 && AllDigits(MonthField(d)) && DigitsValue(MonthField(d)) == d.month0 + 1
    ensures |DateField(d)| == 2 && AllDigits(DateField(d)) && DigitsValue(DateField(d)) == d.date
  {
    NatToStringLength4(d.year);
    NatToStringRoundTrip(d.year);
    PadStart2Value(d.month0 + 1);
    PadStart2Value(d.date);
  }

  /** Every key is made of digits and dashes, so no character of it needs
      a surrogate pair. */
  lemma DayKeyInBmp(d: LocalDate)
    ensures InBmp(DayKey(d))
  {
    var y, m, t := YearField(d), MonthField(d), DateField(d);
    if d.year < 0 {
      assert y[1..] == NatToString(-d.year);
    }
    DigitsInBmp(y);
    PadStart2Digits(NatToString(d.month0 + 1));
    PadStart2Digits(NatToString(d.date));
    DigitsInBmp(m);
    DigitsInBmp(t);
    DigitsInBmp("-");
    InBmpConcat(y, "-");
    InBmpConcat(y + "-", m);
    InBmpConcat(y + "-" + m, "-");
    InBmpConcat(y + "-" + m + "-", t);
  }

  /** On day keys, `KeyLe` is exactly the UTF-16 order `sort()` uses. */
  lemma DayKeyOrderIsUnitOrder(a: LocalDate, b: LocalDate)
    ensures KeyLe(DayKey(a), DayKey(b)) <==> UnitsLe(Units(DayKey(a)), Units(DayKey(b)))
  {
    DayKeyInBmp(a);
    DayKeyInBmp(b);
    KeyLeIsUnitOrder(DayKey(a), DayKey(b));
  }

  lemma Regroup(y: string, m: string, d: string)
    ensures y + "-" + m + "-" + d == y + ("-" + (m + ("-" + d)))
  {
  }

  /** Two numerals of the same width are equal exactly when their values are. */
  lemma SameWidthDigitsEqual(f1: string, f2: string)
    requires |f1| == |f2| && AllDigits(f1) && AllDigits(f2)
    ensures f1 == f2 <==> DigitsValue(f1) == DigitsValue(f2)
  {
    KeyLeDigits(f1, f2);
    KeyLeDigits(f2, f1);
    if DigitsValue(f1) == DigitsValue(f2) {
      KeyLeAntisymmetric(f1, f2);
    }
  }

  /** A key that starts with a fixed-width numeric field and a dash: the
      field's value decides, and on a tie the rest does. */
  lemma FieldThenRest(f1: string, r1: string, f2: string, r2: string)
    requires |f1| == |f2| && AllDigits(f1) && AllDigits(f2)
    ensures KeyLe(f1 + ("-" + r1), f2 + ("-" + r2)) <==>
      DigitsValue(f1) < DigitsValue(f2) || (DigitsValue(f1) == DigitsValue(f2) && KeyLe(r1, r2))
    ensures f1 + ("-" + r1) == f2 + ("-" + r2) <==> DigitsValue(f1) == DigitsValue(f2) && r1 == r2
  {
    SameWidthDigitsEqual(f1, f2);
    KeyLeDigits(f1, f2);
    KeyLeConcat(f1, "-" + r1, f2, "-" + r2);
    KeyLeConcat("-", r1, "-", r2);
    if f1 + ("-" + r1) == f2 + ("-" + r2) {
      assert f1 == (f1 + ("-" + r1))[..|f1|];
      assert f2 == (f2 + ("-" + r2))[..|f2|];
      assert r1 == (f1 + ("-" + r1))[|f1| + 1..];
      assert r2 == (f2 + ("-" + r2))[|f2| + 1..];
    }
  }

  /** On dates with four-digit years, the default string order of the keys
      is calendar order, and equal keys mean equal dates. */
  lemma DayKeyOrder(a: LocalDate, b: LocalDate)
    requires ValidDate(a) && ValidDate(b)
    ensures KeyLe(DayKey(a), DayKey(b)) <==> DateLe(a, b)
    ensures DayKey(a) == DayKey(b) <==> a == b
  {
    KeyFields(a);
    KeyFields(b);
    var ya, ma, da := YearField(a), MonthField(a), DateField(a);
    var yb, mb, db := YearField(b), MonthField(b), DateField(b);
    Regroup(ya, ma, da);
    Regroup(yb, mb, db);
    FieldThenRest(ya, ma + ("-" + da), yb, mb + ("-" + db));
    FieldThenRest(ma, da, mb, db);
    KeyLeDigits(da, db);
    SameWidthDigitsEqual(da, db);
  }

  /** When every slot of the list falls in a four-digit year, each bucket is
      one local calendar day, and every item of an earlier bucket falls on a
      strictly earlier day. */
  lemma GroupingChronological(list: seq<Observation>, nowMs: int, local: int -> LocalDate)
    requires forall x :: x in list ==> ValidDate(local(x.dt))
    ensures var g := Grouping(list, nowMs, LocalDayKey(local));
      && (forall i, x, y :: 0 <= i < |g| && x in g[i].items && y in g[i].items ==>
            local(x.dt) == local(y.dt))
      && (forall i, j, x, y :: 0 <= i < j < |g| && x in g[i].items && y in g[j].items ==>
            DateLe(local(x.dt), local(y.dt)) && local(x.dt) != local(y.dt))
  {
    var day := LocalDayKey(local);
    var g := Grouping(list, nowMs, day);
    GroupingKeysAscending(list, nowMs, day);
    forall i, x, y | 0 <= i < |g| && x in g[i].items && y in g[i].items
      ensures local(x.dt) == local(y.dt)
    {
      GroupingBucketSpec(list, nowMs, day, i);
      DayKeyOrder(local(x.dt), local(y.dt));
    }
    forall i, j, x, y | 0 <= i < j < |g| && x in g[i].items && y in g[j].items
      ensures DateLe(local(x.dt), local(y.dt)) && local(x.dt) != local(y.dt)
    {
      GroupingBucketSpec(list, nowMs, day, i);
      GroupingBucketSpec(list, nowMs, day, j);
      DayKeyOrder(local(x.dt), local(y.dt));
      DayKeyOrder(local(y.dt), local(x.dt));
    }
  }
}
