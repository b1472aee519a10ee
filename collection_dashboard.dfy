/** The collection dashboard: the search, category and sort pipeline over the
    owned coins, the category chip counts, the collection statistics, the
    empty-state reason and the pull-to-refresh gesture. */
module CollectionDashboard {
  import opened JsText

  const MsPerDay: int := 86400000

  /** A coin as the dashboard lists it. `dateAdded` is a day number: the
      coin was added at UTC midnight of that day, `dateAdded * MsPerDay`
      milliseconds after the epoch. */
  datatype Coin = Coin(
    id: string,
    name: string,
    year: int,
    denomination: string,
    country: string,
    condition: string,
    isSpecial: bool,
    category: string,
    dateAdded: int)

  // ---------------------------------------------------------------------------
  // Filtering

  /** The search predicate of the dashboard: the lower-cased query is a
      substring of the lower-cased name, denomination, country or
      condition, or the query as typed is a substring of the decimal year. */
  predicate MatchesSearch(c: Coin, q: string)
  {
    || IncludesIgnoringCase(c.name, q)
    || Includes(IntToString(c.year), q)
    || IncludesIgnoringCase(c.denomination, q)
    || IncludesIgnoringCase(c.country, q)
    || IncludesIgnoringCase(c.condition, q)
  }

  /** An empty query filters nothing. */
  predicate PassesSearch(c: Coin, q: string)
  {
    q == "" || MatchesSearch(c, q)
  }

  /** The category chips: 'special' keeps special coins, '1', '2' and '5'
      keep the rupee denominations of that value, 'modern' keeps coins from
      2000 on; 'all' and any other id keep everything. */
  predicate MatchesCategory(c: Coin, cat: string)
  {
    if cat == "special" then c.isSpecial
    else if cat == "1" then c.denomination == "₹1"
    else if cat == "2" then c.denomination == "₹2"
    else if cat == "5" then c.denomination == "₹5"
    else if cat == "modern" then c.year >= 2000
    else true
  }

  /** The search step of the pipeline. */
  function SearchStep(coins: seq<Coin>, q: string): (r: seq<Coin>)
    ensures q == "" ==> r == coins
    ensures forall k :: 0 <= k < |r| ==> PassesSearch(r[k], q)
  {
    if q != "" then Filter(coins, (c: Coin) => MatchesSearch(c, q)) else coins
  }

  /** The category step of the pipeline. */
  function CategoryStep(coins: seq<Coin>, cat: string): (r: seq<Coin>)
    ensures forall k :: 0 <= k < |r| ==> MatchesCategory(r[k], cat)
  {
    if cat == "all" then coins else Filter(coins, (c: Coin) => MatchesCategory(c, cat))
  }

  /** The coins the dashboard shows, before sorting. */
  function Filtered(coins: seq<Coin>, q: string, cat: string): seq<Coin>
  {
    CategoryStep(SearchStep(coins, q), cat)
  }

  /** The dashboard shows exactly the input coins that pass both the search
      and the category predicate, each as often as it occurs in the input. */
  lemma FilteredExactly(coins: seq<Coin>, q: string, cat: string, c: Coin)
    ensures multiset(Filtered(coins, q, cat))[c]
         == if PassesSearch(c, q) && MatchesCategory(c, cat) then multiset(coins)[c] else 0
  {
    var searched := SearchStep(coins, q);
    if q != "" {
      FilterCount(coins, (c: Coin) => MatchesSearch(c, q), c);
    }
    if cat != "all" {
      FilterCount(searched, (c: Coin) => MatchesCategory(c, cat), c);
    }
  }

  /** With an empty query and the 'all' chip the list is shown unfiltered,
      so it is empty exactly when the collection is. */
  lemma UnfilteredWhenNoQuery(coins: seq<Coin>)
    ensures Filtered(coins, "", "all") == coins
  {
  }

  // ---------------------------------------------------------------------------
  // Sorting

  /** The number that sorting by denomination compares: `parseFloat` of the
      denomination with its first '₹' removed. `None` is NaN. */
  function DenominationValue(c: Coin): Option<real>
  {
    ParseFloat(RemoveFirst(c.denomination, '₹'))
  }

  predicate IsSortKey(sortBy: string)
  {
    sortBy in {"year-desc", "year-asc", "date-desc", "date-asc", "denomination-asc", "denomination-desc"}
  }

  predicate IsDenominationKey(sortBy: string)
  {
    sortBy == "denomination-asc" || sortBy == "denomination-desc"
  }

  /** The comparator given to `Array.prototype.sort`. A NaN difference (an
      unparsable denomination) counts as 0, as the sort treats it; an unknown
      key compares everything equal. */
  function Compare(sortBy: string, a: Coin, b: Coin): real
  {
    if sortBy == "year-desc" then (b.year - a.year) as real
    else if sortBy == "year-asc" then (a.year - b.year) as real
    else if sortBy == "date-desc" then ((b.dateAdded - a.dateAdded) * MsPerDay) as real
    else if sortBy == "date-asc" then ((a.dateAdded - b.dateAdded) * MsPerDay) as real
    else if IsDenominationKey(sortBy) then DenominationCompare(sortBy, DenominationValue(a), DenominationValue(b))
    else 0.0
  }

  /** The denomination comparator on the two parsed values. */
  function DenominationCompare(sortBy: string, x: Option<real>, y: Option<real>): real
  {
    match (x, y)
    case (Some(u), Some(v)) => if sortBy == "denomination-asc" then u - v else v - u
    case _ => 0.0
  }

  /** Whether the comparator gives c a defined position: every coin does,
      except an unparsable denomination under a denomination key. */
  predicate Ranked(sortBy: string, c: Coin)
  {
    IsDenominationKey(sortBy) ==> DenominationValue(c).Some?
  }

  /** The position of a coin on the sort key's axis; it is only meaningful
      for a ranked coin. */
  function Rank(sortBy: string, c: Coin): real
  {
    if sortBy == "year-desc" then -(c.year as real)
    else if sortBy == "year-asc" then c.year as real
    else if sortBy == "date-desc" then -((c.dateAdded * MsPerDay) as real)
    else if sortBy == "date-asc" then (c.dateAdded * MsPerDay) as real
    else if IsDenominationKey(sortBy) then DenominationRank(sortBy, DenominationValue(c))
    else 0.0
  }

  function DenominationRank(sortBy: string, x: Option<real>): real
  {
    match x
    case Some(u) => if sortBy == "denomination-asc" then u else -u
    case None => 0.0
  }

  /** On ranked coins the comparator is the difference of ranks, so it is a
      consistent total preorder there. */
  lemma CompareIsRankDifference(sortBy: string, a: Coin, b: Coin)
    requires Ranked(sortBy, a) && Ranked(sortBy, b)
    ensures Compare(sortBy, a, b) == Rank(sortBy, a) - Rank(sortBy, b)
  {
    if sortBy == "date-desc" || sortBy == "date-asc" {
      DaysToMs(a.dateAdded, b.dateAdded);
    } else if IsDenominationKey(sortBy) {
      var x, y := DenominationValue(a), DenominationValue(b);
      assert Compare(sortBy, a, b) == DenominationCompare(sortBy, x, y);
      assert Rank(sortBy, a) == DenominationRank(sortBy, x) && Rank(sortBy, b) == DenominationRank(sortBy, y);
    }
  }

  lemma DaysToMs(p: int, q: int)
    ensures ((q - p) * MsPerDay) as real == (q * MsPerDay) as real - (p * MsPerDay) as real
  {
  }

  predicate AllRanked(sortBy: string, s: seq<Coin>)
  {
    forall k :: 0 <= k < |s| ==> Ranked(sortBy, s[k])
  }

  /** The first n coins of s are in ascending key order. */
  predicate SortedPrefix(key: Coin -> real, s: seq<Coin>, n: int)
  {
    forall k, l :: 0 <= k < l < n && l < |s| ==> key(s[k]) <= key(s[l])
  }

  predicate SortedByRank(sortBy: string, s: seq<Coin>)
  {
    SortedPrefix((c: Coin) => Rank(sortBy, c), s, |s|)
  }

  /** A comparator that, on the coins `ok` accepts, is the difference of
      their keys. */
  ghost predicate KeyedBy(cmp: (Coin, Coin) -> real, ok: Coin -> bool, key: Coin -> real)
  {
    forall x, y :: ok(x) && ok(y) ==> cmp(x, y) == key(x) - key(y)
  }

  /** Exchanges two neighbouring coins. */
  method Swap(a: array<Coin>, j: int)
    requires 0 < j < a.Length
    modifies a
    ensures a[..] == old(a[..])[j - 1 := old(a[j])][j := old(a[j - 1])]
    ensures multiset(a[..]) == multiset(old(a[..]))
  {
    a[j - 1], a[j] := a[j], a[j - 1];
  }

  /** Midway through one pass: apart from the coin at j, the first i + 1
      coins are in key order, and every coin after j up to i ranks strictly
      above it. */
  predicate Inserting(key: Coin -> real, s: seq<Coin>, i: int, j: int)
    requires 0 <= j <= i < |s|
  {
    && (forall k, l :: 0 <= k < l <= i && k != j && l != j ==> key(s[k]) <= key(s[l]))
    && (forall l :: j < l <= i ==> key(s[j]) < key(s[l]))
  }

  /** Swapping the moving coin with a neighbour that ranks above it keeps
      the pass's invariant, one place further left. */
  lemma InsertingStep(key: Coin -> real, s: seq<Coin>, i: int, j: int)
    requires 0 < j <= i < |s| && Inserting(key, s, i, j)
    requires key(s[j - 1]) > key(s[j])
    ensures Inserting(key, s[j - 1 := s[j]][j := s[j - 1]], i, j - 1)
  {
    var t := s[j - 1 := s[j]][j := s[j - 1]];
    forall k, l | 0 <= k < l <= i && k != j - 1 && l != j - 1
      ensures key(t[k]) <= key(t[l])
    {
      if k == j {
        assert t[k] == s[j - 1] && t[l] == s[l];
      } else if l == j {
        assert t[l] == s[j - 1];
      }
    }
  }

  /** A pass ends with the first i + 1 coins in key order once the moving
      coin has reached the front or a neighbour that does not rank above
      it. */
  lemma InsertingDone(key: Coin -> real, s: seq<Coin>, i: int, j: int)
    requires 0 <= j <= i < |s| && Inserting(key, s, i, j)
    requires j > 0 ==> key(s[j - 1]) <= key(s[j])
    ensures SortedPrefix(key, s, i + 1)
  {
    forall k, l | 0 <= k < l < i + 1
      ensures key(s[k]) <= key(s[l])
    {
      if l == j && k < j - 1 {
        assert key(s[k]) <= key(s[j - 1]);
      }
    }
  }

  /** One pass of the insertion sort: a[i] moves left past every coin the
      comparator puts after it, one swap at a time. */
  method InsertAt(a: array<Coin>, i: int, cmp: (Coin, Coin) -> real,
                  ghost ok: Coin -> bool, ghost key: Coin -> real, ghost keyed: bool, ghost trivial: bool)
    requires 0 <= i < a.Length
    requires keyed ==> KeyedBy(cmp, ok, key)
    requires trivial ==> forall x, y :: cmp(x, y) == 0.0
    requires keyed ==> (forall k :: 0 <= k < a.Length ==> ok(a[k])) && SortedPrefix(key, a[..], i)
    modifies a
    ensures multiset(a[..]) == multiset(old(a[..]))
    ensures keyed ==> (forall k :: 0 <= k < a.Length ==> ok(a[k])) && SortedPrefix(key, a[..], i + 1)
    ensures trivial ==> a[..] == old(a[..])
  {
    var j := i;
    while j > 0 && cmp(a[j - 1], a[j]) > 0.0
      invariant 0 <= j <= i
      invariant multiset(a[..]) == multiset(old(a[..]))
      invariant keyed ==> forall k :: 0 <= k < a.Length ==> ok(a[k])
      invariant keyed ==> Inserting(key, a[..], i, j)
      invariant j == i ==> a[..] == old(a[..])
      invariant trivial ==> j == i
    {
      if keyed {
        assert ok(a[j - 1]) && ok(a[j]);
        InsertingStep(key, a[..], i, j);
      }
      Swap(a, j);
      j := j - 1;
    }
    if keyed {
      if j > 0 {
        assert ok(a[j - 1]) && ok(a[j]);
      }
      InsertingDone(key, a[..], i, j);
    }
  }

  /** A stable insertion sort by adjacent swaps under a comparator. The
      array is permuted; when the comparator is a difference of keys on
      every coin present, the array ends in key order; a comparator that
      calls everything equal moves nothing. */
  method StableSort(a: array<Coin>, cmp: (Coin, Coin) -> real, ghost ok: Coin -> bool, ghost key: Coin -> real)
    requires KeyedBy(cmp, ok, key)
    modifies a
    ensures multiset(a[..]) == multiset(old(a[..]))
    ensures (forall k :: 0 <= k < a.Length ==> old(ok(a[k]))) ==>
      (forall k :: 0 <= k < a.Length ==> ok(a[k])) && SortedPrefix(key, a[..], a.Length)
    ensures (forall x, y :: cmp(x, y) == 0.0) ==> a[..] == old(a[..])
  {
    ghost var keyed := forall k :: 0 <= k < a.Length ==> ok(a[k]);
    ghost var trivial := forall x, y :: cmp(x, y) == 0.0;
    var i := 0;
    while i < a.Length
      invariant 0 <= i <= a.Length
      invariant multiset(a[..]) == multiset(old(a[..]))
      invariant keyed ==> (forall k :: 0 <= k < a.Length ==> ok(a[k])) && SortedPrefix(key, a[..], i)
      invariant trivial ==> a[..] == old(a[..])
    {
      InsertAt(a, i, cmp, ok, key, keyed, trivial);
      i := i + 1;
    }
  }

  /** `filtered.sort(comparator)` with the dashboard's comparator. The array
      is permuted; when every coin is ranked it ends sorted by rank; under
      an unknown key nothing moves. */
  method SortCoins(a: array<Coin>, sortBy: string)
    modifies a
    ensures multiset(a[..]) == multiset(old(a[..]))
    ensures AllRanked(sortBy, old(a[..])) ==> AllRanked(sortBy, a[..]) && SortedByRank(sortBy, a[..])
    ensures !IsSortKey(sortBy) ==> a[..] == old(a[..])
  {
    ghost var ok := (c: Coin) => Ranked(sortBy, c);
    ghost var key := (c: Coin) => Rank(sortBy, c);
    var cmp := (x: Coin, y: Coin) => Compare(sortBy, x, y);
    forall x, y | ok(x) && ok(y)
      ensures cmp(x, y) == key(x) - key(y)
    {
      CompareIsRankDifference(sortBy, x, y);
    }
    StableSort(a, cmp, ok, key);
  }

  /** The order the dashboard promises under each sort key: by year or by
      date added, either way, or by parsed denomination value. */
  predicate InKeyOrder(sortBy: string, r: seq<Coin>)
  {
    && (sortBy == "year-asc" ==> forall k, l :: 0 <= k < l < |r| ==> r[k].year <= r[l].year)
    && (sortBy == "year-desc" ==> forall k, l :: 0 <= k < l < |r| ==> r[k].year >= r[l].year)
    && (sortBy == "date-asc" ==> forall k, l :: 0 <= k < l < |r| ==> r[k].dateAdded <= r[l].dateAdded)
    && (sortBy == "date-desc" ==> forall k, l :: 0 <= k < l < |r| ==> r[k].dateAdded >= r[l].dateAdded)
    && (sortBy == "denomination-asc" ==> forall k, l :: 0 <= k < l < |r| ==>
          DenominationValue(r[k]).Some? && DenominationValue(r[l]).Some? &&
          DenominationValue(r[k]).value <= DenominationValue(r[l]).value)
    && (sortBy == "denomination-desc" ==> forall k, l :: 0 <= k < l < |r| ==>
          DenominationValue(r[k]).Some? && DenominationValue(r[l]).Some? &&
          DenominationValue(r[k]).value >= DenominationValue(r[l]).value)
  }

  /** What rank order means for each sort key of the dashboard. */
  lemma SortedByRankMeans(sortBy: string, r: seq<Coin>)
    requires AllRanked(sortBy, r) && SortedByRank(sortBy, r)
    ensures InKeyOrder(sortBy, r)
  {
    forall k, l | 0 <= k < l < |r|
      ensures Rank(sortBy, r[k]) <= Rank(sortBy, r[l])
    {
    }
  }

  /** The two filter steps of `getFilteredAndSortedCoins`, branch by branch:
      the search, then the chip. */
  method FilterCoins(coins: seq<Coin>, searchQuery: string, activeCategory: string)
    returns (filtered: seq<Coin>)
    ensures filtered == Filtered(coins, searchQuery, activeCategory)
  {
    filtered := coins;
    if searchQuery != "" {
      filtered := Filter(filtered, (c: Coin) => MatchesSearch(c, searchQuery));
    }
    ghost var searched := filtered;
    if activeCategory != "all" {
      if activeCategory == "special" {
        filtered := Filter(filtered, (c: Coin) => c.isSpecial);
        FilterSame(searched, (c: Coin) => c.isSpecial, (c: Coin) => MatchesCategory(c, activeCategory));
      } else if activeCategory == "1" {
        filtered := Filter(filtered, (c: Coin) => c.denomination == "₹1");
        FilterSame(searched, (c: Coin) => c.denomination == "₹1", (c: Coin) => MatchesCategory(c, activeCategory));
      } else if activeCategory == "2" {
        filtered := Filter(filtered, (c: Coin) => c.denomination == "₹2");
        FilterSame(searched, (c: Coin) => c.denomination == "₹2", (c: Coin) => MatchesCategory(c, activeCategory));
      } else if activeCategory == "5" {
        filtered := Filter(filtered, (c: Coin) => c.denomination == "₹5");
        FilterSame(searched, (c: Coin) => c.denomination == "₹5", (c: Coin) => MatchesCategory(c, activeCategory));
      } else if activeCategory == "modern" {
        filtered := Filter(filtered, (c: Coin) => c.year >= 2000);
        FilterSame(searched, (c: Coin) => c.year >= 2000, (c: Coin) => MatchesCategory(c, activeCategory));
      } else {
        FilterAll(searched, (c: Coin) => MatchesCategory(c, activeCategory));
      }
    }
  }

  /** `getFilteredAndSortedCoins`: search, then category, then the in-place
      sort. The result holds exactly the coins that pass both filters, each
      once per occurrence in the input; year and date keys order it by year
      or by date added, denomination keys by value when every shown value
      parses; an unknown key leaves the filter order alone. */
  method GetFilteredAndSortedCoins(coins: seq<Coin>, searchQuery: string, activeCategory: string, sortBy: string)
    returns (r: seq<Coin>)
    ensures forall c ::
              multiset(r)[c] == (if PassesSearch(c, searchQuery) && MatchesCategory(c, activeCategory) then multiset(coins)[c] else 0)
    ensures !IsDenominationKey(sortBy) || AllRanked(sortBy, Filtered(coins, searchQuery, activeCategory)) ==>
      InKeyOrder(sortBy, r)
    ensures !IsSortKey(sortBy) ==> r == Filtered(coins, searchQuery, activeCategory)
  {
    var filtered := FilterCoins(coins, searchQuery, activeCategory);
    var a := new Coin[|filtered|](k requires 0 <= k < |filtered| => filtered[k]);
    assert a[..] == filtered;
    SortCoins(a, sortBy);
    r := a[..];
    PermutationOfFilteredIsExact(coins, searchQuery, activeCategory, r);
    if AllRanked(sortBy, filtered) {
      SortedByRankMeans(sortBy, r);
    }
  }

  /** Any rearrangement of the filtered coins holds each input coin exactly
      as often as the filters let it through. */
  lemma PermutationOfFilteredIsExact(coins: seq<Coin>, q: string, cat: string, r: seq<Coin>)
    requires multiset(r) == multiset(Filtered(coins, q, cat))
    ensures forall c ::
              multiset(r)[c] == (if PassesSearch(c, q) && MatchesCategory(c, cat) then multiset(coins)[c] else 0)
  {
    forall c
      ensures multiset(r)[c] == (if PassesSearch(c, q) && MatchesCategory(c, cat) then multiset(coins)[c] else 0)
    {
      FilteredExactly(coins, q, cat, c);
    }
  }

  // ---------------------------------------------------------------------------
  // Chips, statistics, empty state

  datatype Chip = Chip(id: string, caption: string, count: nat)

  /** The category chips with their counts over the whole collection. */
  function Categories(coins: seq<Coin>): (r: seq<Chip>)
    ensures |r| == 6
  {
    [ Chip("all", "All", |coins|),
      Chip("special", "Special", |Filter(coins, (c: Coin) => c.isSpecial)|),
      Chip("1", "₹1", |Filter(coins, (c: Coin) => c.denomination == "₹1")|),
      Chip("2", "₹2", |Filter(coins, (c: Coin) => c.denomination == "₹2")|),
      Chip("5", "₹5", |Filter(coins, (c: Coin) => c.denomination == "₹5")|),
      Chip("modern", "Modern", |Filter(coins, (c: Coin) => c.year >= 2000)|) ]
  }

  /** Each chip's count is the number of coins its filter would show with an
      empty query. */
  lemma ChipCountsMatchFilter(coins: seq<Coin>, k: nat)
    requires k < 6
    ensures Categories(coins)[k].count == |Filtered(coins, "", Categories(coins)[k].id)|
  {
    var id := Categories(coins)[k].id;
    if k == 1 {
      FilterSame(coins, (c: Coin) => c.isSpecial, (c: Coin) => MatchesCategory(c, id));
    } else if k == 2 {
      FilterSame(coins, (c: Coin) => c.denomination == "₹1", (c: Coin) => MatchesCategory(c, id));
    } else if k == 3 {
      FilterSame(coins, (c: Coin) => c.denomination == "₹2", (c: Coin) => MatchesCategory(c, id));
    } else if k == 4 {
      FilterSame(coins, (c: Coin) => c.denomination == "₹5", (c: Coin) => MatchesCategory(c, id));
    } else if k == 5 {
      FilterSame(coins, (c: Coin) => c.year >= 2000, (c: Coin) => MatchesCategory(c, id));
    }
  }

  datatype Stats = Stats(totalCoins: nat, specialCoins: nat, recentAdditions: nat)

  function Abs(x: int): nat
  {
    if x < 0 then -x else x
  }

  /** `Math.ceil(n / d)` for a non-negative n and a positive d. */
  function CeilDiv(n: nat, d: nat): (r: nat)
    requires d > 0
    ensures (r - 1) * d < n <= r * d
  {
    (n + d - 1) / d
  }

  /** A coin counts as recent when the whole number of days between it and
      now, rounded up, is at most 30, in either direction. */
  predicate IsRecent(c: Coin, nowMs: int)
  {
    CeilDiv(Abs(nowMs - c.dateAdded * MsPerDay), MsPerDay) <= 30
  }

  /** Rounding up changes nothing at the boundary: a coin is recent exactly
      when it was added at most 30 days before or after now. */
  lemma IsRecentWithin30Days(c: Coin, nowMs: int)
    ensures IsRecent(c, nowMs) <==> -30 * MsPerDay <= nowMs - c.dateAdded * MsPerDay <= 30 * MsPerDay
  {
    var n := Abs(nowMs - c.dateAdded * MsPerDay);
    var r := CeilDiv(n, MsPerDay);
    if r <= 30 {
      assert r * MsPerDay <= 30 * MsPerDay;
    } else {
      assert (r - 1) * MsPerDay >= 30 * MsPerDay;
    }
  }

  function CountWhere(xs: seq<Coin>, p: Coin -> bool): (n: nat)
    ensures n <= |xs|
  {
    |Filter(xs, p)|
  }

  /** The collection statistics: the whole collection's size, its special
      coins and its recent additions. They read the full list, never the
      filtered one, so no query or chip changes them. */
  function CollectionStats(coins: seq<Coin>, nowMs: int): (s: Stats)
    ensures s.totalCoins == |coins|
    ensures s.specialCoins <= s.totalCoins && s.recentAdditions <= s.totalCoins
    ensures coins == [] ==> s == Stats(0, 0, 0)
  {
    Stats(|coins|, CountWhere(coins, (c: Coin) => c.isSpecial), CountWhere(coins, (c: Coin) => IsRecent(c, nowMs)))
  }

  /** Each count is the number of coins with its property: a coin in front
      adds one to the total, and one to each count whose property it has. */
  lemma {:induction false} CollectionStatsCons(c: Coin, coins: seq<Coin>, nowMs: int)
    ensures var before := CollectionStats(coins, nowMs);
            var after := CollectionStats([c] + coins, nowMs);
            && after.totalCoins == before.totalCoins + 1
            && after.specialCoins == before.specialCoins + (if c.isSpecial then 1 else 0)
            && after.recentAdditions == before.recentAdditions + (if IsRecent(c, nowMs) then 1 else 0)
  {
    assert ([c] + coins)[1..] == coins;
  }

  datatype EmptyReason = SearchEmpty | FilterEmpty | CollectionEmpty

  /** `getEmptyStateType`: a search explains an empty result first, then a
      chip other than 'all', and otherwise the collection itself is empty. */
  function EmptyStateType(searchQuery: string, activeCategory: string): (r: EmptyReason)
    ensures r == SearchEmpty <==> searchQuery != ""
    ensures r == FilterEmpty <==> searchQuery == "" && activeCategory != "all"
  {
    if searchQuery != "" then SearchEmpty
    else if activeCategory != "all" then FilterEmpty
    else CollectionEmpty
  }

  /** The reason shown is never a false one: an empty result explained as an
      empty collection comes from an empty collection. */
  lemma EmptyReasonIsTruthful(coins: seq<Coin>, q: string, cat: string)
    requires Filtered(coins, q, cat) == []
    ensures EmptyStateType(q, cat) == CollectionEmpty ==> coins == []
  {
  }

  // ---------------------------------------------------------------------------
  // Pull to refresh

  /** The touch listeners of the dashboard and the flag they share. */
  class RefreshGesture {
    var startY: int
    var currentY: int
    var isRefreshTriggered: bool
    /** How many times the refresh has been started. */
    var refreshCount: nat
    /** Refreshes started since the last touchend. */
    ghost var firedThisGesture: nat

    ghost predicate Valid()
      reads this
    {
      firedThisGesture == if isRefreshTriggered then 1 else 0
    }

    constructor ()
      ensures Valid()
      ensures startY == 0 && currentY == 0 && !isRefreshTriggered && refreshCount == 0
    {
      startY, currentY, isRefreshTriggered, refreshCount := 0, 0, false, 0;
      firedThisGesture := 0;
    }

    method TouchStart(clientY: int)
      requires Valid()
      modifies this
      ensures Valid()
      ensures startY == clientY
      ensures currentY == old(currentY) && isRefreshTriggered == old(isRefreshTriggered)
      ensures refreshCount == old(refreshCount)
    {
      startY := clientY;
    }

    /** A move fires the refresh only when the finger has travelled more than
        100 pixels down from the page top and it has not fired yet; so it
        fires at most once between two touchend events. */
    method TouchMove(clientY: int, scrollY: int) returns (fired: bool)
      requires Valid()
      modifies this
      ensures Valid() && firedThisGesture <= 1
      ensures fired <==> clientY - startY > 100 && scrollY == 0 && !old(isRefreshTriggered)
      ensures currentY == clientY && startY == old(startY)
      ensures isRefreshTriggered == (old(isRefreshTriggered) || fired)
      ensures refreshCount == old(refreshCount) + (if fired then 1 else 0)
      ensures old(isRefreshTriggered) ==> !fired
    {
      currentY := clientY;
      var diff := currentY - startY;
      fired := false;
      if diff > 100 && scrollY == 0 && !isRefreshTriggered {
        isRefreshTriggered := true;
        refreshCount := refreshCount + 1;
        firedThisGesture := firedThisGesture + 1;
        fired := true;
      }
    }

    method TouchEnd()
      requires Valid()
      modifies this
      ensures Valid()
      ensures !isRefreshTriggered && firedThisGesture == 0
      ensures startY == old(startY) && currentY == old(currentY) && refreshCount == old(refreshCount)
    {
      isRefreshTriggered := false;
      firedThisGesture := 0;
    }
  }
}
