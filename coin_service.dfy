/** The coin service: the query `getUserCoins` builds from the dashboard's
    filters, the statistics `getCoinStats` counts, the row `updateCoin`
    sends, and how each operation classifies what the database did. */
module CoinService {
  import opened JsText
  import opened ServiceCall

  /** A row of the coins table, as far as the filters read it. `createdAt`
      is milliseconds since the epoch; `None` is a date that does not parse. */
  datatype CoinRow = CoinRow(
    id: string,
    userId: string,
    name: string,
    denomination: string,
    year: int,
    country: string,
    notes: string,
    category: string,
    isSpecial: bool,
    createdAt: Option<int>)

  /** One condition of the query builder. `SearchAny` is the `or(...)` over
      the five searched columns. */
  datatype Condition =
    | OwnedBy(userId: string)
    | SpecialOnly
    | YearFrom(year: int)
    | CategoryIs(category: string)
    | SearchAny(query: string)

  /** `column ilike '%q%'` for a query without wildcard characters: a
      case-insensitive substring test. */
  predicate ILikeContains(column: string, q: string)
  {
    IncludesIgnoringCase(column, q)
  }

  /** What a condition lets through. */
  predicate Holds(c: Condition, row: CoinRow)
  {
    match c
    case OwnedBy(u) => row.userId == u
    case SpecialOnly => row.isSpecial
    case YearFrom(y) => row.year >= y
    case CategoryIs(cat) => row.category == cat
    case SearchAny(q) =>
      || ILikeContains(row.name, q)
      || ILikeContains(row.denomination, q)
      || IntToString(row.year) == q
      || ILikeContains(row.country, q)
      || ILikeContains(row.notes, q)
  }

  /** A query selects the rows that satisfy every one of its conditions. */
  predicate Selects(conditions: seq<Condition>, row: CoinRow)
  {
    forall k :: 0 <= k < |conditions| ==> Holds(conditions[k], row)
  }

  /** The filters the dashboard passes; `None` is an absent property. */
  datatype CoinFilters = CoinFilters(category: Option<string>, searchQuery: Option<string>)

  /** `getUserCoins` builds its query one condition at a time: the owner,
      then the chip unless it is absent or 'all' ('special' and 'modern' are
      special cases, any other id compares the category column), then the
      search when the query is truthy. */
  method BuildUserCoinsQuery(userId: string, filters: CoinFilters) returns (query: seq<Condition>)
    ensures |query| >= 1 && query[0] == OwnedBy(userId)
    ensures forall row: CoinRow :: Selects(query, row) ==> row.userId == userId
    ensures !Truthy(filters.category) || filters.category.value == "all" ==>
      forall row: CoinRow :: row.userId == userId && !Truthy(filters.searchQuery) ==> Selects(query, row)
    ensures forall row: CoinRow :: Selects(query, row) <==>
      && row.userId == userId
      && (Truthy(filters.category) && filters.category.value == "special" ==> row.isSpecial)
      && (Truthy(filters.category) && filters.category.value == "modern" ==> row.year >= 2000)
      && (Truthy(filters.category) && filters.category.value !in {"all", "special", "modern"} ==>
            row.category == filters.category.value)
      && (Truthy(filters.searchQuery) ==> Holds(SearchAny(filters.searchQuery.value), row))
  {
    query := [OwnedBy(userId)];
    if Truthy(filters.category) && filters.category.value != "all" {
      if filters.category.value == "special" {
        query := And(query, SpecialOnly);
      } else if filters.category.value == "modern" {
        query := And(query, YearFrom(2000));
      } else {
        query := And(query, CategoryIs(filters.category.value));
      }
    }
    if Truthy(filters.searchQuery) {
      query := And(query, SearchAny(filters.searchQuery.value));
    }
  }

  /** `query.eq(...)`, `query.gte(...)`, `query.or(...)`: one more condition,
      which every selected row must also meet. */
  function And(query: seq<Condition>, c: Condition): (r: seq<Condition>)
    ensures |r| == |query| + 1 && r[..|query|] == query
    ensures forall row: CoinRow :: Selects(r, row) <==> Selects(query, row) && Holds(c, row)
  {
    var r := query + [c];
    assert forall row: CoinRow :: Selects(r, row) ==> Holds(r[|query|], row);
    r
  }

  /** The server search compares the year whole, where the dashboard looks
      for the query inside the year's digits: '194' finds a coin of 1947 on
      the dashboard but not on the server. */
  lemma ServerYearSearchIsExact()
    ensures var row := CoinRow("c1", "u1", "", "", 1947, "", "", "", false, None);
      !Holds(SearchAny("194"), row) && Includes(IntToString(row.year), "194")
  {
    assert IntToString(1947) == "1947";
    assert OccursAt("1947", "194", 0);
    assert ToLower("") == "";
  }

  /** The rows the built query returns, in the order the table holds them. */
  function RunQuery(table: seq<CoinRow>, query: seq<Condition>): (rows: seq<CoinRow>)
    ensures forall k :: 0 <= k < |rows| ==> Selects(query, rows[k])
  {
    Filter(table, (row: CoinRow) => Selects(query, row))
  }

  /** `getUserCoins` after the call: a missing list on success becomes the
      empty list. */
  function GetUserCoins(call: Call<Option<seq<CoinRow>>>): (r: Outcome<seq<CoinRow>>)
    ensures WellFormed(r) && !r.needsConfirmation
    ensures r.success <==> call.Returned? && call.error.None?
    ensures r.success ==> r.data == Some(if call.data.Some? then call.data.value else [])
    ensures call.Returned? && call.error.Some? ==> r.error == Some(call.error.value)
    ensures call.Threw? ==>
      r.error == Some(if IsDatabaseNetworkFailure(call.message) then DatabaseConnectionMessage else "Failed to load coins.")
  {
    match call
    case Returned(data, error) =>
      ClassifyDatabaseCall(Returned(if data.Some? then data.value else [], error), "Failed to load coins.")
    case Threw(message) => ClassifyDatabaseCall(Threw(message), "Failed to load coins.")
  }

  function GetUserCollections<D>(call: Call<Option<seq<D>>>): (r: Outcome<seq<D>>)
    ensures WellFormed(r) && !r.needsConfirmation
    ensures r.success <==> call.Returned? && call.error.None?
    ensures r.success ==> r.data == Some(if call.data.Some? then call.data.value else [])
    ensures call.Returned? && call.error.Some? ==> r.error == Some(call.error.value)
    ensures call.Threw? ==>
      r.error == Some(if IsDatabaseNetworkFailure(call.message) then DatabaseConnectionMessage else "Failed to load collections.")
  {
    match call
    case Returned(data, error) =>
      ClassifyDatabaseCall(Returned(if data.Some? then data.value else [], error), "Failed to load collections.")
    case Threw(message) => ClassifyDatabaseCall(Threw(message), "Failed to load collections.")
  }

  function GetCoinById<D>(call: Call<D>): (r: Outcome<D>)
    ensures WellFormed(r) && !r.needsConfirmation
    ensures r.success <==> call.Returned? && call.error.None?
    ensures r.success ==> r.data == Some(call.data)
    ensures call.Returned? && call.error.Some? ==> r.error == Some(call.error.value)
    ensures call.Threw? ==>
      r.error == Some(if IsDatabaseNetworkFailure(call.message) then DatabaseConnectionMessage else "Failed to load coin details.")
  {
    ClassifyDatabaseCall(call, "Failed to load coin details.")
  }

  function CreateCoin<D>(call: Call<D>): (r: Outcome<D>)
    ensures WellFormed(r) && !r.needsConfirmation
    ensures r.success <==> call.Returned? && call.error.None?
    ensures r.success ==> r.data == Some(call.data)
    ensures call.Returned? && call.error.Some? ==> r.error == Some(call.error.value)
    ensures call.Threw? ==>
      r.error == Some(if IsDatabaseNetworkFailure(call.message) then DatabaseConnectionMessage else "Failed to create coin.")
  {
    ClassifyDatabaseCall(call, "Failed to create coin.")
  }

  /** The row `updateCoin` sends: the caller's fields with `updated_at`
      stamped over them. */
  function UpdateCoinPayload<V>(updates: map<string, V>, now: V): (p: map<string, V>)
    ensures p.Keys == updates.Keys + {"updated_at"} && p["updated_at"] == now
    ensures forall k :: k in updates && k != "updated_at" ==> p[k] == updates[k]
  {
    SpreadWith(updates, "updated_at", now)
  }

  function UpdateCoin<D>(call: Call<D>): (r: Outcome<D>)
    ensures WellFormed(r) && !r.needsConfirmation
    ensures r.success <==> call.Returned? && call.error.None?
    ensures r.success ==> r.data == Some(call.data)
    ensures call.Returned? && call.error.Some? ==> r.error == Some(call.error.value)
    ensures call.Threw? ==>
      r.error == Some(if IsDatabaseNetworkFailure(call.message) then DatabaseConnectionMessage else "Failed to update coin.")
  {
    ClassifyDatabaseCall(call, "Failed to update coin.")
  }

  function DeleteCoin(call: Call<Unit>): (r: Outcome<Unit>)
    ensures WellFormed(r) && !r.needsConfirmation
    ensures r.success <==> call.Returned? && call.error.None?
    ensures call.Returned? && call.error.Some? ==> r.error == Some(call.error.value)
    ensures call.Threw? ==>
      r.error == Some(if IsDatabaseNetworkFailure(call.message) then DatabaseConnectionMessage else "Failed to delete coin.")
  {
    ClassifyDatabaseCall(call, "Failed to delete coin.")
  }

  // ---------------------------------------------------------------------------
  // Statistics

  /** The columns `getCoinStats` selects. */
  datatype StatRow = StatRow(id: string, isSpecial: bool, createdAt: Option<int>)

  datatype CoinStats = CoinStats(totalCoins: nat, specialCoins: nat, recentAdditions: nat)

  /** Added at or after `thirtyDaysAgo`, the current local date moved back
      thirty calendar days at the same wall-clock time. Across a
      daylight-saving change that is thirty days of 24 hours plus or minus
      one hour, so the instant depends on the time zone; it is an input,
      `cutoffMs`, in milliseconds. Later dates, future ones included, all
      count, and an unparsable date never does. */
  predicate AddedInLast30Days(row: StatRow, cutoffMs: int)
  {
    row.createdAt.Some? && row.createdAt.value >= cutoffMs
  }

  /** The counts over the rows the query returned; a missing list counts as
      empty. */
  function CountStats(data: Option<seq<StatRow>>, cutoffMs: int): (s: CoinStats)
    ensures data.None? ==> s == CoinStats(0, 0, 0)
    ensures data.Some? ==> s.totalCoins == |data.value|
    ensures s.specialCoins <= s.totalCoins && s.recentAdditions <= s.totalCoins
  {
    match data
    case None => CoinStats(0, 0, 0)
    case Some(rows) =>
      CoinStats(|rows|,
                |Filter(rows, (row: StatRow) => row.isSpecial)|,
                |Filter(rows, (row: StatRow) => AddedInLast30Days(row, cutoffMs))|)
  }

  /** Each count is the number of rows with its property: adding a row adds
      one to the total, and one to each count whose property it has. */
  lemma {:induction false} CountStatsCons(row: StatRow, rows: seq<StatRow>, cutoffMs: int)
    ensures var before := CountStats(Some(rows), cutoffMs);
            var after := CountStats(Some([row] + rows), cutoffMs);
            && after.totalCoins == before.totalCoins + 1
            && after.specialCoins == before.specialCoins + (if row.isSpecial then 1 else 0)
            && after.recentAdditions == before.recentAdditions + (if AddedInLast30Days(row, cutoffMs) then 1 else 0)
  {
    assert ([row] + rows)[1..] == rows;
  }

  /** Moving the cutoff later never adds a recent row. */
  lemma {:induction false} LaterCutoffCountsFewer(rows: seq<StatRow>, earlier: int, later: int)
    requires earlier <= later
    ensures CountStats(Some(rows), later).recentAdditions <= CountStats(Some(rows), earlier).recentAdditions
  {
    if rows != [] {
      LaterCutoffCountsFewer(rows[1..], earlier, later);
      CountStatsCons(rows[0], rows[1..], earlier);
      CountStatsCons(rows[0], rows[1..], later);
      assert [rows[0]] + rows[1..] == rows;
    }
  }

  function GetCoinStats(call: Call<Option<seq<StatRow>>>, cutoffMs: int): (r: Outcome<CoinStats>)
    ensures WellFormed(r) && !r.needsConfirmation
    ensures r.success <==> call.Returned? && call.error.None?
    ensures r.success ==> r.data == Some(CountStats(call.data, cutoffMs))
    ensures call.Returned? && call.error.Some? ==> r.error == Some(call.error.value)
    ensures call.Threw? ==>
      r.error == Some(if IsDatabaseNetworkFailure(call.message) then DatabaseConnectionMessage else "Failed to load statistics.")
  {
    match call
    case Returned(data, error) =>
      ClassifyDatabaseCall(Returned(CountStats(data, cutoffMs), error), "Failed to load statistics.")
    case Threw(message) => ClassifyDatabaseCall(Threw(message), "Failed to load statistics.")
  }
}
