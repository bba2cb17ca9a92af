/** The filter, the WHERE clause and the pages of `List`:
    services/booking-service/internal/repository/booking_repository.go and internal/domain/booking.go. */
module BookingQuery {
  import opened Basics
  import opened GoText
  import opened WordsOfText
  import opened BookingDomain
  import opened BookingStore

  datatype ListFilter = ListFilter(
    page: int, pageSize: int, userId: string, parkingId: int, spotId: int, status: string)

  /** The database text of a status. */
  function StatusText(s: Status): string {
    match s
    case Pending => "pending"
    case Confirmed => "confirmed"
    case Active => "active"
    case Completed => "completed"
    case Cancelled => "cancelled"
  }

  const STATUS_TEXTS: set<string> := {"pending", "confirmed", "active", "completed", "cancelled"}

  predicate IsValidStatus(text: string) {
    text in STATUS_TEXTS
  }

  function Normalize(f: ListFilter): Outcome<ListFilter> {
    var page := if f.page < 1 then 1 else f.page;
    var size := if f.pageSize < 1 then 20 else if f.pageSize > 100 then 100 else f.pageSize;
    if f.status != "" && !IsValidStatus(f.status) then Err(InvalidInput)
    else Ok(f.(page := page, pageSize := size, userId := TrimSpace(f.userId)))
  }

  // ---------------------------------------------------------------- the built statement

  datatype Column = UserIdColumn | ParkingIdColumn | SpotIdColumn | StatusColumn

  datatype SqlValue = Text(text: string) | Number(number: int)

  /** `column = $placeholder`. */
  datatype Condition = Condition(column: Column, placeholder: nat)

  function Field(b: Booking, c: Column): SqlValue {
    match c
    case UserIdColumn => Text(b.userId)
    case ParkingIdColumn => Number(b.parkingId)
    case SpotIdColumn => Number(b.spotId)
    case StatusColumn => Text(StatusText(b.status))
  }

  /** Every placeholder names one of the arguments; otherwise the database rejects the statement. */
  predicate WellNumbered(conditions: seq<Condition>, args: seq<SqlValue>) {
    forall c | c in conditions :: 1 <= c.placeholder <= |args|
  }

  /** How the database evaluates the conjunction for one row. */
  predicate RowMatches(conditions: seq<Condition>, args: seq<SqlValue>, b: Booking)
    requires WellNumbered(conditions, args)
  {
    forall c | c in conditions :: Field(b, c.column) == args[c.placeholder - 1]
  }

  /** Appending an argument and a condition that names it by its number narrows the rows by that condition. */
  lemma ConditionNarrows(conditions: seq<Condition>, args: seq<SqlValue>, column: Column, value: SqlValue)
    requires WellNumbered(conditions, args)
    ensures var more := conditions + [Condition(column, |args| + 1)];
            && WellNumbered(more, args + [value])
            && forall b ::
                 RowMatches(more, args + [value], b) <==>
                 RowMatches(conditions, args, b) && Field(b, column) == value
  {
    var added := Condition(column, |args| + 1);
    var more, moreArgs := conditions + [added], args + [value];
    forall b
      ensures RowMatches(more, moreArgs, b) <==> RowMatches(conditions, args, b) && Field(b, column) == value
    {
      if RowMatches(more, moreArgs, b) {
        assert added in more;
        forall c | c in conditions ensures Field(b, c.column) == args[c.placeholder - 1] { assert c in more; }
      }
    }
  }

  /** What the filter asks for: each field that is set must agree. */
  predicate Selects(f: ListFilter, b: Booking) {
    && (f.userId != "" ==> b.userId == f.userId)
    && (f.parkingId > 0 ==> b.parkingId == f.parkingId)
    && (f.spotId > 0 ==> b.spotId == f.spotId)
    && (f.status != "" ==> StatusText(b.status) == f.status)
  }

  /** What the filter demands of one column, in the order in which the query builder looks at the fields. */
  function Demand(f: ListFilter, n: nat): Option<(Column, SqlValue)> {
    if n == 0 && f.userId != "" then Some((UserIdColumn, Text(f.userId)))
    else if n == 1 && f.parkingId > 0 then Some((ParkingIdColumn, Number(f.parkingId)))
    else if n == 2 && f.spotId > 0 then Some((SpotIdColumn, Number(f.spotId)))
    else if n == 3 && f.status != "" then Some((StatusColumn, Text(f.status)))
    else None
  }

  predicate MeetsDemands(f: ListFilter, b: Booking, n: nat) {
    n == 0 ||
    (MeetsDemands(f, b, n - 1) && match Demand(f, n - 1)
                                  case None => true
                                  case Some((column, value)) => Field(b, column) == value)
  }

  lemma FourDemands(f: ListFilter, b: Booking)
    ensures MeetsDemands(f, b, 4) <==> Selects(f, b)
  {
    assert MeetsDemands(f, b, 1) <==> (f.userId != "" ==> b.userId == f.userId);
    assert MeetsDemands(f, b, 2) <==> MeetsDemands(f, b, 1) && (f.parkingId > 0 ==> b.parkingId == f.parkingId);
    assert MeetsDemands(f, b, 3) <==> MeetsDemands(f, b, 2) && (f.spotId > 0 ==> b.spotId == f.spotId);
  }

  /** Conditions and arguments for the first `n` demands; each placeholder is the number of its own argument. */
  function Built(f: ListFilter, n: nat): (seq<Condition>, seq<SqlValue>) {
    if n == 0 then ([], [])
    else
      var (conditions, args) := Built(f, n - 1);
      match Demand(f, n - 1)
      case None => (conditions, args)
      case Some((column, value)) => (conditions + [Condition(column, |args| + 1)], args + [value])
  }

  lemma {:induction false} BuiltSelects(f: ListFilter, n: nat)
    ensures WellNumbered(Built(f, n).0, Built(f, n).1)
    ensures forall b :: RowMatches(Built(f, n).0, Built(f, n).1, b) <==> MeetsDemands(f, b, n)
  {
    if n > 0 {
      BuiltSelects(f, n - 1);
      var (conditions, args) := Built(f, n - 1);
      if Demand(f, n - 1).Some? {
        ConditionNarrows(conditions, args, Demand(f, n - 1).value.0, Demand(f, n - 1).value.1);
      }
    }
  }

  /** The whole query selects exactly what the filter asks for. */
  lemma BuiltInFull(f: ListFilter)
    ensures var (conditions, args) := Built(f, 4);
            && WellNumbered(conditions, args)
            && forall b :: RowMatches(conditions, args, b) <==> Selects(f, b)
  {
    BuiltSelects(f, 4);
    forall b ensures MeetsDemands(f, b, 4) <==> Selects(f, b) { FourDemands(f, b); }
  }

  // ---------------------------------------------------------------- order and pages

  /** One outcome of `ORDER BY start_time DESC, created_at DESC`: the database may break ties as it likes. */
  ghost predicate IsQueryOrder(rows: Rows, order: seq<BookingId>) {
    && (forall i, j | 0 <= i < j < |order| :: order[i] != order[j])
    && (forall id :: id in rows <==> id in order)
    && (forall i, j | 0 <= i < j < |order| ::
          order[i] in rows && order[j] in rows && !Before(rows[order[j]], rows[order[i]]))
  }

  predicate Before(a: Booking, b: Booking) {
    a.start > b.start || (a.start == b.start && a.createdAt > b.createdAt)
  }

  /** The filtered rows in the order of the query. */
  function Selection(rows: Rows, order: seq<BookingId>, f: ListFilter): seq<Booking>
    requires forall id | id in order :: id in rows
  {
    if order == [] then []
    else
      var rest := Selection(rows, order[..|order| - 1], f);
      var b := rows[order[|order| - 1]];
      if Selects(f, b) then rest + [b] else rest
  }

  function Min(a: int, b: int): int {
    if a <= b then a else b
  }

  /** `LIMIT limit OFFSET offset`. */
  function Window<T>(list: seq<T>, limit: nat, offset: nat): seq<T> {
    var from := Min(offset, |list|);
    list[from..Min(from + limit, |list|)]
  }

  function Page<T>(list: seq<T>, size: nat, page: nat): seq<T>
    requires page >= 1
  {
    Window(list, size, (page - 1) * size)
  }

  /** Pages 1 to n, one after the other. */
  function Pages<T>(list: seq<T>, size: nat, n: nat): seq<T> {
    if n == 0 then [] else Pages(list, size, n - 1) + Page(list, size, n)
  }

  function PageCount(total: nat, size: nat): nat
    requires size >= 1
  {
    (total + size - 1) / size
  }

  lemma {:induction false} PagesArePrefix<T>(list: seq<T>, size: nat, n: nat)
    requires size >= 1
    ensures Pages(list, size, n) == list[..Min(n * size, |list|)]
  {
    if n > 0 {
      PagesArePrefix(list, size, n - 1);
      assert n * size == (n - 1) * size + size;
      var from, to := Min((n - 1) * size, |list|), Min(n * size, |list|);
      assert (n - 1) * size >= 0;
      assert Page(list, size, n) == list[from..to];
      assert list[..from] + list[from..to] == list[..to];
    }
  }

  lemma PagesUpTo<T>(list: seq<T>, size: nat, n: nat)
    requires size >= 1
    ensures |Pages(list, size, n)| == Min(n * size, |list|)
    ensures n * size >= |list| ==> Pages(list, size, n) == list
  {
    PagesArePrefix(list, size, n);
  }

  lemma NothingBehind<T>(list: seq<T>, size: nat, n: nat, page: nat)
    requires size >= 1 && n * size >= |list| && page > n
    ensures Page(list, size, page) == []
  {
    LeftMonotone(n, page - 1, size);
  }

  /** Reading every page of an unchanged table yields the filtered list, without gap or repetition;
      one page fewer misses something, and there is nothing behind the last one. */
  lemma PagesCoverSelection<T>(list: seq<T>, size: nat)
    requires size >= 1
    ensures Pages(list, size, PageCount(|list|, size)) == list
    ensures |list| > 0 ==> Pages(list, size, PageCount(|list|, size) - 1) != list
    ensures forall page: nat | page > PageCount(|list|, size) :: Page(list, size, page) == []
  {
    var n := PageCount(|list|, size);
    CeilingBounds(|list|, size);
    PagesUpTo(list, size, n);
    if |list| > 0 { PagesUpTo(list, size, n - 1); }
    forall page: nat | page > n ensures Page(list, size, page) == [] { NothingBehind(list, size, n, page); }
  }

  lemma LeftMonotone(a: nat, b: nat, c: nat)
    requires a <= b
    ensures a * c <= b * c
  {
  }

  lemma CeilingBounds(total: nat, size: nat)
    requires size >= 1
    ensures var n := PageCount(total, size);
            total <= n * size && (total > 0 ==> n >= 1 && (n - 1) * size < total)
  {
    var n := PageCount(total, size);
    assert total + size - 1 == n * size + (total + size - 1) % size;
    assert (n - 1) * size == n * size - size;
  }

  lemma NormalizedIsFixed(g: ListFilter)
    requires g.page >= 1 && 1 <= g.pageSize <= 100 && TrimSpace(g.userId) == g.userId
    requires g.status == "" || IsValidStatus(g.status)
    ensures Normalize(g) == Ok(g)
  {
    assert g.(page := g.page, pageSize := g.pageSize, userId := g.userId) == g;
  }

  lemma NormalizedFields(f: ListFilter)
    requires Normalize(f).Ok?
    ensures var g := Normalize(f).value;
            && g.page >= 1 && 1 <= g.pageSize <= 100 && g.userId == TrimSpace(f.userId) && g.status == f.status
            && (g.status == "" || IsValidStatus(g.status))
  {
  }

  /** The texts of the statuses are the ones that a filter may name. */
  lemma StatusTextsExactly(s: Status)
    ensures StatusText(s) == (if s == Pending then "pending" else if s == Confirmed then "confirmed"
                              else if s == Active then "active" else if s == Completed then "completed"
                              else "cancelled")
    ensures IsValidStatus(StatusText(s))
  {
  }

  lemma ValidTextsExactly(text: string)
    ensures IsValidStatus(text) <==> exists s :: StatusText(s) == text
  {
    assert StatusText(Pending) == "pending" && StatusText(Confirmed) == "confirmed" && StatusText(Active) == "active";
    assert StatusText(Completed) == "completed" && StatusText(Cancelled) == "cancelled";
  }

  /** A filter is refused exactly for a status that there is not. Otherwise a page below 1 becomes 1, a page size
      below 1 becomes 20 and one above 100 becomes 100, the user loses surrounding white space, and the rest stays. */
  lemma NormalizeExactly(f: ListFilter)
    ensures var r := Normalize(f);
            && (r == Err(InvalidInput) <==> f.status != "" && forall s :: StatusText(s) != f.status)
            && (r.Err? ==> r == Err(InvalidInput))
            && (r.Ok? ==>
                  && r.value.page == (if f.page < 1 then 1 else f.page)
                  && r.value.pageSize == (if f.pageSize < 1 then 20 else if f.pageSize > 100 then 100 else f.pageSize)
                  && IsTrimmed(f.userId, r.value.userId)
                  && r.value.parkingId == f.parkingId && r.value.spotId == f.spotId && r.value.status == f.status)
  {
    TrimSpaceExactly(f.userId);
    ValidTextsExactly(f.status);
  }

  /** After `Normalize` the page arithmetic is defined for every request, and normalising again changes nothing. */
  lemma NormalizeGivesUsablePages(f: ListFilter)
    requires Normalize(f).Ok?
    ensures var g := Normalize(f).value;
            g.page >= 1 && 1 <= g.pageSize <= 100 && Normalize(g) == Ok(g)
  {
    NormalizedFields(f);
    TrimSpaceIdempotent(f.userId);
    NormalizedIsFixed(Normalize(f).value);
  }

  lemma {:induction false} SelectionIsExact(rows: Rows, order: seq<BookingId>, f: ListFilter)
    requires forall id | id in order :: id in rows
    ensures forall b :: b in Selection(rows, order, f) <==> exists id :: id in order && rows[id] == b && Selects(f, b)
    ensures |Selection(rows, order, f)| <= |order|
  {
    if order != [] {
      var front, last := order[..|order| - 1], order[|order| - 1];
      SelectionIsExact(rows, front, f);
      assert order == front + [last];
      forall b
        ensures b in Selection(rows, order, f) <==> exists id :: id in order && rows[id] == b && Selects(f, b)
      {
        if b in Selection(rows, front, f) {
          var id :| id in front && rows[id] == b && Selects(f, b);
          assert id in order;
        }
        if rows[last] == b && Selects(f, b) { assert last in order; }
        if id :| id in order && rows[id] == b && Selects(f, b) { assert id in front || id == last; }
      }
    }
  }

  /** The selection holds every matching row of the table once, latest start first. */
  lemma SelectionOfTable(rows: Rows, order: seq<BookingId>, f: ListFilter)
    requires Sound(rows) && IsQueryOrder(rows, order)
    ensures var list := Selection(rows, order, f);
            && (forall b :: b in list <==> b.id in rows && rows[b.id] == b && Selects(f, b))
            && (forall i, j | 0 <= i < j < |list| ::
                  && list[i] != list[j] && list[i].start >= list[j].start
                  && (list[i].start == list[j].start ==> list[i].createdAt >= list[j].createdAt))
  {
    var list := Selection(rows, order, f);
    SelectionIsExact(rows, order, f);
    forall b ensures b in list <==> b.id in rows && rows[b.id] == b && Selects(f, b) {
      if b in list { var id :| id in order && rows[id] == b && Selects(f, b); }
    }
    SelectionKeepsOrder(rows, order, f);
  }

  lemma {:induction false} SelectionKeepsOrder(rows: Rows, order: seq<BookingId>, f: ListFilter)
    requires forall id | id in order :: id in rows && rows[id].id == id
    requires forall i, j | 0 <= i < j < |order| :: order[i] != order[j] && !Before(rows[order[j]], rows[order[i]])
    ensures var list := Selection(rows, order, f);
            forall i, j | 0 <= i < j < |list| :: list[i] != list[j] && !Before(list[j], list[i])
  {
    if order != [] {
      var front, last := order[..|order| - 1], order[|order| - 1];
      SelectionKeepsOrder(rows, front, f);
      SelectionIsExact(rows, front, f);
      var rest := Selection(rows, front, f);
      forall i | 0 <= i < |rest|
        ensures rest[i] != rows[last] && !Before(rows[last], rest[i])
      {
        assert rest[i] in rest;
        var id :| id in front && rows[id] == rest[i] && Selects(f, rest[i]);
        var k :| 0 <= k < |front| && front[k] == id;
        assert order[k] == id;
      }
    }
  }
}
