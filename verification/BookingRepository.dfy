/** services/booking-service/internal/repository/booking_repository.go as the object it is. */
module BookingRepository {
  import opened Basics
  import opened BookingDomain
  import opened BookingStore
  import opened BookingQuery

  class Repository {
    var rows: Rows
    var cache: map<BookingId, Booking>

    ghost function State(): Store
      reads this
    {
      Store(rows, cache)
    }

    constructor ()
      ensures State() == Store(map[], map[])
    {
      rows, cache := map[], map[];
    }

    method Create(input: CreateInput, env: InsertEnv) returns (r: Outcome<Booking>)
      modifies this
      ensures (State(), r) == CreateSpec(old(State()), input, env)
    {
      if !env.checkOk {
        return Err(DependencyFailed);
      }
      if HasConflict(rows, input.spotId, input.start, input.end) {
        return Err(BookingConflict);
      }
      if !env.dbOk {
        return Err(DependencyFailed);
      }
      var b := NewBooking(input, env.id, env.now);
      if b.id in rows || !Admits(rows, b) {
        return Err(DependencyFailed);
      }
      rows := rows[b.id := b];
      StoreInCache(b, env.setOk);
      return Ok(b);
    }

    method GetByID(id: BookingId, env: ReadEnv) returns (r: Outcome<Booking>)
      modifies this`cache
      ensures (State(), r) == GetSpec(old(State()), id, env)
    {
      if id == "" {
        return Err(InvalidInput);
      }
      if env.redisUp && id in cache {
        return Ok(cache[id]);
      }
      if !env.dbOk {
        return Err(DependencyFailed);
      }
      if id !in rows {
        return Err(BookingNotFound);
      }
      StoreInCache(rows[id], env.setOk);
      return Ok(rows[id]);
    }

    method UpdateStatus(id: BookingId, status: Status, reason: string, env: WriteEnv) returns (r: Outcome<Booking>)
      modifies this
      ensures (State(), r) == UpdateSpec(old(State()), id, status, reason, env)
    {
      var cancelledAt := None;
      if status == Cancelled {
        cancelledAt := Some(env.now);
      }
      if !env.dbOk {
        return Err(DependencyFailed);
      }
      if id !in rows {
        return Err(BookingNotFound);
      }
      var b := rows[id].(status := status, cancelReason := reason, cancelledAt := cancelledAt, updatedAt := env.now);
      if !Admits(rows, b) {
        return Err(DependencyFailed);
      }
      rows := rows[id := b];
      if env.delOk {
        cache := cache - {id};
      }
      StoreInCache(b, env.setOk);
      return Ok(b);
    }

    method StoreInCache(b: Booking, ok: bool)
      modifies this`cache
      ensures State() == SetCache(old(State()), b, ok)
    {
      if ok {
        cache := cache[b.id := b];
      }
    }

    /** `List` on a normalised filter; `order` is the order in which the database delivers the table, and each of the
        two queries may fail. */
    method List(filter: ListFilter, order: seq<BookingId>, countOk: bool, listOk: bool)
      returns (r: Outcome<(seq<Booking>, nat)>)
      requires filter.page >= 1 && filter.pageSize >= 0
      requires IsQueryOrder(rows, order)
      ensures r.Ok? <==> countOk && listOk
      ensures r.Err? ==> r == Err(DependencyFailed)
      ensures r.Ok? ==>
                var selected := Selection(rows, order, filter);
                r.value == (Page(selected, filter.pageSize, filter.page), |selected|)
    {
      var conditions, args := BuildWhere(filter);
      BuiltInFull(filter);
      if !countOk {
        return Err(DependencyFailed);
      }
      var matching := Execute(conditions, args, order, filter);
      var total := |matching|;

      var offset := (filter.page - 1) * filter.pageSize;
      var listArgs := args + [Number(filter.pageSize), Number(offset)];
      var limitAt, offsetAt := |args| + 1, |args| + 2;
      if !listOk {
        return Err(DependencyFailed);
      }
      assert listArgs[limitAt - 1] == Number(filter.pageSize) && listArgs[offsetAt - 1] == Number(offset);
      var bookings := ScanRows(Window(matching, listArgs[limitAt - 1].number, listArgs[offsetAt - 1].number));
      return Ok((bookings, total));
    }

    method ScanRows(found: seq<Booking>) returns (bookings: seq<Booking>)
      ensures bookings == found
    {
      bookings := [];
      for i := 0 to |found|
        invariant bookings == found[..i]
      {
        bookings := bookings + [found[i]];
      }
    }

    method BuildWhere(filter: ListFilter) returns (conditions: seq<Condition>, args: seq<SqlValue>)
      ensures (conditions, args) == Built(filter, 4)
    {
      conditions, args := [], [];
      if filter.userId != "" {
        args := args + [Text(filter.userId)];
        conditions := conditions + [Condition(UserIdColumn, |args|)];
      }
      assert (conditions, args) == Built(filter, 1);
      if filter.parkingId > 0 {
        args := args + [Number(filter.parkingId)];
        conditions := conditions + [Condition(ParkingIdColumn, |args|)];
      }
      assert (conditions, args) == Built(filter, 2);
      if filter.spotId > 0 {
        args := args + [Number(filter.spotId)];
        conditions := conditions + [Condition(SpotIdColumn, |args|)];
      }
      assert (conditions, args) == Built(filter, 3);
      if filter.status != "" {
        args := args + [Text(filter.status)];
        conditions := conditions + [Condition(StatusColumn, |args|)];
      }
    }

    /** The database's side of the query: the rows for which the conjunction holds, in the order of the query. */
    method Execute(conditions: seq<Condition>, args: seq<SqlValue>, order: seq<BookingId>, ghost filter: ListFilter)
      returns (matching: seq<Booking>)
      requires forall id | id in order :: id in rows
      requires WellNumbered(conditions, args)
      requires forall b :: RowMatches(conditions, args, b) <==> Selects(filter, b)
      ensures matching == Selection(rows, order, filter)
    {
      matching := [];
      for i := 0 to |order|
        invariant matching == Selection(rows, order[..i], filter)
      {
        assert order[..i + 1][..i] == order[..i];
        assert order[i] in order;
        var b := rows[order[i]];
        if RowMatches(conditions, args, b) {
          matching := matching + [b];
        }
      }
      assert order[..|order|] == order;
    }
  }
}
