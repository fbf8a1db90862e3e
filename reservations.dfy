/** The reservation store behind /api/reservations: create, list, update and
    delete over the reservations table, each performed for the caller whose
    identity the router's token middleware bound from the bearer token (taken
    to behave as `Server.Authenticate`). */
module Reservations {
  import opened Common
  import opened Strings
  import opened Seqs

  /** A row of the reservations table. */
  datatype Reservation = Reservation(id: int, user_id: int, restaurant_id: int,
                                     reservation_date: string, reservation_time: string,
                                     people_count: int, full_name: string)

  /** The JSON body of POST / and PUT /:id. An absent or null field is written
      as its falsy value: 0 for numbers, "" for strings. */
  datatype Body = Body(restaurantId: int, reservation_date: string, reservation_time: string,
                       people_count: int, full_name: string)

  /** No field of the body is falsy (a party of 0 counts as missing). */
  predicate HasAllFields(b: Body): (ok: bool)
    ensures ok <==> 0 !in [b.restaurantId, b.people_count]
                    && "" !in [b.reservation_date, b.reservation_time, b.full_name]
  {
    b.restaurantId != 0 && b.reservation_date != "" && b.reservation_time != ""
    && b.people_count != 0 && b.full_name != ""
  }

  /** `reservation_date.split('T')[0]`: the calendar date the table stores,
      used by both the duplicate query and the write. */
  function DateKey(d: string): (k: string)
    ensures 'T' !in k && |k| <= |d| && k == d[..|k|]
    ensures |k| < |d| ==> d[|k|] == 'T'
  {
    BeforeFirst(d, 'T')
  }

  /** The row POST / inserts: the owner comes from the token, never from the body. */
  function NewRecord(id: int, owner: int, b: Body): (r: Reservation)
    ensures r.id == id && r.user_id == owner
    ensures 'T' !in r.reservation_date && DateKey(r.reservation_date) == r.reservation_date
    ensures |r.reservation_date| <= |b.reservation_date|
            && r.reservation_date == b.reservation_date[..|r.reservation_date|]
  {
    BeforeFirstAbsent(DateKey(b.reservation_date), 'T');
    Reservation(id, owner, b.restaurantId, DateKey(b.reservation_date), b.reservation_time,
                b.people_count, b.full_name)
  }

  /** Nothing in the body decides whose reservation a new row is. */
  lemma OwnerFromToken(id: int, owner: int, b1: Body, b2: Body)
    ensures NewRecord(id, owner, b1).user_id == owner == NewRecord(id, owner, b2).user_id
  {
  }

  /** A row occupies the slot (user, restaurant, date, time). */
  predicate InSlot(r: Reservation, userId: int, restaurantId: int, date: string, time: string)
  {
    r.user_id == userId && r.restaurant_id == restaurantId
    && r.reservation_date == date && r.reservation_time == time
  }

  /** Some row of the table occupies the slot. */
  predicate SlotTaken(rows: seq<Reservation>, userId: int, restaurantId: int, date: string, time: string)
    ensures rows == [] ==> !SlotTaken(rows, userId, restaurantId, date, time)
    ensures SlotTaken(rows, userId, restaurantId, date, time) <==>
      exists i :: 0 <= i < |rows| && InSlot(rows[i], userId, restaurantId, date, time)
  {
    exists r :: r in rows && InSlot(r, userId, restaurantId, date, time)
  }

  /** The rows the duplicate query `SELECT * ... WHERE user_id = ? AND
      restaurant_id = ? AND reservation_date = ? AND reservation_time = ?` returns. */
  function SlotQuery(rows: seq<Reservation>, userId: int, restaurantId: int, date: string, time: string): (found: seq<Reservation>)
    ensures |found| > 0 <==> SlotTaken(rows, userId, restaurantId, date, time)
  {
    var q := Filter(rows, (r: Reservation) => InSlot(r, userId, restaurantId, date, time));
    assert |q| > 0 ==> q[0] in q;
    q
  }

  /** No two rows share (owner, restaurant, date, time). */
  predicate NoDuplicateSlots(rows: seq<Reservation>)
  {
    forall i, j :: 0 <= i < j < |rows| ==>
      !InSlot(rows[i], rows[j].user_id, rows[j].restaurant_id, rows[j].reservation_date, rows[j].reservation_time)
  }

  /** Appending a row whose slot is free keeps every slot distinct. */
  lemma AppendFreeSlot(rows: seq<Reservation>, r: Reservation)
    requires NoDuplicateSlots(rows)
    requires !SlotTaken(rows, r.user_id, r.restaurant_id, r.reservation_date, r.reservation_time)
    ensures NoDuplicateSlots(rows + [r])
  {
    var s := rows + [r];
    forall i, j | 0 <= i < j < |s|
      ensures !InSlot(s[i], s[j].user_id, s[j].restaurant_id, s[j].reservation_date, s[j].reservation_time)
    {
      if j == |rows| {
        assert s[i] in rows;
      }
    }
  }

  predicate UniqueIds(rows: seq<Reservation>)
  {
    forall i, j :: 0 <= i < j < |rows| ==> rows[i].id != rows[j].id
  }

  /** `SELECT * FROM reservations WHERE id = ?`, first row. */
  function FindById(rows: seq<Reservation>, id: int): (r: Option<Reservation>)
    ensures r.Some? ==> r.value in rows && r.value.id == id
    ensures r.None? ==> forall x :: x in rows ==> x.id != id
  {
    if rows == [] then None
    else if rows[0].id == id then Some(rows[0])
    else FindById(rows[1..], id)
  }

  /** `UPDATE reservations SET reservation_date = ?, reservation_time = ?,
      people_count = ?, full_name = ?, restaurant_id = ? WHERE id = ?`. */
  function UpdateWhere(rows: seq<Reservation>, id: int, b: Body): (out: seq<Reservation>)
    ensures |out| == |rows|
    ensures forall k :: 0 <= k < |rows| && rows[k].id != id ==> out[k] == rows[k]
    ensures forall k :: 0 <= k < |rows| && rows[k].id == id ==>
      && out[k].id == id && out[k].user_id == rows[k].user_id
      && out[k].reservation_date == DateKey(b.reservation_date)
      && out[k].reservation_time == b.reservation_time
      && out[k].people_count == b.people_count
      && out[k].full_name == b.full_name
      && out[k].restaurant_id == b.restaurantId
  {
    if rows == [] then []
    else
      var head := if rows[0].id == id
        then rows[0].(reservation_date := DateKey(b.reservation_date), reservation_time := b.reservation_time,
                      people_count := b.people_count, full_name := b.full_name, restaurant_id := b.restaurantId)
        else rows[0];
      [head] + UpdateWhere(rows[1..], id, b)
  }

  /** `r.id != id` as a filter. */
  function NotId(id: int): Reservation -> bool
  {
    (r: Reservation) => r.id != id
  }

  /** `DELETE FROM reservations WHERE id = ?`. */
  function DeleteWhere(rows: seq<Reservation>, id: int): (out: seq<Reservation>)
    ensures |out| <= |rows|
    ensures forall r :: r in out <==> r in rows && r.id != id
  {
    Filter(rows, NotId(id))
  }

  /** Deleting a present id from a table with distinct ids removes exactly one
      row, and the rows that remain are exactly the others, in order. */
  lemma {:induction false} DeleteRemovesOne(rows: seq<Reservation>, id: int)
    requires UniqueIds(rows)
    requires FindById(rows, id).Some?
    ensures |DeleteWhere(rows, id)| == |rows| - 1
    ensures forall r :: r in DeleteWhere(rows, id) <==> r in rows && r.id != id
  {
    var t := rows[1..];
    assert rows == [rows[0]] + t;
    FilterCons(rows[0], t, NotId(id));
    if rows[0].id == id {
      HeadIdUnique(rows);
      FilterKeepsAll(t, NotId(id));
    } else {
      UniqueIdsTail(rows);
      DeleteRemovesOne(t, id);
    }
  }

  /** PUT /:id performs no duplicate check: an owner's update that moves row
      `j` onto the slot of another of the owner's rows `i` leaves two rows in
      one slot, whether or not the slots were distinct before. */
  lemma UpdateMayDuplicate(rows: seq<Reservation>, i: int, j: int, b: Body)
    requires 0 <= i < |rows| && 0 <= j < |rows| && i != j
    requires UniqueIds(rows)
    requires rows[i].user_id == rows[j].user_id && rows[i].restaurant_id == b.restaurantId
    requires rows[i].reservation_date == DateKey(b.reservation_date)
    requires rows[i].reservation_time == b.reservation_time
    ensures !NoDuplicateSlots(UpdateWhere(rows, rows[j].id, b))
  {
    var out := UpdateWhere(rows, rows[j].id, b);
    assert rows[i].id != rows[j].id by {
      if i < j { } else { }
    }
    assert out[i] == rows[i];
    if i < j {
      assert InSlot(out[i], out[j].user_id, out[j].restaurant_id, out[j].reservation_date, out[j].reservation_time);
    } else {
      assert InSlot(out[j], out[i].user_id, out[i].restaurant_id, out[i].reservation_date, out[i].reservation_time);
    }
  }

  /** The in-memory reservations table. */
  class ReservationTable {
    var rows: seq<Reservation>
    /** The next value of the table's auto-increment id. */
    var nextId: int

    ghost predicate Valid()
      reads this
    {
      0 < nextId
      && (forall k :: 0 <= k < |rows| ==> 0 < rows[k].id < nextId)
      && UniqueIds(rows)
    }

    constructor ()
      ensures Valid() && rows == [] && nextId == 1
    {
      rows := [];
      nextId := 1;
    }

    /** POST /api/reservations for the caller `callerId` (`req.user.userId`). */
    method Create(callerId: int, body: Body) returns (reply: Reply<int>)
      requires Valid()
      modifies this
      ensures Valid()
      ensures !HasAllFields(body) ==>
        reply == Err(400, "All fields are required") && rows == old(rows) && nextId == old(nextId)
      ensures (HasAllFields(body) &&
               SlotTaken(old(rows), callerId, body.restaurantId, DateKey(body.reservation_date), body.reservation_time)) ==>
        reply == Err(409, "Reservation already exists.") && rows == old(rows) && nextId == old(nextId)
      ensures (HasAllFields(body) &&
               !SlotTaken(old(rows), callerId, body.restaurantId, DateKey(body.reservation_date), body.reservation_time)) ==>
        reply == Ok(201, old(nextId)) && rows == old(rows) + [NewRecord(old(nextId), callerId, body)]
        && nextId == old(nextId) + 1
      ensures NoDuplicateSlots(old(rows)) ==> NoDuplicateSlots(rows)
    {
      if !HasAllFields(body) {
        return Err(400, "All fields are required");
      }
      var date := DateKey(body.reservation_date);
      var existing := SlotQuery(rows, callerId, body.restaurantId, date, body.reservation_time);
      if |existing| > 0 {
        return Err(409, "Reservation already exists.");
      }
      var record := NewRecord(nextId, callerId, body);
      if NoDuplicateSlots(rows) {
        AppendFreeSlot(rows, record);
      }
      rows := rows + [record];
      reply := Ok(201, nextId);
      nextId := nextId + 1;
    }

    /** PUT /api/reservations/:id for the caller `callerId`. */
    method Update(callerId: int, id: int, body: Body) returns (reply: Reply<string>)
      requires Valid()
      modifies this
      ensures Valid() && nextId == old(nextId)
      ensures !HasAllFields(body) ==>
        reply == Err(400, "All fields are required for update") && rows == old(rows)
      ensures HasAllFields(body) && FindById(old(rows), id).None? ==>
        reply == Err(404, "Reservation not found") && rows == old(rows)
      ensures HasAllFields(body) && FindById(old(rows), id).Some? && FindById(old(rows), id).value.user_id != callerId ==>
        reply == Err(403, "Unauthorized") && rows == old(rows)
      ensures HasAllFields(body) && FindById(old(rows), id).Some? && FindById(old(rows), id).value.user_id == callerId ==>
        reply == Ok(200, "Reservation updated successfully") && rows == UpdateWhere(old(rows), id, body)
    {
      if !HasAllFields(body) {
        return Err(400, "All fields are required for update");
      }
      var found := FindById(rows, id);
      if found.None? {
        return Err(404, "Reservation not found");
      }
      if found.value.user_id != callerId {
        return Err(403, "Unauthorized");
      }
      var updated := UpdateWhere(rows, id, body);
      assert forall k :: 0 <= k < |rows| ==> updated[k].id == rows[k].id;
      rows := updated;
      reply := Ok(200, "Reservation updated successfully");
    }

    /** DELETE /api/reservations/:id for the caller `callerId`. */
    method Delete(callerId: int, id: int) returns (reply: Reply<string>)
      requires Valid()
      modifies this
      ensures Valid() && nextId == old(nextId)
      ensures FindById(old(rows), id).None? ==>
        reply == Err(404, "Reservation not found") && rows == old(rows)
      ensures FindById(old(rows), id).Some? && FindById(old(rows), id).value.user_id != callerId ==>
        reply == Err(403, "Unauthorized") && rows == old(rows)
      ensures FindById(old(rows), id).Some? && FindById(old(rows), id).value.user_id == callerId ==>
        reply == Ok(200, "Reservation deleted successfully") && rows == DeleteWhere(old(rows), id)
    {
      var found := FindById(rows, id);
      if found.None? {
        return Err(404, "Reservation not found");
      }
      if found.value.user_id != callerId {
        return Err(403, "Unauthorized");
      }
      var remaining := DeleteWhere(rows, id);
      FilterKeepsUniqueIds(rows, NotId(id));
      assert forall k :: 0 <= k < |remaining| ==> remaining[k] in rows;
      rows := remaining;
      reply := Ok(200, "Reservation deleted successfully");
    }
  }

  /** Selecting rows of a table with distinct ids keeps the ids distinct. */
  lemma {:induction false} FilterKeepsUniqueIds(rows: seq<Reservation>, keep: Reservation -> bool)
    requires UniqueIds(rows)
    ensures UniqueIds(Filter(rows, keep))
  {
    if rows != [] {
      var t := rows[1..];
      assert rows == [rows[0]] + t;
      UniqueIdsTail(rows);
      FilterKeepsUniqueIds(t, keep);
      FilterCons(rows[0], t, keep);
      if keep(rows[0]) {
        HeadIdUnique(rows);
        var f := Filter(rows, keep);
        forall j | 0 < j < |f| ensures f[0].id != f[j].id {
          assert f[j] in Filter(t, keep);
        }
      }
    }
  }

  /** The tail of a table with distinct ids has distinct ids. */
  lemma UniqueIdsTail(rows: seq<Reservation>)
    requires rows != [] && UniqueIds(rows)
    ensures UniqueIds(rows[1..])
  {
    var t := rows[1..];
    forall i, j | 0 <= i < j < |t| ensures t[i].id != t[j].id {
      assert t[i] == rows[i + 1] && t[j] == rows[j + 1];
    }
  }

  /** No row after the first shares its id. */
  lemma HeadIdUnique(rows: seq<Reservation>)
    requires rows != [] && UniqueIds(rows)
    ensures forall x :: x in rows[1..] ==> x.id != rows[0].id
  {
    var t := rows[1..];
    forall x | x in t ensures x.id != rows[0].id {
      var k :| 0 <= k < |t| && t[k] == x;
      assert rows[k + 1] == x;
    }
  }


  /** A row of GET /user/:userId: the selected columns of a reservation and
      the name of its restaurant. */
  datatype Listed = Listed(id: int, reservation_date: string, reservation_time: string,
                           people_count: int, full_name: string, restaurant_id: int,
                           restaurant_name: string)

  /** The body of a successful GET /user/:userId. */
  datatype Listing = Listing(current: seq<Listed>, past: seq<Listed>)

  function View(r: Reservation, restaurantName: string): Listed
  {
    Listed(r.id, r.reservation_date, r.reservation_time, r.people_count, r.full_name,
           r.restaurant_id, restaurantName)
  }

  /** The rows of `userId` joined with the restaurants table (`names` maps each
      restaurant_id to its name), in table order: the inner join drops rows
      whose restaurant does not exist. */
  function Joined(rows: seq<Reservation>, names: map<int, string>, userId: int): (out: seq<Listed>)
    ensures forall x :: x in out ==>
      exists r :: r in rows && r.user_id == userId && r.restaurant_id in names && x == View(r, names[r.restaurant_id])
    ensures forall r :: r in rows && r.user_id == userId && r.restaurant_id in names ==>
      View(r, names[r.restaurant_id]) in out
  {
    if rows == [] then []
    else
      var r := rows[0];
      var rest := Joined(rows[1..], names, userId);
      assert forall q :: q in rows[1..] ==> q in rows;
      assert forall q :: q in rows ==> q == r || q in rows[1..];
      if r.user_id == userId && r.restaurant_id in names then [View(r, names[r.restaurant_id])] + rest else rest
  }

  /** `a` may come before `b` in an `ORDER BY reservation_date` list. */
  predicate InOrder(a: Listed, b: Listed, descending: bool)
  {
    if descending then LexLe(b.reservation_date, a.reservation_date)
    else LexLe(a.reservation_date, b.reservation_date)
  }

  predicate SortedByDate(s: seq<Listed>, descending: bool)
  {
    forall i, j :: 0 <= i < j < |s| ==> InOrder(s[i], s[j], descending)
  }

  lemma InOrderTransitive(a: Listed, b: Listed, c: Listed, descending: bool)
    requires InOrder(a, b, descending) && InOrder(b, c, descending)
    ensures InOrder(a, c, descending)
  {
    if descending {
      LexTransitive(c.reservation_date, b.reservation_date, a.reservation_date);
    } else {
      LexTransitive(a.reservation_date, b.reservation_date, c.reservation_date);
    }
  }

  /** A row that may come before every row of a sorted list may head it. */
  lemma SortedCons(y: Listed, rest: seq<Listed>, descending: bool)
    requires SortedByDate(rest, descending)
    requires forall z :: z in rest ==> InOrder(y, z, descending)
    ensures SortedByDate([y] + rest, descending)
  {
    var s := [y] + rest;
    forall i, j | 0 <= i < j < |s| ensures InOrder(s[i], s[j], descending) {
      if i == 0 {
        assert s[j] == rest[j - 1];
        assert rest[j - 1] in rest;
      } else {
        assert s[i] == rest[i - 1] && s[j] == rest[j - 1];
      }
    }
  }

  /** A row in order with the head of a sorted list is in order with all of it. */
  lemma HeadBound(x: Listed, s: seq<Listed>, descending: bool)
    requires s != [] && SortedByDate(s, descending) && InOrder(x, s[0], descending)
    ensures forall z :: z in s ==> InOrder(x, z, descending)
  {
    forall z | z in s ensures InOrder(x, z, descending) {
      var j :| 0 <= j < |s| && s[j] == z;
      if j > 0 {
        InOrderTransitive(x, s[0], s[j], descending);
      }
    }
  }

  /** The tail of a sorted list is sorted. */
  lemma SortedTail(s: seq<Listed>, descending: bool)
    requires s != [] && SortedByDate(s, descending)
    ensures SortedByDate(s[1..], descending)
  {
    var t := s[1..];
    forall i, j | 0 <= i < j < |t| ensures InOrder(t[i], t[j], descending) {
      assert t[i] == s[i + 1] && t[j] == s[j + 1];
    }
  }

  /** The head of a sorted list comes before every row of the tail with one
      more row added, when it comes before that row too. */
  lemma HeadBeforeAll(s: seq<Listed>, x: Listed, rest: seq<Listed>, descending: bool)
    requires s != [] && SortedByDate(s, descending) && InOrder(s[0], x, descending)
    requires multiset(rest) == multiset(s[1..]) + multiset{x}
    ensures forall y :: y in rest ==> InOrder(s[0], y, descending)
  {
    var t := s[1..];
    forall y | y in rest ensures InOrder(s[0], y, descending) {
      assert y in multiset(rest);
      if y != x {
        assert y in multiset(t);
        var j :| 0 <= j < |t| && t[j] == y;
        assert s[j + 1] == y;
      }
    }
  }

  /** Insertion of one row into a list sorted by date. */
  function Insert(x: Listed, s: seq<Listed>, descending: bool): (r: seq<Listed>)
    requires SortedByDate(s, descending)
    ensures SortedByDate(r, descending)
    ensures multiset(r) == multiset(s) + multiset{x}
  {
    if s == [] then [x]
    else if InOrder(x, s[0], descending) then
      HeadBound(x, s, descending);
      SortedCons(x, s, descending);
      [x] + s
    else
      var t := s[1..];
      assert s == [s[0]] + t;
      SortedTail(s, descending);
      var rest := Insert(x, t, descending);
      assert InOrder(s[0], x, descending) by {
        LexTotal(x.reservation_date, s[0].reservation_date);
      }
      HeadBeforeAll(s, x, rest, descending);
      SortedCons(s[0], rest, descending);
      [s[0]] + rest
  }

  /** `ORDER BY reservation_date ASC` (`descending` false) or `DESC` (true).
      Rows with equal dates may come in any order; this one keeps table order. */
  function SortByDate(s: seq<Listed>, descending: bool): (r: seq<Listed>)
    ensures SortedByDate(r, descending)
    ensures multiset(r) == multiset(s)
  {
    if s == [] then []
    else
      assert s == [s[0]] + s[1..];
      Insert(s[0], SortByDate(s[1..], descending), descending)
  }

  /** The row's date is on or after `today`, as `r.reservation_date >= ?` compares. */
  predicate Upcoming(v: Listed, today: string)
    ensures v.reservation_date == today ==> Upcoming(v, today)
    ensures !Upcoming(v, today) ==> LexLe(v.reservation_date, today) && v.reservation_date != today
  {
    LexTotal(today, v.reservation_date);
    LexReflexive(today);
    LexLe(today, v.reservation_date)
  }

  /** The two list queries over the caller's joined rows: `reservation_date >= today`
      ascending, and `reservation_date < today` descending. */
  function SplitByDate(all: seq<Listed>, today: string): (l: Listing)
    ensures forall x :: x in l.current ==> Upcoming(x, today)
    ensures forall x :: x in l.past ==> !Upcoming(x, today)
    ensures SortedByDate(l.current, false) && SortedByDate(l.past, true)
    ensures multiset(l.current) + multiset(l.past) == multiset(all)
  {
    var upcoming := (v: Listed) => Upcoming(v, today);
    var before := (v: Listed) => !Upcoming(v, today);
    var cur := Filter(all, upcoming);
    var old_ := Filter(all, before);
    FilterSplit(all, upcoming, before);
    var l := Listing(SortByDate(cur, false), SortByDate(old_, true));
    assert forall x :: x in l.current ==> Upcoming(x, today) by {
      forall x | x in l.current ensures Upcoming(x, today) {
        assert x in multiset(l.current);
        assert x in cur;
        assert upcoming(x);
      }
    }
    assert forall x :: x in l.past ==> !Upcoming(x, today) by {
      forall x | x in l.past ensures !Upcoming(x, today) {
        assert x in multiset(l.past);
        assert x in old_;
        assert before(x);
      }
    }
    l
  }

  /** GET /api/reservations/user/:userId for the caller `callerId`; `today` is
      `new Date().toISOString().split('T')[0]`. */
  function ListForUser(rows: seq<Reservation>, names: map<int, string>, callerId: int,
                       userIdParam: string, today: string): (reply: Reply<Listing>)
    ensures ParseInt(userIdParam) != Some(callerId) ==> reply == Err(403, "Unauthorized")
    ensures ParseInt(userIdParam) == Some(callerId) ==>
      reply == Ok(200, SplitByDate(Joined(rows, names, callerId), today))
  {
    if ParseInt(userIdParam) != Some(callerId) then Err(403, "Unauthorized")
    else Ok(200, SplitByDate(Joined(rows, names, callerId), today))
  }

  /** Every row of the caller whose restaurant exists is listed exactly once:
      in `current` when its date is on or after today, in `past` otherwise. */
  lemma ListingPartition(rows: seq<Reservation>, names: map<int, string>, callerId: int,
                         userIdParam: string, today: string, r: Reservation)
    requires ListForUser(rows, names, callerId, userIdParam, today).Ok?
    requires r in rows && r.user_id == callerId && r.restaurant_id in names
    ensures var l := ListForUser(rows, names, callerId, userIdParam, today).value;
            var v := View(r, names[r.restaurant_id]);
            (v in l.current <==> LexLe(today, r.reservation_date))
            && (v in l.past <==> !LexLe(today, r.reservation_date))
            && !(v in l.current && v in l.past)
  {
    var l := ListForUser(rows, names, callerId, userIdParam, today).value;
    var v := View(r, names[r.restaurant_id]);
    assert v in multiset(Joined(rows, names, callerId));
    assert v in multiset(l.current) || v in multiset(l.past);
  }

  /** Only the caller's own rows are listed. */
  lemma ListingOwnRowsOnly(rows: seq<Reservation>, names: map<int, string>, callerId: int,
                           userIdParam: string, today: string, x: Listed)
    requires ListForUser(rows, names, callerId, userIdParam, today).Ok?
    requires x in ListForUser(rows, names, callerId, userIdParam, today).value.current
          || x in ListForUser(rows, names, callerId, userIdParam, today).value.past
    ensures exists r :: r in rows && r.user_id == callerId && r.restaurant_id in names
                        && x == View(r, names[r.restaurant_id])
  {
    var all := Joined(rows, names, callerId);
    var l := SplitByDate(all, today);
    assert x in multiset(l.current) || x in multiset(l.past);
    assert x in multiset(l.current) + multiset(l.past);
    assert x in multiset(all);
    assert x in all;
  }
}
