/** The home screen of the mobile client: the restaurant search filter, the
    carousel index and its pagination dots, and the local reservation lists. */
module Home {
  import opened Common
  import opened Strings
  import opened Seqs
  import Catalog
  import Reservations

  /** `restaurant.name.toLowerCase().includes(searchQuery.toLowerCase())`. */
  predicate NameMatches(query: string, e: Catalog.Entry)
  {
    Contains(Lower(e.row.name), Lower(query))
  }

  /** `filteredRestaurants`. */
  function FilteredRestaurants(restaurants: seq<Catalog.Entry>, query: string): (r: seq<Catalog.Entry>)
    ensures forall e :: e in r ==> e in restaurants && NameMatches(query, e)
    ensures forall e :: e in restaurants && NameMatches(query, e) ==> e in r
  {
    Filter(restaurants, (e: Catalog.Entry) => NameMatches(query, e))
  }

  /** The filter works piece by piece, so the kept restaurants stay in the
      order the server listed them. */
  lemma FilteredInOrder(a: seq<Catalog.Entry>, b: seq<Catalog.Entry>, query: string)
    ensures FilteredRestaurants(a + b, query) == FilteredRestaurants(a, query) + FilteredRestaurants(b, query)
  {
    FilterConcat(a, b, (e: Catalog.Entry) => NameMatches(query, e));
  }

  /** An empty search keeps every restaurant. */
  lemma EmptyQueryKeepsAll(restaurants: seq<Catalog.Entry>)
    ensures FilteredRestaurants(restaurants, "") == restaurants
  {
    forall e | e in restaurants ensures NameMatches("", e) {
      ContainsEmpty(Lower(e.row.name));
    }
    FilterKeepsAll(restaurants, (e: Catalog.Entry) => NameMatches("", e));
  }

  /** The search ignores the case of the query. */
  lemma QueryCaseIgnored(restaurants: seq<Catalog.Entry>, query: string)
    ensures FilteredRestaurants(restaurants, Lower(query)) == FilteredRestaurants(restaurants, query)
  {
    LowerIdempotent(query);
    FilterAgree(restaurants, (e: Catalog.Entry) => NameMatches(Lower(query), e), (e: Catalog.Entry) => NameMatches(query, e));
  }

  function Min(a: int, b: int): int { if a < b then a else b }

  function Max(a: int, b: int): int { if a < b then b else a }

  /** The indices `start, start + 1, ...` of `m` consecutive slots. */
  function Run(start: int, m: nat): seq<int>
  {
    seq(m, i => start + i)
  }

  /** `d < count` as a filter. */
  function Below(count: int): int -> bool
  {
    (d: int) => d < count
  }

  /** A run is its first index followed by the run after it. */
  lemma RunCons(start: int, m: nat)
    requires m > 0
    ensures Run(start, m) == [start] + Run(start + 1, m - 1)
  {
  }

  /** Keeping the indices below `count` from a run keeps a shorter run. */
  lemma {:induction false} RunBelow(start: int, m: nat, count: int)
    ensures Filter(Run(start, m), Below(count)) == Run(start, Max(0, Min(m, count - start)))
    decreases m
  {
    if m > 0 {
      RunCons(start, m);
      FilterCons(start, Run(start + 1, m - 1), Below(count));
      RunBelow(start + 1, m - 1, count);
      if start < count {
        RunCons(start, Max(0, Min(m, count - start)));
      }
    } else {
      assert Run(start, 0) == [];
      assert Run(start, Max(0, Min(m, count - start))) == [];
    }
  }

  /** One rendered pagination dot. */
  datatype Dot = Dot(index: int, active: bool)

  /** The pagination dots: `min(3, count)` slots starting at
      `max(0, currentIndex - 1)`, of which those below `count` are rendered,
      active when they are the current index. */
  function Dots(count: nat, currentIndex: int): (dots: seq<Dot>)
    ensures |dots| == Max(0, Min(Min(3, count), count - Max(0, currentIndex - 1)))
    ensures forall k :: 0 <= k < |dots| ==> dots[k].index == Max(0, currentIndex - 1) + k
    ensures forall k :: 0 <= k < |dots| ==> 0 <= dots[k].index < count
  {
    var start := Max(0, currentIndex - 1);
    RunBelow(start, Min(3, count), count);
    var w := Filter(Run(start, Min(3, count)), Below(count));
    seq(|w|, k requires 0 <= k < |w| => Dot(w[k], w[k] == currentIndex))
  }

  /** At most `min(3, count)` dots; a dot is active exactly when it is the
      current index, and an index in range always has its dot. */
  lemma DotsWindow(count: nat, currentIndex: int)
    ensures var dots := Dots(count, currentIndex);
      && |dots| <= Min(3, count)
      && (forall k :: 0 <= k < |dots| ==> (dots[k].active <==> dots[k].index == currentIndex))
      && (0 <= currentIndex < count ==> exists k :: 0 <= k < |dots| && dots[k].index == currentIndex)
  {
    var dots := Dots(count, currentIndex);
    if 0 <= currentIndex < count {
      var k := currentIndex - Max(0, currentIndex - 1);
      assert 0 <= k < |dots| && dots[k].index == currentIndex;
    }
  }

  /** On the last of at least three restaurants only two dots are rendered. */
  lemma LastPageShowsTwo(count: nat)
    requires count >= 3
    ensures |Dots(count, count - 1)| == 2
  {
  }

  /** A reservation as the home screen keeps it: the listed record and the
      `date` field added on fetch. */
  datatype Item = Item(record: Reservations.Listed, date: string)

  /** `data.current.map(r => ({ ...r, date: r.reservation_date }))`. */
  function WithDate(rs: seq<Reservations.Listed>): (items: seq<Item>)
    ensures |items| == |rs|
    ensures forall i :: 0 <= i < |rs| ==> items[i].record == rs[i]
    ensures forall i :: 0 <= i < |rs| ==> items[i].date == rs[i].reservation_date
  {
    seq(|rs|, i requires 0 <= i < |rs| => Item(rs[i], rs[i].reservation_date))
  }

  /** `r => r.id !== reservationId`. */
  function OtherId(id: int): Item -> bool
  {
    (x: Item) => x.record.id != id
  }

  /** `prevReservations.filter(r => r.id !== reservationId)`. */
  function WithoutId(items: seq<Item>, id: int): (out: seq<Item>)
    ensures |out| <= |items|
  {
    Filter(items, OtherId(id))
  }

  /** The items left are exactly those with another id. */
  lemma WithoutIdMembers(items: seq<Item>, id: int)
    ensures forall x :: x in WithoutId(items, id) <==> x in items && x.record.id != id
  {
  }

  /** Removing an id works piece by piece, so the remaining items keep their
      order: an item at index `k` is cut out and the rest is joined. */
  lemma WithoutIdCutsOut(items: seq<Item>, k: int)
    requires 0 <= k < |items|
    requires forall j :: 0 <= j < |items| && j != k ==> items[j].record.id != items[k].record.id
    ensures WithoutId(items, items[k].record.id) == items[..k] + items[k + 1..]
  {
    FilterCutsOut(items, k, OtherId(items[k].record.id));
  }

  /** The first item is the only one removed when no other item has its id. */
  lemma WithoutIdCutsHead(items: seq<Item>)
    requires 0 < |items|
    requires forall j :: 0 < j < |items| ==> items[j].record.id != items[0].record.id
    ensures WithoutId(items, items[0].record.id) == items[1..]
  {
    var keep := OtherId(items[0].record.id);
    var t := items[1..];
    assert items == [items[0]] + t;
    FilterCons(items[0], t, keep);
    assert forall x :: x in t ==> keep(x) by {
      forall x | x in t ensures keep(x) {
        var j :| 0 <= j < |t| && t[j] == x;
        assert items[j + 1] == x;
      }
    }
    FilterKeepsAll(t, keep);
  }

  /** A first item with another id is kept at the head. */
  lemma WithoutIdKeepsHead(items: seq<Item>, id: int)
    requires 0 < |items| && items[0].record.id != id
    ensures WithoutId(items, id) == [items[0]] + WithoutId(items[1..], id)
  {
    assert items == [items[0]] + items[1..];
    FilterCons(items[0], items[1..], OtherId(id));
  }

  /** The outcome of a GET request as the screen sees it: a body that parses,
      a refusal whose body parses, or a request that throws. The screen reads
      the body as JSON before it looks at the status, so a refusal with a
      plain-text body, such as the gate's `sendStatus(403)`, is `Offline`. */
  datatype Fetched<T> = Received(data: T) | Refused | Offline

  /** The state of the home screen. */
  class HomeScreen {
    var restaurants: seq<Catalog.Entry>
    var searchQuery: string
    var currentIndex: int
    var reservations: seq<Item>
    var pastReservations: seq<Item>
    var fetchError: Option<string>
    var loading: bool

    constructor ()
      ensures restaurants == [] && searchQuery == "" && currentIndex == 0
      ensures reservations == [] && pastReservations == [] && fetchError.None? && loading
    {
      restaurants, searchQuery, currentIndex := [], "", 0;
      reservations, pastReservations, fetchError, loading := [], [], None, true;
    }

    /** The restaurants the carousel shows. */
    function Visible(): seq<Catalog.Entry>
      reads this
    {
      FilteredRestaurants(restaurants, searchQuery)
    }

    /** The carousel index names a shown restaurant. */
    predicate IndexInRange()
      reads this
    {
      0 <= currentIndex < |Visible()|
    }

    /** `onChangeText={setSearchQuery}`; the carousel index is left where it was. */
    method SetSearchQuery(query: string)
      modifies this
      ensures searchQuery == query && currentIndex == old(currentIndex) && restaurants == old(restaurants)
      ensures reservations == old(reservations) && pastReservations == old(pastReservations)
      ensures fetchError == old(fetchError) && loading == old(loading)
    {
      searchQuery := query;
    }

    /** `goToPrevious`: one step back unless at the first restaurant. */
    method GoToPrevious()
      modifies this
      ensures currentIndex == if old(currentIndex) > 0 then old(currentIndex) - 1 else old(currentIndex)
      ensures restaurants == old(restaurants) && searchQuery == old(searchQuery)
      ensures reservations == old(reservations) && pastReservations == old(pastReservations)
      ensures fetchError == old(fetchError) && loading == old(loading)
      ensures old(IndexInRange()) ==> IndexInRange()
    {
      if currentIndex > 0 {
        currentIndex := currentIndex - 1;
      }
    }

    /** `goToNext`: one step forward unless at the last shown restaurant. */
    method GoToNext()
      modifies this
      ensures currentIndex == if old(currentIndex) < |old(Visible())| - 1 then old(currentIndex) + 1 else old(currentIndex)
      ensures restaurants == old(restaurants) && searchQuery == old(searchQuery)
      ensures reservations == old(reservations) && pastReservations == old(pastReservations)
      ensures fetchError == old(fetchError) && loading == old(loading)
      ensures old(IndexInRange()) ==> IndexInRange()
    {
      if currentIndex < |Visible()| - 1 {
        currentIndex := currentIndex + 1;
      }
    }

    /** `fetchRestaurants` once its request has been answered. */
    method ShowRestaurants(outcome: Fetched<seq<Catalog.Entry>>)
      modifies this
      ensures !loading && searchQuery == old(searchQuery) && currentIndex == old(currentIndex)
      ensures reservations == old(reservations) && pastReservations == old(pastReservations)
      ensures outcome.Received? ==> restaurants == outcome.data && fetchError.None?
      ensures outcome.Refused? ==> restaurants == old(restaurants) && fetchError == Some("Failed to fetch restaurants.")
      ensures outcome.Offline? ==>
        restaurants == old(restaurants) && fetchError == Some("Could not connect to the server to fetch restaurants.")
    {
      match outcome {
        case Received(data) =>
          restaurants := data;
          fetchError := None;
        case Refused =>
          fetchError := Some("Failed to fetch restaurants.");
        case Offline =>
          fetchError := Some("Could not connect to the server to fetch restaurants.");
      }
      loading := false;
    }

    /** `fetchUserReservations`: nothing happens without a stored user id and
        token; otherwise the answer replaces both lists or sets the error. */
    method ShowReservations(storedUserId: Option<string>, token: Option<string>,
                            outcome: Fetched<Reservations.Listing>)
      modifies this
      ensures restaurants == old(restaurants) && searchQuery == old(searchQuery)
      ensures currentIndex == old(currentIndex) && loading == old(loading)
      ensures (storedUserId.None? || storedUserId.value == "" || token.None? || token.value == "" || !outcome.Received?) ==>
        reservations == old(reservations) && pastReservations == old(pastReservations)
      ensures (storedUserId.None? || storedUserId.value == "" || token.None? || token.value == "") ==>
        fetchError == old(fetchError)
      ensures (storedUserId.Some? && storedUserId.value != "" && token.Some? && token.value != "") ==>
        && (outcome.Received? ==> reservations == WithDate(outcome.data.current)
                                  && pastReservations == WithDate(outcome.data.past) && fetchError.None?)
        && (outcome.Refused? ==> fetchError == Some("Failed to fetch reservations."))
        && (outcome.Offline? ==> fetchError == Some("Could not connect to the server to fetch reservations."))
    {
      if storedUserId.None? || storedUserId.value == "" || token.None? || token.value == "" {
        return;
      }
      match outcome
      case Received(listing) =>
        reservations := WithDate(listing.current);
        pastReservations := WithDate(listing.past);
        fetchError := None;
      case Refused =>
        fetchError := Some("Failed to fetch reservations.");
      case Offline =>
        fetchError := Some("Could not connect to the server to fetch reservations.");
    }

    /** The confirmed branch of `handleDeleteReservation` once the DELETE has
        been answered: on success the item leaves the upcoming list and is put
        at the head of the past list; otherwise both lists stay as they are
        (the screen then fetches them again). */
    method DeleteConfirmed(reservationId: int, reservation: Item, token: Option<string>, delivery: Delivery)
      modifies this
      ensures restaurants == old(restaurants) && searchQuery == old(searchQuery)
      ensures currentIndex == old(currentIndex) && fetchError == old(fetchError) && loading == old(loading)
      ensures (token.Some? && token.value != "" && delivery.Delivered? && delivery.ok) ==>
        reservations == WithoutId(old(reservations), reservationId)
        && pastReservations == [reservation] + old(pastReservations)
      ensures !(token.Some? && token.value != "" && delivery.Delivered? && delivery.ok) ==>
        reservations == old(reservations) && pastReservations == old(pastReservations)
    {
      if token.None? || token.value == "" {
        return;
      }
      if delivery.Delivered? && delivery.ok {
        reservations := WithoutId(reservations, reservationId);
        pastReservations := [reservation] + pastReservations;
      }
    }
  }
}
