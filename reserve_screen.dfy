/** The reservation form of the mobile client: its input checks, the payload
    it sends, and the edit pre-fill that reads a listed reservation back. */
module ReserveScreen {
  import opened Common
  import opened Strings
  import Reservations

  /** One position of an anchored regular expression without repetition:
      `\d` or a literal character. */
  datatype Atom = Digit | Lit(c: char)

  predicate AtomMatches(a: Atom, c: char)
  {
    match a
    case Digit => IsDigit(c)
    case Lit(l) => c == l
  }

  /** `/^p$/.test(s)` for a pattern written as a sequence of atoms. */
  predicate Matches(p: seq<Atom>, s: string)
    decreases |p|
  {
    if p == [] then s == [] else s != [] && AtomMatches(p[0], s[0]) && Matches(p[1..], s[1..])
  }

  /** An atom pattern matches exactly the strings of its length that match it
      position by position. */
  lemma {:induction false} MatchesPointwise(p: seq<Atom>, s: string)
    ensures Matches(p, s) <==> |s| == |p| && forall i :: 0 <= i < |p| ==> AtomMatches(p[i], s[i])
    decreases |p|
  {
    if p != [] && s != [] {
      MatchesPointwise(p[1..], s[1..]);
      if |s| == |p| && forall i :: 0 <= i < |p| ==> AtomMatches(p[i], s[i]) {
        assert forall i :: 0 <= i < |p| - 1 ==> AtomMatches(p[1..][i], s[1..][i]) by {
          forall i | 0 <= i < |p| - 1 ensures AtomMatches(p[1..][i], s[1..][i]) {
            assert AtomMatches(p[i + 1], s[i + 1]);
          }
        }
      }
    }
  }

  /** `/^\d{4}-\d{2}-\d{2}$/`, with each counted repetition written out. */
  const DatePattern: seq<Atom> := [Digit, Digit, Digit, Digit, Lit('-'), Digit, Digit, Lit('-'), Digit, Digit]

  /** `/^\d{2}:\d{2}$/`. */
  const TimePattern: seq<Atom> := [Digit, Digit, Lit(':'), Digit, Digit]

  predicate IsDateShape(s: string) { Matches(DatePattern, s) }

  predicate IsTimeShape(s: string) { Matches(TimePattern, s) }

  /** The date check accepts exactly ten characters with digits at 0-3, 5-6
      and 8-9 and '-' at 4 and 7; month and day ranges are not checked. */
  lemma DateShapeIff(s: string)
    ensures IsDateShape(s) <==>
      |s| == 10 && IsDigit(s[0]) && IsDigit(s[1]) && IsDigit(s[2]) && IsDigit(s[3]) && s[4] == '-'
      && IsDigit(s[5]) && IsDigit(s[6]) && s[7] == '-' && IsDigit(s[8]) && IsDigit(s[9])
  {
    MatchesPointwise(DatePattern, s);
  }

  /** The time check accepts exactly five characters with digits at 0, 1, 3
      and 4 and ':' at 2; hour and minute ranges are not checked. */
  lemma TimeShapeIff(s: string)
    ensures IsTimeShape(s) <==>
      |s| == 5 && IsDigit(s[0]) && IsDigit(s[1]) && s[2] == ':' && IsDigit(s[3]) && IsDigit(s[4])
  {
    MatchesPointwise(TimePattern, s);
  }

  /** Out-of-range months, days, hours and minutes pass both checks. */
  lemma RangesNotChecked()
    ensures IsDateShape("2024-13-40") && IsTimeShape("25:99")
  {
    DateShapeIff("2024-13-40");
    TimeShapeIff("25:99");
  }

  const MsgFillAll: string := "❌ Please fill in all fields"
  const MsgBadDate: string := "❌ Invalid date format (YYYY-MM-DD)"
  const MsgBadTime: string := "❌ Invalid time format (HH:MM)"

  /** The checks of `handleReservation`, in order: every field filled, then the
      date shape, then the time shape. `None` when the form passes;
      `FormErrorOrder` states which message each failing form gets. */
  function FormError(userId: string, fullName: string, date: string, time: string,
                     peopleCount: string, restaurantId: string): (e: Option<string>)
    ensures e.Some? ==> e.value == MsgFillAll || e.value == MsgBadDate || e.value == MsgBadTime
  {
    if userId == "" || fullName == "" || date == "" || time == "" || peopleCount == "" || restaurantId == "" then
      Some(MsgFillAll)
    else if !IsDateShape(date) then Some(MsgBadDate)
    else if !IsTimeShape(time) then Some(MsgBadTime)
    else None
  }

  /** A form passes exactly when every field is filled and the date and time
      have their shapes; an empty field is reported first, then a bad date,
      then a bad time. */
  lemma FormErrorOrder(userId: string, fullName: string, date: string, time: string,
                       peopleCount: string, restaurantId: string)
    ensures var e := FormError(userId, fullName, date, time, peopleCount, restaurantId);
      && (e.None? <==> userId != "" && fullName != "" && peopleCount != "" && restaurantId != ""
                       && IsDateShape(date) && IsTimeShape(time))
      && ((userId == "" || fullName == "" || date == "" || time == "" || peopleCount == "" || restaurantId == "")
          ==> e == Some(MsgFillAll))
      && (e == Some(MsgBadDate) <==>
            userId != "" && fullName != "" && date != "" && time != "" && peopleCount != "" && restaurantId != ""
            && !IsDateShape(date))
      && (e == Some(MsgBadTime) <==>
            userId != "" && fullName != "" && time != "" && peopleCount != "" && restaurantId != ""
            && IsDateShape(date) && !IsTimeShape(time))
  {
    if date == "" { assert !IsDateShape(date); }
    if time == "" { assert !IsTimeShape(time); }
  }

  /** `${date}T${time}:00.000Z`. */
  function CombinedDateTime(date: string, time: string): (s: string)
    ensures |s| == |date| + |time| + 9 && s[..|date|] == date
    ensures 'T' !in date ==> BeforeFirst(s, 'T') == date
  {
    var s := date + "T" + time + ":00.000Z";
    if 'T' in date then s
    else
      assert s == date + ['T'] + (time + ":00.000Z");
      BeforeFirstJoin(date, 'T', time + ":00.000Z");
      s
  }

  /** `parseInt` of a form field as it reaches the server: NaN is sent as
      JSON null, which the server reads as a missing field. */
  function NumberField(s: string): (n: int)
    ensures ParseInt(s).Some? ==> n == ParseInt(s).value
    ensures ParseInt(s).None? ==> n == 0
  {
    match ParseInt(s)
    case Some(n) => n
    case None => 0
  }

  /** The `reservationData` object `handleReservation` sends. */
  function Payload(restaurantId: string, date: string, time: string, peopleCount: string,
                   fullName: string): (b: Reservations.Body)
    ensures b.reservation_date == CombinedDateTime(date, time)
    ensures b.reservation_time == time + ":00"
  {
    Reservations.Body(NumberField(restaurantId), CombinedDateTime(date, time), time + ":00",
                      NumberField(peopleCount), fullName)
  }

  /** An accepted form whose two number fields parse to non-zero numbers
      passes the server's required-field check. */
  lemma AcceptedFormHasAllFields(userId: string, fullName: string, date: string, time: string,
                                 peopleCount: string, restaurantId: string)
    requires FormError(userId, fullName, date, time, peopleCount, restaurantId).None?
    requires ParseInt(peopleCount).Some? && ParseInt(peopleCount).value != 0
    requires ParseInt(restaurantId).Some? && ParseInt(restaurantId).value != 0
    ensures Reservations.HasAllFields(Payload(restaurantId, date, time, peopleCount, fullName))
  {
    FormErrorOrder(userId, fullName, date, time, peopleCount, restaurantId);
    TimeShapeIff(time);
  }

  /** The form does not check that the party size is a number: a count that
      does not parse, or parses to 0, gets past the form and is refused by the
      server as a missing field. */
  lemma UnparsedCountRefused(restaurantId: string, date: string, time: string,
                             peopleCount: string, fullName: string)
    requires ParseInt(peopleCount).None? || ParseInt(peopleCount) == Some(0)
    ensures !Reservations.HasAllFields(Payload(restaurantId, date, time, peopleCount, fullName))
  {
  }

  /** For an accepted date and time, the server's date key of the payload is
      the date, and the first five characters of the stored time are the time. */
  lemma PayloadRoundTrip(date: string, time: string)
    requires IsDateShape(date) && IsTimeShape(time)
    ensures Reservations.DateKey(CombinedDateTime(date, time)) == date
    ensures Take(time + ":00", 5) == time
  {
    DateShapeIff(date);
    TimeShapeIff(time);
    assert 'T' !in date by {
      forall i | 0 <= i < |date| ensures date[i] != 'T' {
        assert i in {0, 1, 2, 3, 4, 5, 6, 7, 8, 9};
      }
    }
    assert CombinedDateTime(date, time) == date + ['T'] + (time + ":00.000Z");
    BeforeFirstJoin(date, 'T', time + ":00.000Z");
    assert (time + ":00")[..5] == time;
  }

  /** `reservation_date.split('T')[0]`, the date the edit form is filled with. */
  function PrefillDate(reservationDate: string): (d: string)
    ensures 'T' !in d && |d| <= |reservationDate| && d == reservationDate[..|d|]
  {
    BeforeFirst(reservationDate, 'T')
  }

  /** `reservation_time.slice(0, 5)`, the time the edit form is filled with. */
  function PrefillTime(reservationTime: string): (t: string)
    ensures |t| == (if |reservationTime| < 5 then |reservationTime| else 5) && t == reservationTime[..|t|]
  {
    Take(reservationTime, 5)
  }

  /** A number the form is filled with reads back as that number. */
  lemma NumberFieldRoundTrip(n: int)
    ensures NumberField(IntToString(n)) == n
  {
    ParseIntRoundTrip(n);
  }

  /** A reservation created from an accepted form, listed and opened for
      editing, fills the form with the date, time and name it was created
      with, and with the numbers the form sent. */
  lemma EditRoundTrip(id: int, owner: int, restaurantName: string, restaurantId: string,
                      date: string, time: string, peopleCount: string, fullName: string)
    requires IsDateShape(date) && IsTimeShape(time)
    ensures var row := Reservations.NewRecord(id, owner, Payload(restaurantId, date, time, peopleCount, fullName));
            var listed := Reservations.View(row, restaurantName);
            PrefillDate(listed.reservation_date) == date && PrefillTime(listed.reservation_time) == time
            && listed.full_name == fullName
            && NumberField(IntToString(listed.people_count)) == NumberField(peopleCount)
            && NumberField(IntToString(listed.restaurant_id)) == NumberField(restaurantId)
  {
    NumberFieldRoundTrip(NumberField(peopleCount));
    NumberFieldRoundTrip(NumberField(restaurantId));
    PayloadRoundTrip(date, time);
    assert 'T' !in date;
    BeforeFirstAbsent(date, 'T');
  }

  /** The request `handleReservation` sends. */
  datatype Submission = Post(body: Reservations.Body) | Put(id: int, body: Reservations.Body)

  /** PUT /reservations/:id when editing a reservation with a (truthy) id,
      POST /reservations otherwise. */
  function SubmissionFor(isEditing: bool, idToEdit: Option<int>, body: Reservations.Body): (r: Submission)
    ensures r.Put? <==> isEditing && idToEdit.Some? && idToEdit.value != 0
    ensures r.Put? ==> r.id == idToEdit.value
    ensures r.body == body
  {
    if isEditing && idToEdit.Some? && idToEdit.value != 0 then Put(idToEdit.value, body) else Post(body)
  }

  const MsgNoToken: string := "❌ No JWT token found. Please log in again."
  const MsgCreated: string := "✅ Reservation created successfully!"
  const MsgUpdated: string := "✅ Reservation updated successfully!"
  const MsgGarbled: string := "❌ Error processing server response."

  /** The two parts of the message shown when the server refuses the reservation. */
  const MsgFailedPrefix: string := "❌ Reservation Failed: "
  const MsgFailedDefault: string := "An error occurred."

  /** The message shown when the server refuses the reservation. */
  function FailureMessage(serverMessage: string): (m: string)
    ensures |m| > |MsgFailedPrefix| && m[..|MsgFailedPrefix|] == MsgFailedPrefix
    ensures serverMessage != "" ==> m[|MsgFailedPrefix|..] == serverMessage
    ensures serverMessage == "" ==> m[|MsgFailedPrefix|..] == MsgFailedDefault
  {
    MsgFailedPrefix + (if serverMessage != "" then serverMessage else MsgFailedDefault)
  }

  /** The state of the reservation screen. */
  class ReserveForm {
    var date: string
    var time: string
    var peopleCount: string
    var userId: string
    var fullName: string
    var restaurantId: string
    var isProcessing: bool
    var successMessage: string
    var isEditing: bool
    var reservationIdToEdit: Option<int>

    constructor ()
      ensures date == time == peopleCount == userId == fullName == restaurantId == successMessage == ""
      ensures !isProcessing && !isEditing && reservationIdToEdit.None?
    {
      date, time, peopleCount, userId, fullName, restaurantId := "", "", "", "", "", "";
      isProcessing, successMessage, isEditing, reservationIdToEdit := false, "", false, None;
    }

    /** The `useEffect` that runs on new route parameters: the stored user id,
        then either the reservation to edit or an empty form for `routeRestaurantId`. */
    method Load(storedUserId: Option<string>, routeRestaurantId: Option<int>,
                reservation: Option<Reservations.Listed>)
      modifies this
      ensures userId == (if storedUserId.Some? then storedUserId.value else "")
      ensures reservation.Some? ==>
        && isEditing && reservationIdToEdit == Some(reservation.value.id)
        && date == PrefillDate(reservation.value.reservation_date)
        && time == PrefillTime(reservation.value.reservation_time)
        && peopleCount == IntToString(reservation.value.people_count)
        && fullName == reservation.value.full_name
        && restaurantId == IntToString(reservation.value.restaurant_id)
      ensures reservation.None? ==>
        && !isEditing && reservationIdToEdit.None?
        && date == "" && time == "" && peopleCount == "" && fullName == ""
        && restaurantId == (if routeRestaurantId.Some? && routeRestaurantId.value != 0
                            then IntToString(routeRestaurantId.value) else "")
      ensures isProcessing == old(isProcessing) && successMessage == old(successMessage)
    {
      userId := if storedUserId.Some? then storedUserId.value else "";
      if routeRestaurantId.Some? && routeRestaurantId.value != 0 {
        restaurantId := IntToString(routeRestaurantId.value);
      }
      match reservation
      case Some(r) =>
        isEditing := true;
        reservationIdToEdit := Some(r.id);
        date := PrefillDate(r.reservation_date);
        time := PrefillTime(r.reservation_time);
        peopleCount := IntToString(r.people_count);
        fullName := r.full_name;
        restaurantId := IntToString(r.restaurant_id);
      case None =>
        isEditing := false;
        reservationIdToEdit := None;
        date, time, peopleCount, fullName := "", "", "", "";
        restaurantId := if routeRestaurantId.Some? && routeRestaurantId.value != 0
                        then IntToString(routeRestaurantId.value) else "";
    }

    /** `handleReservation` up to the request: the checks in order, the
        `isProcessing` guard, the stored `token`, then the request it sends.
        A missing or empty token ends processing with its message and sends
        nothing. */
    method Submit(token: Option<string>) returns (sent: Option<Submission>)
      modifies this
      ensures date == old(date) && time == old(time) && peopleCount == old(peopleCount)
      ensures userId == old(userId) && fullName == old(fullName) && restaurantId == old(restaurantId)
      ensures isEditing == old(isEditing) && reservationIdToEdit == old(reservationIdToEdit)
      ensures var e := FormError(old(userId), old(fullName), old(date), old(time), old(peopleCount), old(restaurantId));
        && (e.Some? ==> sent.None? && isProcessing == old(isProcessing) && Some(successMessage) == e)
        && (e.None? && old(isProcessing) ==> sent.None? && isProcessing && successMessage == old(successMessage))
        && (e.None? && !old(isProcessing) && (token.None? || token.value == "") ==>
              sent.None? && !isProcessing && successMessage == MsgNoToken)
        && (e.None? && !old(isProcessing) && token.Some? && token.value != "" ==>
              && isProcessing && successMessage == old(successMessage)
              && sent == Some(SubmissionFor(old(isEditing), old(reservationIdToEdit),
                                            Payload(old(restaurantId), old(date), old(time), old(peopleCount),
                                                    old(fullName)))))
    {
      var error := FormError(userId, fullName, date, time, peopleCount, restaurantId);
      if error.Some? {
        successMessage := error.value;
        sent := None;
      } else if isProcessing {
        sent := None;
      } else if token.None? || token.value == "" {
        successMessage := MsgNoToken;
        sent := None;
      } else {
        isProcessing := true;
        sent := Some(SubmissionFor(isEditing, reservationIdToEdit,
                                   Payload(restaurantId, date, time, peopleCount, fullName)));
      }
    }

    /** The rest of `handleReservation` once its request has been sent: the
        server's answer, and the `finally` that ends processing. */
    method Finish(delivery: Delivery)
      modifies this
      ensures !isProcessing && userId == old(userId)
      ensures (delivery.Delivered? && delivery.ok) ==>
        && successMessage == (if old(isEditing) then MsgUpdated else MsgCreated)
        && date == "" && time == "" && peopleCount == "" && fullName == "" && restaurantId == ""
        && !isEditing && reservationIdToEdit.None?
      ensures (delivery.Delivered? && !delivery.ok) ==> successMessage == FailureMessage(delivery.message)
      ensures delivery.Garbled? ==> successMessage == MsgGarbled
      ensures delivery.Unreachable? ==> successMessage == "❌ " + delivery.reason
      ensures !(delivery.Delivered? && delivery.ok) ==>
        && date == old(date) && time == old(time) && peopleCount == old(peopleCount)
        && fullName == old(fullName) && restaurantId == old(restaurantId)
        && isEditing == old(isEditing) && reservationIdToEdit == old(reservationIdToEdit)
    {
      match delivery {
        case Delivered(ok, message) =>
          if ok {
            successMessage := if isEditing then MsgUpdated else MsgCreated;
            fullName, date, time, peopleCount, restaurantId := "", "", "", "", "";
            isEditing := false;
            reservationIdToEdit := None;
          } else {
            successMessage := FailureMessage(message);
          }
        case Garbled =>
          successMessage := MsgGarbled;
        case Unreachable(reason) =>
          successMessage := "❌ " + reason;
      }
      isProcessing := false;
    }
  }
}
