/** Booking creation: a chain of guard clauses over the posted data (schema,
    exact-slot duplicate, code duplicate, clinic existence, opening hours and
    slot shape), followed by a single insert into the booking store. */
module BookingsController {
  import opened Values

  /** A stored booking: the five properties of the accepted data. */
  datatype Booking = Booking(clinicId: real, code: string, date: string, startTime: string, endTime: string)

  /** Why `createBooking` rejects, one constructor per guard clause. */
  datatype Rejection =
    | InvalidData           // the schema check fails
    | ReadOfUndefined       // no data at all: reading `data.clinicId` throws
    | DuplicateSlot         // a booking with the same clinic, date, start and end exists
    | DuplicateCode         // a booking with the same code exists
    | ClinicNotFound        // no clinic has the given id
    | HoursUnavailable      // the opening hours for the date lack a start or an end
    | StartsBeforeOpening
    | EndsAfterClosing
    | StartsAfterEnd
    | StartNotOnHalfHour
    | EndNotOnHalfHour
    | NotThirtyMinutes

  /** Opening hours of a clinic on one date, as minutes since midnight of
      that date; either end may be missing. */
  datatype OpeningHours = OpeningHours(start: Option<nat>, end: Option<nat>)

  /** A clinic, seen through `getOpeningHours(date)`. */
  datatype Clinic = Clinic(openingHours: string -> OpeningHours)

  // ---------------------------------------------------------------------
  // Formats

  predicate IsDigit(c: char) { '0' <= c <= '9' }

  /** `^\d{4}-\d{2}-\d{2}$` */
  predicate IsDate(s: string) {
    |s| == 10 &&
    IsDigit(s[0]) && IsDigit(s[1]) && IsDigit(s[2]) && IsDigit(s[3]) && s[4] == '-' &&
    IsDigit(s[5]) && IsDigit(s[6]) && s[7] == '-' && IsDigit(s[8]) && IsDigit(s[9])
  }

  /** `^\d{2}:\d{2}$` */
  predicate IsTime(s: string) {
    |s| == 5 && IsDigit(s[0]) && IsDigit(s[1]) && s[2] == ':' && IsDigit(s[3]) && IsDigit(s[4])
  }

  function DigitValue(c: char): nat
    requires IsDigit(c)
  {
    c as int - '0' as int
  }

  function Hour(s: string): nat
    requires IsTime(s)
  {
    10 * DigitValue(s[0]) + DigitValue(s[1])
  }

  function Minute(s: string): nat
    requires IsTime(s)
  {
    10 * DigitValue(s[3]) + DigitValue(s[4])
  }

  /** An `HH:mm` string that names a time of day. What the time helper does
      with strings such as "99:99" is not part of this model. */
  predicate IsClockTime(s: string) {
    IsTime(s) && Hour(s) < 24 && Minute(s) < 60
  }

  /** The time `timeStringToDate(s, date)` stands for, in minutes since
      midnight of `date`; `.minute` of that time is the `mm` part of `s`. */
  function MinutesOf(s: string): (m: nat)
    requires IsClockTime(s)
    ensures m < 24 * 60 && m % 60 == Minute(s) && m / 60 == Hour(s)
  {
    Hour(s) * 60 + Minute(s)
  }

  /** Distinct clock-time strings stand for distinct times. */
  lemma MinutesOfInjective(s: string, t: string)
    requires IsClockTime(s) && IsClockTime(t)
    requires MinutesOf(s) == MinutesOf(t)
    ensures s == t
  {
  }

  // ---------------------------------------------------------------------
  // Schema

  /** The five times of the data that match `HH:mm` name times of day. */
  predicate TimesInRange(data: Data) {
    data.Object? ==>
      (data.startTime.Text? && IsTime(data.startTime.s) ==> IsClockTime(data.startTime.s)) &&
      (data.endTime.Text? && IsTime(data.endTime.s) ==> IsClockTime(data.endTime.s))
  }

  /** `postBody.validate(data)` finds no error. An absent body is valid for an
      optional object schema; the properties are all required: `clinicId` a
      positive number, `code` a non-empty string, `date`, `startTime` and
      `endTime` strings matching their patterns. */
  predicate PassesSchema(data: Data) {
    match data
    case Undefined => true
    case NonObject => false
    case Object(clinicId, code, date, startTime, endTime) =>
      clinicId.Number? && clinicId.n > 0.0 &&
      code.Text? && code.s != "" &&
      date.Text? && IsDate(date.s) &&
      startTime.Text? && IsTime(startTime.s) &&
      endTime.Text? && IsTime(endTime.s)
  }

  /** `new Booking(data)` */
  function BookingOf(data: Data): Booking
    requires data.Object? && PassesSchema(data)
  {
    Booking(data.clinicId.n, data.code.s, data.date.s, data.startTime.s, data.endTime.s)
  }

  /** A booking record whose properties satisfy the schema, with clock times. */
  predicate WellFormed(b: Booking) {
    b.clinicId > 0.0 && b.code != "" && IsDate(b.date) &&
    IsClockTime(b.startTime) && IsClockTime(b.endTime)
  }

  // ---------------------------------------------------------------------
  // Store queries

  predicate SameSlot(a: Booking, b: Booking) {
    a.clinicId == b.clinicId && a.date == b.date &&
    a.startTime == b.startTime && a.endTime == b.endTime
  }

  /** `Booking.exists({clinicId, date, startTime, endTime})` */
  predicate HasSlot(bookings: seq<Booking>, b: Booking) {
    exists i :: 0 <= i < |bookings| && SameSlot(bookings[i], b)
  }

  /** `Booking.exists({code})` */
  predicate HasCode(bookings: seq<Booking>, code: string) {
    exists i :: 0 <= i < |bookings| && bookings[i].code == code
  }

  // ---------------------------------------------------------------------
  // Opening hours and slot shape

  /** The slot lies within known opening hours, starts on a half hour and
      lasts exactly thirty minutes. */
  predicate SlotFits(hours: OpeningHours, start: nat, end: nat) {
    hours.start.Some? && hours.end.Some? &&
    hours.start.value <= start && end <= hours.end.value &&
    start % 30 == 0 && end == start + 30
  }

  /** `verifyBookingData(clinic, data)`: the opening-hours and slot-shape
      rules, checked in order; `None` means the promise resolves. */
  function VerifyBookingData(clinic: Clinic, b: Booking): (r: Option<Rejection>)
    requires IsClockTime(b.startTime) && IsClockTime(b.endTime)
    ensures r.None? <==> SlotFits(clinic.openingHours(b.date), MinutesOf(b.startTime), MinutesOf(b.endTime))
  {
    var hours := clinic.openingHours(b.date);
    var start := MinutesOf(b.startTime);
    var end := MinutesOf(b.endTime);
    if hours.start.None? || hours.end.None? then Some(HoursUnavailable)
    else if start < hours.start.value then Some(StartsBeforeOpening)
    else if end > hours.end.value then Some(EndsAfterClosing)
    else if start > end then Some(StartsAfterEnd)
    else if start % 60 != 0 && start % 60 != 30 then Some(StartNotOnHalfHour)
    else if end % 60 != 0 && end % 60 != 30 then Some(EndNotOnHalfHour)
    else if end - start != 30 then Some(NotThirtyMinutes)
    else None
  }

  /** A booking that the checks of `createBooking` accept against `clinics`,
      leaving aside the duplicate checks, which depend on the store. */
  predicate Admissible(clinics: map<real, Clinic>, b: Booking) {
    WellFormed(b) && b.clinicId in clinics &&
    SlotFits(clinics[b.clinicId].openingHours(b.date), MinutesOf(b.startTime), MinutesOf(b.endTime))
  }

  // ---------------------------------------------------------------------
  // createBooking

  /** The outcome of `createBooking(data)` against the bookings stored so far:
      the first failing check, in source order, decides the rejection; when
      every check passes, the booking to save is the data itself. */
  function Create(bookings: seq<Booking>, clinics: map<real, Clinic>, data: Data): (r: Result<Booking, Rejection>)
    requires TimesInRange(data)
    // accepted: exactly the data, admissible, with a fresh slot and a fresh code
    ensures r.Ok? ==>
      data.Object? && PassesSchema(data) && r.value == BookingOf(data) &&
      Admissible(clinics, r.value) &&
      !HasSlot(bookings, r.value) && !HasCode(bookings, r.value.code)
    // and every such booking is accepted
    ensures (data.Object? && PassesSchema(data) && Admissible(clinics, BookingOf(data)) &&
             !HasSlot(bookings, BookingOf(data)) && !HasCode(bookings, BookingOf(data).code)) ==> r.Ok?
    // the schema is checked before any store lookup
    ensures !PassesSchema(data) ==> r == Err(InvalidData)
    ensures data.Undefined? ==> r == Err(ReadOfUndefined)
    // the slot duplicate is checked before the code duplicate, which comes
    // before the clinic lookup, which comes before the schedule rules
    ensures data.Object? && PassesSchema(data) ==>
      var b := BookingOf(data);
      (HasSlot(bookings, b) ==> r == Err(DuplicateSlot)) &&
      (!HasSlot(bookings, b) && HasCode(bookings, b.code) ==> r == Err(DuplicateCode)) &&
      (!HasSlot(bookings, b) && !HasCode(bookings, b.code) && b.clinicId !in clinics ==>
         r == Err(ClinicNotFound)) &&
      (!HasSlot(bookings, b) && !HasCode(bookings, b.code) && b.clinicId in clinics && r.Err? ==>
         r.error == VerifyBookingData(clinics[b.clinicId], b).value)
  {
    if !PassesSchema(data) then Err(InvalidData)
    else if data.Undefined? then Err(ReadOfUndefined)
    else
      var b := BookingOf(data);
      if HasSlot(bookings, b) then Err(DuplicateSlot)
      else if HasCode(bookings, b.code) then Err(DuplicateCode)
      else if b.clinicId !in clinics then Err(ClinicNotFound)
      else
        match VerifyBookingData(clinics[b.clinicId], b)
        case Some(e) => Err(e)
        case None => Ok(b)
  }

  // ---------------------------------------------------------------------
  // The store

  /** What holds of a store filled only through `createBooking`: every
      booking is admissible, and no two share a slot or a code. */
  predicate StoreInvariant(clinics: map<real, Clinic>, bookings: seq<Booking>) {
    (forall i :: 0 <= i < |bookings| ==> Admissible(clinics, bookings[i])) &&
    (forall i, j :: 0 <= i < j < |bookings| ==>
       !SameSlot(bookings[i], bookings[j]) && bookings[i].code != bookings[j].code)
  }

  /** Two bookings at the same clinic on the same date whose times intersect. */
  predicate Overlap(a: Booking, b: Booking)
    requires IsClockTime(a.startTime) && IsClockTime(a.endTime)
    requires IsClockTime(b.startTime) && IsClockTime(b.endTime)
  {
    a.clinicId == b.clinicId && a.date == b.date &&
    MinutesOf(a.startTime) < MinutesOf(b.endTime) && MinutesOf(b.startTime) < MinutesOf(a.endTime)
  }

  /** Distinct half-hour marks are at least thirty minutes apart. */
  lemma HalfHoursApart(x: nat, y: nat)
    requires x % 30 == 0 && y % 30 == 0 && x != y
    ensures x + 30 <= y || y + 30 <= x
  {
  }

  /** Admissible bookings in different slots never overlap: each starts on a
      half hour and lasts thirty minutes, and distinct strings are distinct times. */
  lemma DistinctSlotsDisjoint(clinics: map<real, Clinic>, a: Booking, b: Booking)
    requires Admissible(clinics, a) && Admissible(clinics, b)
    requires !SameSlot(a, b)
    ensures !Overlap(a, b)
  {
    var sa, ea := MinutesOf(a.startTime), MinutesOf(a.endTime);
    var sb, eb := MinutesOf(b.startTime), MinutesOf(b.endTime);
    assert sa % 30 == 0 && ea == sa + 30;
    assert sb % 30 == 0 && eb == sb + 30;
    if a.clinicId == b.clinicId && a.date == b.date {
      if sa == sb {
        MinutesOfInjective(a.startTime, b.startTime);
        MinutesOfInjective(a.endTime, b.endTime);
        assert false;
      }
      HalfHoursApart(sa, sb);
    }
  }

  /** No two stored bookings overlap. */
  lemma StoredBookingsDisjoint(clinics: map<real, Clinic>, bookings: seq<Booking>, i: nat, j: nat)
    requires StoreInvariant(clinics, bookings)
    requires i < |bookings| && j < |bookings| && i != j
    ensures !Overlap(bookings[i], bookings[j])
  {
    if i < j {
      DistinctSlotsDisjoint(clinics, bookings[i], bookings[j]);
    } else {
      DistinctSlotsDisjoint(clinics, bookings[j], bookings[i]);
    }
  }

  /** A successful `createBooking` keeps the store invariant, and the new
      booking overlaps none of the stored ones. */
  lemma CreateKeepsInvariant(bookings: seq<Booking>, clinics: map<real, Clinic>, data: Data)
    requires StoreInvariant(clinics, bookings) && TimesInRange(data)
    ensures Create(bookings, clinics, data).Ok? ==>
      var b := Create(bookings, clinics, data).value;
      StoreInvariant(clinics, bookings + [b]) &&
      forall i :: 0 <= i < |bookings| ==> !Overlap(bookings[i], b)
  {
    var r := Create(bookings, clinics, data);
    if r.Ok? {
      var b := r.value;
      var after := bookings + [b];
      forall i, j | 0 <= i < j < |after|
        ensures !SameSlot(after[i], after[j]) && after[i].code != after[j].code
      {
        if j == |bookings| {
          assert !SameSlot(bookings[i], b);
          assert bookings[i].code != b.code;
        }
      }
      forall i | 0 <= i < |bookings| ensures !Overlap(bookings[i], b) {
        assert !SameSlot(bookings[i], b);
        DistinctSlotsDisjoint(clinics, bookings[i], b);
      }
    }
  }

  /** The Booking and Clinic collections: `createBooking` reads them, and
      its one mutation is `booking.save()` on success. */
  class BookingStore {
    var bookings: seq<Booking>
    const clinics: map<real, Clinic>

    ghost predicate Valid()
      reads this
    {
      StoreInvariant(clinics, bookings)
    }

    constructor (clinics: map<real, Clinic>)
      ensures Valid() && bookings == [] && this.clinics == clinics
    {
      bookings := [];
      this.clinics := clinics;
    }

    /** `createBooking(data)`: a rejection leaves the store unchanged;
        success saves exactly one booking, equal to the data. */
    method CreateBooking(data: Data) returns (r: Result<Booking, Rejection>)
      requires Valid() && TimesInRange(data)
      modifies this
      ensures Valid()
      ensures r == Create(old(bookings), clinics, data)
      ensures bookings == if r.Ok? then old(bookings) + [r.value] else old(bookings)
    {
      r := Create(bookings, clinics, data);
      if r.Ok? {
        CreateKeepsInvariant(bookings, clinics, data);
        bookings := bookings + [r.value];
      }
    }
  }
}
