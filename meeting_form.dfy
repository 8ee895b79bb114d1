/**
 * The calendar's "create meeting" modal: the room choices, the reset it does
 * when it opens, and the ordered validation chain that either reports the
 * first failed check or hands a `CreateMeetingPayload` to its caller.
 */
module MeetingForm {
  import opened Wrappers
  import opened Types
  import opened Text

  /** The rooms offered, in the order the selector lists them. */
  const Rooms: seq<MeetingRoom> := [Springsteen, Dylan, Armstrong, Martin]

  lemma RoomsAreEveryRoomOnce()
    ensures |Rooms| == 4
    ensures forall r: MeetingRoom :: r in Rooms
    ensures forall i, j :: 0 <= i < j < |Rooms| ==> Rooms[i] != Rooms[j]
  {
    forall r: MeetingRoom
      ensures r in Rooms
    {
      match r
      case Springsteen => assert Rooms[0] == r;
      case Dylan => assert Rooms[1] == r;
      case Armstrong => assert Rooms[2] == r;
      case Martin => assert Rooms[3] == r;
    }
  }

  const DefaultStart := "18:00"
  const DefaultEnd := "19:00"

  const SelectReservationFirst := "Select an active reservation (instrument) first."
  const SelectDay := "Select a day."
  const TimesRequired := "Start and end time are required."
  const EndNotAfterStart := "End time must be after start time."

  /** A time default: the fallback when none was given or it is empty, else its first five characters. */
  function HhmmOrDefault(v: Option<string>, fallback: string): (r: string)
    ensures v.None? || v.value == [] ==> r == fallback
    ensures v.Some? && v.value != [] ==>
              && |r| <= 5 && |r| <= |v.value| && r == v.value[..|r|]
              && (|v.value| >= 5 ==> |r| == 5)
              && (|v.value| < 5 ==> r == v.value)
  {
    if v.None? || v.value == [] then fallback else Prefix(v.value, 5)
  }

  // ---------------------------------------------------------------------------
  // Active reservations and the preselected one
  // ---------------------------------------------------------------------------

  /** The reservations the selector offers: those with status ACTIVE. */
  function ActiveReservations(rs: seq<Reservation>): (r: seq<Reservation>)
    ensures |r| <= |rs|
    ensures forall i :: 0 <= i < |r| ==> r[i].status == ReservationActive
    ensures forall x :: x in r <==> x in rs && x.status == ReservationActive
  {
    if rs == [] then []
    else (if rs[0].status == ReservationActive then [rs[0]] else []) + ActiveReservations(rs[1..])
  }

  /** Filtering distributes over concatenation, so the original order is kept. */
  lemma {:induction false} ActiveReservationsAppend(a: seq<Reservation>, b: seq<Reservation>)
    ensures ActiveReservations(a + b) == ActiveReservations(a) + ActiveReservations(b)
  {
    if a == [] {
      assert a + b == b;
    } else {
      assert (a + b)[0] == a[0];
      assert (a + b)[1..] == a[1..] + b;
      ActiveReservationsAppend(a[1..], b);
    }
  }

  /** The reservation preselected on opening: the first active one, or id 0 when there is none. */
  function PreselectedReservation(rs: seq<Reservation>): (id: int)
    ensures (forall i :: 0 <= i < |rs| ==> rs[i].status != ReservationActive) ==> id == 0
  {
    var active := ActiveReservations(rs);
    if active == [] then 0
    else
      assert active[0] in rs;
      active[0].id
  }

  /** The preselected id is that of the earliest ACTIVE reservation in the list. */
  lemma {:induction false} PreselectIsFirstActive(rs: seq<Reservation>, k: nat)
    requires k < |rs| && rs[k].status == ReservationActive
    requires forall j :: 0 <= j < k ==> rs[j].status != ReservationActive
    ensures PreselectedReservation(rs) == rs[k].id
  {
    if k > 0 {
      PreselectIsFirstActive(rs[1..], k - 1);
      assert ActiveReservations(rs) == ActiveReservations(rs[1..]);
    }
  }

  /** The Create button is disabled while submitting and when there is no active reservation. */
  predicate CreateDisabled(isSubmitting: bool, reservations: seq<Reservation>) {
    isSubmitting || |ActiveReservations(reservations)| == 0
  }

  lemma CreateDisabledIff(isSubmitting: bool, reservations: seq<Reservation>)
    ensures CreateDisabled(isSubmitting, reservations)
              == (isSubmitting || forall i :: 0 <= i < |reservations| ==> reservations[i].status != ReservationActive)
  {
    var active := ActiveReservations(reservations);
    if active != [] {
      assert active[0] in reservations;
    }
  }

  // ---------------------------------------------------------------------------
  // Clock times and the string comparison
  // ---------------------------------------------------------------------------

  predicate IsDigit(c: char) {
    '0' <= c <= '9'
  }

  function DigitValue(c: char): nat
    requires IsDigit(c)
  {
    c as int - '0' as int
  }

  /** A zero-padded "HH:MM" string, as a time input produces: 00:00 to 23:59. */
  predicate IsClockTime(t: string) {
    && |t| == 5
    && IsDigit(t[0]) && IsDigit(t[1]) && t[2] == ':' && IsDigit(t[3]) && IsDigit(t[4])
    && 10 * DigitValue(t[0]) + DigitValue(t[1]) <= 23
    && DigitValue(t[3]) <= 5
  }

  /** The minute of the day an "HH:MM" string names. */
  function MinuteOfDay(t: string): (m: nat)
    requires IsClockTime(t)
    ensures m < 24 * 60
  {
    (10 * DigitValue(t[0]) + DigitValue(t[1])) * 60 + 10 * DigitValue(t[3]) + DigitValue(t[4])
  }

  /** On two five-character strings that agree at index 2, `<` compares indices 0, 1, 3, 4 in turn. */
  lemma StrLessOfClockShape(a: string, b: string)
    requires |a| == 5 && |b| == 5 && a[2] == b[2]
    ensures StrLess(a, b) <==>
              || a[0] < b[0]
              || (a[0] == b[0] && a[1] < b[1])
              || (a[0] == b[0] && a[1] == b[1] && a[3] < b[3])
              || (a[0] == b[0] && a[1] == b[1] && a[3] == b[3] && a[4] < b[4])
  {
    assert a[1..][1..] == a[2..] && b[1..][1..] == b[2..];
    assert a[2..][1..] == a[3..] && b[2..][1..] == b[3..];
    assert a[3..][1..] == a[4..] && b[3..][1..] == b[4..];
    assert a[4..][1..] == [] && b[4..][1..] == [];
    assert StrLess(a[4..], b[4..]) == (a[4] < b[4]);
    assert StrLess(a[3..], b[3..]) == (a[3] < b[3] || (a[3] == b[3] && a[4] < b[4]));
    assert StrLess(a[2..], b[2..]) == StrLess(a[3..], b[3..]);
  }

  /** For zero-padded "HH:MM" strings, JavaScript's string `<` is clock order. */
  lemma ClockStringOrder(a: string, b: string)
    requires IsClockTime(a) && IsClockTime(b)
    ensures StrLess(a, b) <==> MinuteOfDay(a) < MinuteOfDay(b)
  {
    StrLessOfClockShape(a, b);
    var h0, h1, m0, m1 := DigitValue(a[0]), DigitValue(a[1]), DigitValue(a[3]), DigitValue(a[4]);
    var g0, g1, n0, n1 := DigitValue(b[0]), DigitValue(b[1]), DigitValue(b[3]), DigitValue(b[4]);
    var ha, hb := 10 * h0 + h1, 10 * g0 + g1;
    var ma, mb := 10 * m0 + m1, 10 * n0 + n1;
    assert ma < 60 && mb < 60;
    assert (ha < hb || (ha == hb && ma < mb)) <==> ha * 60 + ma < hb * 60 + mb;
    assert (h0 < g0 || (h0 == g0 && h1 < g1)) <==> ha < hb;
    assert (m0 < n0 || (m0 == n0 && m1 < n1)) <==> ma < mb;
  }

  /** The guard `end <= start` rejects exactly the ends that are not after the start on the clock. */
  lemma EndNotAfterStartIff(start: string, end: string)
    requires IsClockTime(start) && IsClockTime(end)
    ensures StrLessEq(end, start) <==> MinuteOfDay(end) <= MinuteOfDay(start)
  {
    ClockStringOrder(start, end);
  }

  // ---------------------------------------------------------------------------
  // The validation chain
  // ---------------------------------------------------------------------------

  /**
   * The first check that fails, in the order the modal runs them
   * (reservation, day, both times, time order), or `None` when all pass.
   */
  function FirstFailedCheck(reservationId: int, day: string, start: string, end: string): (m: Option<string>)
    ensures m.None? <==> reservationId != 0 && day != [] && start != [] && end != [] && StrLess(start, end)
    ensures reservationId == 0 ==> m == Some(SelectReservationFirst)
    ensures reservationId != 0 && day == [] ==> m == Some(SelectDay)
    ensures reservationId != 0 && day != [] && (start == [] || end == []) ==> m == Some(TimesRequired)
    ensures reservationId != 0 && day != [] && start != [] && end != [] && StrLessEq(end, start) ==>
              m == Some(EndNotAfterStart)
  {
    if reservationId == 0 then Some(SelectReservationFirst)
    else if day == [] then Some(SelectDay)
    else if start == [] || end == [] then Some(TimesRequired)
    else if StrLessEq(end, start) then Some(EndNotAfterStart)
    else None
  }

  /** An accepted pair of clock times has the end strictly after the start. */
  lemma AcceptedEndsAfterStart(reservationId: int, day: string, start: string, end: string)
    requires IsClockTime(start) && IsClockTime(end)
    ensures FirstFailedCheck(reservationId, day, start, end).None? <==>
              reservationId != 0 && day != [] && MinuteOfDay(start) < MinuteOfDay(end)
  {
    ClockStringOrder(start, end);
  }

  /** The modal's own state. */
  class MeetingFormState {
    var reservationId: int
    var room: MeetingRoom
    var day: string
    var start: string
    var end: string
    var localError: string

    constructor ()
      ensures reservationId == 0 && room == Springsteen && day == ""
      ensures start == DefaultStart && end == DefaultEnd && localError == ""
    {
      reservationId, room, day := 0, Springsteen, "";
      start, end, localError := DefaultStart, DefaultEnd, "";
    }

    /**
     * The reset effect: it runs when the modal opens and again, while it stays
     * open, whenever the default day, start or end or the list of active
     * reservations changes, discarding what the user had chosen; while the
     * modal is closed nothing happens.
     */
    method Open(isOpen: bool, defaultDay: Option<string>, defaultStart: Option<string>,
                defaultEnd: Option<string>, reservations: seq<Reservation>)
      modifies this
      ensures !isOpen ==> unchanged(this)
      ensures isOpen ==>
                && localError == ""
                && day == defaultDay.GetOr("")
                && start == HhmmOrDefault(defaultStart, DefaultStart)
                && end == HhmmOrDefault(defaultEnd, DefaultEnd)
                && reservationId == PreselectedReservation(reservations)
                && room == Springsteen
    {
      if !isOpen {
        return;
      }
      localError := "";
      day := defaultDay.GetOr("");
      start := HhmmOrDefault(defaultStart, DefaultStart);
      end := HhmmOrDefault(defaultEnd, DefaultEnd);
      reservationId := PreselectedReservation(reservations);
      room := Springsteen;
    }

    /**
     * The submit handler: stops at the first failed check and shows its
     * message, or clears the message and returns the payload passed to the caller.
     */
    method Submit() returns (created: Option<CreateMeetingPayload>)
      modifies this`localError
      ensures localError == FirstFailedCheck(reservationId, day, start, end).GetOr("")
      ensures created.Some? <==> FirstFailedCheck(reservationId, day, start, end).None?
      ensures created.Some? ==> created.value == CreateMeetingPayload(reservationId, room, day, start, end)
    {
      localError := "";
      created := None;
      if reservationId == 0 {
        localError := SelectReservationFirst;
        return;
      }
      if day == "" {
        localError := SelectDay;
        return;
      }
      if start == "" || end == "" {
        localError := TimesRequired;
        return;
      }
      if StrLessEq(end, start) {
        localError := EndNotAfterStart;
        return;
      }
      created := Some(CreateMeetingPayload(reservationId, room, day, start, end));
    }
  }
}
