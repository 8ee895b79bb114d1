/**
 * The enumerations and entity records the client exchanges with the backend.
 * Strings are `seq<char>`; each enumeration has the wire name the backend sends.
 */
module Types {
  import opened Wrappers

  datatype UserRole = Admin | Member

  /** Wire name of a role: the backend sends 'admin' or 'user'. */
  function RoleName(r: UserRole): string {
    match r
    case Admin => "admin"
    case Member => "user"
  }

  datatype InstrumentType = StringFamily | Wind | Percussion | Keyboard

  function InstrumentTypeName(t: InstrumentType): string {
    match t
    case StringFamily => "STRING"
    case Wind => "WIND"
    case Percussion => "PERCUSSION"
    case Keyboard => "KEYBOARD"
  }

  datatype InstrumentStatus = Available | OutOfStock | Maintenance

  function InstrumentStatusName(s: InstrumentStatus): string {
    match s
    case Available => "AVAILABLE"
    case OutOfStock => "OUT_OF_STOCK"
    case Maintenance => "MAINTENANCE"
  }

  datatype ReservationStatus = ReservationActive | ReservationFinished

  function ReservationStatusName(s: ReservationStatus): string {
    match s
    case ReservationActive => "ACTIVE"
    case ReservationFinished => "FINISHED"
  }

  datatype MeetingRoom = Springsteen | Dylan | Armstrong | Martin

  function MeetingRoomName(r: MeetingRoom): string {
    match r
    case Springsteen => "SPRINGSTEEN"
    case Dylan => "DYLAN"
    case Armstrong => "ARMSTRONG"
    case Martin => "MARTIN"
  }

  datatype MeetingStatus = MeetingActive | MeetingFinished | MeetingCancelled

  function MeetingStatusName(s: MeetingStatus): string {
    match s
    case MeetingActive => "ACTIVE"
    case MeetingFinished => "FINISHED"
    case MeetingCancelled => "CANCELLED"
  }

  datatype User = User(
    id: int,
    name: string,
    email: string,
    role: UserRole,
    createdAt: string,
    updatedAt: string)

  datatype Instrument = Instrument(
    id: int,
    name: string,
    description: string,
    kind: InstrumentType,
    status: InstrumentStatus,
    imageUrl: Option<string>,
    createdAt: string,
    updatedAt: string)

  /** A reservation; the client only ever reads it. Dates are "YYYY-MM-DD" strings. */
  datatype Reservation = Reservation(
    id: int,
    userId: int,
    instrumentId: int,
    startDate: string,
    endDate: string,
    status: ReservationStatus)

  /**
   * A meeting as the details modal receives it. Times are "HH:MM:SS" strings;
   * `usersCount` may be null and `users` may be missing from the reply.
   */
  datatype Meeting = Meeting(
    id: int,
    reservationId: int,
    room: MeetingRoom,
    day: string,
    startTime: Option<string>,
    endTime: Option<string>,
    status: MeetingStatus,
    usersCount: Option<int>,
    users: Option<seq<User>>)

  datatype RegisterPayload = RegisterPayload(
    name: string,
    email: string,
    password: string,
    passwordConfirmation: string)

  datatype LoginPayload = LoginPayload(email: string, password: string)

  /** The body of a successful login or register reply. */
  datatype AuthResponse = AuthResponse(token: string, user: User)

  /** Start and end are "HH:MM" strings. */
  datatype CreateMeetingPayload = CreateMeetingPayload(
    reservationId: int,
    room: MeetingRoom,
    day: string,
    startTime: string,
    endTime: string)

  datatype InstrumentPayload = InstrumentPayload(
    name: string,
    description: string,
    kind: InstrumentType,
    status: InstrumentStatus)

  /**
   * What a rejected backend call carries, as far as the client inspects it:
   * the HTTP status, Laravel's per-field `errors` record, the body's `message`,
   * and the `message` of the thrown `Error`, when the rejection is one.
   */
  datatype ApiError = ApiError(
    status: Option<int>,
    fieldErrors: Option<map<string, seq<string>>>,
    message: Option<string>,
    errorMessage: Option<string>)

  /** The settled outcome of one backend call. */
  datatype Reply<T> = Ok(value: T) | Err(error: ApiError)
}
