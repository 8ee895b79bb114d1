/**
 * The meeting details modal: the time display, the participant count, the
 * status choices, which actions are offered to the viewer, and which callback
 * (with which meeting id) each enabled control fires.
 */
module MeetingDetails {
  import opened Wrappers
  import opened Types
  import opened Text

  /** `hhmm(t)`: the first five characters of an "HH:MM:SS" time, or "" when the time is missing. */
  function Hhmm(t: Option<string>): (r: string)
    ensures t.None? ==> r == ""
    ensures t.Some? ==> |r| <= 5 && |r| <= |t.value| && r == t.value[..|r|]
    ensures t.Some? && |t.value| >= 5 ==> |r| == 5
    ensures t.Some? && |t.value| < 5 ==> r == t.value
  {
    if t.None? then "" else Prefix(t.value, 5)
  }

  /** `STATUSES`: the options of the status selector, in order. */
  const Statuses: seq<MeetingStatus> := [MeetingActive, MeetingFinished, MeetingCancelled]

  lemma StatusesAreEveryStatusOnce()
    ensures |Statuses| == 3
    ensures forall s: MeetingStatus :: s in Statuses
    ensures forall i, j :: 0 <= i < j < |Statuses| ==> Statuses[i] != Statuses[j]
  {
    forall s: MeetingStatus
      ensures s in Statuses
    {
      match s
      case MeetingActive => assert Statuses[0] == s;
      case MeetingFinished => assert Statuses[1] == s;
      case MeetingCancelled => assert Statuses[2] == s;
    }
  }

  /** The participant count shown: the number of listed users, else the count the backend sent, else 0. */
  function ParticipantCount(m: Meeting): (n: int)
    ensures m.users.Some? ==> n == |m.users.value|
    ensures m.users.None? && m.usersCount.Some? ==> n == m.usersCount.value
    ensures m.users.None? && m.usersCount.None? ==> n == 0
  {
    if m.users.Some? then |m.users.value| else m.usersCount.GetOr(0)
  }

  /** The rows listed under the count: `meeting.users ?? []`. */
  function ParticipantRows(m: Meeting): seq<User> {
    m.users.GetOr([])
  }

  /** A control of the action bar: not rendered, or rendered and maybe disabled. */
  datatype Control = Hidden | Shown(disabled: bool)

  datatype Actions = Actions(join: Control, quit: Control, edit: Control, delete: Control, statusSelect: Control)

  /** The action bar for the viewer's flags. */
  function ActionsFor(isAdmin: bool, isMember: bool, busy: bool): (a: Actions)
    ensures a.join.Shown? != a.quit.Shown?
    ensures a.join.Shown? <==> !isMember
    ensures a.edit == Shown(true)
    ensures a.delete.Shown? <==> isAdmin
    ensures a.statusSelect.Shown? <==> isAdmin
    ensures forall c :: c in [a.join, a.quit, a.delete, a.statusSelect] && c.Shown? ==> c.disabled == busy
  {
    var own := Shown(busy);
    var admin := if isAdmin then Shown(busy) else Hidden;
    Actions(
      join := if !isMember then own else Hidden,
      quit := if isMember then own else Hidden,
      edit := Shown(true),
      delete := admin,
      statusSelect := admin)
  }

  /** What the viewer does in the action bar. */
  datatype Event = ClickJoin | ClickQuit | ClickEdit | ClickDelete | SelectStatus(choice: MeetingStatus)

  /** The callback a control invokes, with the meeting id it carries. */
  datatype Call = OnJoin(id: int) | OnQuit(id: int) | OnDelete(id: int) | OnStatus(id: int, status: MeetingStatus)

  function CallId(c: Call): int {
    match c
    case OnJoin(id) => id
    case OnQuit(id) => id
    case OnDelete(id) => id
    case OnStatus(id, _) => id
  }

  predicate Enabled(c: Control) {
    c.Shown? && !c.disabled
  }

  /** The control an event acts on. */
  function ControlOf(a: Actions, e: Event): Control {
    match e
    case ClickJoin => a.join
    case ClickQuit => a.quit
    case ClickEdit => a.edit
    case ClickDelete => a.delete
    case SelectStatus(_) => a.statusSelect
  }

  /**
   * The callback fired by `e` on meeting `m`; a hidden or disabled control fires
   * nothing, Edit has no handler, and the status selector, whose value is the
   * meeting's current status, reports a change only when another status is picked.
   */
  function Dispatch(m: Meeting, a: Actions, e: Event): (r: Option<Call>)
    ensures r.Some? <==> Enabled(ControlOf(a, e)) && !e.ClickEdit? && !(e.SelectStatus? && e.choice == m.status)
    ensures r.Some? ==> CallId(r.value) == m.id
    ensures r.Some? && e.SelectStatus? ==> r.value == OnStatus(m.id, e.choice)
  {
    if !Enabled(ControlOf(a, e)) then None
    else
      match e
      case ClickJoin => Some(OnJoin(m.id))
      case ClickQuit => Some(OnQuit(m.id))
      case ClickEdit => None
      case ClickDelete => Some(OnDelete(m.id))
      case SelectStatus(s) => if s == m.status then None else Some(OnStatus(m.id, s))
  }

  /**
   * For the action bar the modal renders: nothing fires while busy, Edit never
   * fires, re-picking the current status fires nothing, only admins delete or
   * change the status, a member can only quit and anyone else can only join.
   */
  lemma DispatchGating(m: Meeting, isAdmin: bool, isMember: bool, busy: bool, e: Event)
    ensures var r := Dispatch(m, ActionsFor(isAdmin, isMember, busy), e);
      && (busy ==> r.None?)
      && (e.ClickEdit? ==> r.None?)
      && (e.SelectStatus? && e.choice == m.status ==> r.None?)
      && (r.Some? && (r.value.OnDelete? || r.value.OnStatus?) ==> isAdmin)
      && (r.Some? && r.value.OnJoin? ==> !isMember)
      && (r.Some? && r.value.OnQuit? ==> isMember)
      && (!busy && e.ClickJoin? && !isMember ==> r == Some(OnJoin(m.id)))
      && (!busy && e.ClickQuit? && isMember ==> r == Some(OnQuit(m.id)))
      && (!busy && isAdmin && e.ClickDelete? ==> r == Some(OnDelete(m.id)))
      && (!busy && isAdmin && e.SelectStatus? && e.choice != m.status ==> r == Some(OnStatus(m.id, e.choice)))
  {
    var a := ActionsFor(isAdmin, isMember, busy);
    assert a.join in [a.join, a.quit, a.delete, a.statusSelect];
    assert a.quit in [a.join, a.quit, a.delete, a.statusSelect];
    assert a.delete in [a.join, a.quit, a.delete, a.statusSelect];
    assert a.statusSelect in [a.join, a.quit, a.delete, a.statusSelect];
  }
}
