/**
 * The Profile page's edit flow: the saved `user`, the `formData` bound to the
 * inputs, and the `editMode` flag. The editable inputs are disabled outside
 * edit mode, so a change event only arrives while editing; "Department" and
 * "Join Date" are always disabled and have no change handler.
 */
module Profile {

  import opened Maybe

  datatype User = User(
    id: int,
    name: string,
    email: string,
    role: string,
    date: string,
    phone: string,
    address: string,
    department: string,
    status: string,
    lastLogin: string,
    employeeId: string,
    joinDate: string,
    avatar: Option<string>)

  /** The inputs that carry `handleInputChange`. */
  datatype Field = Name | Email | Phone | Address

  datatype State = State(user: User, formData: User, editMode: bool)

  /** A user action on the page: "Edit Profile", typing into an input, "Save Changes", "Cancel". */
  datatype Event = StartEdit | Change(field: Field, value: string) | Save | Cancel

  /** The profile the page starts with. */
  const SeedUser := User(1, "Dr. Sarah Johnson", "sarah.johnson@kingsway.com", "Admin", "2024-01-15",
    "+234 801 234 5678", "123 Medical Center Drive, Lagos", "Cardiology", "Active",
    "2024-09-04 14:30", "EMP001", "2024-01-15", None)

  /** Outside edit mode the form shows exactly the saved profile. */
  predicate Inv(s: State)
  {
    !s.editMode ==> s.formData == s.user
  }

  /** The page on first render: not editing, the form a copy of the user. */
  function Initial(): (s: State)
    ensures !s.editMode && s.formData == s.user == SeedUser
  {
    State(SeedUser, SeedUser, false)
  }

  function FieldValue(u: User, f: Field): string
  {
    match f
    case Name => u.name
    case Email => u.email
    case Phone => u.phone
    case Address => u.address
  }

  /** `{ ...prevData, [name]: value }` for one of the four editable inputs. */
  function SetField(u: User, f: Field, value: string): (r: User)
    ensures FieldValue(r, f) == value
    ensures forall g: Field :: g != f ==> FieldValue(r, g) == FieldValue(u, g)
    ensures r.id == u.id && r.role == u.role && r.date == u.date && r.department == u.department
    ensures r.status == u.status && r.lastLogin == u.lastLogin && r.employeeId == u.employeeId
    ensures r.joinDate == u.joinDate && r.avatar == u.avatar
  {
    match f
    case Name => u.(name := value)
    case Email => u.(email := value)
    case Phone => u.(phone := value)
    case Address => u.(address := value)
  }

  /** `handleInputChange`; a disabled input (outside edit mode) emits nothing. */
  function InputChange(s: State, f: Field, value: string): (r: State)
    ensures r.user == s.user && r.editMode == s.editMode
    ensures s.editMode ==> r.formData == SetField(s.formData, f, value)
    ensures !s.editMode ==> r == s
  {
    if s.editMode then s.(formData := SetField(s.formData, f, value)) else s
  }

  /** `handleSave`: the form becomes the profile, unvalidated, and editing ends. */
  function HandleSave(s: State): (r: State)
    ensures r.user == s.formData && r.formData == s.formData && !r.editMode
    ensures Inv(r)
  {
    State(s.formData, s.formData, false)
  }

  /** `handleCancel`: the form is reset to the profile, which is untouched, and editing ends. */
  function HandleCancel(s: State): (r: State)
    ensures r.user == s.user && r.formData == s.user && !r.editMode
    ensures Inv(r)
  {
    State(s.user, s.user, false)
  }

  /** The Edit Profile button: editing starts, profile and form as they were. */
  function StartEditing(s: State): (r: State)
    ensures r.editMode && r.user == s.user && r.formData == s.formData
  {
    s.(editMode := true)
  }

  /** One user action, dispatched to its handler. */
  function Step(s: State, e: Event): (r: State)
    ensures Inv(s) ==> Inv(r)
    ensures e == StartEdit ==> r.editMode && r.user == s.user && r.formData == s.formData
    ensures e.Change? ==> r == InputChange(s, e.field, e.value)
    ensures e == Save ==> r == HandleSave(s)
    ensures e == Cancel ==> r == HandleCancel(s)
  {
    match e
    case StartEdit => StartEditing(s)
    case Change(f, v) => InputChange(s, f, v)
    case Save => HandleSave(s)
    case Cancel => HandleCancel(s)
  }

  function Run(s: State, es: seq<Event>): State
    decreases |es|
  {
    if |es| == 0 then s else Run(Step(s, es[0]), es[1..])
  }

  /** Every sequence of actions keeps "not editing implies form equals profile". */
  lemma {:induction false} RunPreservesInv(s: State, es: seq<Event>)
    requires Inv(s)
    ensures Inv(Run(s, es))
    decreases |es|
  {
    if |es| > 0 {
      RunPreservesInv(Step(s, es[0]), es[1..]);
    }
  }

  /** Department and join date can never be changed through the form. */
  lemma {:induction false} FixedFieldsNeverChange(s: State, es: seq<Event>)
    requires s.formData.department == s.user.department && s.formData.joinDate == s.user.joinDate
    ensures Run(s, es).user.department == s.user.department
    ensures Run(s, es).formData.department == s.user.department
    ensures Run(s, es).user.joinDate == s.user.joinDate
    ensures Run(s, es).formData.joinDate == s.user.joinDate
    decreases |es|
  {
    if |es| > 0 {
      var t := Step(s, es[0]);
      assert t.user.department == s.user.department && t.formData.department == s.user.department;
      assert t.user.joinDate == s.user.joinDate && t.formData.joinDate == s.user.joinDate;
      FixedFieldsNeverChange(t, es[1..]);
    }
  }

  lemma {:induction false} RunAppend(s: State, a: seq<Event>, b: seq<Event>)
    ensures Run(s, a + b) == Run(Run(s, a), b)
    decreases |a|
  {
    if |a| > 0 {
      assert (a + b)[1..] == a[1..] + b;
      RunAppend(Step(s, a[0]), a[1..], b);
    } else {
      assert a + b == b;
    }
  }

  predicate OnlyChanges(es: seq<Event>)
  {
    forall i :: 0 <= i < |es| ==> es[i].Change?
  }

  /** Typing in edit mode touches only the form. */
  lemma {:induction false} ChangesKeepUser(s: State, es: seq<Event>)
    requires s.editMode && OnlyChanges(es)
    ensures Run(s, es).user == s.user && Run(s, es).editMode
    decreases |es|
  {
    if |es| > 0 {
      ChangesKeepUser(Step(s, es[0]), es[1..]);
    }
  }

  /** "Edit Profile", any typing, then "Cancel" returns the page exactly to where it was. */
  lemma EditThenCancelRestores(s: State, typing: seq<Event>)
    requires Inv(s) && !s.editMode && OnlyChanges(typing)
    ensures Run(s, [StartEdit] + typing + [Cancel]) == s
  {
    var e := s.(editMode := true);
    RunAppend(s, [StartEdit] + typing, [Cancel]);
    RunAppend(s, [StartEdit], typing);
    assert Run(s, [StartEdit]) == e;
    ChangesKeepUser(e, typing);
    assert Run(Run(s, [StartEdit] + typing), [Cancel]) == HandleCancel(Run(e, typing));
  }

  /** "Edit Profile", any typing, then "Save Changes" stores exactly what the form held. */
  lemma EditThenSaveStoresForm(s: State, typing: seq<Event>)
    requires OnlyChanges(typing)
    ensures var r := Run(s, [StartEdit] + typing + [Save]);
      !r.editMode && r.formData == r.user == Run(s, [StartEdit] + typing).formData
  {
    RunAppend(s, [StartEdit] + typing, [Save]);
  }

}
