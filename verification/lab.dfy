/**
 * The Lab page: the list of lab tests, its search and status filter, and the
 * view / create / edit / delete flow of its dialogs. React state is one
 * immutable `Page` record; every handler is a function from page to page.
 */
module Lab {

  import opened Maybe
  import opened Text
  import opened Seqs
  import opened Badge

  datatype LabTest = LabTest(
    id: string,
    patientId: string,
    patientName: string,
    testName: string,
    dateRequested: string,
    status: string,
    result: Option<string>,
    dateCompleted: Option<string>,
    requestedBy: string)

  /** The create/edit form holds a lab test without its id. */
  datatype LabForm = LabForm(
    patientId: string,
    patientName: string,
    testName: string,
    dateRequested: string,
    status: string,
    result: Option<string>,
    dateCompleted: Option<string>,
    requestedBy: string)

  /** The text inputs of the form that carry a change handler (`requestedBy` is disabled). */
  datatype FormField = PatientId | PatientName | TestName | DateRequested | Result | DateCompleted

  /** The filter options of the status drop-down; "All" is the no-constraint sentinel. */
  const Statuses: seq<string> := ["All", "Pending", "Completed", "Cancelled"]

  datatype Page = Page(
    tests: seq<LabTest>,
    selected: Option<LabTest>,
    viewOpen: bool,
    formOpen: bool,
    query: string,
    statusFilter: string,
    isEditing: bool,
    form: LabForm)

  /** How a save attempt ended; `Rejected` is the "fill in all required fields" toast. */
  datatype SaveOutcome = Rejected | Updated | Created

  // ---------------------------------------------------------------------------
  // Badge colour

  /** `getStatusColor`: the badge tone of a status; unknown statuses are gray. */
  function StatusTone(status: string): (t: Tone)
    ensures t == Green <==> status == "Completed"
    ensures t == Yellow <==> status == "Pending"
    ensures t == Red <==> status == "Cancelled"
    ensures t == Gray <==> status !in Statuses[1..]
    ensures t != Orange
  {
    if status == "Completed" then Green
    else if status == "Pending" then Yellow
    else if status == "Cancelled" then Red
    else Gray
  }

  /** The class string `getStatusColor` returns: the classes of the status's tone. */
  function StatusColor(status: string): (c: string)
    ensures c == Classes(Green) <==> status == "Completed"
    ensures c == Classes(Yellow) <==> status == "Pending"
    ensures c == Classes(Red) <==> status == "Cancelled"
    ensures c == Classes(Gray) <==> status !in Statuses[1..]
  {
    var t := StatusTone(status);
    ClassesIdentifyTone(t, Green);
    ClassesIdentifyTone(t, Yellow);
    ClassesIdentifyTone(t, Red);
    ClassesIdentifyTone(t, Gray);
    Classes(t)
  }

  // ---------------------------------------------------------------------------
  // Filtering

  /** The search term matches the patient name, test name or patient id, ignoring case. */
  predicate MatchesSearch(t: LabTest, query: string)
  {
    MatchesIgnoringCase(t.patientName, query)
    || MatchesIgnoringCase(t.testName, query)
    || MatchesIgnoringCase(t.patientId, query)
  }

  lemma EmptySearchMatchesAll()
    ensures forall t: LabTest :: MatchesSearch(t, "")
  {
    forall t: LabTest ensures MatchesSearch(t, "") {
      EmptyQueryMatches(t.patientName);
    }
  }

  predicate Visible(t: LabTest, query: string, statusFilter: string)
  {
    MatchesSearch(t, query) && (statusFilter == "All" || t.status == statusFilter)
  }

  /** The filter callback of `filteredLabTests`. */
  function VisibleUnder(query: string, statusFilter: string): LabTest -> bool
  {
    (t: LabTest) => Visible(t, query, statusFilter)
  }

  /**
   * `filteredLabTests`: a test is listed exactly when the search matches and
   * the status filter is "All" or equal to its status; the list keeps the
   * store's order and with no constraint at all it is the whole store.
   */
  function FilteredTests(tests: seq<LabTest>, query: string, statusFilter: string): (r: seq<LabTest>)
    ensures IsSubseq(r, tests)
    ensures forall i :: 0 <= i < |r| ==>
      MatchesSearch(r[i], query) && (statusFilter == "All" || r[i].status == statusFilter)
    ensures forall i :: 0 <= i < |tests| ==>
      (MatchesSearch(tests[i], query) && (statusFilter == "All" || tests[i].status == statusFilter)
       ==> tests[i] in r)
    ensures |r| == CountWhere(tests, VisibleUnder(query, statusFilter))
    ensures query == "" && statusFilter == "All" ==> r == tests
  {
    EmptySearchMatchesAll();
    Filter(tests, VisibleUnder(query, statusFilter))
  }

  // ---------------------------------------------------------------------------
  // Form

  function FormOf(t: LabTest): LabForm
  {
    LabForm(t.patientId, t.patientName, t.testName, t.dateRequested,
            t.status, t.result, t.dateCompleted, t.requestedBy)
  }

  function WithId(f: LabForm, id: string): LabTest
  {
    LabTest(id, f.patientId, f.patientName, f.testName, f.dateRequested,
            f.status, f.result, f.dateCompleted, f.requestedBy)
  }

  /** The form template of the create dialog; `today` stands for the clock's date. */
  function BlankForm(today: string): LabForm
  {
    LabForm("", "", "", today, "Pending", None, None, "Admin")
  }

  /** The value an input shows for a field (`result || ""` for the nullable ones). */
  function FieldValue(f: LabForm, field: FormField): string
  {
    match field
    case PatientId => f.patientId
    case PatientName => f.patientName
    case TestName => f.testName
    case DateRequested => f.dateRequested
    case Result => if f.result.Some? then f.result.value else ""
    case DateCompleted => if f.dateCompleted.Some? then f.dateCompleted.value else ""
  }

  /** `handleFormInputChange`: writes the typed value into the one named field. */
  function SetField(f: LabForm, field: FormField, value: string): (r: LabForm)
    ensures FieldValue(r, field) == value
    ensures forall g: FormField :: g != field ==> FieldValue(r, g) == FieldValue(f, g)
    ensures r.status == f.status && r.requestedBy == f.requestedBy
    ensures field == Result ==> r.result == Some(value)
    ensures field == DateCompleted ==> r.dateCompleted == Some(value)
    ensures field != Result ==> r.result == f.result
    ensures field != DateCompleted ==> r.dateCompleted == f.dateCompleted
  {
    match field
    case PatientId => f.(patientId := value)
    case PatientName => f.(patientName := value)
    case TestName => f.(testName := value)
    case DateRequested => f.(dateRequested := value)
    case Result => f.(result := Some(value))
    case DateCompleted => f.(dateCompleted := Some(value))
  }

  /** The three fields whose emptiness makes the save handler refuse. */
  predicate RequiredFilled(f: LabForm)
  {
    f.patientName != "" && f.testName != "" && f.patientId != ""
  }

  // ---------------------------------------------------------------------------
  // Page handlers

  /** The form before any dialog has filled it: every text empty, nothing present. */
  const EmptyForm := LabForm("", "", "", "", "", None, None, "")

  /** The page on first render: the seeded tests, no dialog, no filter, an empty form. */
  function InitialPage(seed: seq<LabTest>): (p: Page)
    ensures p.tests == seed && FilteredTests(p.tests, p.query, p.statusFilter) == seed
    ensures p.query == "" && p.statusFilter == "All"
    ensures !p.viewOpen && !p.formOpen && !p.isEditing && p.selected.None?
    ensures p.form == EmptyForm && !RequiredFilled(p.form)
  {
    Page(seed, None, false, false, "", "All", false, EmptyForm)
  }

  /** `handleViewTest`: opens the read-only dialog on the clicked test. */
  function ViewTest(p: Page, t: LabTest): (r: Page)
    ensures r.viewOpen && r.selected == Some(t)
    ensures r.(selected := p.selected, viewOpen := p.viewOpen) == p
  {
    p.(selected := Some(t), viewOpen := true)
  }

  /** `handleCloseViewModal`. */
  function CloseView(p: Page): (r: Page)
    ensures !r.viewOpen && r.selected.None?
    ensures r.(selected := p.selected, viewOpen := p.viewOpen) == p
  {
    p.(viewOpen := false, selected := None)
  }

  /**
   * `handleOpenCreateModal`: create mode with the blank template; the selected
   * test, if any, is left as it was.
   */
  function OpenCreate(p: Page, today: string): (r: Page)
    ensures !r.isEditing && r.formOpen
    ensures r.form.patientId == "" && r.form.patientName == "" && r.form.testName == ""
    ensures r.form.status == "Pending" && r.form.requestedBy == "Admin"
    ensures r.form.result.None? && r.form.dateCompleted.None? && r.form.dateRequested == today
    ensures r.(isEditing := p.isEditing, form := p.form, formOpen := p.formOpen) == p
  {
    p.(isEditing := false, form := BlankForm(today), formOpen := true)
  }

  /** `handleCloseCreateModal`: closes the form dialog and forgets the selection. */
  function CloseForm(p: Page): (r: Page)
    ensures !r.formOpen && r.selected.None?
    ensures r.(formOpen := p.formOpen, selected := p.selected) == p
  {
    p.(formOpen := false, selected := None)
  }

  /** `handleEditTest`: edit mode, the form and the selection both hold the clicked test. */
  function EditTest(p: Page, t: LabTest): (r: Page)
    ensures r.isEditing && r.formOpen && r.selected == Some(t)
    ensures WithId(r.form, t.id) == t
    ensures r.(isEditing := p.isEditing, form := p.form, selected := p.selected, formOpen := p.formOpen) == p
  {
    p.(isEditing := true, form := FormOf(t), selected := Some(t), formOpen := true)
  }

  /** A form input change on the page. */
  function ChangeField(p: Page, field: FormField, value: string): (r: Page)
    ensures r.form == SetField(p.form, field, value)
    ensures r.(form := p.form) == p
  {
    p.(form := SetField(p.form, field, value))
  }

  /** The status select of the edit dialog. */
  function ChangeStatus(p: Page, status: string): (r: Page)
    ensures r.form.status == status
    ensures r.form.(status := p.form.status) == p.form && r.(form := p.form) == p
  {
    p.(form := p.form.(status := status))
  }

  /** The record a create-save prepends: the form's fields under a fresh id, with the fixed defaults. */
  function NewTest(f: LabForm, newId: string): (t: LabTest)
    ensures t.id == newId && t.status == "Pending" && t.requestedBy == "Admin"
    ensures t.result.None? && t.dateCompleted.None?
    ensures t.patientId == f.patientId && t.patientName == f.patientName
    ensures t.testName == f.testName && t.dateRequested == f.dateRequested
  {
    LabTest(newId, f.patientId, f.patientName, f.testName, f.dateRequested,
            "Pending", None, None, "Admin")
  }

  /** `test.id === selectedTest?.id ? { ...formTestData, id: test.id } : test`, over the list. */
  function ReplaceById(tests: seq<LabTest>, selected: Option<LabTest>, f: LabForm): (r: seq<LabTest>)
    ensures |r| == |tests|
    ensures forall i :: 0 <= i < |tests| ==>
      r[i] == if selected.Some? && tests[i].id == selected.value.id then WithId(f, tests[i].id) else tests[i]
  {
    seq(|tests|, i requires 0 <= i < |tests| =>
      if selected.Some? && tests[i].id == selected.value.id then WithId(f, tests[i].id) else tests[i])
  }

  /**
   * `handleSaveTest`. `newId` stands for the random id the create branch
   * draws. An empty patient name, test name or patient id rejects the save and
   * leaves the page as it was. Otherwise an edit replaces, in place, every test
   * whose id is the selected test's id (keeping that id), and a create
   * prepends one new test; either way the form dialog closes.
   */
  function Save(p: Page, newId: string): (res: (Page, SaveOutcome))
    ensures res.1 == Rejected <==> !RequiredFilled(p.form)
    ensures res.1 == Rejected ==> res.0 == p
    ensures res.1 == Updated <==> RequiredFilled(p.form) && p.isEditing
    ensures res.1 != Rejected ==> !res.0.formOpen && res.0.selected.None?
    ensures res.1 != Rejected ==> res.0.(tests := p.tests, formOpen := p.formOpen, selected := p.selected) == p
    ensures res.1 == Updated ==> |res.0.tests| == |p.tests|
    ensures res.1 == Updated ==> forall i :: 0 <= i < |p.tests| ==>
      if p.selected.Some? && p.tests[i].id == p.selected.value.id
      then res.0.tests[i] == WithId(p.form, p.tests[i].id)
      else res.0.tests[i] == p.tests[i]
    ensures res.1 == Created ==> |res.0.tests| == |p.tests| + 1 && res.0.tests[1..] == p.tests
    ensures res.1 == Created ==> res.0.tests[0] == NewTest(p.form, newId)
  {
    if !RequiredFilled(p.form) then (p, Rejected)
    else if p.isEditing then (CloseForm(p.(tests := ReplaceById(p.tests, p.selected, p.form))), Updated)
    else (CloseForm(p.(tests := [NewTest(p.form, newId)] + p.tests)), Created)
  }

  /** `labTests.filter(test => test.id !== testId)`. */
  function RemoveById(tests: seq<LabTest>, id: string): (r: seq<LabTest>)
    ensures IsSubseq(r, tests)
    ensures forall i :: 0 <= i < |r| ==> r[i].id != id
    ensures forall i :: 0 <= i < |tests| && tests[i].id != id ==> tests[i] in r
    ensures |r| == CountWhere(tests, IdOtherThan(id))
  {
    Filter(tests, IdOtherThan(id))
  }

  /** The filter callback of `handleDeleteTest`. */
  function IdOtherThan(id: string): LabTest -> bool
  {
    (t: LabTest) => t.id != id
  }

  /**
   * `handleDeleteTest`; `confirmed` is the answer to `window.confirm`. A
   * declined confirmation changes nothing; an accepted one removes every
   * test with that id and keeps the rest in order.
   */
  function Delete(p: Page, id: string, confirmed: bool): (r: Page)
    ensures !confirmed ==> r == p
    ensures r.(tests := p.tests) == p
    ensures confirmed ==> IsSubseq(r.tests, p.tests)
    ensures confirmed ==> forall i :: 0 <= i < |r.tests| ==> r.tests[i].id != id
    ensures confirmed ==> forall i :: 0 <= i < |p.tests| && p.tests[i].id != id ==> p.tests[i] in r.tests
    ensures confirmed ==> |r.tests| == CountWhere(p.tests, IdOtherThan(id))
  {
    if confirmed then p.(tests := RemoveById(p.tests, id)) else p
  }

  // ---------------------------------------------------------------------------
  // Properties relating several handlers

  predicate UniqueIds(tests: seq<LabTest>)
  {
    forall i, j :: 0 <= i < j < |tests| ==> tests[i].id != tests[j].id
  }

  /** Opening a test for edit and saving it untouched leaves the store as it was. */
  lemma EditThenSaveIsNoOp(p: Page, t: LabTest, newId: string)
    requires UniqueIds(p.tests) && t in p.tests
    requires t.patientName != "" && t.testName != "" && t.patientId != ""
    ensures Save(EditTest(p, t), newId).1 == Updated
    ensures Save(EditTest(p, t), newId).0.tests == p.tests
  {
    var q := EditTest(p, t);
    var r := Save(q, newId).0;
    forall i | 0 <= i < |p.tests| ensures r.tests[i] == p.tests[i] {
      if p.tests[i].id == t.id {
        var k :| 0 <= k < |p.tests| && p.tests[k] == t;
        assert k == i;
      }
    }
  }

  /** Deleting a freshly created test (under a fresh id) gives back the store before the create. */
  lemma CreateThenDeleteRestores(p: Page, today: string, newId: string)
    requires RequiredFilled(p.form) && !p.isEditing
    requires forall i :: 0 <= i < |p.tests| ==> p.tests[i].id != newId
    ensures Save(p, newId).1 == Created
    ensures Delete(Save(p, newId).0, newId, true).tests == p.tests
  {
    var r := Save(p, newId).0;
    assert r.tests == [NewTest(p.form, newId)] + p.tests;
    assert Filter(p.tests, IdOtherThan(newId)) == p.tests;
  }

  /** Viewing a test and closing the view from a page with no dialog state gives the page back. */
  lemma ViewThenCloseRestores(p: Page, t: LabTest)
    requires !p.viewOpen && p.selected.None?
    ensures CloseView(ViewTest(p, t)) == p
  {
  }

  /**
   * Opening the create dialog and closing it again keeps the store, the
   * filters and the view dialog; only the form is left holding the blank
   * template, in create mode.
   */
  lemma OpenThenCloseFormKeepsPage(p: Page, today: string)
    requires p.selected.None?
    ensures CloseForm(OpenCreate(p, today)) == p.(isEditing := false, form := BlankForm(today), formOpen := false)
  {
  }

}
