/**
 * The education editor: which forms may be submitted, the body a submit
 * sends, the values an edit prefills, and where the save goes.
 */
module AdminEducation {
  import opened Wrappers
  import opened Models
  import opened Forms

  /** The dialog's fields; `endDate`, `description` and `gpa` may be left unset. */
  datatype Form = Form(
    school: string,
    degree: string,
    field: string,
    startDate: string,
    endDate: Option<string>,
    current: bool,
    description: Option<string>,
    gpa: Option<string>)

  /** The form's zod schema; description and gpa are free text. */
  predicate Valid(f: Form) {
    MinLen(f.school, 2) && MinLen(f.degree, 2) && MinLen(f.field, 2) && MinLen(f.startDate, 1)
  }

  /** The JSON body of a submit: the form as is, with no end date while studying. */
  function Payload(f: Form): (r: EducationDoc)
    ensures f.current ==> r.endDate.None?
    ensures !f.current ==> r.endDate == f.endDate
    ensures r.current == Some(f.current)
    ensures r.school == f.school && r.degree == f.degree && r.field == f.field
    ensures r.startDate == f.startDate && r.description == f.description && r.gpa == f.gpa
  {
    EducationDoc(f.school, f.degree, f.field, f.startDate, if f.current then None else f.endDate,
                 Some(f.current), f.description, f.gpa)
  }

  /**
   * `onSubmit`: a new entry is POSTed and created through the schema; an edit
   * is PUT and applied with `findByIdAndUpdate`, which runs no validator and
   * keeps every field the body leaves out.
   */
  function Submit(f: Form, editing: Option<Education>): (r: Option<Education>)
    ensures editing.None? ==>
      (r.Some? <==> Given(f.school) && Given(f.degree) && Given(f.field) && Given(f.startDate))
    ensures editing.Some? ==> r.Some?
    ensures r.Some? ==> (r.value.current == f.current && r.value.school == f.school
      && r.value.degree == f.degree && r.value.field == f.field && r.value.startDate == f.startDate)
    ensures r.Some? && f.current && editing.None? ==> r.value.endDate == Absent
    ensures r.Some? && f.current && editing.Some? ==> r.value.endDate == editing.value.endDate
    ensures r.Some? && !f.current && f.endDate.Some? ==> r.value.endDate == CastDate(f.endDate)
    ensures r.Some? && !f.current && f.endDate.None? && editing.Some? ==> r.value.endDate == editing.value.endDate
    ensures r.Some? && f.gpa.Some? ==> r.value.gpa == f.gpa
    ensures r.Some? && f.description.Some? ==> r.value.description == f.description
  {
    match editing
    case None => SaveEducation(Payload(f))
    case Some(e) => Some(UpdateEducation(e, Payload(f)))
  }

  /** Creating: a form that passes the client rules always saves; an ongoing course is stored without an end date. */
  lemma ValidFormSaves(f: Form)
    requires Valid(f)
    ensures Submit(f, None).Some?
    ensures f.current ==> Submit(f, None).value.endDate == Absent
    ensures Submit(f, None).value.gpa == f.gpa
  {
  }

  /** Editing a finished course into an ongoing one keeps its stored end date. */
  lemma EditToCurrentKeepsEndDate(f: Form, e: Education)
    requires f.current && e.endDate.At?
    ensures var r := Submit(f, Some(e));
      r.Some? && r.value.current && r.value.endDate == e.endDate && r.value.endDate.At?
  {
  }

  /** `handleEdit`: the dialog as it opens for a stored education entry. */
  function Prefill(e: Education): (r: Form)
    ensures r.startDate == DatePart(e.startDate)
    ensures e.endDate.At? ==> r.endDate == Some(DatePart(e.endDate.iso))
    ensures !e.endDate.At? ==> r.endDate == Some("")
    ensures r.description == Some(OrEmpty(e.description)) && r.gpa == Some(OrEmpty(e.gpa))
    ensures r.school == e.school && r.degree == e.degree && r.field == e.field
    ensures r.current == e.current
  {
    Form(e.school, e.degree, e.field, DatePart(e.startDate),
         Some(if e.endDate.At? then DatePart(e.endDate.iso) else ""),
         e.current, Some(OrEmpty(e.description)), Some(OrEmpty(e.gpa)))
  }

  /**
   * Opening a stored entry and saving it unchanged keeps the entry, except
   * that dates lose their time part, a missing description or gpa becomes "",
   * and a finished course without a usable end date gets a null one.
   */
  lemma EditRoundTrip(e: Education)
    requires DatePart(e.startDate) != ""
    ensures Submit(Prefill(e), Some(e)) == Some(e.(
      startDate := DatePart(e.startDate),
      endDate :=
        if e.current then e.endDate
        else if e.endDate.At? && DatePart(e.endDate.iso) != "" then At(DatePart(e.endDate.iso))
        else Null,
      description := Some(OrEmpty(e.description)),
      gpa := Some(OrEmpty(e.gpa))))
  {
  }
}
