/**
 * The experience editor: which forms may be submitted, the body a submit
 * sends, the values an edit prefills, and where the save goes.
 */
module AdminExperience {
  import opened Wrappers
  import opened Models
  import opened Forms
  import Text

  /** The dialog's fields; `endDate`, `location` and `technologies` may be left unset. */
  datatype Form = Form(
    company: string,
    role: string,
    startDate: string,
    endDate: Option<string>,
    current: bool,
    description: string,
    location: Option<string>,
    technologies: Option<string>)

  /** The form's zod schema. */
  predicate Valid(f: Form) {
    MinLen(f.company, 2) && MinLen(f.role, 2) && MinLen(f.startDate, 1) && MinLen(f.description, 10)
  }

  /** The JSON body of a submit: technologies parsed, and no end date for a current job. */
  function Payload(f: Form): (r: ExperienceDoc)
    ensures f.current ==> r.endDate.None?
    ensures !f.current ==> r.endDate == f.endDate
    ensures r.current == Some(f.current)
    ensures r.company == f.company && r.role == f.role && r.startDate == f.startDate
    ensures r.description == f.description && r.location == f.location
    ensures r.technologies == TechList(f.technologies)
    ensures (f.technologies.None? || f.technologies.value == "") ==> r.technologies == []
    ensures f.technologies.Some? && f.technologies.value != "" ==>
      && |r.technologies| == Text.Count(f.technologies.value, ',') + 1
      && forall i :: 0 <= i < |r.technologies| ==>
           r.technologies[i] == Text.Trim(Text.Split(f.technologies.value, ',')[i])
  {
    ExperienceDoc(f.company, f.role, f.startDate, if f.current then None else f.endDate,
                  Some(f.current), f.description, f.location, TechList(f.technologies))
  }

  /**
   * `onSubmit`: a new experience is POSTed and created through the schema; an
   * edit is PUT and applied with `findByIdAndUpdate`, which runs no validator
   * and keeps every field the body leaves out. So an edit always stores, and
   * an edit that ticks "current" keeps the end date already stored.
   */
  function Submit(f: Form, editing: Option<Experience>): (r: Option<Experience>)
    ensures editing.None? ==>
      (r.Some? <==> Given(f.company) && Given(f.role) && Given(f.startDate) && Given(f.description))
    ensures editing.Some? ==> r.Some?
    ensures r.Some? ==> (r.value.current == f.current && r.value.company == f.company
      && r.value.role == f.role && r.value.startDate == f.startDate && r.value.description == f.description)
    ensures r.Some? ==> r.value.technologies == TechList(f.technologies)
    ensures r.Some? && f.current && editing.None? ==> r.value.endDate == Absent
    ensures r.Some? && f.current && editing.Some? ==> r.value.endDate == editing.value.endDate
    ensures r.Some? && !f.current && f.endDate.Some? ==> r.value.endDate == CastDate(f.endDate)
    ensures r.Some? && !f.current && f.endDate.None? && editing.Some? ==> r.value.endDate == editing.value.endDate
    ensures r.Some? && f.location.Some? ==> r.value.location == f.location
  {
    match editing
    case None => SaveExperience(Payload(f))
    case Some(e) => Some(UpdateExperience(e, Payload(f)))
  }

  /**
   * Creating: a form that passes the client rules always saves, and a current
   * job is stored without an end date. The schema alone would keep one: the
   * rule lives only in this form.
   */
  lemma ValidFormSaves(f: Form)
    requires Valid(f)
    ensures Submit(f, None).Some?
    ensures f.current ==> Submit(f, None).value.endDate == Absent
    ensures f.current ==> Submit(f.(endDate := Some("2021-01-01")), None).value.endDate == Absent
  {
  }

  /** A body sent around the form, straight to the API, may keep both. */
  lemma ApiKeepsCurrentWithEndDate(f: Form)
    requires Valid(f) && f.current
    ensures var d := Payload(f).(endDate := Some("2021-01-01"));
      SaveExperience(d).Some? && SaveExperience(d).value.current
      && SaveExperience(d).value.endDate == At("2021-01-01")
  {
  }

  /**
   * Editing a past role into the current one: the update leaves the end date
   * out, so the stored one stays, and the record is current with an end date.
   */
  lemma EditToCurrentKeepsEndDate(f: Form, e: Experience)
    requires f.current && e.endDate.At?
    ensures var r := Submit(f, Some(e));
      r.Some? && r.value.current && r.value.endDate == e.endDate && r.value.endDate.At?
  {
  }

  /** `handleEdit`: the dialog as it opens for a stored experience. */
  function Prefill(e: Experience): (r: Form)
    ensures r.startDate == DatePart(e.startDate)
    ensures e.endDate.At? ==> r.endDate == Some(DatePart(e.endDate.iso))
    ensures !e.endDate.At? ==> r.endDate == Some("")
    ensures r.location == Some(OrEmpty(e.location))
    ensures r.company == e.company && r.role == e.role && r.description == e.description
    ensures r.current == e.current
    ensures Editable(e.technologies) ==> TechList(r.technologies) == e.technologies
  {
    var techs := Text.JoinList(e.technologies);
    assert Editable(e.technologies) ==> TechList(Some(techs)) == e.technologies by {
      if Editable(e.technologies) { TechListRoundTrip(e.technologies); }
    }
    Form(e.company, e.role, DatePart(e.startDate),
         Some(if e.endDate.At? then DatePart(e.endDate.iso) else ""),
         e.current, e.description, Some(OrEmpty(e.location)), Some(techs))
  }

  /** A stored record whose start date and technologies the edit dialog can reproduce. */
  predicate Reproducible(e: Experience) {
    DatePart(e.startDate) != "" && Editable(e.technologies)
  }

  /**
   * Opening a stored experience and saving it unchanged keeps the record,
   * except that dates lose their time part, a missing location becomes "",
   * and a past role without a usable end date gets a null one.
   */
  lemma EditRoundTrip(e: Experience)
    requires Reproducible(e)
    ensures Submit(Prefill(e), Some(e)) == Some(e.(
      startDate := DatePart(e.startDate),
      endDate :=
        if e.current then e.endDate
        else if e.endDate.At? && DatePart(e.endDate.iso) != "" then At(DatePart(e.endDate.iso))
        else Null,
      location := Some(OrEmpty(e.location))))
  {
  }
}
