/**
 * The public experience and education timeline. Dates are shown through the
 * date formatter, passed in as `format`.
 */
module ExperiencePage {
  import opened Wrappers
  import opened Models
  import opened Display

  datatype EndLabel = Present | Until(text: string)

  /**
   * The end of a date range: Present while current, else the formatted end
   * date, else Present. A stored null and an absent end date are both falsy.
   */
  function EndOf(current: bool, endDate: DateField, format: string -> string): (r: EndLabel)
    ensures r.Until? <==> !current && endDate.At?
    ensures r.Until? ==> r.text == format(endDate.iso)
  {
    if current then Present
    else if endDate.At? then Until(format(endDate.iso))
    else Present
  }

  /** A current entry reads Present whatever end date the store kept. */
  lemma CurrentIgnoresEndDate(a: DateField, b: DateField, format: string -> string)
    ensures EndOf(true, a, format) == EndOf(true, b, format) == Present
  {
  }

  /** A finished entry saved with the end date blank or left out also reads Present. */
  lemma MissingEndReadsPresent(e: ExperienceDoc, format: string -> string)
    requires SaveExperience(e).Some?
    requires e.endDate.None? || e.endDate.value == ""
    ensures EndOf(SaveExperience(e).value.current, SaveExperience(e).value.endDate, format) == Present
  {
  }

  datatype ExperienceCard = ExperienceCard(start: string, end: EndLabel, location: Option<string>, chips: seq<string>)

  /** An experience entry: the location line and the chip row appear only when there is something to show. */
  function RenderExperience(e: Experience, format: string -> string): (r: ExperienceCard)
    ensures r.start == format(e.startDate)
    ensures r.end == EndOf(e.current, e.endDate, format)
    ensures r.location.Some? <==> Truthy(e.location)
    ensures r.location.Some? ==> r.location == e.location
    ensures |r.chips| > 0 <==> |e.technologies| > 0
    ensures r.chips == e.technologies
  {
    ExperienceCard(format(e.startDate), EndOf(e.current, e.endDate, format),
                   if Truthy(e.location) then e.location else None, e.technologies)
  }

  datatype EducationCard = EducationCard(start: string, end: EndLabel, gpa: Option<string>, description: Option<string>)

  /** An education entry: the GPA and description lines appear only when the field is non-empty. */
  function RenderEducation(e: Education, format: string -> string): (r: EducationCard)
    ensures r.start == format(e.startDate)
    ensures r.end == EndOf(e.current, e.endDate, format)
    ensures r.gpa.Some? <==> Truthy(e.gpa)
    ensures r.description.Some? <==> Truthy(e.description)
    ensures r.gpa.Some? ==> r.gpa == e.gpa
    ensures r.description.Some? ==> r.description == e.description
  {
    EducationCard(format(e.startDate), EndOf(e.current, e.endDate, format),
                  if Truthy(e.gpa) then e.gpa else None,
                  if Truthy(e.description) then e.description else None)
  }

  /** Each tab: its cards, or the empty message when there is nothing to list. */
  datatype Tab<T> = Cards(cards: seq<T>) | EmptyMessage

  function ExperienceTab(es: seq<Experience>, format: string -> string): (r: Tab<ExperienceCard>)
    ensures r.EmptyMessage? <==> |es| == 0
    ensures r.Cards? ==> |r.cards| == |es| && forall i :: 0 <= i < |es| ==> r.cards[i] == RenderExperience(es[i], format)
  {
    if |es| == 0 then EmptyMessage
    else Cards(seq(|es|, i requires 0 <= i < |es| => RenderExperience(es[i], format)))
  }

  function EducationTab(es: seq<Education>, format: string -> string): (r: Tab<EducationCard>)
    ensures r.EmptyMessage? <==> |es| == 0
    ensures r.Cards? ==> |r.cards| == |es| && forall i :: 0 <= i < |es| ==> r.cards[i] == RenderEducation(es[i], format)
  {
    if |es| == 0 then EmptyMessage
    else Cards(seq(|es|, i requires 0 <= i < |es| => RenderEducation(es[i], format)))
  }
}
