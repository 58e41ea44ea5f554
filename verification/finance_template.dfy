/**
 * The finance portfolio template: a hero and summary with placeholders for a
 * missing profile, fixed services, certifications and industries, and an
 * experience list whose badge shows the years of each position. The calendar
 * year of a date is taken from `yearOf`, and the local year of the epoch from
 * `epochYear`, both passed in.
 */
module FinanceTemplate {
  import opened Wrappers
  import opened Models
  import opened Display
  import ExperiencePage
  import AdminExperience

  const NamePlaceholder: string := "Financial Expert"
  const RolePlaceholder: string := "Certified Public Accountant & Financial Advisor"
  const ShortBioPlaceholder: string :=
    "Providing comprehensive financial services and strategic guidance to help individuals and businesses achieve their financial goals with confidence and clarity."
  const BioPlaceholder: string :=
    "With over 15 years of experience in accounting and financial management, I provide comprehensive financial services to help clients navigate complex financial landscapes. My expertise spans tax planning, financial analysis, and strategic business consulting."

  datatype Service = Service(title: string, description: string)

  const Services: seq<Service> := [
    Service("Tax Planning & Preparation", "Comprehensive tax strategies to minimize liability and maximize savings"),
    Service("Financial Analysis", "In-depth financial analysis and reporting for informed decision making"),
    Service("Risk Management", "Identify and mitigate financial risks to protect your assets"),
    Service("Audit & Compliance", "Ensure regulatory compliance and prepare for audits")
  ]

  const Certifications: seq<string> := [
    "Certified Public Accountant (CPA)",
    "Chartered Financial Analyst (CFA)",
    "Certified Management Accountant (CMA)",
    "QuickBooks ProAdvisor"
  ]

  const Industries: seq<string> :=
    ["Healthcare", "Technology", "Manufacturing", "Real Estate", "Non-Profit", "Retail"]

  const HeroPlaceholders: PortraitHero :=
    PortraitHero(NamePlaceholder, RolePlaceholder, ShortBioPlaceholder, BioPlaceholder, StockPortrait, "Financial Professional")

  // ---------------------------------------------------------------------
  // the year badge

  /** What the badge shows after the dash. `NotANumber` is JavaScript's NaN rendered as text. */
  datatype YearText = Year(year: int) | PresentText | NotANumber

  /**
   * The end of the badge as written: Present while current, otherwise the year
   * of `new Date(endDate)`. A stored null gives the epoch, whose calendar year
   * in the viewer's time zone is `epochYear` (1970, or 1969 west of UTC); an
   * absent end date gives an invalid date, whose year is NaN.
   */
  function YearEndAsWritten(current: bool, endDate: DateField, yearOf: string -> int, epochYear: int): (r: YearText)
    ensures r == PresentText <==> current
    ensures r == NotANumber <==> !current && endDate.Absent?
    ensures !current && endDate.Null? ==> r == Year(epochYear)
    ensures !current && endDate.At? ==> r == Year(yearOf(endDate.iso))
  {
    if current then PresentText
    else match endDate
      case At(iso) => Year(yearOf(iso))
      case Null => Year(epochYear)
      case Absent => NotANumber
  }

  /**
   * The as-written badge and the public timeline disagree on whether a
   * position has ended exactly for a past position with no end date.
   */
  lemma BadgeDisagreesWithTimeline(current: bool, endDate: DateField, yearOf: string -> int, epochYear: int,
                                   format: string -> string)
    ensures (YearEndAsWritten(current, endDate, yearOf, epochYear) == PresentText
             <==> ExperiencePage.EndOf(current, endDate, format) == ExperiencePage.Present)
            <==> current || endDate.At?
  {
  }

  /**
   * A past position entered through the admin form with the end date left
   * blank passes every rule and is stored with a null end date: the timeline
   * reads Present, while the badge reads the epoch year.
   */
  lemma PastPositionWithBlankEndShowsEpochYear(f: AdminExperience.Form, yearOf: string -> int, epochYear: int,
                                               format: string -> string)
    requires AdminExperience.Valid(f) && !f.current && f.endDate == Some("")
    ensures var saved := SaveExperience(AdminExperience.Payload(f));
      && saved.Some? && saved.value.endDate == Null
      && YearEndAsWritten(saved.value.current, saved.value.endDate, yearOf, epochYear) == Year(epochYear)
      && ExperiencePage.EndOf(saved.value.current, saved.value.endDate, format) == ExperiencePage.Present
  {
  }

  /** A past position whose body left the end date out entirely reads NaN. */
  lemma AbsentEndShowsNaN(d: ExperienceDoc, yearOf: string -> int, epochYear: int)
    requires SaveExperience(d).Some? && d.endDate.None? && d.current != Some(true)
    ensures var saved := SaveExperience(d).value;
      YearEndAsWritten(saved.current, saved.endDate, yearOf, epochYear) == NotANumber
  {
  }

  /** The badge end with the public timeline's fallback: no end date reads Present. */
  function YearEnd(current: bool, endDate: DateField, yearOf: string -> int): (r: YearText)
    ensures r != NotANumber
    ensures r.Year? <==> !current && endDate.At?
    ensures r.Year? ==> r.year == yearOf(endDate.iso)
  {
    if !current && endDate.At? then Year(yearOf(endDate.iso)) else PresentText
  }

  /**
   * The corrected badge names an end exactly when the experience page does,
   * and agrees with the original wherever the original shows a real end.
   */
  lemma YearEndAgreesWithTimeline(current: bool, endDate: DateField, yearOf: string -> int, epochYear: int,
                                  format: string -> string)
    ensures YearEnd(current, endDate, yearOf) == PresentText <==>
      ExperiencePage.EndOf(current, endDate, format) == ExperiencePage.Present
    ensures current || endDate.At? ==>
      YearEnd(current, endDate, yearOf) == YearEndAsWritten(current, endDate, yearOf, epochYear)
  {
  }

  // ---------------------------------------------------------------------
  // experience cards and the page

  datatype Card = Card(start: int, end: YearText, location: Option<string>, chips: Option<seq<string>>)

  function RenderCard(e: Experience, yearOf: string -> int, epochYear: int): (r: Card)
    ensures r.start == yearOf(e.startDate)
    ensures r.end == YearEndAsWritten(e.current, e.endDate, yearOf, epochYear)
    ensures r.location.Some? <==> Truthy(e.location)
    ensures r.chips.Some? <==> |e.technologies| > 0
    ensures r.chips.Some? ==> r.chips.value == e.technologies
  {
    Card(yearOf(e.startDate), YearEndAsWritten(e.current, e.endDate, yearOf, epochYear),
         if Truthy(e.location) then e.location else None,
         if |e.technologies| > 0 then Some(e.technologies) else None)
  }

  datatype View = View(
    hero: PortraitHero,
    services: seq<Service>,
    certifications: seq<string>,
    industries: seq<string>,
    cards: seq<Card>)

  /**
   * The page. `userProfile` is accepted but never read: no layout flag or
   * colour of the tenant's record changes what is shown.
   */
  function Render(userProfile: Option<UserProfile>, profile: Option<Profile>, experiences: seq<Experience>,
                  yearOf: string -> int, epochYear: int): (r: View)
    ensures r.hero == RenderPortraitHero(profile, HeroPlaceholders)
    ensures profile.None? ==>
      r.hero.name == "Financial Expert" && r.hero.alt == "Financial Professional" && r.hero.image == StockPortrait
    ensures |r.services| == 4 && |r.certifications| == 4 && |r.industries| == 6
    ensures |r.cards| == |experiences|
    ensures forall i :: 0 <= i < |experiences| ==> r.cards[i] == RenderCard(experiences[i], yearOf, epochYear)
    ensures forall i :: 0 <= i < |experiences| ==> (r.cards[i].end == PresentText <==> experiences[i].current)
  {
    View(RenderPortraitHero(profile, HeroPlaceholders), Services, Certifications, Industries,
         seq(|experiences|, i requires 0 <= i < |experiences| => RenderCard(experiences[i], yearOf, epochYear)))
  }

  /** Two tenants with different template records see the same finance page. */
  lemma IgnoresUserProfile(u1: Option<UserProfile>, u2: Option<UserProfile>, profile: Option<Profile>,
                           experiences: seq<Experience>, yearOf: string -> int, epochYear: int)
    ensures Render(u1, profile, experiences, yearOf, epochYear) == Render(u2, profile, experiences, yearOf, epochYear)
  {
  }
}
