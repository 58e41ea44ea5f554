/**
 * The seven document shapes of the store and what their schemas enforce when
 * a document is saved: required fields, bounds, the status enum and defaults.
 *
 * Dates are kept as the ISO text the browser sends. A `required` string or date
 * is rejected when it is missing or empty. Nothing here relates `current` to
 * `endDate`: the schemas accept both.
 */
module Models {
  import opened Wrappers

  /** A required schema path: present and non-empty. */
  predicate Given(s: string) {
    s != ""
  }

  /**
   * An optional date path as stored. A body that leaves the key out leaves it
   * absent; a submitted "" is cast to null and the key is kept. The two read
   * differently afterwards: `new Date(null)` is the epoch, `new Date(undefined)` is NaN.
   */
  datatype DateField = Absent | Null | At(iso: string)

  /** Casting a submitted optional date (`None` is a key left out of the body). */
  function CastDate(d: Option<string>): (r: DateField)
    ensures r.Absent? <==> d.None?
    ensures r.Null? <==> d == Some("")
    ensures r.At? <==> d.Some? && d.value != ""
    ensures r.At? ==> r.iso == d.value && r.iso != ""
  {
    match d
    case None => Absent
    case Some(s) => if s == "" then Null else At(s)
  }

  // ---------------------------------------------------------------------
  // Profile

  datatype Profile = Profile(
    name: string,
    role: string,
    bio: string,
    shortBio: string,
    location: string,
    profileImage: string,
    resumeUrl: Option<string>)

  // ---------------------------------------------------------------------
  // Skill

  const ProficiencyMin: int := 1
  const ProficiencyMax: int := 100

  datatype Skill = Skill(name: string, category: string, proficiency: int, icon: string)

  /** Saving a skill succeeds exactly for these documents. */
  predicate SkillAccepted(s: Skill) {
    Given(s.name) && Given(s.category) && Given(s.icon)
    && ProficiencyMin <= s.proficiency <= ProficiencyMax
  }

  /** Saving a skill: the four required paths and the proficiency bounds; nothing is defaulted. */
  function SaveSkill(s: Skill): (r: Option<Skill>)
    ensures r.Some? <==> s.name != "" && s.category != "" && s.icon != "" && 1 <= s.proficiency <= 100
    ensures r.Some? ==> r.value == s
  {
    if SkillAccepted(s) then Some(s) else None
  }

  // ---------------------------------------------------------------------
  // Project

  const StatusNames: seq<string> := ["completed", "in-progress", "planned"]
  const DefaultStatus: string := "completed"

  datatype Project = Project(
    title: string,
    description: string,
    detailedContent: string,
    image: string,
    images: seq<string>,
    technologies: seq<string>,
    githubUrl: Option<string>,
    liveUrl: Option<string>,
    featured: bool,
    status: string)

  /** A project document as submitted: `featured` and `status` may be left out. */
  datatype ProjectDoc = ProjectDoc(
    title: string,
    description: string,
    detailedContent: string,
    image: string,
    technologies: seq<string>,
    githubUrl: Option<string>,
    liveUrl: Option<string>,
    featured: Option<bool>,
    status: Option<string>)

  /** Saving a project: required text, the status enum, then defaults. */
  function SaveProject(d: ProjectDoc): (r: Option<Project>)
    ensures r.Some? <==>
      Given(d.title) && Given(d.description) && Given(d.detailedContent) && Given(d.image)
      && (d.status.None? || d.status.value in StatusNames)
    ensures r.Some? ==> r.value.status in StatusNames
    ensures r.Some? ==> r.value.featured == d.featured.GetOr(false)
    ensures r.Some? && d.status.None? ==> r.value.status == "completed"
    ensures r.Some? && d.status.Some? ==> r.value.status == d.status.value
    ensures r.Some? ==> (r.value.description == d.description && r.value.detailedContent == d.detailedContent
      && r.value.image == d.image)
    ensures r.Some? ==> r.value.technologies == d.technologies && r.value.images == []
    ensures r.Some? ==> r.value.title == d.title && r.value.githubUrl == d.githubUrl && r.value.liveUrl == d.liveUrl
  {
    var status := d.status.GetOr(DefaultStatus);
    if Given(d.title) && Given(d.description) && Given(d.detailedContent) && Given(d.image)
       && status in StatusNames
    then
      Some(Project(d.title, d.description, d.detailedContent, d.image, [], d.technologies,
                   d.githubUrl, d.liveUrl, d.featured.GetOr(false), status))
    else None
  }

  // ---------------------------------------------------------------------
  // Experience

  datatype Experience = Experience(
    company: string,
    role: string,
    startDate: string,
    endDate: DateField,
    current: bool,
    description: string,
    location: Option<string>,
    technologies: seq<string>)

  /** An experience document as submitted: `current` may be left out. */
  datatype ExperienceDoc = ExperienceDoc(
    company: string,
    role: string,
    startDate: string,
    endDate: Option<string>,
    current: Option<bool>,
    description: string,
    location: Option<string>,
    technologies: seq<string>)

  function SaveExperience(d: ExperienceDoc): (r: Option<Experience>)
    ensures r.Some? <==> Given(d.company) && Given(d.role) && Given(d.startDate) && Given(d.description)
    ensures r.Some? ==> r.value.current == d.current.GetOr(false)
    ensures r.Some? ==> r.value.endDate == CastDate(d.endDate)
    ensures r.Some? ==> (r.value.company == d.company && r.value.role == d.role
      && r.value.startDate == d.startDate && r.value.description == d.description
      && r.value.location == d.location && r.value.technologies == d.technologies)
  {
    if Given(d.company) && Given(d.role) && Given(d.startDate) && Given(d.description) then
      Some(Experience(d.company, d.role, d.startDate, CastDate(d.endDate), d.current.GetOr(false),
                      d.description, d.location, d.technologies))
    else None
  }

  /**
   * `findByIdAndUpdate(id, body)` on an experience: each field the body carries
   * replaces the stored one, every field it leaves out is kept, and no
   * validator runs.
   */
  function UpdateExperience(e: Experience, d: ExperienceDoc): (r: Experience)
    ensures r.company == d.company && r.role == d.role && r.startDate == d.startDate
    ensures r.description == d.description && r.technologies == d.technologies
    ensures d.endDate.Some? ==> r.endDate == CastDate(d.endDate)
    ensures d.endDate.None? ==> r.endDate == e.endDate
    ensures r.current == d.current.GetOr(e.current)
    ensures d.location.Some? ==> r.location == d.location
    ensures d.location.None? ==> r.location == e.location
  {
    Experience(d.company, d.role, d.startDate,
               if d.endDate.Some? then CastDate(d.endDate) else e.endDate,
               d.current.GetOr(e.current), d.description,
               if d.location.Some? then d.location else e.location,
               d.technologies)
  }

  // ---------------------------------------------------------------------
  // Education

  datatype Education = Education(
    school: string,
    degree: string,
    field: string,
    startDate: string,
    endDate: DateField,
    current: bool,
    description: Option<string>,
    gpa: Option<string>)

  /** An education document as submitted: `current` may be left out. */
  datatype EducationDoc = EducationDoc(
    school: string,
    degree: string,
    field: string,
    startDate: string,
    endDate: Option<string>,
    current: Option<bool>,
    description: Option<string>,
    gpa: Option<string>)

  function SaveEducation(d: EducationDoc): (r: Option<Education>)
    ensures r.Some? <==> Given(d.school) && Given(d.degree) && Given(d.field) && Given(d.startDate)
    ensures r.Some? ==> r.value.current == d.current.GetOr(false)
    ensures r.Some? ==> r.value.endDate == CastDate(d.endDate)
    ensures r.Some? ==> r.value.gpa == d.gpa && r.value.description == d.description
    ensures r.Some? ==> (r.value.school == d.school && r.value.degree == d.degree
      && r.value.field == d.field && r.value.startDate == d.startDate)
  {
    if Given(d.school) && Given(d.degree) && Given(d.field) && Given(d.startDate) then
      Some(Education(d.school, d.degree, d.field, d.startDate, CastDate(d.endDate),
                     d.current.GetOr(false), d.description, d.gpa))
    else None
  }

  /** `findByIdAndUpdate(id, body)` on an education entry: replace what is sent, keep the rest, validate nothing. */
  function UpdateEducation(e: Education, d: EducationDoc): (r: Education)
    ensures r.school == d.school && r.degree == d.degree && r.field == d.field && r.startDate == d.startDate
    ensures d.endDate.Some? ==> r.endDate == CastDate(d.endDate)
    ensures d.endDate.None? ==> r.endDate == e.endDate
    ensures r.current == d.current.GetOr(e.current)
    ensures d.description.Some? ==> r.description == d.description
    ensures d.description.None? ==> r.description == e.description
    ensures d.gpa.Some? ==> r.gpa == d.gpa
    ensures d.gpa.None? ==> r.gpa == e.gpa
  {
    Education(d.school, d.degree, d.field, d.startDate,
              if d.endDate.Some? then CastDate(d.endDate) else e.endDate,
              d.current.GetOr(e.current),
              if d.description.Some? then d.description else e.description,
              if d.gpa.Some? then d.gpa else e.gpa)
  }

  // ---------------------------------------------------------------------
  // SocialLink

  datatype SocialLink = SocialLink(platform: string, url: string, icon: string, order: int)

  /** A social-link document as submitted: `order` may be left out. */
  datatype SocialLinkDoc = SocialLinkDoc(platform: string, url: string, icon: string, order: Option<int>)

  function SaveSocialLink(d: SocialLinkDoc): (r: Option<SocialLink>)
    ensures r.Some? <==> Given(d.platform) && Given(d.url) && Given(d.icon)
    ensures r.Some? ==> r.value.order == d.order.GetOr(0)
    ensures r.Some? ==> r.value.platform == d.platform && r.value.url == d.url && r.value.icon == d.icon
  {
    if Given(d.platform) && Given(d.url) && Given(d.icon) then
      Some(SocialLink(d.platform, d.url, d.icon, d.order.GetOr(0)))
    else None
  }

  /** `findByIdAndUpdate(id, body)` on a social link: replace what is sent, keep the rest, validate nothing. */
  function UpdateSocialLink(l: SocialLink, d: SocialLinkDoc): (r: SocialLink)
    ensures r.platform == d.platform && r.url == d.url && r.icon == d.icon
    ensures r.order == d.order.GetOr(l.order)
  {
    SocialLink(d.platform, d.url, d.icon, d.order.GetOr(l.order))
  }

  // ---------------------------------------------------------------------
  // UserProfile

  datatype ColorScheme = ColorScheme(primary: Option<string>, secondary: Option<string>, accent: Option<string>)
  datatype Layout = Layout(showBlog: bool, showTestimonials: bool, showCertifications: bool)
  datatype Customizations = Customizations(colorScheme: ColorScheme, layout: Layout)
  datatype SeoSettings = SeoSettings(title: Option<string>, description: Option<string>, keywords: seq<string>)

  /**
   * One tenant's template choice. `username` is optional at the storage level
   * because an upsert does not run the `required` check; the unique index still
   * treats two missing usernames as equal.
   */
  datatype UserProfile = UserProfile(
    userId: string,
    selectedTemplate: string,
    username: Option<string>,
    customizations: Customizations,
    seoSettings: SeoSettings)

  const DefaultTemplate: string := "developer"
  const DefaultLayout: Layout := Layout(false, false, false)
  const NoColors: ColorScheme := ColorScheme(None, None, None)

  /** The schema defaults applied when an upsert inserts a new record. */
  function InsertDefaults(userId: string): (r: UserProfile)
    ensures r.userId == userId && r.selectedTemplate == "developer"
    ensures r.customizations.layout == Layout(false, false, false)
    ensures r.customizations.colorScheme == ColorScheme(None, None, None)
    ensures r.seoSettings.keywords == [] && r.username.None?
  {
    UserProfile(userId, DefaultTemplate, None, Customizations(NoColors, DefaultLayout),
                SeoSettings(None, None, []))
  }

  /** The schemas do not tie `endDate` to `current`: any current job with an end date saves with both. */
  lemma SchemaAcceptsCurrentWithEndDate(d: ExperienceDoc)
    requires Given(d.company) && Given(d.role) && Given(d.startDate) && Given(d.description)
    requires d.current == Some(true) && d.endDate.Some? && d.endDate.value != ""
    ensures var r := SaveExperience(d);
      r.Some? && r.value.current && r.value.endDate == At(d.endDate.value)
  {
  }

  lemma EducationSchemaAcceptsCurrentWithEndDate(d: EducationDoc)
    requires Given(d.school) && Given(d.degree) && Given(d.field) && Given(d.startDate)
    requires d.current == Some(true) && d.endDate.Some? && d.endDate.value != ""
    ensures var r := SaveEducation(d);
      r.Some? && r.value.current && r.value.endDate == At(d.endDate.value)
  {
  }
}
