/**
 * The template picker: the fixed catalogue of four templates, how the
 * current choice is loaded, what a submit sends, and the button label.
 */
module TemplateSelection {
  import opened Wrappers
  import opened Models
  import UserProfileStore

  datatype Scheme = Scheme(primary: string, secondary: string, accent: string)

  datatype Template = Template(
    id: string,
    name: string,
    role: string,
    sections: seq<string>,
    colors: Scheme,
    features: seq<string>)

  const Registry: seq<Template> := [
    Template("developer", "Developer Portfolio", "Software Developer",
             ["Hero", "Skills", "Projects", "Experience", "Education", "Blog", "Contact"],
             Scheme("#3B82F6", "#1E293B", "#10B981"),
             ["GitHub Integration", "Code Snippets", "Tech Stack Display", "Project Demos"]),
    Template("designer", "Designer Portfolio", "UI/UX Designer",
             ["Hero", "About", "Case Studies", "Gallery", "Tools", "Testimonials", "Contact"],
             Scheme("#8B5CF6", "#F3F4F6", "#F59E0B"),
             ["Case Study Layouts", "Image Galleries", "Design Process", "Tool Showcase"]),
    Template("finance", "Finance Professional", "Accountant / Finance",
             ["Summary", "Certifications", "Services", "Experience", "Industries", "Achievements", "Contact"],
             Scheme("#1E40AF", "#F8FAFC", "#059669"),
             ["Certification Display", "Service Listings", "Industry Experience", "Professional Summary"]),
    Template("professional", "General Professional", "Marketing / Manager / Consultant",
             ["Overview", "Expertise", "Case Studies", "History", "Testimonials", "Contact"],
             Scheme("#DC2626", "#F9FAFB", "#7C3AED"),
             ["Case Studies", "Testimonials", "Achievement Highlights", "Professional Timeline"])
  ]

  function Ids(ts: seq<Template>): (r: seq<string>)
    ensures |r| == |ts| && forall i :: 0 <= i < |ts| ==> r[i] == ts[i].id
  {
    seq(|ts|, i requires 0 <= i < |ts| => ts[i].id)
  }

  /** Four templates with pairwise distinct ids, the default among them. */
  lemma RegistryShape()
    ensures Ids(Registry) == ["developer", "designer", "finance", "professional"]
    ensures forall i, j :: 0 <= i < j < |Registry| ==> Registry[i].id != Registry[j].id
    ensures DefaultTemplate in Ids(Registry)
  {
  }

  /** The developer card shows the colours a newly created profile is given. */
  lemma DeveloperSchemeIsServerDefault()
    ensures var c := Registry[0].colors;
      Registry[0].id == DefaultTemplate
      && ColorScheme(Some(c.primary), Some(c.secondary), Some(c.accent))
         == UserProfileStore.DefaultRecord(UserProfileStore.Session("u", None)).customizations.colorScheme
  {
  }

  // ---------------------------------------------------------------------
  // page state

  /** The ids the page holds; '' until the profile has been loaded. */
  datatype PageState = PageState(current: string, selected: string)

  const Initial: PageState := PageState("", "")

  /**
   * The profile fetch: on a successful answer both ids become its template,
   * or "developer" when that is missing or empty; on a failure nothing changes.
   */
  function Load(s: PageState, answer: Option<Option<string>>): (r: PageState)
    ensures answer.None? ==> r == s
    ensures answer.Some? ==> r.current == r.selected
    ensures answer.Some? && (answer.value.None? || answer.value.value == "") ==> r.selected == "developer"
    ensures answer.Some? && answer.value.Some? && answer.value.value != "" ==> r.selected == answer.value.value
  {
    match answer
    case None => s
    case Some(t) =>
      var id := if t.Some? && t.value != "" then t.value else DefaultTemplate;
      PageState(id, id)
  }

  /** The page's reading of a GET /api/user-profile outcome. */
  function AnswerOf(resp: UserProfileStore.Response): (r: Option<Option<string>>)
    ensures resp.Ok? <==> r.Some?
    ensures resp.Ok? ==> r.value == Some(resp.profile.selectedTemplate)
  {
    match resp
    case Ok(p) => Some(Some(p.selectedTemplate))
    case _ => None
  }

  function Pick(s: PageState, id: string): (r: PageState)
    ensures r.current == s.current && r.selected == id
  {
    s.(selected := id)
  }

  /** The button reads "Continue with Current" exactly when the selection is unchanged. */
  function ButtonLabel(s: PageState): (r: string)
    ensures r == "Continue with Current" <==> s.selected == s.current
    ensures r != "Continue with Current" ==> r == "Select Template"
  {
    if s.selected == s.current then "Continue with Current" else "Select Template"
  }

  /** Right after a successful load the button offers to continue. */
  lemma LoadedPageContinues(s: PageState, t: Option<string>)
    ensures ButtonLabel(Load(s, Some(t))) == "Continue with Current"
  {
  }

  // ---------------------------------------------------------------------
  // submit

  /**
   * `handleTemplateSelect`: nothing is sent without a selection; otherwise the
   * body is the selected id and the username derived from the login email.
   */
  function Submit(s: PageState, email: Option<string>): (r: Option<UserProfileStore.Patch>)
    ensures r.None? <==> s.selected == ""
    ensures r.Some? ==> (r.value.selectedTemplate == Some(s.selected)
      && r.value.username == Some(UserProfileStore.DefaultUsername(email))
      && r.value.userId.None? && r.value.customizations.None? && r.value.seoSettings.None?)
  {
    if s.selected == "" then None
    else Some(UserProfileStore.Patch(None, Some(s.selected), Some(UserProfileStore.DefaultUsername(email)), None, None))
  }

  /** Before the profile has loaded there is nothing to submit. */
  lemma InitialSubmitSendsNothing(email: Option<string>)
    ensures Submit(Initial, email).None?
  {
  }

  /**
   * A saved selection is what the next visit loads: after the POST succeeds,
   * GET returns the record and the page shows the chosen id as current.
   */
  lemma SavedSelectionReloads(st: UserProfileStore.Store, s: UserProfileStore.Session, page: PageState)
    requires page.selected != ""
    requires UserProfileStore.Post(st, Some(s), Submit(page, s.email).value, true).response.Ok?
    ensures var st1 := UserProfileStore.Post(st, Some(s), Submit(page, s.email).value, true).store;
      var g := UserProfileStore.Get(st1, Some(s), true);
      g.response.Ok? && g.store == st1
      && Load(Initial, AnswerOf(g.response)) == PageState(page.selected, page.selected)
  {
    var o := UserProfileStore.Post(st, Some(s), Submit(page, s.email).value, true);
    assert s.userId in o.store && o.store[s.userId] == o.response.profile;
  }
}
