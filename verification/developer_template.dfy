/**
 * The developer portfolio template: a hero with placeholders for a missing
 * profile, skills grouped by category, and the first four projects.
 */
module DeveloperTemplate {
  import opened Wrappers
  import opened Models
  import opened Display
  import Text
  import SkillsPage

  const LocationPlaceholder: string := "Available for work"
  const NamePlaceholder: string := "Developer"
  const RolePlaceholder: string := "Full Stack Developer"
  const ShortBioPlaceholder: string :=
    "Passionate about creating amazing digital experiences with modern technologies."

  datatype Hero = Hero(location: string, name: string, role: string, shortBio: string, resumeButton: bool,
                       image: string, alt: string)

  function RenderHero(profile: Option<Profile>): (r: Hero)
    ensures profile.None? ==>
      r == Hero("Available for work", "Developer", "Full Stack Developer", ShortBioPlaceholder, false,
                StockPortrait, "Profile")
    ensures profile.Some? && profile.value.name != "" ==> r.name == r.alt == profile.value.name
    ensures profile.Some? && profile.value.location != "" ==> r.location == profile.value.location
    ensures profile.Some? && profile.value.role != "" ==> r.role == profile.value.role
    ensures profile.Some? && profile.value.shortBio != "" ==> r.shortBio == profile.value.shortBio
    ensures profile.Some? && profile.value.profileImage != "" ==> r.image == profile.value.profileImage
    ensures profile.Some? && profile.value.name == "" ==> r.name == NamePlaceholder && r.alt == "Profile"
    ensures profile.Some? && profile.value.location == "" ==> r.location == LocationPlaceholder
    ensures profile.Some? && profile.value.role == "" ==> r.role == RolePlaceholder
    ensures profile.Some? && profile.value.shortBio == "" ==> r.shortBio == ShortBioPlaceholder
    ensures profile.Some? && profile.value.profileImage == "" ==> r.image == StockPortrait
    ensures r.resumeButton <==> profile.Some? && Truthy(profile.value.resumeUrl)
  {
    Hero(ProfileText(profile, (p: Profile) => p.location, LocationPlaceholder),
         ProfileText(profile, (p: Profile) => p.name, NamePlaceholder),
         ProfileText(profile, (p: Profile) => p.role, RolePlaceholder),
         ProfileText(profile, (p: Profile) => p.shortBio, ShortBioPlaceholder),
         profile.Some? && Truthy(profile.value.resumeUrl),
         ProfileText(profile, (p: Profile) => p.profileImage, StockPortrait),
         ProfileText(profile, (p: Profile) => p.name, "Profile"))
  }

  /**
   * An update may blank a required field (the update path does not validate),
   * and the hero then shows the placeholder rather than an empty line.
   */
  lemma BlankedNameShowsPlaceholder(p: Profile)
    ensures RenderHero(Some(p.(name := ""))).name == "Developer"
  {
  }

  // ---------------------------------------------------------------------
  // skills

  datatype CategoryIcon = GlobeIcon | DatabaseIcon | SmartphoneIcon | CodeIcon

  /** This template's `getCategoryIcon`: only frontend, backend and mobile have their own icon. */
  function IconFor(category: string): (r: CategoryIcon)
    ensures r == GlobeIcon <==> Text.ToLower(category) == "frontend"
    ensures r == DatabaseIcon <==> Text.ToLower(category) == "backend"
    ensures r == SmartphoneIcon <==> Text.ToLower(category) == "mobile"
  {
    match Text.ToLower(category)
    case "frontend" => GlobeIcon
    case "backend" => DatabaseIcon
    case "mobile" => SmartphoneIcon
    case _ => CodeIcon
  }

  /** The same icon the skills page picks, where this template has one. */
  function AsPageIcon(i: CategoryIcon): SkillsPage.CategoryIcon {
    match i
    case GlobeIcon => SkillsPage.GlobeIcon
    case DatabaseIcon => SkillsPage.DatabaseIcon
    case SmartphoneIcon => SkillsPage.SmartphoneIcon
    case CodeIcon => SkillsPage.CodeIcon
  }

  /** The template and the skills page disagree exactly on devops and design. */
  lemma IconsDifferOnlyOnDevopsAndDesign(category: string)
    ensures AsPageIcon(IconFor(category)) != SkillsPage.IconFor(category) <==>
      Text.ToLower(category) in {"devops", "design"}
  {
  }

  // ---------------------------------------------------------------------
  // projects

  const ProjectLimit: nat := 4
  const ChipLimit: nat := 4

  datatype Card = Card(project: Project, chips: Chips, githubButton: bool, liveButton: bool)

  function RenderCard(p: Project): (r: Card)
    ensures r.project == p && r.chips == ChipRow(p.technologies, ChipLimit)
    ensures r.githubButton <==> Truthy(p.githubUrl)
    ensures r.liveButton <==> Truthy(p.liveUrl)
  {
    Card(p, ChipRow(p.technologies, ChipLimit), Truthy(p.githubUrl), Truthy(p.liveUrl))
  }

  datatype View = View(hero: Hero, groups: seq<Group>, cards: seq<Card>)

  function Render(profile: Option<Profile>, skills: seq<Skill>, projects: seq<Project>): (r: View)
    ensures r.hero == RenderHero(profile)
    ensures Grouped(r.groups, skills)
    ensures |r.cards| == Min(|projects|, 4)
    ensures forall i :: 0 <= i < |r.cards| ==> r.cards[i] == RenderCard(projects[i])
  {
    var shown := Take(projects, ProjectLimit);
    View(RenderHero(profile), GroupByCategory(skills),
         seq(|shown|, i requires 0 <= i < |shown| => RenderCard(shown[i])))
  }

  /** The cards are the first four projects in fetched order; a fifth never shows. */
  lemma FirstFourProjects(profile: Option<Profile>, skills: seq<Skill>, projects: seq<Project>)
    ensures var v := Render(profile, skills, projects);
      forall i :: 0 <= i < |v.cards| ==> v.cards[i].project == projects[i]
    ensures |projects| > 4 ==> |Render(profile, skills, projects).cards| == 4
  {
  }

  /** The grouping is the one the skills page shows: same sections, same order. */
  lemma SameGroupsAsSkillsPage(profile: Option<Profile>, skills: seq<Skill>, projects: seq<Project>)
    ensures var v := Render(profile, skills, projects);
      var page := SkillsPage.Render(skills);
      |v.groups| == |page.sections|
      && forall i :: 0 <= i < |v.groups| ==>
        v.groups[i].category == page.sections[i].category && v.groups[i].skills == page.sections[i].skills
  {
  }
}
