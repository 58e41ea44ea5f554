/**
 * The designer portfolio template: a hero and about text with placeholders
 * for a missing profile, the first six projects with three chips each, and
 * every skill in one ungrouped row.
 */
module DesignerTemplate {
  import opened Wrappers
  import opened Models
  import opened Display

  const NamePlaceholder: string := "Creative Designer"
  const RolePlaceholder: string := "UI/UX Designer & Creative Director"
  const ShortBioPlaceholder: string :=
    "Crafting beautiful, intuitive experiences that delight users and drive business success through thoughtful design and creative innovation."
  const BioPlaceholder: string :=
    "I believe in creating designs that not only look beautiful but also solve real problems. With over 5 years of experience in UI/UX design, I've helped startups and established companies create digital experiences that users love."

  const HeroPlaceholders: PortraitHero :=
    PortraitHero(NamePlaceholder, RolePlaceholder, ShortBioPlaceholder, BioPlaceholder, StockPortrait, "Designer")

  const ProjectLimit: nat := 6
  const ChipLimit: nat := 3

  /** A project card: at most three chips and no "+N" badge; the live button only with a live URL. */
  datatype Card = Card(project: Project, chips: seq<string>, liveButton: bool)

  function RenderCard(p: Project): (r: Card)
    ensures r.project == p
    ensures r.chips <= p.technologies && |r.chips| == Min(|p.technologies|, 3)
    ensures r.liveButton <==> Truthy(p.liveUrl)
  {
    Card(p, Take(p.technologies, ChipLimit), Truthy(p.liveUrl))
  }

  /**
   * The card shows the chips the projects page's other-card row shows, but
   * where that row adds a "+N" badge, technologies past the third are dropped
   * without a trace.
   */
  lemma ExtraChipsVanish(p: Project)
    requires |p.technologies| > 3
    ensures var c := RenderCard(p);
      c.chips == ChipRow(p.technologies, 3).shown && |c.chips| == 3
      && ChipRow(p.technologies, 3).hidden == Some(|p.technologies| - 3)
  {
  }

  datatype View = View(hero: PortraitHero, cards: seq<Card>, skills: seq<Skill>)

  function Render(profile: Option<Profile>, skills: seq<Skill>, projects: seq<Project>): (r: View)
    ensures r.hero == RenderPortraitHero(profile, HeroPlaceholders)
    ensures profile.None? ==>
      r.hero.name == "Creative Designer" && r.hero.alt == "Designer" && r.hero.image == StockPortrait
    ensures |r.cards| == Min(|projects|, 6)
    ensures forall i :: 0 <= i < |r.cards| ==> r.cards[i] == RenderCard(projects[i])
    ensures r.skills == skills
  {
    var shown := Take(projects, ProjectLimit);
    View(RenderPortraitHero(profile, HeroPlaceholders),
         seq(|shown|, i requires 0 <= i < |shown| => RenderCard(shown[i])), skills)
  }
}
