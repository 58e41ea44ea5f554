/**
 * The public skills page: one section per category, in order of first
 * appearance, each headed by a category icon.
 */
module SkillsPage {
  import opened Models
  import opened Display
  import Text

  datatype CategoryIcon = GlobeIcon | DatabaseIcon | SmartphoneIcon | SettingsIcon | PaletteIcon | CodeIcon

  /** `getCategoryIcon`: a switch on the lower-cased category. */
  function IconFor(category: string): (r: CategoryIcon)
    ensures r == GlobeIcon <==> Text.ToLower(category) == "frontend"
    ensures r == DatabaseIcon <==> Text.ToLower(category) == "backend"
    ensures r == SmartphoneIcon <==> Text.ToLower(category) == "mobile"
    ensures r == SettingsIcon <==> Text.ToLower(category) == "devops"
    ensures r == PaletteIcon <==> Text.ToLower(category) == "design"
  {
    match Text.ToLower(category)
    case "frontend" => GlobeIcon
    case "backend" => DatabaseIcon
    case "mobile" => SmartphoneIcon
    case "devops" => SettingsIcon
    case "design" => PaletteIcon
    case _ => CodeIcon
  }

  /** The icon does not depend on letter case. */
  lemma IconIgnoresCase(category: string)
    ensures IconFor(Text.ToLower(category)) == IconFor(category)
  {
    Text.ToLowerIdempotent(category);
  }

  datatype Section = Section(category: string, icon: CategoryIcon, skills: seq<Skill>)

  datatype View = View(sections: seq<Section>, showEmpty: bool)

  function Sections(gs: seq<Group>): (r: seq<Section>)
    ensures |r| == |gs|
    ensures forall i :: 0 <= i < |gs| ==>
      r[i] == Section(gs[i].category, IconFor(gs[i].category), gs[i].skills)
  {
    seq(|gs|, i requires 0 <= i < |gs| => Section(gs[i].category, IconFor(gs[i].category), gs[i].skills))
  }

  /**
   * The page for the fetched skills: a section per group of the grouping,
   * and the empty message exactly when there are no sections.
   */
  function Render(skills: seq<Skill>): (r: View)
    ensures r.showEmpty <==> |r.sections| == 0
    ensures r.showEmpty <==> |skills| == 0
    ensures forall i :: 0 <= i < |r.sections| ==> |r.sections[i].skills| > 0
    ensures forall i, j :: 0 <= i < j < |r.sections| ==> r.sections[i].category != r.sections[j].category
  {
    var gs := GroupByCategory(skills);
    View(Sections(gs), |gs| == 0)
  }

  /**
   * The section of a category holds exactly the skills of that category in
   * fetched order, so every skill appears once, under its own category.
   */
  lemma SectionHoldsItsCategory(skills: seq<Skill>, i: nat)
    requires i < |Render(skills).sections|
    ensures var sec := Render(skills).sections[i];
      sec.skills == InCategory(skills, sec.category)
      && forall x :: x in sec.skills <==> x in skills && x.category == sec.category
  {
    var gs := GroupByCategory(skills);
    GroupOfKey(gs, i);
    GroupLookup(skills, gs[i].category);
  }

  /** Section sizes add up to the number of skills. */
  lemma SectionSizesSum(skills: seq<Skill>)
    ensures TotalSize(GroupByCategory(skills)) == |skills|
    ensures |Render(skills).sections| <= |skills|
  {
    var gs := GroupByCategory(skills);
    NonEmptyGroupsBound(gs);
  }

  lemma {:induction false} NonEmptyGroupsBound(gs: seq<Group>)
    requires forall i :: 0 <= i < |gs| ==> |gs[i].skills| > 0
    ensures |gs| <= TotalSize(gs)
  {
    if |gs| > 0 {
      NonEmptyGroupsBound(gs[1..]);
    }
  }
}
