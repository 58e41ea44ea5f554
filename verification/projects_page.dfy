/**
 * The public projects page: featured projects first, then the others, each
 * card with a status badge and a row of technology chips.
 */
module ProjectsPage {
  import opened Wrappers
  import opened Models
  import opened Display

  datatype Color = Green | Yellow | Blue
  datatype StatusIcon = CheckIcon | ClockIcon | EyeIcon

  datatype Badge = Badge(color: Color, icon: StatusIcon)

  /** `getStatusColor` and `getStatusIcon`, which switch on the same cases. */
  function StatusBadge(status: string): (r: Badge)
    ensures r.color == Green <==> status == "completed"
    ensures r.color == Yellow <==> status == "in-progress"
    ensures r.color == Blue <==> status != "completed" && status != "in-progress"
  {
    match status
    case "completed" => Badge(Green, CheckIcon)
    case "in-progress" => Badge(Yellow, ClockIcon)
    case _ => Badge(Blue, EyeIcon)
  }

  /** Colour and icon always agree, and a planned project looks like any unknown status. */
  lemma BadgeColorMatchesIcon(status: string)
    ensures var b := StatusBadge(status);
      (b.color == Green <==> b.icon == CheckIcon) && (b.color == Yellow <==> b.icon == ClockIcon)
      && (b.color == Blue <==> b.icon == EyeIcon)
    ensures StatusBadge("planned") == StatusBadge(status) <==> status !in ["completed", "in-progress"]
  {
  }

  predicate IsFeatured(p: Project) {
    p.featured
  }

  predicate NotFeatured(p: Project) {
    !p.featured
  }

  datatype Card = Card(project: Project, badge: Badge, chips: Chips)

  /** How many chips each kind of card shows before the "+N" badge. */
  const FeaturedChips: nat := 4
  const OtherChips: nat := 3

  function Cards(ps: seq<Project>, limit: nat): (r: seq<Card>)
    ensures |r| == |ps|
    ensures forall i :: 0 <= i < |ps| ==>
      r[i].project == ps[i] && r[i].badge == StatusBadge(ps[i].status) && r[i].chips == ChipRow(ps[i].technologies, limit)
  {
    seq(|ps|, i requires 0 <= i < |ps| => Card(ps[i], StatusBadge(ps[i].status), ChipRow(ps[i].technologies, limit)))
  }

  datatype View = View(
    featured: seq<Card>,
    other: seq<Card>,
    showFeatured: bool,
    showOther: bool,
    showEmpty: bool)

  /** The page for the fetched projects. */
  function Render(ps: seq<Project>): (r: View)
    ensures r.showFeatured <==> |r.featured| > 0
    ensures r.showOther <==> |r.other| > 0
    ensures r.showEmpty <==> |ps| == 0
    ensures forall i :: 0 <= i < |r.featured| ==>
      r.featured[i].project.featured && |r.featured[i].chips.shown| <= FeaturedChips
    ensures forall i :: 0 <= i < |r.other| ==>
      !r.other[i].project.featured && |r.other[i].chips.shown| <= OtherChips
    ensures forall i :: 0 <= i < |r.featured| ==>
      r.featured[i].chips == ChipRow(r.featured[i].project.technologies, FeaturedChips)
      && r.featured[i].badge == StatusBadge(r.featured[i].project.status)
    ensures forall i :: 0 <= i < |r.other| ==>
      r.other[i].chips == ChipRow(r.other[i].project.technologies, OtherChips)
      && r.other[i].badge == StatusBadge(r.other[i].project.status)
  {
    var f := Filter(ps, IsFeatured);
    var o := Filter(ps, NotFeatured);
    View(Cards(f, FeaturedChips), Cards(o, OtherChips), |f| > 0, |o| > 0, |ps| == 0)
  }

  function Projects(cs: seq<Card>): (r: seq<Project>)
    ensures |r| == |cs| && forall i :: 0 <= i < |cs| ==> r[i] == cs[i].project
  {
    seq(|cs|, i requires 0 <= i < |cs| => cs[i].project)
  }

  /** Each section's cards hold the filtered projects, in fetched order. */
  lemma SectionsAreFilters(ps: seq<Project>)
    ensures Projects(Render(ps).featured) == Filter(ps, IsFeatured)
    ensures Projects(Render(ps).other) == Filter(ps, NotFeatured)
  {
    var v := Render(ps);
    assert Projects(v.featured) == Filter(ps, IsFeatured);
    assert Projects(v.other) == Filter(ps, NotFeatured);
  }

  /**
   * The two sections together show every project exactly once: the shown
   * projects are a permutation of the fetched ones, each section in fetched order.
   */
  lemma SectionsPartitionProjects(ps: seq<Project>)
    ensures var v := Render(ps);
      && Projects(v.featured) == Filter(ps, IsFeatured)
      && Projects(v.other) == Filter(ps, NotFeatured)
      && |v.featured| + |v.other| == |ps|
      && multiset(Projects(v.featured)) + multiset(Projects(v.other)) == multiset(ps)
  {
    FilterSplitsInput(ps, IsFeatured, NotFeatured);
    SectionsAreFilters(ps);
  }

  /** The empty message shows exactly when neither section does. */
  lemma EmptyMessageIffNoSection(ps: seq<Project>)
    ensures var v := Render(ps);
      v.showEmpty <==> !v.showFeatured && !v.showOther
  {
    FilterSplitsInput(ps, IsFeatured, NotFeatured);
  }

  /** Adding a project to the end of the list adds its card to the end of its own section only. */
  lemma AppendedProjectGoesLast(ps: seq<Project>, p: Project)
    ensures p.featured ==> (Projects(Render(ps + [p]).featured) == Projects(Render(ps).featured) + [p]
      && Projects(Render(ps + [p]).other) == Projects(Render(ps).other))
    ensures !p.featured ==> (Projects(Render(ps + [p]).other) == Projects(Render(ps).other) + [p]
      && Projects(Render(ps + [p]).featured) == Projects(Render(ps).featured))
  {
    FilterAppend(ps, [p], IsFeatured);
    FilterAppend(ps, [p], NotFeatured);
    assert [p][1..] == [];
    assert Filter([p], IsFeatured) == (if p.featured then [p] else []);
    assert Filter([p], NotFeatured) == (if p.featured then [] else [p]);
    SectionsAreFilters(ps);
    SectionsAreFilters(ps + [p]);
  }
}
