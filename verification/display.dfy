/**
 * Sequence transforms shared by the public pages and the templates:
 * keeping the elements that pass a test, taking a prefix, showing the first
 * few technology chips with a remainder count, and grouping skills by
 * category in the order the categories first appear.
 */
module Display {
  import opened Wrappers
  import opened Models

  function Min(a: int, b: int): int {
    if a <= b then a else b
  }

  // ---------------------------------------------------------------------
  // filter

  /** `xs.filter(keep)`. */
  function Filter<T>(xs: seq<T>, keep: T -> bool): (r: seq<T>)
    ensures |r| <= |xs|
    ensures forall x :: x in r ==> x in xs && keep(x)
    ensures forall x :: x in xs && keep(x) ==> x in r
    ensures forall i :: 0 <= i < |r| ==> keep(r[i])
  {
    if |xs| == 0 then []
    else (if keep(xs[0]) then [xs[0]] else []) + Filter(xs[1..], keep)
  }

  /** Filtering distributes over concatenation, so it keeps the input order. */
  lemma {:induction false} FilterAppend<T>(a: seq<T>, b: seq<T>, keep: T -> bool)
    ensures Filter(a + b, keep) == Filter(a, keep) + Filter(b, keep)
  {
    if |a| == 0 {
      assert a + b == b;
    } else {
      assert (a + b)[0] == a[0];
      assert (a + b)[1..] == a[1..] + b;
      FilterAppend(a[1..], b, keep);
    }
  }

  /**
   * A filter and its complement together hold every element exactly as often
   * as the input: the two halves form a permutation of it.
   */
  lemma {:induction false} FilterSplitsInput<T>(xs: seq<T>, keep: T -> bool, drop: T -> bool)
    requires forall x :: drop(x) == !keep(x)
    ensures |Filter(xs, keep)| + |Filter(xs, drop)| == |xs|
    ensures multiset(Filter(xs, keep)) + multiset(Filter(xs, drop)) == multiset(xs)
  {
    if |xs| > 0 {
      FilterSplitsInput(xs[1..], keep, drop);
      assert xs == [xs[0]] + xs[1..];
    }
  }

  // ---------------------------------------------------------------------
  // JavaScript truthiness of optional text

  /** An optional text field that is present and non-empty. */
  predicate Truthy(x: Option<string>) {
    x.Some? && x.value != ""
  }

  /** `x || literal`. */
  function OrElse(x: Option<string>, literal: string): (r: string)
    ensures Truthy(x) ==> r == x.value
    ensures !Truthy(x) ==> r == literal
  {
    if Truthy(x) then x.value else literal
  }

  /** `profile?.field || placeholder` for one required text field of a profile that may be missing. */
  function ProfileText(profile: Option<Profile>, get: Profile -> string, placeholder: string): (r: string)
    ensures profile.Some? && get(profile.value) != "" ==> r == get(profile.value)
    ensures profile.None? || get(profile.value) == "" ==> r == placeholder
  {
    if profile.Some? then OrElse(Some(get(profile.value)), placeholder) else placeholder
  }

  /** The stock photo shown when a profile has no image. */
  const StockPortrait: string := "https://images.pexels.com/photos/220453/pexels-photo-220453.jpeg"

  /** The hero of the designer and finance templates: four text fields and the portrait with its alt text. */
  datatype PortraitHero = PortraitHero(name: string, role: string, shortBio: string, bio: string,
                                       image: string, alt: string)

  /**
   * Every field is `profile?.field || placeholder`; the portrait's alt text
   * falls back on its own placeholder but otherwise repeats the name.
   */
  function RenderPortraitHero(profile: Option<Profile>, placeholders: PortraitHero): (r: PortraitHero)
    ensures profile.None? ==> r == placeholders
    ensures profile.Some? && profile.value.name != "" ==> r.name == r.alt == profile.value.name
    ensures profile.Some? && profile.value.name == "" ==> r.name == placeholders.name && r.alt == placeholders.alt
    ensures r.role == (if profile.Some? && profile.value.role != "" then profile.value.role else placeholders.role)
    ensures r.shortBio ==
      (if profile.Some? && profile.value.shortBio != "" then profile.value.shortBio else placeholders.shortBio)
    ensures r.bio == (if profile.Some? && profile.value.bio != "" then profile.value.bio else placeholders.bio)
    ensures r.image ==
      (if profile.Some? && profile.value.profileImage != "" then profile.value.profileImage else placeholders.image)
  {
    PortraitHero(ProfileText(profile, (p: Profile) => p.name, placeholders.name),
                 ProfileText(profile, (p: Profile) => p.role, placeholders.role),
                 ProfileText(profile, (p: Profile) => p.shortBio, placeholders.shortBio),
                 ProfileText(profile, (p: Profile) => p.bio, placeholders.bio),
                 ProfileText(profile, (p: Profile) => p.profileImage, placeholders.image),
                 ProfileText(profile, (p: Profile) => p.name, placeholders.alt))
  }

  // ---------------------------------------------------------------------
  // prefixes and chips

  /** `xs.slice(0, n)`. */
  function Take<T>(xs: seq<T>, n: nat): (r: seq<T>)
    ensures r <= xs
    ensures |r| == Min(|xs|, n)
  {
    if |xs| <= n then xs else xs[..n]
  }

  /** The chips of one card: the ones shown and, when some are hidden, how many. */
  datatype Chips = Chips(shown: seq<string>, hidden: Option<nat>)

  /**
   * `techs.slice(0, limit)` followed by a "+N" badge when `techs.length > limit`.
   */
  function ChipRow(techs: seq<string>, limit: nat): (r: Chips)
    ensures r.shown <= techs && |r.shown| == Min(|techs|, limit)
    ensures r.hidden.Some? <==> |techs| > limit
    ensures |r.shown| + r.hidden.GetOr(0) == |techs|
  {
    Chips(Take(techs, limit), if |techs| > limit then Some(|techs| - limit) else None)
  }

  /** The shown chips and the hidden count always account for every technology. */
  lemma ChipRowAccountsForAll(techs: seq<string>, limit: nat)
    ensures var c := ChipRow(techs, limit);
      c.shown + techs[|c.shown|..] == techs && |techs[|c.shown|..]| == c.hidden.GetOr(0)
  {
  }

  // ---------------------------------------------------------------------
  // grouping skills by category

  datatype Group = Group(category: string, skills: seq<Skill>)

  function Keys(gs: seq<Group>): (r: seq<string>)
    ensures |r| == |gs|
    ensures forall i :: 0 <= i < |gs| ==> r[i] == gs[i].category
  {
    if |gs| == 0 then [] else [gs[0].category] + Keys(gs[1..])
  }

  predicate DistinctKeys(gs: seq<Group>) {
    forall i, j :: 0 <= i < j < |gs| ==> gs[i].category != gs[j].category
  }

  /** The skills of category `c`, in input order: the reference a grouping must agree with. */
  function InCategory(s: seq<Skill>, c: string): seq<Skill> {
    if |s| == 0 then []
    else InCategory(s[..|s| - 1], c) + (if s[|s| - 1].category == c then [s[|s| - 1]] else [])
  }

  lemma {:induction false} InCategoryMembers(s: seq<Skill>, c: string, x: Skill)
    ensures x in InCategory(s, c) <==> x in s && x.category == c
  {
    if |s| > 0 {
      InCategoryMembers(s[..|s| - 1], c, x);
      assert s == s[..|s| - 1] + [s[|s| - 1]];
    }
  }

  /** Total number of skills over all groups. */
  function TotalSize(gs: seq<Group>): nat {
    if |gs| == 0 then 0 else |gs[0].skills| + TotalSize(gs[1..])
  }

  /** One step of the reduce: append to the skill's group, or open a new group at the end. */
  function AddSkill(gs: seq<Group>, x: Skill): (r: seq<Group>)
    ensures x.category in Keys(gs) ==> |r| == |gs|
    ensures x.category !in Keys(gs) ==> |r| == |gs| + 1 && r[|gs|] == Group(x.category, [x])
    ensures forall i :: 0 <= i < |gs| ==> r[i].category == gs[i].category
    ensures TotalSize(r) == TotalSize(gs) + 1
  {
    if |gs| == 0 then [Group(x.category, [x])]
    else if gs[0].category == x.category then
      [Group(gs[0].category, gs[0].skills + [x])] + gs[1..]
    else
      [gs[0]] + AddSkill(gs[1..], x)
  }

  lemma AddSkillKeepsKeysDistinct(gs: seq<Group>, x: Skill)
    requires DistinctKeys(gs)
    ensures DistinctKeys(AddSkill(gs, x)) && x.category in Keys(AddSkill(gs, x))
  {
    var r := AddSkill(gs, x);
    var kr := Keys(r);
    if x.category in Keys(gs) {
      var i :| 0 <= i < |gs| && Keys(gs)[i] == x.category;
      assert kr[i] == x.category;
    } else {
      assert kr[|gs|] == x.category;
      forall i | 0 <= i < |gs|
        ensures gs[i].category != x.category
      {
        assert Keys(gs)[i] == gs[i].category;
      }
    }
  }

  /** With distinct keys, exactly the group of the skill's category grows, by that skill. */
  lemma {:induction false} AddSkillGrowsOneGroup(gs: seq<Group>, x: Skill)
    requires DistinctKeys(gs)
    ensures var r := AddSkill(gs, x);
      forall i :: 0 <= i < |gs| ==>
        r[i].skills == gs[i].skills + (if gs[i].category == x.category then [x] else [])
  {
    if |gs| > 0 && gs[0].category != x.category {
      AddSkillGrowsOneGroup(gs[1..], x);
    }
  }

  lemma InCategorySnoc(s: seq<Skill>, x: Skill, c: string)
    ensures InCategory(s + [x], c) == InCategory(s, c) + (if x.category == c then [x] else [])
  {
    assert (s + [x])[..|s|] == s;
  }

  /** `gs` is a correct grouping of `s`. */
  ghost predicate Grouped(gs: seq<Group>, s: seq<Skill>) {
    && DistinctKeys(gs)
    && (forall i :: 0 <= i < |gs| ==> gs[i].skills == InCategory(s, gs[i].category) && |gs[i].skills| > 0)
    && (forall c :: c !in Keys(gs) ==> InCategory(s, c) == [])
    && TotalSize(gs) == |s|
  }

  lemma AddSkillKeepsGrouping(gs: seq<Group>, s: seq<Skill>, x: Skill)
    requires Grouped(gs, s)
    ensures Grouped(AddSkill(gs, x), s + [x])
  {
    var r := AddSkill(gs, x);
    var t := s + [x];
    AddSkillGrowsOneGroup(gs, x);
    AddSkillKeepsKeysDistinct(gs, x);
    forall i | 0 <= i < |r|
      ensures r[i].skills == InCategory(t, r[i].category) && |r[i].skills| > 0
    {
      InCategorySnoc(s, x, r[i].category);
      if i == |gs| {
        assert x.category !in Keys(gs);
      }
    }
    forall c | c !in Keys(r)
      ensures InCategory(t, c) == []
    {
      InCategorySnoc(s, x, c);
    }
  }

  lemma GroupStep(prev: seq<Group>, s: seq<Skill>)
    requires |s| > 0 && Grouped(prev, s[..|s| - 1])
    ensures Grouped(AddSkill(prev, s[|s| - 1]), s)
  {
    var init, x := s[..|s| - 1], s[|s| - 1];
    assert init + [x] == s;
    AddSkillKeepsGrouping(prev, init, x);
  }

  /**
   * The `skills.reduce` that builds `skillsByCategory`, with categories kept in
   * the order of their first appearance. Each group holds exactly the skills of
   * its category in input order, no group is empty, and no category is missing.
   */
  function GroupByCategory(s: seq<Skill>): (r: seq<Group>)
    ensures Grouped(r, s)
    ensures |r| == 0 <==> |s| == 0
  {
    if |s| == 0 then []
    else
      var prev := GroupByCategory(s[..|s| - 1]);
      GroupStep(prev, s);
      AddSkill(prev, s[|s| - 1])
  }

  /** `skillsByCategory[c]`, or nothing when no group has that key. */
  function GroupOf(gs: seq<Group>, c: string): seq<Skill> {
    if |gs| == 0 then []
    else if gs[0].category == c then gs[0].skills
    else GroupOf(gs[1..], c)
  }

  lemma {:induction false} GroupOfKey(gs: seq<Group>, i: nat)
    requires DistinctKeys(gs) && i < |gs|
    ensures GroupOf(gs, gs[i].category) == gs[i].skills
  {
    if i > 0 {
      GroupOfKey(gs[1..], i - 1);
    }
  }

  lemma {:induction false} GroupOfMissing(gs: seq<Group>, c: string)
    requires c !in Keys(gs)
    ensures GroupOf(gs, c) == []
  {
    if |gs| > 0 {
      GroupOfMissing(gs[1..], c);
    }
  }

  /**
   * Looking a category up in the grouping gives exactly the skills of that
   * category in input order, so every skill lands in one group: its own.
   */
  lemma GroupLookup(s: seq<Skill>, c: string)
    ensures GroupOf(GroupByCategory(s), c) == InCategory(s, c)
    ensures forall x :: x in GroupOf(GroupByCategory(s), c) <==> x in s && x.category == c
  {
    var r := GroupByCategory(s);
    if c in Keys(r) {
      var i :| 0 <= i < |r| && Keys(r)[i] == c;
      GroupOfKey(r, i);
    } else {
      GroupOfMissing(r, c);
    }
    forall x
      ensures x in InCategory(s, c) <==> x in s && x.category == c
    {
      InCategoryMembers(s, c, x);
    }
  }
}
