/**
 * The skill editor: the form rules, the proficiency slider, the fixed
 * category list, and the new and edit dialogs.
 */
module AdminSkills {
  import opened Wrappers
  import opened Models
  import opened Forms

  datatype Form = Form(name: string, category: string, proficiency: int, icon: string)

  /** The form's zod schema. */
  predicate Valid(f: Form) {
    MinLen(f.name, 2) && MinLen(f.category, 1) && 1 <= f.proficiency <= 100 && MinLen(f.icon, 1)
  }

  /** The slider's bounds. */
  const SliderMin: int := 1
  const SliderMax: int := 100

  /** The categories the picker offers. */
  const Categories: seq<string> :=
    ["Frontend", "Backend", "Database", "DevOps", "Mobile", "Design", "Tools", "Other"]

  /** The body a submit sends is the form itself. */
  function Payload(f: Form): (r: Skill)
    ensures r.name == f.name && r.category == f.category
    ensures r.proficiency == f.proficiency && r.icon == f.icon
    ensures SaveSkill(r).Some? <==> f.name != "" && f.category != "" && f.icon != "" && 1 <= f.proficiency <= 100
  {
    Skill(f.name, f.category, f.proficiency, f.icon)
  }

  /**
   * Every value the slider can produce is one the form, the schema and the
   * stored model all accept, and no other value is.
   */
  lemma SliderRangeIsSchemaRange(p: int)
    ensures SliderMin <= p <= SliderMax <==> ProficiencyMin <= p <= ProficiencyMax
    ensures SliderMin <= p <= SliderMax <==>
      SaveSkill(Skill("React", "Frontend", p, "react")).Some?
  {
  }

  /** The form is stricter than the schema: it wants two characters of name, the schema one. */
  lemma ValidFormSaves(f: Form)
    requires Valid(f)
    ensures SaveSkill(Payload(f)) == Some(Payload(f))
  {
  }

  lemma SchemaAcceptsOneLetterName(f: Form)
    requires |f.name| == 1 && f.category != "" && f.icon != "" && 1 <= f.proficiency <= 100
    ensures !Valid(f) && SaveSkill(Payload(f)).Some?
  {
  }

  /** `handleNewSkill`: blank text, proficiency halfway. Not submittable until filled in. */
  function NewSkill(): (r: Form)
    ensures r.name == "" && r.category == "" && r.icon == ""
    ensures SliderMin <= r.proficiency <= SliderMax
    ensures !Valid(r)
  {
    Form("", "", 50, "")
  }

  /** Every category on offer satisfies the form's category rule, and they are eight distinct names. */
  lemma CategoriesAreDistinctAndValid()
    ensures |Categories| == 8
    ensures forall i, j :: 0 <= i < j < |Categories| ==> Categories[i] != Categories[j]
    ensures forall i :: 0 <= i < |Categories| ==> MinLen(Categories[i], 1)
  {
  }

  /** `handleEdit`: the dialog holds the stored skill unchanged. */
  function Prefill(s: Skill): (r: Form)
    ensures Payload(r) == s
  {
    Form(s.name, s.category, s.proficiency, s.icon)
  }

  /**
   * The edit dialog of a stored skill sends the skill back unchanged, and it
   * may be submitted exactly when the name passes the form's stricter rule;
   * the schema would accept that body again.
   */
  lemma EditRoundTrip(s: Skill)
    requires SkillAccepted(s)
    ensures Payload(Prefill(s)) == s
    ensures Valid(Prefill(s)) <==> |s.name| >= 2
    ensures Valid(Prefill(s)) ==> SaveSkill(Payload(Prefill(s))) == Some(s)
  {
  }
}
