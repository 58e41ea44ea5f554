/**
 * The project editor: which forms may be submitted, the body a submit sends,
 * the fresh-form defaults, the values an edit prefills, and where the save goes.
 * URL validity is the zod check, passed in as `isUrl`.
 */
module AdminProjects {
  import opened Wrappers
  import opened Models
  import opened Forms
  import Text

  datatype Form = Form(
    title: string,
    description: string,
    detailedContent: string,
    image: string,
    technologies: string,
    githubUrl: Option<string>,
    liveUrl: Option<string>,
    featured: bool,
    status: string)

  /** `z.string().url().optional().or(z.literal(''))`. */
  predicate OptionalUrl(u: Option<string>, isUrl: string -> bool) {
    u.None? || u.value == "" || isUrl(u.value)
  }

  /** The form's zod schema. */
  predicate Valid(f: Form, isUrl: string -> bool) {
    && MinLen(f.title, 2) && MinLen(f.description, 10) && MinLen(f.detailedContent, 20)
    && isUrl(f.image)
    && MinLen(f.technologies, 1)
    && OptionalUrl(f.githubUrl, isUrl) && OptionalUrl(f.liveUrl, isUrl)
    && f.status in StatusNames
  }

  /** `useForm`'s default values. */
  const FormFeatured: bool := false
  const FormStatus: string := "completed"

  /** The form's defaults are the schema's: leaving them out saves the same project. */
  lemma FormDefaultsMatchSchema(d: ProjectDoc)
    ensures SaveProject(d.(featured := Some(FormFeatured), status := Some(FormStatus)))
         == SaveProject(d.(featured := None, status := None))
  {
  }

  /** The JSON body of a submit: the technologies text is always split, so there is at least one entry. */
  function Payload(f: Form): (r: ProjectDoc)
    ensures |r.technologies| == Text.Count(f.technologies, ',') + 1 >= 1
    ensures forall i :: 0 <= i < |r.technologies| ==>
      Text.CleanItem(r.technologies[i]) && r.technologies[i] == Text.Trim(Text.Split(f.technologies, ',')[i])
    ensures r.title == f.title && r.description == f.description
    ensures r.detailedContent == f.detailedContent && r.image == f.image
    ensures r.githubUrl == f.githubUrl && r.liveUrl == f.liveUrl
    ensures r.featured == Some(f.featured) && r.status == Some(f.status)
  {
    ProjectDoc(f.title, f.description, f.detailedContent, f.image, Text.ParseList(f.technologies),
               f.githubUrl, f.liveUrl, Some(f.featured), Some(f.status))
  }

  /** A form that passes the client rules always saves, under the status it chose. */
  lemma ValidFormSaves(f: Form, isUrl: string -> bool)
    requires !isUrl("")
    requires Valid(f, isUrl)
    ensures SaveProject(Payload(f)).Some?
    ensures SaveProject(Payload(f)).value.status == f.status
    ensures SaveProject(Payload(f)).value.featured == f.featured
  {
  }

  /** `handleEdit`: the dialog as it opens for a stored project. */
  function Prefill(p: Project): (r: Form)
    ensures r.githubUrl == Some(OrEmpty(p.githubUrl)) && r.liveUrl == Some(OrEmpty(p.liveUrl))
    ensures r.title == p.title && r.description == p.description
    ensures r.detailedContent == p.detailedContent && r.image == p.image
    ensures r.featured == p.featured && r.status == p.status
    ensures |p.technologies| >= 1 && Editable(p.technologies) ==>
      Text.ParseList(r.technologies) == p.technologies
  {
    var techs := Text.JoinList(p.technologies);
    assert |p.technologies| >= 1 && Editable(p.technologies) ==>
      Text.ParseList(techs) == p.technologies by {
      if |p.technologies| >= 1 && Editable(p.technologies) {
        Text.ParseJoinList(p.technologies);
      }
    }
    Form(p.title, p.description, p.detailedContent, p.image, techs,
         Some(OrEmpty(p.githubUrl)), Some(OrEmpty(p.liveUrl)), p.featured, p.status)
  }

  /**
   * Opening a stored project and saving it unchanged sends the project back,
   * with a missing link sent as "".
   */
  lemma EditRoundTrip(p: Project)
    requires |p.technologies| >= 1 && Editable(p.technologies)
    ensures Payload(Prefill(p)) == ProjectDoc(
      p.title, p.description, p.detailedContent, p.image, p.technologies,
      Some(OrEmpty(p.githubUrl)), Some(OrEmpty(p.liveUrl)), Some(p.featured), Some(p.status))
  {
  }
}
