/**
 * The social-link editor: the form rules, the platform table that fills in
 * the icon, and the icon shown for a stored link. URL validity is the zod
 * check, passed in as `isUrl`.
 */
module AdminSocialLinks {
  import opened Wrappers
  import opened Models
  import opened Forms
  import Text

  datatype Form = Form(platform: string, url: string, icon: string, order: int)

  /** The form's zod schema. */
  predicate Valid(f: Form, isUrl: string -> bool) {
    MinLen(f.platform, 2) && isUrl(f.url) && MinLen(f.icon, 1) && f.order >= 0
  }

  /** `useForm`'s default order. */
  const FormOrder: int := 0

  /** The form's default order is the schema's. */
  lemma FormOrderMatchesSchema(d: SocialLinkDoc)
    requires SaveSocialLink(d).Some?
    ensures SaveSocialLink(d.(order := None)).value.order == FormOrder
  {
  }

  /** The JSON body of a submit is the form itself, so the order is always sent. */
  function Payload(f: Form): (r: SocialLinkDoc)
    ensures r.platform == f.platform && r.url == f.url && r.icon == f.icon
    ensures r.order == Some(f.order)
    ensures SaveSocialLink(r).Some? <==> Given(f.platform) && Given(f.url) && Given(f.icon)
  {
    SocialLinkDoc(f.platform, f.url, f.icon, Some(f.order))
  }

  /** A form that passes the client rules always saves, unchanged. */
  lemma ValidFormSaves(f: Form, isUrl: string -> bool)
    requires !isUrl("")
    requires Valid(f, isUrl)
    ensures SaveSocialLink(Payload(f)) == Some(SocialLink(f.platform, f.url, f.icon, f.order))
  {
  }

  /**
   * `onSubmit`: a new link is POSTed and created through the schema; an edit
   * is PUT and applied with `findByIdAndUpdate`, which validates nothing.
   */
  function Submit(f: Form, editing: Option<SocialLink>): (r: Option<SocialLink>)
    ensures editing.None? ==> (r.Some? <==> Given(f.platform) && Given(f.url) && Given(f.icon))
    ensures editing.Some? ==> r.Some?
    ensures r.Some? ==> r.value == SocialLink(f.platform, f.url, f.icon, f.order)
  {
    match editing
    case None => SaveSocialLink(Payload(f))
    case Some(l) => Some(UpdateSocialLink(l, Payload(f)))
  }

  // ---------------------------------------------------------------------
  // the platform picker

  datatype Platform = Platform(name: string, icon: string)

  const Platforms: seq<Platform> := [
    Platform("GitHub", "github"),
    Platform("LinkedIn", "linkedin"),
    Platform("Email", "mail"),
    Platform("Twitter", "twitter"),
    Platform("Instagram", "instagram"),
    Platform("Website", "globe"),
    Platform("Other", "link")
  ]

  /** No two rows of the table share a name. */
  lemma PlatformNamesDistinct()
    ensures forall i, j :: 0 <= i < j < |Platforms| ==> Platforms[i].name != Platforms[j].name
  {
  }

  /** `platforms.find(p => p.name === value)`. */
  function Find(table: seq<Platform>, value: string): (r: Option<Platform>)
    ensures r.Some? <==> exists i :: 0 <= i < |table| && table[i].name == value
    ensures r.Some? ==> r.value in table && r.value.name == value
    ensures r.Some? ==> exists i :: (0 <= i < |table| && table[i] == r.value
      && forall j :: 0 <= j < i ==> table[j].name != value)
  {
    if |table| == 0 then None
    else if table[0].name == value then Some(table[0])
    else
      var r := Find(table[1..], value);
      assert forall i :: 1 <= i < |table| ==> table[i] == table[1..][i - 1];
      assert r.Some? ==> exists i :: (0 <= i < |table| && table[i] == r.value
        && forall j :: 0 <= j < i ==> table[j].name != value) by {
        if r.Some? {
          var k :| 0 <= k < |table[1..]| && table[1..][k] == r.value
            && forall j :: 0 <= j < k ==> table[1..][j].name != value;
          assert table[k + 1] == r.value;
          assert forall j :: 0 <= j < k + 1 ==> table[j].name != value by {
            forall j | 0 <= j < k + 1
              ensures table[j].name != value
            {
              if j > 0 { assert table[j] == table[1..][j - 1]; }
            }
          }
        }
      }
      r
  }

  /** Choosing `value`: the platform is set, and the icon too when the table knows that name. */
  function ChoosePlatform(f: Form, value: string): (r: Form)
    ensures r.platform == value && r.url == f.url && r.order == f.order
    ensures forall i :: 0 <= i < |Platforms| && Platforms[i].name == value ==> r.icon == Platforms[i].icon
    ensures (forall i :: 0 <= i < |Platforms| ==> Platforms[i].name != value) ==> r.icon == f.icon
  {
    match Find(Platforms, value)
    case Some(p) =>
      assert forall i :: 0 <= i < |Platforms| && Platforms[i].name == value ==> Platforms[i] == p by {
        PlatformNamesDistinct();
      }
      f.(platform := value, icon := p.icon)
    case None => f.(platform := value)
  }

  /** Any platform picked from the table leaves the platform and icon fields valid. */
  lemma PickedPlatformIsValid(f: Form, i: nat, isUrl: string -> bool)
    requires i < |Platforms| && isUrl(f.url) && f.order >= 0
    ensures Valid(ChoosePlatform(f, Platforms[i].name), isUrl)
  {
  }

  // ---------------------------------------------------------------------
  // the icon of a stored link

  datatype Icon = GitHubIcon | LinkedInIcon | MailIcon | ExternalLinkIcon

  /** `getIcon`: a switch on the lower-cased icon name. */
  function GetIcon(name: string): (r: Icon)
    ensures r == GitHubIcon <==> Text.ToLower(name) == "github"
    ensures r == LinkedInIcon <==> Text.ToLower(name) == "linkedin"
    ensures r == MailIcon <==> Text.ToLower(name) in {"mail", "email"}
  {
    match Text.ToLower(name)
    case "github" => GitHubIcon
    case "linkedin" => LinkedInIcon
    case "mail" => MailIcon
    case "email" => MailIcon
    case _ => ExternalLinkIcon
  }

  /** The icon does not depend on letter case. */
  lemma GetIconIgnoresCase(name: string)
    ensures GetIcon(Text.ToLower(name)) == GetIcon(name)
  {
    Text.ToLowerIdempotent(name);
  }

  /** Of the icons the table writes, github, linkedin and mail get their own glyph; the rest fall back. */
  lemma TableIconsRender()
    ensures GetIcon(Platforms[0].icon) == GitHubIcon
    ensures GetIcon(Platforms[1].icon) == LinkedInIcon
    ensures GetIcon(Platforms[2].icon) == MailIcon
    ensures forall i :: 3 <= i < |Platforms| ==> GetIcon(Platforms[i].icon) == ExternalLinkIcon
  {
    forall i | 0 <= i < |Platforms|
      ensures Text.ToLower(Platforms[i].icon) == Platforms[i].icon
    {
      Text.ToLowerNoCapitals(Platforms[i].icon);
    }
  }

  /**
   * `handleEdit`: the dialog holds the stored link unchanged, so saving the
   * edit stores it back as it was, while posting it as a new link succeeds
   * only when its required fields are non-empty.
   */
  function Prefill(l: SocialLink): (r: Form)
    ensures Submit(r, Some(l)) == Some(l)
    ensures SaveSocialLink(Payload(r)) == (if Given(l.platform) && Given(l.url) && Given(l.icon) then Some(l) else None)
  {
    Form(l.platform, l.url, l.icon, l.order)
  }
}
