/**
 * The self-service tenant profile endpoint: GET reads the caller's record and
 * creates a default one on first access; POST upserts the caller's record.
 *
 * The collection is a map from `userId` to record. Both `userId` and `username`
 * carry a unique index, so a write that would duplicate either fails. The
 * `available` parameter stands for every other driver failure (connection,
 * cast errors); when it is false the handler answers 500 and nothing is written.
 */
module UserProfileStore {
  import opened Wrappers
  import opened Models
  import Text

  datatype Session = Session(userId: string, email: Option<string>)

  type Store = map<string, UserProfile>

  datatype Response = Ok(profile: UserProfile) | Unauthorized | StoreError

  datatype Outcome = Outcome(response: Response, store: Store)

  /** Every record is filed under its own `userId`. */
  ghost predicate Keyed(st: Store) {
    forall k :: k in st ==> st[k].userId == k
  }

  /** The unique index on `username` (a missing username counts as one value). */
  ghost predicate UniqueUsernames(st: Store) {
    forall k1, k2 :: k1 in st && k2 in st && k1 != k2 ==> st[k1].username != st[k2].username
  }

  ghost predicate Consistent(st: Store) {
    Keyed(st) && UniqueUsernames(st)
  }

  /** Some record other than the one filed under `except` already uses `name`. */
  predicate UsernameTaken(st: Store, name: Option<string>, except: string) {
    exists k :: k in st && k != except && st[k].username == name
  }

  // ---------------------------------------------------------------------
  // defaults

  const DefaultPrimary: string := "#3B82F6"
  const DefaultSecondary: string := "#1E293B"
  const DefaultAccent: string := "#10B981"
  const DefaultSeoTitle: string := "Professional Portfolio"
  const DefaultSeoDescription: string := "Welcome to my professional portfolio"

  /**
   * The username derived from a login email: the text before the first '@',
   * or "user" when there is no email or that text is empty.
   */
  function DefaultUsername(email: Option<string>): (r: string)
    ensures r != "" && '@' !in r
    ensures email.None? ==> r == "user"
    ensures email.Some? && (email.value == "" || email.value[0] == '@') ==> r == "user"
    ensures email.Some? && email.value != "" && email.value[0] != '@' ==>
      r <= email.value && (|r| == |email.value| || email.value[|r|] == '@')
  {
    match email
    case None => "user"
    case Some(e) =>
      var local := Text.BeforeFirst(e, '@');
      if local == "" then "user" else local
  }

  /** The record GET creates for a caller who has none. */
  function DefaultRecord(s: Session): (r: UserProfile)
    ensures r.userId == s.userId && r.selectedTemplate == "developer"
    ensures r.username == Some(DefaultUsername(s.email))
    ensures r.customizations.colorScheme == ColorScheme(Some("#3B82F6"), Some("#1E293B"), Some("#10B981"))
    ensures r.customizations.layout == Layout(false, false, false)
    ensures r.seoSettings == SeoSettings(Some("Professional Portfolio"),
                                         Some("Welcome to my professional portfolio"), [])
  {
    UserProfile(
      s.userId,
      DefaultTemplate,
      Some(DefaultUsername(s.email)),
      Customizations(ColorScheme(Some(DefaultPrimary), Some(DefaultSecondary), Some(DefaultAccent)),
                     DefaultLayout),
      SeoSettings(Some(DefaultSeoTitle), Some(DefaultSeoDescription), []))
  }

  // ---------------------------------------------------------------------
  // GET

  /** GET /api/user-profile. */
  function Get(st: Store, session: Option<Session>, available: bool): (o: Outcome)
    ensures session.None? ==> o == Outcome(Unauthorized, st)
    ensures !o.response.Ok? ==> o.store == st
    ensures session.Some? && available && session.value.userId in st ==>
      o == Outcome(Ok(st[session.value.userId]), st)
    ensures session.Some? && session.value.userId !in st && o.response.Ok? ==>
      o.response.profile == DefaultRecord(session.value)
      && o.store == st[session.value.userId := o.response.profile]
      && |o.store| == |st| + 1
    ensures o.response.Ok? ==> (session.Some? && available
      && session.value.userId in o.store && o.store[session.value.userId] == o.response.profile)
    ensures session.Some? && available ==>
      (o.response.Ok? <==> (session.value.userId in st
         || !UsernameTaken(st, Some(DefaultUsername(session.value.email)), session.value.userId)))
    ensures Consistent(st) ==> Consistent(o.store)
  {
    match session
    case None => Outcome(Unauthorized, st)
    case Some(s) =>
      if !available then Outcome(StoreError, st)
      else if s.userId in st then Outcome(Ok(st[s.userId]), st)
      else
        var created := DefaultRecord(s);
        if UsernameTaken(st, created.username, s.userId) then Outcome(StoreError, st)
        else Outcome(Ok(created), st[s.userId := created])
  }

  /** A second GET after a successful one returns the same record and writes nothing. */
  lemma GetIsIdempotent(st: Store, s: Session)
    requires Get(st, Some(s), true).response.Ok?
    ensures var o := Get(st, Some(s), true);
      Get(o.store, Some(s), true) == o
  {
  }

  /**
   * Two callers whose emails share the text before '@' cannot both get a
   * default record: the second GET hits the username index and fails.
   */
  lemma SharedLocalPartBlocksSecondDefault(st: Store, a: Session, b: Session)
    requires a.userId != b.userId && a.userId !in st && b.userId !in st
    requires DefaultUsername(a.email) == DefaultUsername(b.email)
    requires Get(st, Some(a), true).response.Ok?
    ensures var st1 := Get(st, Some(a), true).store;
      Get(st1, Some(b), true) == Outcome(StoreError, st1)
  {
    var st1 := Get(st, Some(a), true).store;
    assert st1[a.userId].username == Some(DefaultUsername(b.email));
    assert UsernameTaken(st1, DefaultRecord(b).username, b.userId);
  }

  // ---------------------------------------------------------------------
  // POST

  /** The request body: any subset of the top-level fields. */
  datatype Patch = Patch(
    userId: Option<string>,
    selectedTemplate: Option<string>,
    username: Option<string>,
    customizations: Option<Customizations>,
    seoSettings: Option<SeoSettings>)

  /** `{userId: caller, ...body}` applied to a record: each submitted top-level field replaces the old one. */
  function Overlay(rec: UserProfile, p: Patch, callerId: string): (r: UserProfile)
    ensures r.userId == p.userId.GetOr(callerId)
    ensures r.selectedTemplate == p.selectedTemplate.GetOr(rec.selectedTemplate)
    ensures p.username.Some? ==> r.username == p.username
    ensures p.username.None? ==> r.username == rec.username
    ensures r.customizations == p.customizations.GetOr(rec.customizations)
    ensures r.seoSettings == p.seoSettings.GetOr(rec.seoSettings)
  {
    UserProfile(
      p.userId.GetOr(callerId),
      p.selectedTemplate.GetOr(rec.selectedTemplate),
      if p.username.Some? then p.username else rec.username,
      p.customizations.GetOr(rec.customizations),
      p.seoSettings.GetOr(rec.seoSettings))
  }

  /** POST /api/user-profile: findOneAndUpdate on the caller's userId with upsert. */
  function Post(st: Store, session: Option<Session>, p: Patch, available: bool): (o: Outcome)
    ensures session.None? ==> o == Outcome(Unauthorized, st)
    ensures !o.response.Ok? ==> o.store == st
    ensures o.response.Ok? ==> session.Some? && available
    ensures o.response.Ok? ==>
      var caller := session.value.userId;
      var key := p.userId.GetOr(caller);
      var r := o.response.profile;
      && r.userId == key
      && o.store.Keys == st.Keys - {caller} + {key}
      && o.store[key] == r
      && (key != caller ==> key !in st)
      && (forall k :: k in st && k != caller && k != key ==> o.store[k] == st[k])
      && r.selectedTemplate == p.selectedTemplate.GetOr(
           if caller in st then st[caller].selectedTemplate else "developer")
      && (caller in st ==> r == Overlay(st[caller], p, caller))
      && (caller !in st ==> r == Overlay(InsertDefaults(key), p, caller))
    ensures session.Some? && available ==>
      var caller := session.value.userId;
      var key := p.userId.GetOr(caller);
      var base := if caller in st then st[caller] else InsertDefaults(key);
      (o.response.Ok? <==> (key == caller || key !in st) && !UsernameTaken(st, Overlay(base, p, caller).username, caller))
    ensures Consistent(st) ==> Consistent(o.store)
  {
    match session
    case None => Outcome(Unauthorized, st)
    case Some(s) =>
      var key := p.userId.GetOr(s.userId);
      var base := if s.userId in st then st[s.userId] else InsertDefaults(key);
      var r := Overlay(base, p, s.userId);
      if !available then Outcome(StoreError, st)
      else if key != s.userId && key in st then Outcome(StoreError, st)
      else if UsernameTaken(st, r.username, s.userId) then Outcome(StoreError, st)
      else
        var st' := (st - {s.userId})[key := r];
        assert Consistent(st) ==> Consistent(st') by {
          if Consistent(st) {
            assert Keyed(st');
            forall k1, k2 | k1 in st' && k2 in st' && k1 != k2
              ensures st'[k1].username != st'[k2].username
            {
              if k1 == key || k2 == key {
                var other := if k1 == key then k2 else k1;
                assert other in st && other != s.userId;
              }
            }
          }
        }
        Outcome(Ok(r), st')
  }

  /**
   * The body's own `userId` wins over the caller's: an existing record is
   * re-filed under the submitted id, and the caller's key disappears.
   */
  lemma BodyUserIdWins(st: Store, s: Session, p: Patch)
    requires p.userId.Some? && p.userId.value != s.userId
    requires Post(st, Some(s), p, true).response.Ok?
    ensures var o := Post(st, Some(s), p, true);
      s.userId !in o.store && p.userId.value in o.store
  {
  }

  /** The submitted template id is stored as is, whether or not any template has that id. */
  lemma PostStoresAnyTemplateId(st: Store, s: Session, t: string)
    requires Consistent(st) && s.userId in st
    requires st[s.userId].username.Some?
    ensures var p := Patch(None, Some(t), None, None, None);
      var o := Post(st, Some(s), p, true);
      o.response.Ok? && o.response.profile.selectedTemplate == t
  {
    var p := Patch(None, Some(t), None, None, None);
    var r := Overlay(st[s.userId], p, s.userId);
    assert r.username == st[s.userId].username;
    assert !UsernameTaken(st, r.username, s.userId);
  }

  // ---------------------------------------------------------------------
  // public lookup by username (GET /api/portfolio/{username})

  datatype PublicResponse = Found(profile: UserProfile) | NotFound | LookupError

  /** Resolving a username never writes; it answers NotFound when no record has it. */
  ghost function Resolve(st: Store, username: string, available: bool): (r: PublicResponse)
    requires Consistent(st)
    ensures r.Found? <==> available && exists k :: k in st && st[k].username == Some(username)
    ensures r.Found? ==> r.profile in st.Values && r.profile.username == Some(username)
  {
    if !available then LookupError
    else if exists k :: k in st && st[k].username == Some(username) then
      var k :| k in st && st[k].username == Some(username);
      Found(st[k])
    else NotFound
  }

  /** In a consistent store, a username resolves to the one record that holds it. */
  lemma ResolveFindsHolder(st: Store, k: string, u: string)
    requires Consistent(st) && k in st && st[k].username == Some(u)
    ensures Resolve(st, u, true) == Found(st[k])
  {
    var r := Resolve(st, u, true);
    var k' :| k' in st && st[k'] == r.profile;
    assert st[k'].username == st[k].username;
  }

  /** After a successful GET, the caller's username leads the public page to the caller's record. */
  lemma GetThenResolve(st: Store, s: Session)
    requires Consistent(st)
    requires Get(st, Some(s), true).response.Ok?
    ensures var o := Get(st, Some(s), true);
      o.response.profile.username.Some? ==>
        Resolve(o.store, o.response.profile.username.value, true) == Found(o.response.profile)
    ensures s.userId !in st ==>
      Resolve(Get(st, Some(s), true).store, DefaultUsername(s.email), true) == Found(DefaultRecord(s))
  {
    var o := Get(st, Some(s), true);
    if o.response.profile.username.Some? {
      ResolveFindsHolder(o.store, s.userId, o.response.profile.username.value);
    }
  }

  /** After a successful POST that sets a username, that username resolves to the saved record. */
  lemma PostThenResolve(st: Store, s: Session, p: Patch, u: string)
    requires Consistent(st) && p.username == Some(u)
    requires Post(st, Some(s), p, true).response.Ok?
    ensures var o := Post(st, Some(s), p, true);
      Resolve(o.store, u, true) == Found(o.response.profile)
  {
    var o := Post(st, Some(s), p, true);
    ResolveFindsHolder(o.store, p.userId.GetOr(s.userId), u);
  }
}
