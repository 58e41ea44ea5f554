/**
 * The deployment-wide Profile endpoint. GET answers the newest document (or
 * null); POST updates whichever document an unsorted `findOne()` returns, or
 * creates one when the collection is empty. Requests are taken one at a time.
 *
 * The collection is a sequence in the store's natural order; `findOne()` with
 * no filter and no sort is taken to return its first element.
 */
module ProfileStore {
  import opened Wrappers
  import opened Models

  /** A stored Profile with the creation timestamp the schema's `timestamps` option adds. */
  datatype Doc = Doc(profile: Profile, createdAt: int)

  type Docs = seq<Doc>

  /** A request body: any subset of the fields. */
  datatype ProfilePatch = ProfilePatch(
    name: Option<string>,
    role: Option<string>,
    bio: Option<string>,
    shortBio: Option<string>,
    location: Option<string>,
    profileImage: Option<string>,
    resumeUrl: Option<string>)

  datatype Session = Session(userId: string)

  datatype GetResponse = Current(doc: Option<Doc>) | ReadError

  datatype PostResponse = Saved(doc: Doc) | Unauthorized | StoreError

  datatype Outcome = Outcome(response: PostResponse, docs: Docs)

  // ---------------------------------------------------------------------
  // GET

  /** The document with the latest `createdAt`, the earliest of them on a tie. */
  function Newest(docs: Docs): (r: Doc)
    requires |docs| > 0
    ensures r in docs
    ensures forall i :: 0 <= i < |docs| ==> docs[i].createdAt <= r.createdAt
  {
    if |docs| == 1 then docs[0]
    else
      var rest := Newest(docs[1..]);
      if docs[0].createdAt >= rest.createdAt then docs[0] else rest
  }

  /** GET /api/profile: the newest profile, or null when there is none. */
  function Get(docs: Docs, available: bool): (r: GetResponse)
    ensures !available <==> r.ReadError?
    ensures available ==> (r.doc.None? <==> |docs| == 0)
    ensures available && r.doc.Some? ==>
      r.doc.value in docs && forall d :: d in docs ==> d.createdAt <= r.doc.value.createdAt
  {
    if !available then ReadError
    else if |docs| == 0 then Current(None)
    else Current(Some(Newest(docs)))
  }

  // ---------------------------------------------------------------------
  // POST

  /** `new Profile(data).save()`: every required field present and non-empty. */
  function Create(p: ProfilePatch, now: int): (r: Option<Doc>)
    ensures r.Some? <==>
      p.name.Some? && Given(p.name.value) && p.role.Some? && Given(p.role.value)
      && p.bio.Some? && Given(p.bio.value) && p.shortBio.Some? && Given(p.shortBio.value)
      && p.location.Some? && Given(p.location.value)
      && p.profileImage.Some? && Given(p.profileImage.value)
    ensures r.Some? ==> r.value.createdAt == now
    ensures r.Some? ==> r.value.profile == Profile(p.name.value, p.role.value, p.bio.value,
      p.shortBio.value, p.location.value, p.profileImage.value, p.resumeUrl)
  {
    match (p.name, p.role, p.bio, p.shortBio, p.location, p.profileImage)
    case (Some(n), Some(ro), Some(b), Some(sb), Some(l), Some(img)) =>
      if Given(n) && Given(ro) && Given(b) && Given(sb) && Given(l) && Given(img) then
        Some(Doc(Profile(n, ro, b, sb, l, img, p.resumeUrl), now))
      else None
    case _ => None
  }

  /** `findByIdAndUpdate(id, data)`: the submitted fields replace the old ones, unchecked. */
  function Update(d: Doc, p: ProfilePatch): (r: Doc)
    ensures r.createdAt == d.createdAt
    ensures r.profile.name == p.name.GetOr(d.profile.name)
    ensures r.profile.role == p.role.GetOr(d.profile.role)
    ensures r.profile.bio == p.bio.GetOr(d.profile.bio)
    ensures r.profile.shortBio == p.shortBio.GetOr(d.profile.shortBio)
    ensures r.profile.location == p.location.GetOr(d.profile.location)
    ensures r.profile.profileImage == p.profileImage.GetOr(d.profile.profileImage)
    ensures r.profile.resumeUrl == (if p.resumeUrl.Some? then p.resumeUrl else d.profile.resumeUrl)
  {
    var q := d.profile;
    Doc(Profile(p.name.GetOr(q.name), p.role.GetOr(q.role), p.bio.GetOr(q.bio),
                p.shortBio.GetOr(q.shortBio), p.location.GetOr(q.location),
                p.profileImage.GetOr(q.profileImage),
                if p.resumeUrl.Some? then p.resumeUrl else q.resumeUrl),
        d.createdAt)
  }

  /** POST /api/profile. `now` is the clock reading a created document is stamped with. */
  function Post(docs: Docs, session: Option<Session>, p: ProfilePatch, now: int, available: bool): (o: Outcome)
    ensures session.None? ==> o == Outcome(Unauthorized, docs)
    ensures !o.response.Saved? ==> o.docs == docs
    ensures o.response.Saved? ==> session.Some? && available
    ensures o.response.Saved? && |docs| == 0 ==> o.docs == [o.response.doc] && o.response.doc.createdAt == now
    ensures o.response.Saved? && |docs| > 0 ==>
      |o.docs| == |docs| && o.docs[0] == o.response.doc == Update(docs[0], p) && o.docs[1..] == docs[1..]
    ensures session.Some? && available && |docs| > 0 ==> o.response.Saved?
    ensures session.Some? && available && |docs| == 0 ==>
      (o.response.Saved? <==> Create(p, now).Some?)
      && (o.response.Saved? ==> o.response.doc == Create(p, now).value)
  {
    match session
    case None => Outcome(Unauthorized, docs)
    case Some(_) =>
      if !available then Outcome(StoreError, docs)
      else if |docs| > 0 then
        var d := Update(docs[0], p);
        Outcome(Saved(d), [d] + docs[1..])
      else
        match Create(p, now)
        case Some(d) => Outcome(Saved(d), [d])
        case None => Outcome(StoreError, docs)
  }

  /** A POST with no session changes nothing. */
  lemma PostWithoutSessionIsNoOp(docs: Docs, p: ProfilePatch, now: int, available: bool)
    ensures Post(docs, None, p, now, available).docs == docs
    ensures Post(docs, None, p, now, available).response == Unauthorized
  {
  }

  // ---------------------------------------------------------------------
  // the singleton rule

  /** One request in a sequential history of POSTs. */
  datatype Request = Request(session: Option<Session>, patch: ProfilePatch, now: int, available: bool)

  function Replay(docs: Docs, reqs: seq<Request>): Docs
    decreases |reqs|
  {
    if |reqs| == 0 then docs
    else
      var q := reqs[0];
      Replay(Post(docs, q.session, q.patch, q.now, q.available).docs, reqs[1..])
  }

  /** A single POST never leaves more documents than before, except 0 to 1. */
  lemma PostCount(docs: Docs, s: Option<Session>, p: ProfilePatch, now: int, available: bool)
    ensures var n := |Post(docs, s, p, now, available).docs|;
      (|docs| > 0 ==> n == |docs|) && (|docs| == 0 ==> n <= 1)
  {
  }

  /** Starting from at most one profile, any sequence of POSTs keeps at most one. */
  lemma {:induction false} ReplayKeepsAtMostOne(docs: Docs, reqs: seq<Request>)
    requires |docs| <= 1
    ensures |Replay(docs, reqs)| <= 1
    decreases |reqs|
  {
    if |reqs| > 0 {
      var q := reqs[0];
      PostCount(docs, q.session, q.patch, q.now, q.available);
      ReplayKeepsAtMostOne(Post(docs, q.session, q.patch, q.now, q.available).docs, reqs[1..]);
    }
  }

  /** Once a profile exists, the count never changes again. */
  lemma {:induction false} ReplayKeepsCount(docs: Docs, reqs: seq<Request>)
    requires |docs| > 0
    ensures |Replay(docs, reqs)| == |docs|
    decreases |reqs|
  {
    if |reqs| > 0 {
      var q := reqs[0];
      PostCount(docs, q.session, q.patch, q.now, q.available);
      ReplayKeepsCount(Post(docs, q.session, q.patch, q.now, q.available).docs, reqs[1..]);
    }
  }

  /** With a single document, the one POST updates is the one GET reads. */
  lemma SingletonReadsWhatPostWrites(docs: Docs, s: Session, p: ProfilePatch, now: int)
    requires |docs| == 1
    ensures var o := Post(docs, Some(s), p, now, true);
      o.response.Saved? && Get(o.docs, true) == Current(Some(o.response.doc))
  {
  }

  /**
   * When the document `findOne()` returns is older than the next one, POST
   * updates it while GET keeps answering as before: the write is invisible
   * to every reader.
   */
  lemma OlderFirstDocumentHidesPost(docs: Docs, s: Session, p: ProfilePatch, now: int)
    requires |docs| >= 2 && docs[0].createdAt < docs[1].createdAt
    ensures var o := Post(docs, Some(s), p, now, true);
      && o.response.Saved?
      && Get(o.docs, true) == Get(docs, true)
      && Get(o.docs, true).doc.value != o.response.doc
  {
    var o := Post(docs, Some(s), p, now, true);
    assert o.docs[1..] == docs[1..];
    var rest := Newest(docs[1..]);
    assert docs[1..][0] == docs[1];
    assert Newest(docs) == rest;
    assert Newest(o.docs) == rest;
  }
}
