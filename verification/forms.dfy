/**
 * Pieces shared by the admin edit dialogs: the request a save sends, the
 * zod length rule, the date prefill, `x || ''`, and the comma-separated
 * technologies field.
 */
module Forms {
  import opened Wrappers
  import Text

  // ---------------------------------------------------------------------
  // where a save goes

  datatype Verb = Put | Post

  datatype Request = Request(verb: Verb, path: string)

  /** The collection endpoint, e.g. `/api/experience`. */
  function Endpoint(collection: string): string {
    "/api/" + collection
  }

  /**
   * A save while editing record `id` is a PUT to `/api/<collection>/<id>`;
   * otherwise it is a POST to `/api/<collection>`.
   */
  function Target(collection: string, editing: Option<string>): (r: Request)
    ensures r.verb == Put <==> editing.Some?
    ensures Endpoint(collection) <= r.path
    ensures editing.None? ==> r.path == Endpoint(collection)
    ensures editing.Some? ==> |r.path| == |Endpoint(collection)| + 1 + |editing.value|
  {
    match editing
    case None => Request(Post, Endpoint(collection))
    case Some(id) => Request(Put, Endpoint(collection) + "/" + id)
  }

  /** Which record a request is about, read back from its verb and path. */
  function EditedId(collection: string, q: Request): Option<string> {
    var base := Endpoint(collection) + "/";
    if q.verb == Put && base <= q.path then Some(q.path[|base|..]) else None
  }

  /** The request identifies the edited record, and a new record is never sent as an edit. */
  lemma TargetIdentifiesRecord(collection: string, editing: Option<string>)
    ensures EditedId(collection, Target(collection, editing)) == editing
  {
    if editing.Some? {
      var base := Endpoint(collection) + "/";
      assert Endpoint(collection) + "/" + editing.value == base + editing.value;
    }
  }

  /** The collections the five admin editors save to. */
  const Collections: seq<string> := ["experience", "education", "projects", "skills", "social-links"]

  /**
   * For collection names without '/', an edit of one collection never reads as
   * an edit of another: the path's first segment after `/api/` tells them apart.
   */
  lemma {:induction false} OtherCollectionSeesNoEdit(c1: string, c2: string, editing: Option<string>)
    requires c1 != c2 && '/' !in c1 && '/' !in c2
    ensures EditedId(c2, Target(c1, editing)) == None
  {
    if editing.Some? {
      var p := Target(c1, editing).path;
      var b := Endpoint(c2) + "/";
      assert p == "/api/" + c1 + "/" + editing.value;
      var m: nat;
      if |c2| < |c1| {
        m := 5 + |c2|;
        assert b[m] == '/';
        assert p[m] == c1[|c2|];
      } else if |c1| < |c2| {
        m := 5 + |c1|;
        assert p[m] == '/';
        assert b[m] == c2[|c1|];
      } else {
        var k :| 0 <= k < |c1| && c1[k] != c2[k];
        m := 5 + k;
        assert p[m] == c1[k];
        assert b[m] == c2[k];
      }
      assert m < |b| && m < |p| && b[m] != p[m];
    }
  }

  /** Each editor's requests are about its own collection only. */
  lemma EditorsStayInTheirCollection(i: nat, j: nat, editing: Option<string>)
    requires i < |Collections| && j < |Collections| && i != j
    ensures EditedId(Collections[j], Target(Collections[i], editing)) == None
    ensures EditedId(Collections[i], Target(Collections[i], editing)) == editing
  {
    OtherCollectionSeesNoEdit(Collections[i], Collections[j], editing);
    TargetIdentifiesRecord(Collections[i], editing);
  }

  // ---------------------------------------------------------------------
  // field rules

  /** zod's `.min(n)` on a string. */
  predicate MinLen(s: string, n: nat) {
    |s| >= n
  }

  /** `x || ''` for an optional text field. */
  function OrEmpty(x: Option<string>): (r: string)
    ensures x.None? ==> r == ""
    ensures x.Some? ==> r == x.value
  {
    x.GetOr("")
  }

  /** The date input's value from a stored ISO timestamp: `iso.split('T')[0]`. */
  function DatePart(iso: string): (r: string)
    ensures r <= iso && 'T' !in r
    ensures |r| < |iso| ==> iso[|r|] == 'T'
    ensures 'T' !in iso ==> r == iso
  {
    Text.BeforeFirst(iso, 'T')
  }

  /** The date input's value from a date and time `date + "T" + time`: exactly the date. */
  lemma {:induction false} DatePartOfDateTime(date: string, time: string)
    requires 'T' !in date
    ensures DatePart(date + "T" + time) == date
  {
    var iso := date + "T" + time;
    var r := DatePart(iso);
    assert iso[..|date|] == date && iso[|date|] == 'T';
    assert r == iso[..|r|];
  }

  /** Cutting a date a second time changes nothing, so a prefilled date survives re-editing. */
  lemma DatePartIdempotent(iso: string)
    ensures DatePart(DatePart(iso)) == DatePart(iso)
  {
  }

  // ---------------------------------------------------------------------
  // technologies

  /**
   * `text ? text.split(',').map(t => t.trim()) : []`: an absent or empty field
   * gives no technologies, anything else one entry per comma plus one.
   */
  function TechList(text: Option<string>): (r: seq<string>)
    ensures (text.None? || text.value == "") ==> r == []
    ensures text.Some? && text.value != "" ==>
      |r| == Text.Count(text.value, ',') + 1
    ensures forall i :: 0 <= i < |r| ==> Text.CleanItem(r[i])
    ensures text.Some? && text.value != "" ==>
      forall i :: 0 <= i < |r| ==> r[i] == Text.Trim(Text.Split(text.value, ',')[i])
  {
    match text
    case None => []
    case Some(t) => if t == "" then [] else Text.ParseList(t)
  }

  /** A technology an edit can round-trip: non-empty, comma-free, trimmed. */
  predicate Editable(items: seq<string>) {
    forall i :: 0 <= i < |items| ==> items[i] != "" && Text.CleanItem(items[i])
  }

  lemma JoinListStartsWithFirst(items: seq<string>)
    requires |items| >= 1
    ensures items[0] <= Text.JoinList(items)
  {
    if |items| > 1 {
      assert Text.JoinList(items) == items[0] + ", " + Text.JoinList(items[1..]);
    }
  }

  /**
   * The edit prefill `items.join(', ')` parsed back by the submit handler gives
   * the list again, the empty list included.
   */
  lemma TechListRoundTrip(items: seq<string>)
    requires Editable(items)
    ensures TechList(Some(Text.JoinList(items))) == items
  {
    if |items| > 0 {
      JoinListStartsWithFirst(items);
      Text.ParseJoinList(items);
    }
  }
}
