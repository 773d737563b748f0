/**
 * Complaint records as the document store holds them, the replies of the
 * handlers, and the handlers that only read the store: tracking by id and
 * PIN, the token check in front of the admin routes, and the admin listing.
 */
module Complaints {
  import opened Js
  import opened Helpers

  /** The statuses an administrator may set. */
  const Statuses: seq<string> := ["Open", "In Review", "Resolved"]

  /** `["Open", "In Review", "Resolved"].includes(status)`: strict equality, so a missing status is not one. */
  predicate IsStatus(status: Option<string>)
    ensures IsStatus(status) <==> status in {Some("Open"), Some("In Review"), Some("Resolved")}
  {
    status.Some? && status.value in Statuses
  }

  /**
   * A stored complaint document.  Fields that a reader defaults when they
   * are absent are optional: a document written by some other client may
   * lack them.  There is no field for the PIN itself.
   */
  datatype Doc = Doc(
    title: string,            // ciphertext
    description: string,      // ciphertext
    location: string,         // ciphertext
    category: Option<string>, // clear
    date: string,             // clear
    anonymous: bool,          // clear
    status: Option<string>,
    pinHash: Option<string>,
    createdAt: Option<int>)   // server timestamp

  /** The body of a submission. */
  datatype SubmitRequest = SubmitRequest(
    title: Option<string>,
    category: Option<string>,
    location: Option<string>,
    date: Option<string>,
    description: Option<string>,
    anonymous: Json)

  /** The status a reader is shown: `status || "Open"`. */
  function ShownStatus(d: Doc): (shown: string)
    ensures shown != ""
    ensures Missing(d.status) ==> shown == "Open"
    ensures !Missing(d.status) ==> shown == d.status.value
  {
    OrElse(d.status, "Open")
  }

  // ---------- replies ----------

  datatype SubmitReply = MissingFields | Submitted(complaintId: string, pin: string)
  {
    function Code(): int
    {
      if MissingFields? then 400 else 200
    }

    function Message(): string
    {
      if MissingFields? then "Missing fields" else ""
    }
  }

  datatype TrackReply = MissingIdOrPin | NotFound | InvalidPin | Tracked(status: string)
  {
    function Code(): int
    {
      match this
      case MissingIdOrPin => 400
      case NotFound => 404
      case InvalidPin => 401
      case Tracked(_) => 200
    }

    function Message(): string
    {
      match this
      case MissingIdOrPin => "Missing ID or PIN"
      case NotFound => "Not found"
      case InvalidPin => "Invalid PIN"
      case Tracked(_) => ""
    }
  }

  /** What the token middleware decides before an admin handler runs. */
  datatype AuthOutcome = NoAuthHeader | InvalidToken | Authorized
  {
    function Message(): string
    {
      match this
      case NoAuthHeader => "No auth header"
      case InvalidToken => "Invalid token"
      case Authorized => ""
    }
  }

  datatype UpdateReply = UpdateDenied(auth: AuthOutcome) | InvalidStatus | Updated | UpdateFailed
  {
    function Code(): int
    {
      match this
      case UpdateDenied(_) => 401
      case InvalidStatus => 400
      case Updated => 200
      case UpdateFailed => 500
    }

    function Message(): string
    {
      match this
      case UpdateDenied(auth) => auth.Message()
      case InvalidStatus => "Invalid status"
      case Updated => ""
      case UpdateFailed => "Server error"
    }
  }

  /** One row of the admin listing. */
  datatype Summary = Summary(id: string, category: Option<string>, status: string, createdAt: Option<int>)

  datatype ListReply = ListDenied(auth: AuthOutcome) | Listed(data: seq<Summary>)
  {
    function Code(): int
    {
      if ListDenied? then 401 else 200
    }

    function Message(): string
    {
      if ListDenied? then auth.Message() else ""
    }
  }

  // ---------- track ----------

  /** `sha256(pin) === doc.data().pinHash`: a document without a hash matches no PIN. */
  predicate PinMatches(c: Crypto, d: Doc, pin: string)
    ensures PinMatches(c, d, pin) <==> d.pinHash.Some? && d.pinHash.value == c.sha256(pin)
  {
    d.pinHash == Some(c.sha256(pin))
  }

  /**
   * POST /api/track.  A missing id or PIN is answered 400, an unknown id 404,
   * a PIN whose hash is not the stored one 401; otherwise the stored status,
   * "Open" when there is none.  It is a function of the store, so it changes
   * nothing.
   */
  function Track(docs: map<string, Doc>, c: Crypto, complaintId: Option<string>, pin: Option<string>): (r: TrackReply)
    ensures r.Code() == 400 <==> Missing(complaintId) || Missing(pin)
    ensures r.Code() == 404 <==> !Missing(complaintId) && !Missing(pin) && complaintId.value !in docs
    ensures r.Code() == 401 <==>
      && !Missing(complaintId) && !Missing(pin) && complaintId.value in docs
      && !PinMatches(c, docs[complaintId.value], pin.value)
    ensures r.Code() == 200 <==>
      && !Missing(complaintId) && !Missing(pin) && complaintId.value in docs
      && PinMatches(c, docs[complaintId.value], pin.value)
    ensures r.Code() == 200 ==> r == Tracked(ShownStatus(docs[complaintId.value]))
  {
    if Missing(complaintId) || Missing(pin) then MissingIdOrPin
    else if complaintId.value !in docs then NotFound
    else
      var d := docs[complaintId.value];
      if !PinMatches(c, d, pin.value) then InvalidPin
      else Tracked(ShownStatus(d))
  }

  // ---------- token middleware ----------

  /** `header.split(" ")[1]`, `None` standing for `undefined`. */
  function BearerToken(header: string): (token: Option<string>)
    ensures token.Some? <==> ' ' in header
    ensures token.Some? ==> ' ' !in token.value
  {
    var parts := SplitOnSpace(header);
    if |parts| > 1 then Some(parts[1]) else None
  }

  /** For the usual `<scheme> <token>` header the token is the part after the space. */
  lemma BearerTokenOfScheme(scheme: string, token: string)
    requires ' ' !in scheme && ' ' !in token
    ensures BearerToken(scheme + " " + token) == Some(token)
  {
    SplitAfterWord(scheme, token);
    SplitWord(token);
  }

  /**
   * `verifyFirebaseToken`: no (or an empty) Authorization header is refused,
   * then the extracted token, possibly undefined, goes to the identity
   * provider's verifier, modelled as the predicate `verifyIdToken`.
   */
  function Authorize(header: Option<string>, verifyIdToken: Option<string> -> bool): (a: AuthOutcome)
    ensures a == NoAuthHeader <==> Missing(header)
    ensures a == Authorized <==> !Missing(header) && verifyIdToken(BearerToken(header.value))
  {
    if Missing(header) then NoAuthHeader
    else if verifyIdToken(BearerToken(header.value)) then Authorized
    else InvalidToken
  }

  // ---------- admin listing ----------

  /** Every listed id has a document. */
  predicate Indexes(docs: map<string, Doc>, ids: seq<string>)
  {
    forall i :: 0 <= i < |ids| ==> ids[i] in docs
  }

  /**
   * `ids` in the order of `orderBy("createdAt", "desc")`: every listed
   * document has a timestamp, and the timestamps never increase along `ids`.
   */
  predicate NewestFirst(docs: map<string, Doc>, ids: seq<string>)
    requires Indexes(docs, ids)
  {
    && (forall i :: 0 <= i < |ids| ==> docs[ids[i]].createdAt.Some?)
    && (forall i, j :: 0 <= i < j < |ids| ==> docs[ids[j]].createdAt.value <= docs[ids[i]].createdAt.value)
  }

  /** The query result: the documents for `ids`, in that order. */
  function Snapshot(docs: map<string, Doc>, ids: seq<string>): (snap: seq<(string, Doc)>)
    requires Indexes(docs, ids)
    ensures |snap| == |ids|
    ensures forall i :: 0 <= i < |ids| ==> snap[i] == (ids[i], docs[ids[i]])
  {
    if ids == [] then [] else [(ids[0], docs[ids[0]])] + Snapshot(docs, ids[1..])
  }

  /**
   * `snap.docs.map(...)`: one row per document, in the query's order, with
   * the id, category, status (default "Open") and timestamp, and nothing else.
   */
  function Project(snap: seq<(string, Doc)>): (rows: seq<Summary>)
    ensures |rows| == |snap|
    ensures forall i :: 0 <= i < |snap| ==>
      && rows[i].id == snap[i].0
      && rows[i].category == snap[i].1.category
      && (Missing(snap[i].1.status) ==> rows[i].status == "Open")
      && (!Missing(snap[i].1.status) ==> rows[i].status == snap[i].1.status.value)
      && rows[i].createdAt == snap[i].1.createdAt
  {
    seq(|snap|, i requires 0 <= i < |snap| =>
      Summary(snap[i].0, snap[i].1.category, ShownStatus(snap[i].1), snap[i].1.createdAt))
  }

  /** GET /api/admin/complaints behind the token middleware. */
  function AdminList(docs: map<string, Doc>, ids: seq<string>, header: Option<string>,
                     verifyIdToken: Option<string> -> bool): (r: ListReply)
    requires Indexes(docs, ids)
    ensures r.Listed? <==> Authorize(header, verifyIdToken) == Authorized
    ensures r.ListDenied? ==> r.auth == Authorize(header, verifyIdToken)
    ensures r.Listed? ==> |r.data| == |ids|
    ensures r.Listed? ==> forall i :: 0 <= i < |ids| ==>
      && r.data[i].id == ids[i]
      && r.data[i].category == docs[ids[i]].category
      && (Missing(docs[ids[i]].status) ==> r.data[i].status == "Open")
      && (!Missing(docs[ids[i]].status) ==> r.data[i].status == docs[ids[i]].status.value)
      && r.data[i].createdAt == docs[ids[i]].createdAt
    ensures r.Listed? && NewestFirst(docs, ids) ==>
      && (forall i :: 0 <= i < |r.data| ==> r.data[i].createdAt.Some?)
      && (forall i, j :: 0 <= i < j < |r.data| ==> r.data[j].createdAt.value <= r.data[i].createdAt.value)
  {
    var auth := Authorize(header, verifyIdToken);
    if auth != Authorized then ListDenied(auth) else Listed(Project(Snapshot(docs, ids)))
  }
}
