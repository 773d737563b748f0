/**
 * The `complaints` collection and the two handlers that write to it:
 * submission, which adds one document, and the admin status update, which
 * overwrites one field of one document.
 */
module Store {
  import opened Js
  import opened Helpers
  import opened Complaints

  /** Ids are pairwise distinct. */
  predicate Distinct(ids: seq<string>)
  {
    forall i, j :: 0 <= i < j < |ids| ==> ids[i] != ids[j]
  }

  /** The random salts the three encryptions of one submission draw. */
  datatype Salts = Salts(title: Salt, description: Salt, location: Salt)

  class ComplaintStore {
    /** The documents by id. */
    var docs: map<string, Doc>
    /** The ids, newest first: the order of `orderBy("createdAt", "desc")`. */
    var ids: seq<string>
    /** AES, SHA-256 and the encryption key the server was started with. */
    const crypto: Crypto

    ghost predicate Valid()
      reads this
    {
      && Distinct(ids)
      && (forall id :: id in docs <==> id in ids)
      && "" !in docs
      && Indexes(docs, ids)
      && NewestFirst(docs, ids)
    }

    /** The server starting against an existing collection. */
    constructor (docs0: map<string, Doc>, ids0: seq<string>, env: Option<string>,
                 aes: (string, string, Salt) -> string, sha256: string -> string)
      requires Distinct(ids0) && (forall id :: id in docs0 <==> id in ids0) && "" !in docs0
      requires Indexes(docs0, ids0) && NewestFirst(docs0, ids0)
      ensures Valid()
      ensures docs == docs0 && ids == ids0
      ensures crypto.aes == aes && crypto.sha256 == sha256 && crypto.key == EncKey(env)
    {
      docs, ids := docs0, ids0;
      crypto := Crypto(aes, sha256, EncKey(env));
    }

    /**
     * POST /api/complaint.  `draw` replaces `Math.random()`, `salts` are the
     * random salts of the three AES calls, `newId` is the id the store's `add`
     * assigns (fresh and non-empty) and `now` the server timestamp, no earlier
     * than any stored one.  A missing title, category or description is refused and
     * nothing is written; otherwise exactly one document is added, holding
     * the hash of the PIN but not the PIN, which is returned once with the id.
     */
    method Submit(req: SubmitRequest, draw: int, salts: Salts, newId: string, now: int) returns (r: SubmitReply)
      requires Valid()
      requires 0 <= draw < PinSpace
      requires newId != "" && newId !in docs
      requires forall id :: id in docs ==> docs[id].createdAt.Some? && docs[id].createdAt.value <= now
      modifies this
      ensures Valid()
      ensures r.Code() == 400 <==> Missing(req.title) || Missing(req.category) || Missing(req.description)
      ensures r.MissingFields? ==> docs == old(docs) && ids == old(ids)
      ensures r.Submitted? ==>
        && r.complaintId == newId
        && r.pin == RandomPin(draw)
        && ids == [newId] + old(ids)
        && newId in docs
        && docs == old(docs)[newId := docs[newId]]
        && docs[newId].title == Encrypt(crypto, req.title, salts.title)
        && docs[newId].description == Encrypt(crypto, req.description, salts.description)
        && docs[newId].location == Encrypt(crypto, Some(OrElse(req.location, "")), salts.location)
        && docs[newId].category == req.category
        && docs[newId].date == OrElse(req.date, "")
        && docs[newId].anonymous == Truthy(req.anonymous)
        && docs[newId].status == Some("Open")
        && docs[newId].pinHash == Some(crypto.sha256(r.pin))
        && docs[newId].createdAt == Some(now)
    {
      if Missing(req.title) || Missing(req.category) || Missing(req.description) {
        return MissingFields;
      }
      var pin := RandomPin(draw);
      var pinHash := crypto.sha256(pin);
      var doc := Doc(
        title := Encrypt(crypto, req.title, salts.title),
        description := Encrypt(crypto, req.description, salts.description),
        location := Encrypt(crypto, Some(OrElse(req.location, "")), salts.location),
        category := req.category,
        date := OrElse(req.date, ""),
        anonymous := Truthy(req.anonymous),
        status := Some("Open"),
        pinHash := Some(pinHash),
        createdAt := Some(now));
      docs := docs[newId := doc];
      ids := [newId] + ids;
      r := Submitted(newId, pin);
    }

    /**
     * PUT /api/admin/complaints/:id/status behind the token middleware.  The
     * new status must be one of Statuses; the store's `update` of a missing
     * document throws, which the handler turns into a 500.  Only a successful
     * update changes anything, and then only the status of that document.
     */
    method UpdateStatus(header: Option<string>, verifyIdToken: Option<string> -> bool,
                        id: string, status: Option<string>) returns (r: UpdateReply)
      requires Valid()
      modifies this
      ensures Valid()
      ensures ids == old(ids)
      ensures r.UpdateDenied? <==> Authorize(header, verifyIdToken) != Authorized
      ensures r.UpdateDenied? ==> r.auth == Authorize(header, verifyIdToken)
      ensures r == InvalidStatus <==> Authorize(header, verifyIdToken) == Authorized && !IsStatus(status)
      ensures r == UpdateFailed <==>
        Authorize(header, verifyIdToken) == Authorized && IsStatus(status) && id !in old(docs)
      ensures r == Updated <==>
        Authorize(header, verifyIdToken) == Authorized && IsStatus(status) && id in old(docs)
      ensures r != Updated ==> docs == old(docs)
      ensures r == Updated ==> docs == old(docs)[id := old(docs)[id].(status := status)]
    {
      var auth := Authorize(header, verifyIdToken);
      if auth != Authorized {
        return UpdateDenied(auth);
      }
      if !IsStatus(status) {
        return InvalidStatus;
      }
      if id !in docs {
        return UpdateFailed;
      }
      docs := docs[id := docs[id].(status := status)];
      r := Updated;
    }
  }
}
