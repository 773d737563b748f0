/**
 * How the handlers fit together: what tracking answers after a submission
 * and after a status update, what the admin listing shows after each, that
 * neither reader depends on the encrypted fields or the key, and a client
 * run through the store.
 */
module Properties {
  import opened Js
  import opened Helpers
  import opened Complaints
  import opened Store

  /**
   * Round trip: the document a submission adds (status "Open", hash of the
   * PIN) is tracked with the returned id and PIN as "Open"; a non-empty PIN
   * with a different hash gets 401; tracking any other id answers as before.
   */
  lemma TrackAfterSubmit(docs: map<string, Doc>, c: Crypto, id: string, d: Doc, pin: string,
                         wrong: string, other: Option<string>, otherPin: Option<string>)
    requires id != "" && pin != ""
    requires d.status == Some("Open") && d.pinHash == Some(c.sha256(pin))
    ensures Track(docs[id := d], c, Some(id), Some(pin)) == Tracked("Open")
    ensures wrong != "" && c.sha256(wrong) != c.sha256(pin) ==>
      Track(docs[id := d], c, Some(id), Some(wrong)) == InvalidPin
    ensures other != Some(id) ==> Track(docs[id := d], c, other, otherPin) == Track(docs, c, other, otherPin)
  {
  }

  /**
   * After a valid status update of `id`, a request that tracked `id`
   * successfully now sees the new status; every other request gets exactly
   * the answer it got before (the PIN check and 404s are untouched).
   */
  lemma TrackAfterUpdate(docs: map<string, Doc>, c: Crypto, id: string, status: Option<string>,
                         complaintId: Option<string>, pin: Option<string>)
    requires id in docs && IsStatus(status)
    ensures Track(docs[id := docs[id].(status := status)], c, complaintId, pin) ==
      if complaintId == Some(id) && Track(docs, c, complaintId, pin).Tracked?
      then Tracked(status.value)
      else Track(docs, c, complaintId, pin)
  {
  }

  /**
   * Tracking reads only the PIN hash and the status: stores that agree on
   * those, whatever their ciphertexts, clear fields or keys, answer alike.
   */
  lemma TrackIgnoresOtherFields(docs1: map<string, Doc>, docs2: map<string, Doc>, c1: Crypto, c2: Crypto,
                                complaintId: Option<string>, pin: Option<string>)
    requires docs1.Keys == docs2.Keys
    requires forall k :: k in docs1 ==> docs1[k].pinHash == docs2[k].pinHash && docs1[k].status == docs2[k].status
    requires forall p :: c1.sha256(p) == c2.sha256(p)
    ensures Track(docs1, c1, complaintId, pin) == Track(docs2, c2, complaintId, pin)
  {
  }

  /** A submission puts its row at the head of the listing and leaves the other rows as they were. */
  lemma ListAfterSubmit(docs: map<string, Doc>, ids: seq<string>, id: string, d: Doc,
                        header: Option<string>, verifyIdToken: Option<string> -> bool)
    requires Indexes(docs, ids) && id !in ids
    ensures Indexes(docs[id := d], [id] + ids)
    ensures AdminList(docs[id := d], [id] + ids, header, verifyIdToken).Listed? ==>
      AdminList(docs[id := d], [id] + ids, header, verifyIdToken).data ==
      [Summary(id, d.category, ShownStatus(d), d.createdAt)] + AdminList(docs, ids, header, verifyIdToken).data
  {
    var docs' := docs[id := d];
    var ids' := [id] + ids;
    assert Indexes(docs', ids') by {
      forall i | 0 <= i < |ids'| ensures ids'[i] in docs' {
        if i > 0 { assert ids'[i] == ids[i - 1]; }
      }
    }
    var r' := AdminList(docs', ids', header, verifyIdToken);
    var r := AdminList(docs, ids, header, verifyIdToken);
    if r'.Listed? {
      forall i | 0 <= i < |ids'| ensures r'.data[i] == ([Summary(id, d.category, ShownStatus(d), d.createdAt)] + r.data)[i] {
        if i > 0 {
          assert ids'[i] == ids[i - 1] && ids[i - 1] != id;
        }
      }
    }
  }

  /**
   * A valid status update changes the listing in one place: the status of
   * the updated document's row.  Order, ids, categories and timestamps stay.
   */
  lemma ListAfterUpdate(docs: map<string, Doc>, ids: seq<string>, id: string, status: Option<string>,
                        header: Option<string>, verifyIdToken: Option<string> -> bool)
    requires Indexes(docs, ids) && id in docs && IsStatus(status)
    ensures Indexes(docs[id := docs[id].(status := status)], ids)
    ensures var before := AdminList(docs, ids, header, verifyIdToken);
            var after := AdminList(docs[id := docs[id].(status := status)], ids, header, verifyIdToken);
            before.Listed? <==> after.Listed?
    ensures var before := AdminList(docs, ids, header, verifyIdToken);
            var after := AdminList(docs[id := docs[id].(status := status)], ids, header, verifyIdToken);
            after.Listed? ==>
              && |after.data| == |before.data|
              && forall i :: 0 <= i < |after.data| ==>
                   after.data[i] == if ids[i] == id then before.data[i].(status := status.value) else before.data[i]
  {
  }

  /**
   * The listing shows no ciphertext, date, flag or PIN hash: two stores
   * that agree on category, status and timestamp list identically.
   */
  lemma ListIgnoresOtherFields(docs1: map<string, Doc>, docs2: map<string, Doc>, ids: seq<string>,
                               header: Option<string>, verifyIdToken: Option<string> -> bool)
    requires Indexes(docs1, ids) && Indexes(docs2, ids)
    requires forall i :: 0 <= i < |ids| ==>
      var d1, d2 := docs1[ids[i]], docs2[ids[i]];
      d1.category == d2.category && d1.status == d2.status && d1.createdAt == d2.createdAt
    ensures AdminList(docs1, ids, header, verifyIdToken) == AdminList(docs2, ids, header, verifyIdToken)
  {
  }

  /**
   * A reporter submits and tracks; an administrator tries the status
   * "Deleted", which is refused and changes nothing, then resolves the
   * complaint, which the reporter then sees.
   */
  method SubmitTrackAndResolve(store: ComplaintStore, req: SubmitRequest, draw: int, salts: Salts, newId: string,
                               now: int, header: Option<string>, verifyIdToken: Option<string> -> bool)
      returns (submitted: SubmitReply, first: TrackReply, refused: UpdateReply, middle: TrackReply,
               last: TrackReply)
    requires store.Valid()
    requires 0 <= draw < PinSpace && newId != "" && newId !in store.docs
    requires forall id :: id in store.docs ==> store.docs[id].createdAt.Some? && store.docs[id].createdAt.value <= now
    requires !Missing(req.title) && !Missing(req.category) && !Missing(req.description)
    requires Authorize(header, verifyIdToken) == Authorized
    modifies store
    ensures store.Valid()
    ensures submitted == Submitted(newId, RandomPin(draw))
    ensures first == Tracked("Open")
    ensures refused == InvalidStatus && refused.Code() == 400
    ensures middle == Tracked("Open")
    ensures last == Tracked("Resolved")
  {
    submitted := store.Submit(req, draw, salts, newId, now);
    first := Track(store.docs, store.crypto, Some(newId), Some(submitted.pin));
    refused := store.UpdateStatus(header, verifyIdToken, newId, Some("Deleted"));
    middle := Track(store.docs, store.crypto, Some(newId), Some(submitted.pin));
    var resolved := store.UpdateStatus(header, verifyIdToken, newId, Some("Resolved"));
    assert resolved == Updated;
    last := Track(store.docs, store.crypto, Some(newId), Some(submitted.pin));
  }
}
