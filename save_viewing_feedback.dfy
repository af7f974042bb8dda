/** The `save_viewing_feedback` chat tool
    (chat-service/src/tools/save-viewing-feedback.ts): one UpdateItem that
    sets the feedback, the time it was collected and the status `completed`
    on the user's viewing, and a confirmation message. The update has no
    condition, so for an id with no stored viewing DynamoDB creates an item
    holding only the key and the three attributes. */
module SaveViewingFeedback {
  import opened Common
  import opened Types
  import SearchWorker
  import GetPendingFeedback

  datatype Input = Input(viewingId: string, rating: int, notes: string, wouldMakeOffer: bool)

  const OfferClause := "Marked as interested in making an offer."
  const NoOfferClause := "Not pursuing an offer at this time."

  /** The viewing after `SET feedback = :feedback, feedbackCollectedAt = :now,
      #status = :status`. */
  function Saved(v: Viewing, input: Input, now: string): Viewing {
    v.(feedback := Some(ViewingFeedback(input.rating, input.notes, input.wouldMakeOffer)),
       feedbackCollectedAt := Some(now),
       status := Completed)
  }

  /** The item an update creates under a key with no stored viewing: the key
      attributes and nothing else. The absent string attributes (`listingId`,
      `profileId`, `listingAddress`, `requestedAt`) are empty strings here,
      the absent optional ones `None`; the status is overwritten by the
      update. */
  function Blank(userId: string, viewingId: string): Viewing {
    Viewing(userId, viewingId, "", "", "", None, None, "", None, Requested, None, None, None, None, None, None)
  }

  /** The update on the table, under the key `(userId, viewingId)`: it
      changes the stored viewing, or creates one when none is stored. */
  function Apply(viewings: map<(string, string), Viewing>, userId: string, input: Input, now: string)
    : (r: map<(string, string), Viewing>)
    ensures r.Keys == viewings.Keys + {(userId, input.viewingId)}
    ensures forall k :: k in viewings && k != (userId, input.viewingId) ==> r[k] == viewings[k]
    ensures (userId, input.viewingId) in viewings ==> r[(userId, input.viewingId)] == Saved(viewings[(userId, input.viewingId)], input, now)
  {
    var k := (userId, input.viewingId);
    viewings[k := Saved(if k in viewings then viewings[k] else Blank(userId, input.viewingId), input, now)]
  }

  /** For an id with no stored viewing the update creates one holding the
      key, the feedback, its collection time and the status `completed`, and
      no listing, profile, address, request time, agent, proposed time,
      slots or feedback request. */
  lemma ApplyCreates(viewings: map<(string, string), Viewing>, userId: string, input: Input, now: string)
    requires (userId, input.viewingId) !in viewings
    ensures var v := Apply(viewings, userId, input, now)[(userId, input.viewingId)];
      && v.userId == userId && v.viewingId == input.viewingId
      && v.feedback == Some(ViewingFeedback(input.rating, input.notes, input.wouldMakeOffer))
      && v.feedbackCollectedAt == Some(now) && v.status == Completed
      && v.listingId == "" && v.profileId == "" && v.listingAddress == "" && v.requestedAt == ""
      && v.agentEmail.None? && v.agentName.None? && v.proposedDateTime.None?
      && v.feedbackRequestedAt.None? && v.availabilitySlots.None?
      && v.agentSelectedSlot.None? && v.agentRespondedAt.None?
  {
  }

  /** The stored feedback is exactly the input's three fields, with no range
      check on the rating; only `feedback`, `feedbackCollectedAt` and `status`
      change. */
  lemma SavedFields(v: Viewing, input: Input, now: string)
    ensures var r := Saved(v, input, now);
      && r.feedback == Some(ViewingFeedback(input.rating, input.notes, input.wouldMakeOffer))
      && r.feedbackCollectedAt == Some(now)
      && r.status == Completed
      && r.(feedback := v.feedback, feedbackCollectedAt := v.feedbackCollectedAt, status := v.status) == v
  {
  }

  /** Once saved, a viewing passes neither the sweep's filter nor the
      pending-feedback filter, at any later time. */
  lemma SavedLeavesFilters(v: Viewing, input: Input, now: string, later: string)
    ensures !SearchWorker.FeedbackDue(Saved(v, input, now), later)
    ensures !GetPendingFeedback.Pending(Saved(v, input, now), later)
  {
  }

  /** Saving the same feedback twice at the same time is saving it once. */
  lemma SaveIdempotent(v: Viewing, input: Input, now: string)
    ensures Saved(Saved(v, input, now), input, now) == Saved(v, input, now)
  {
  }

  /** The saved or created viewing is stored under its own key. */
  lemma ApplyKeepsKeying(viewings: map<(string, string), Viewing>, userId: string, input: Input, now: string)
    requires GetPendingFeedback.Keyed(viewings)
    ensures GetPendingFeedback.Keyed(Apply(viewings, userId, input, now))
  {
  }

  /** `Feedback saved: <rating>/5 stars. ` followed by the offer clause. */
  function Message(input: Input): (m: string)
    ensures "Feedback saved: " <= m
    ensures var tail := if input.wouldMakeOffer then OfferClause else NoOfferClause;
      |m| >= |tail| && m[|m| - |tail|..] == tail
  {
    "Feedback saved: " + IntToString(input.rating) + "/5 stars. "
    + (if input.wouldMakeOffer then OfferClause else NoOfferClause)
  }

  /** The message ends with the offer clause exactly when the user would make
      an offer. */
  lemma MessageReportsOffer(input: Input)
    ensures var m := Message(input);
      (|m| >= |OfferClause| && m[|m| - |OfferClause|..] == OfferClause) <==> input.wouldMakeOffer
  {
    var m := Message(input);
    if !input.wouldMakeOffer {
      assert m[|m| - 2] == 'e';
      assert OfferClause[|OfferClause| - 2] == 'r';
    }
  }
}
