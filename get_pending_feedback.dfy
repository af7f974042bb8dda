/** The `get_pending_feedback` chat tool
    (chat-service/src/tools/get-pending-feedback.ts): a Query on the user's
    partition of the Viewings table with a filter that keeps the viewings
    still waiting for the buyer's feedback. */
module GetPendingFeedback {
  import opened Common
  import opened Types
  import SearchWorker

  /** The filter expression: no feedback yet, and either no proposed time or
      one that sorts before now. */
  predicate Pending(v: Viewing, now: string) {
    v.feedback.None? && (v.proposedDateTime.None? || StrLess(v.proposedDateTime.value, now))
  }

  datatype Reply = Reply(viewings: seq<Viewing>, count: int)

  /** `execute` over the items of the Query, in their sort-key order. */
  function Execute(items: seq<Viewing>, now: string): (r: Reply)
    ensures r.count == |r.viewings|
    ensures IsSubsequence(r.viewings, items)
    ensures forall i :: 0 <= i < |r.viewings| ==> Pending(r.viewings[i], now)
    ensures forall i :: 0 <= i < |items| && Pending(items[i], now) ==> items[i] in r.viewings
  {
    var vs := Filter(items, (v: Viewing) => Pending(v, now));
    FilterIsSubsequence(items, (v: Viewing) => Pending(v, now));
    Reply(vs, |vs|)
  }

  /** Every viewing is stored under its own `(userId, viewingId)`. */
  predicate Keyed(viewings: map<(string, string), Viewing>) {
    forall k :: k in viewings ==> viewings[k].userId == k.0 && viewings[k].viewingId == k.1
  }

  /** `items` are what the key condition `userId = :uid` reads: stored
      viewings of that partition, and all of them. */
  predicate UserQuery(viewings: map<(string, string), Viewing>, userId: string, items: seq<Viewing>) {
    && (forall i :: 0 <= i < |items| ==>
          (userId, items[i].viewingId) in viewings && viewings[(userId, items[i].viewingId)] == items[i])
    && (forall k :: k in viewings && k.0 == userId ==> viewings[k] in items)
  }

  /** Only the requesting user's viewings come back, and each of that user's
      stored pending viewings does. */
  lemma OnlyOwnViewings(viewings: map<(string, string), Viewing>, userId: string, items: seq<Viewing>, now: string)
    requires Keyed(viewings) && UserQuery(viewings, userId, items)
    ensures forall i :: 0 <= i < |Execute(items, now).viewings| ==> Execute(items, now).viewings[i].userId == userId
    ensures forall k :: k in viewings && k.0 == userId && Pending(viewings[k], now) ==>
      viewings[k] in Execute(items, now).viewings
  {
    var r := Execute(items, now).viewings;
    forall i | 0 <= i < |r|
      ensures r[i].userId == userId
    {
      var j :| 0 <= j < |items| && items[j] == r[i];
      assert viewings[(userId, items[j].viewingId)] == items[j];
    }
  }

  /** Neither the status nor the sweep's stamp takes part in the filter. */
  lemma PendingIgnoresStatusAndStamp(v: Viewing, status: ViewingStatus, stamp: Option<string>, now: string)
    ensures Pending(v.(status := status, feedbackRequestedAt := stamp), now) == Pending(v, now)
  {
  }

  /** The sweep's filter is this one narrowed to viewings with a proposed time
      and no request sent yet; in particular every viewing the sweep asks
      about is also reported pending. */
  lemma DueIffPendingAndUnasked(v: Viewing, now: string)
    ensures SearchWorker.FeedbackDue(v, now)
      <==> Pending(v, now) && v.proposedDateTime.Some? && v.feedbackRequestedAt.None?
  {
  }

  /** A viewing without a proposed time is pending whenever it has no feedback,
      whatever the clock says. */
  lemma UnscheduledIsPending(v: Viewing, now: string)
    requires v.proposedDateTime.None? && v.feedback.None?
    ensures Pending(v, now)
  {
  }
}
