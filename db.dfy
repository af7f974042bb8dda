/** The tables and outboxes the services read and write: the DynamoDB tables
    of infra/lib/data-stack.ts as maps keyed by their partition and sort keys,
    the mail the e-mail service accepted, and the asynchronous search-worker
    invocations. */
module Db {
  import opened Common
  import opened Types

  /** The contents of every table at one moment. */
  datatype Tables = Tables(
    users: map<string, UserProfile>,
    results: map<(string, string), SearchResult>,
    notifications: seq<Notification>,
    viewings: map<(string, string), Viewing>,
    documents: map<(string, string), UserDocument>,
    outbox: seq<Delivery>,
    invocations: seq<WorkRequest>)

  class Store {
    /** UserProfile table, keyed by `userId`. */
    var users: map<string, UserProfile>
    /** SearchResults table, keyed by `(userId, profileIdListingId)`. */
    var results: map<(string, string), SearchResult>
    /** Notifications table, in the order the records were put. */
    var notifications: seq<Notification>
    /** Viewings table, keyed by `(userId, viewingId)`. */
    var viewings: map<(string, string), Viewing>
    /** UserDocuments table, keyed by `(userId, documentId)`. */
    var documents: map<(string, string), UserDocument>
    /** Every message the e-mail service accepted, in order. */
    var outbox: seq<Delivery>
    /** Every asynchronous search-worker invocation, in order. */
    var invocations: seq<WorkRequest>

    constructor (t: Tables)
      ensures State() == t
    {
      users, results, notifications := t.users, t.results, t.notifications;
      viewings, documents, outbox, invocations := t.viewings, t.documents, t.outbox, t.invocations;
    }

    function State(): Tables
      reads this
    {
      Tables(users, results, notifications, viewings, documents, outbox, invocations)
    }
  }

  /** How the worker may change the tables: no user profile, viewing creation
      or document changes; search results are only added or marked notified,
      never dropped and never un-notified; notifications and mail are only
      appended; a viewing changes at most by gaining `feedbackRequestedAt`. */
  predicate WorkerStep(before: Tables, after: Tables) {
    && after.users == before.users
    && after.documents == before.documents
    && after.invocations == before.invocations
    && before.notifications <= after.notifications
    && before.outbox <= after.outbox
    && (forall k :: k in before.results ==>
          k in after.results && (before.results[k].notified ==> after.results[k].notified))
    && after.viewings.Keys == before.viewings.Keys
    && (forall k :: k in before.viewings ==> ViewingStep(before.viewings[k], after.viewings[k]))
  }

  /** A viewing stays as it is, or gains its first `feedbackRequestedAt`. */
  predicate ViewingStep(before: Viewing, after: Viewing) {
    after == before
    || (before.feedbackRequestedAt.None? && after.feedbackRequestedAt.Some?
        && after == before.(feedbackRequestedAt := after.feedbackRequestedAt))
  }

  lemma WorkerStepReflexive(t: Tables)
    ensures WorkerStep(t, t)
  {
  }

  /** Worker steps compose: a run made of several keeps the same guarantees. */
  lemma WorkerStepTransitive(a: Tables, b: Tables, c: Tables)
    requires WorkerStep(a, b) && WorkerStep(b, c)
    ensures WorkerStep(a, c)
  {
  }
}
