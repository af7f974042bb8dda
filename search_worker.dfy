/** The listing-match pipeline (chat-service/src/search-worker.ts). For each
    monitored search profile the worker asks the provider for listings, keeps
    those whose key `profileId#listingId` is not stored yet, writes them in
    batches of 25 with `notified = false`, then mails one message per match and
    marks it notified. A cron run pages through every user and then asks once
    for feedback on past viewings.

    The pure functions below are the reference meaning of one run over the
    table contents (`Tables`); the methods at the end update a `Store` step by
    step as the source does and are proved to end in the state those functions
    give. */
module SearchWorker {
  import opened Common
  import opened Types
  import opened Db
  import ListingUrl
  import EmailTemplates
  import Rentcast

  const BatchSize: nat := 25
  const ChatUrl := "https://app.sirrealtor.com/chat"

  /** Everything a run depends on besides the tables: the provider's HTTP
      request, whether the e-mail service accepts a message, whether DynamoDB
      accepts a batch, which of a profile's stored keys the one page of the
      existing-keys Query returns (DynamoDB stops a page at 1 MB, and the
      worker does not follow `LastEvaluatedKey`), fresh notification ids (by
      the number of records already stored), number formatting and the
      current time. */
  datatype Env = Env(
    fetch: seq<Rentcast.Param> -> Rentcast.FetchOutcome,
    existingPage: set<string> -> set<string>,
    accepts: Delivery -> bool,
    batchAccepted: seq<SearchResult> -> bool,
    newId: nat -> string,
    formatNumber: int -> string,
    now: string)

  /** How a call ends: normally, or with an exception that reaches the caller. */
  datatype Outcome = Returned | Threw(reason: string)

  // ---------------------------------------------------------------- keys

  /** The sort key of a search result. */
  function Key(profileId: string, listingId: string): string {
    profileId + "#" + listingId
  }

  /** Ids without `#` never share a key. */
  lemma KeyInjective(p1: string, l1: string, p2: string, l2: string)
    requires '#' !in p1 && '#' !in p2
    requires Key(p1, l1) == Key(p2, l2)
    ensures p1 == p2 && l1 == l2
  {
    var k := Key(p1, l1);
    assert k == p1 + "#" + l1 && k == p2 + "#" + l2;
    assert k[|p1|] == '#' && k[|p2|] == '#';
    assert forall i :: 0 <= i < |p1| ==> k[i] == p1[i];
    assert forall i :: 0 <= i < |p2| ==> k[i] == p2[i];
    assert p1 == k[..|p1|] == p2;
    assert l1 == k[|p1| + 1..] == l2;
  }

  /** With a `#` inside an id, two different (profile, listing) pairs share a
      key, so the diff would treat one listing as already seen. */
  lemma KeyCollision()
    ensures Key("a", "b#c") == Key("a#b", "c")
  {
    assert Key("a", "b#c") == "a#b#c" == Key("a#b", "c");
  }

  function ResultKey(r: SearchResult): (string, string) {
    (r.userId, r.profileIdListingId)
  }

  /** The sort keys the `begins_with(profileIdListingId, profileId#)` query
      returns for the user. */
  function ExistingKeys(results: map<(string, string), SearchResult>, userId: string, profileId: string): set<string> {
    set k | k in results && k.0 == userId && profileId + "#" <= k.1 :: k.1
  }

  /** The keys the worker reads: those of the stored keys that the Query's
      single page holds. */
  function ExistingRead(results: map<(string, string), SearchResult>, userId: string, profileId: string, env: Env): (r: set<string>)
    ensures r <= ExistingKeys(results, userId, profileId)
  {
    var stored := ExistingKeys(results, userId, profileId);
    stored * env.existingPage(stored)
  }

  /** The page holds every stored key of the profile. */
  predicate FullRead(results: map<(string, string), SearchResult>, userId: string, profileId: string, env: Env) {
    ExistingKeys(results, userId, profileId) <= env.existingPage(ExistingKeys(results, userId, profileId))
  }

  /** Every Query the run makes fits in one page. */
  ghost predicate ReadsAllKeys(env: Env) {
    forall stored: set<string> :: stored <= env.existingPage(stored)
  }

  lemma PrefixOfKey(profileId: string, listingId: string)
    ensures profileId + "#" <= Key(profileId, listingId)
  {
    assert Key(profileId, listingId)[..|profileId| + 1] == profileId + "#";
  }

  // ---------------------------------------------------------------- the diff

  /** The filter of the diff: the listing's key is not among those read. */
  function Unseen(existing: set<string>, profileId: string): Listing -> bool {
    (l: Listing) => Key(profileId, l.listingId) !in existing
  }

  /** The fetched listings whose key is not among those read, in provider
      order; a listing the response holds twice is kept twice. */
  function NewListings(listings: seq<Listing>, existing: set<string>, profileId: string): (r: seq<Listing>)
    ensures IsSubsequence(r, listings)
    ensures forall i :: 0 <= i < |r| ==> r[i] in listings && Key(profileId, r[i].listingId) !in existing
    ensures forall i :: 0 <= i < |listings| && Key(profileId, listings[i].listingId) !in existing ==> listings[i] in r
  {
    FilterIsSubsequence(listings, Unseen(existing, profileId));
    Filter(listings, Unseen(existing, profileId))
  }

  /** The diff keeps each unseen listing as many times as the response holds
      it, and no seen one. */
  lemma NewListingsCounts(listings: seq<Listing>, existing: set<string>, profileId: string)
    ensures var r := NewListings(listings, existing, profileId);
      forall l :: multiset(r)[l] == if Key(profileId, l.listingId) in existing then 0 else multiset(listings)[l]
  {
    FilterMultiset(listings, Unseen(existing, profileId));
  }

  /** One listing given the URL of the user's platform. */
  function Enrich(l: Listing, preference: Option<string>): Listing {
    l.(listingUrl := Some(ListingUrl.BuildListingUrl(l.address, preference)))
  }

  function EnrichAll(ls: seq<Listing>, preference: Option<string>): (r: seq<Listing>)
    ensures |r| == |ls|
    ensures forall i :: 0 <= i < |ls| ==> r[i] == Enrich(ls[i], preference)
  {
    seq(|ls|, i requires 0 <= i < |ls| => Enrich(ls[i], preference))
  }

  /** The SearchResult written for one new listing. */
  function Record(userId: string, profileId: string, now: string, l: Listing): SearchResult {
    SearchResult(userId, Key(profileId, l.listingId), profileId, l.listingId, l, now, false)
  }

  function Records(userId: string, profileId: string, now: string, ls: seq<Listing>): (r: seq<SearchResult>)
    ensures |r| == |ls|
    ensures forall i :: 0 <= i < |ls| ==> r[i] == Record(userId, profileId, now, ls[i])
  {
    seq(|ls|, i requires 0 <= i < |ls| => Record(userId, profileId, now, ls[i]))
  }

  // ---------------------------------------------------------------- batches

  /** `slice(i, i + 25)` for `i = 0, 25, 50, …` while `i < |s|`. */
  function Batches(s: seq<SearchResult>): (r: seq<seq<SearchResult>>)
    ensures forall j :: 0 <= j < |r| ==> 0 < |r[j]| <= BatchSize
    decreases |s|
  {
    if s == [] then [] else if |s| <= BatchSize then [s] else [s[..BatchSize]] + Batches(s[BatchSize..])
  }

  function Flatten<T>(chunks: seq<seq<T>>): seq<T> {
    if chunks == [] then [] else chunks[0] + Flatten(chunks[1..])
  }

  lemma {:induction false} FlattenAppend<T>(a: seq<seq<T>>, b: seq<seq<T>>)
    ensures Flatten(a + b) == Flatten(a) + Flatten(b)
  {
    if a == [] {
      assert a + b == b;
    } else {
      assert (a + b)[1..] == a[1..] + b;
      FlattenAppend(a[1..], b);
    }
  }

  /** The batches cover the list exactly, in order; every batch but the last
      is full; there are `ceil(|s| / 25)` of them. */
  lemma {:induction false} BatchesCover(s: seq<SearchResult>)
    ensures Flatten(Batches(s)) == s
    ensures |Batches(s)| == (|s| + BatchSize - 1) / BatchSize
    ensures forall j :: 0 <= j < |Batches(s)| - 1 ==> |Batches(s)[j]| == BatchSize
    decreases |s|
  {
    if |s| > BatchSize {
      BatchesCover(s[BatchSize..]);
      assert s == s[..BatchSize] + s[BatchSize..];
    }
  }

  /** There is a j-th batch exactly when `25 j` is inside the list. */
  lemma {:induction false} BatchIndex(s: seq<SearchResult>, j: nat)
    ensures j < |Batches(s)| <==> j * BatchSize < |s|
    decreases |s|
  {
    if |s| > BatchSize && j > 0 {
      BatchIndex(s[BatchSize..], j - 1);
    }
  }

  /** The j-th batch is the slice `[25 j, min(25 (j + 1), |s|))`. */
  lemma {:induction false} BatchAt(s: seq<SearchResult>, j: nat)
    requires j < |Batches(s)|
    ensures j * BatchSize < |s|
    ensures Batches(s)[j] == s[j * BatchSize .. if (j + 1) * BatchSize <= |s| then (j + 1) * BatchSize else |s|]
    decreases |s|
  {
    if j > 0 {
      var rest := s[BatchSize..];
      assert Batches(s) == [s[..BatchSize]] + Batches(rest);
      BatchAt(rest, j - 1);
      var lo := (j - 1) * BatchSize;
      assert lo + BatchSize == j * BatchSize && j * BatchSize + BatchSize == (j + 1) * BatchSize;
      var hi := if lo + BatchSize <= |rest| then lo + BatchSize else |rest|;
      assert rest[lo..hi] == s[lo + BatchSize..hi + BatchSize];
    }
  }

  /** 57 new listings are written as 25, 25 and 7. */
  lemma FiftySevenInThreeBatches(s: seq<SearchResult>)
    requires |s| == 57
    ensures var c := Batches(s);
      |c| == 3 && |c[0]| == 25 && |c[1]| == 25 && |c[2]| == 7
  {
    BatchesCover(s);
    BatchAt(s, 2);
  }

  /** DynamoDB refuses a batch that puts the same key twice; otherwise the
      batch is written when the service accepts it. */
  predicate BatchWriteOk(batch: seq<SearchResult>, env: Env) {
    (forall i, j :: 0 <= i < j < |batch| ==> ResultKey(batch[i]) != ResultKey(batch[j]))
    && env.batchAccepted(batch)
  }

  /** How many leading batches are written before the first refused one. */
  function WrittenBatches(chunks: seq<seq<SearchResult>>, env: Env): (k: nat)
    ensures k <= |chunks|
    ensures forall j :: 0 <= j < k ==> BatchWriteOk(chunks[j], env)
    ensures k < |chunks| ==> !BatchWriteOk(chunks[k], env)
  {
    if chunks == [] || !BatchWriteOk(chunks[0], env) then 0
    else 1 + WrittenBatches(chunks[1..], env)
  }

  /** A provider response naming one new listing twice within the same batch
      makes that batch, and so the whole profile run, fail. */
  lemma DuplicateInBatchFails(records: seq<SearchResult>, i: nat, j: nat, env: Env)
    requires i < j < |records| && j < BatchSize && ResultKey(records[i]) == ResultKey(records[j])
    ensures WrittenBatches(Batches(records), env) == 0
  {
    var c := Batches(records);
    BatchAt(records, 0);
    assert c[0][i] == records[i] && c[0][j] == records[j];
  }

  /** Two new listings with one id among the first 25 put one key twice in
      the first batch: nothing is written and the run throws. */
  lemma StoreNewDuplicateFails(t: Tables, user: UserProfile, sp: SearchProfile, news: seq<Listing>, env: Env, a: nat, b: nat)
    requires a < b < |news| && b < BatchSize && news[a].listingId == news[b].listingId
    ensures StoreNew(t, user, sp, news, env) == (t, Threw("BatchWriteItem failed"))
  {
    var records := NewRecords(user, sp, news, env);
    assert records[a] == Record(user.userId, sp.profileId, env.now, Enrich(news[a], user.listingViewingPreference));
    assert records[b] == Record(user.userId, sp.profileId, env.now, Enrich(news[b], user.listingViewingPreference));
    DuplicateInBatchFails(records, a, b, env);
    var chunks := Batches(records);
    BatchIndex(records, 0);
    assert Flatten(chunks[..0]) == [];
  }

  /** A provider response naming an unseen listing id twice among its first
      25 listings fails the whole profile run before anything is written. */
  lemma RepeatedNewListingFails(t: Tables, user: UserProfile, sp: SearchProfile, env: Env, i: nat, j: nat)
    requires Fetched(sp, env).Ok?
    requires i < j < |Fetched(sp, env).value| && j < BatchSize
    requires Fetched(sp, env).value[i].listingId == Fetched(sp, env).value[j].listingId
    requires Key(sp.profileId, Fetched(sp, env).value[i].listingId) !in ExistingRead(t.results, user.userId, sp.profileId, env)
    ensures ProfileRun(t, user, sp, env) == (t, Threw("BatchWriteItem failed"))
  {
    var listings := Fetched(sp, env).value;
    var p := Unseen(ExistingRead(t.results, user.userId, sp.profileId, env), sp.profileId);
    var news := FoundNew(t, user, sp, env);
    assert news == Filter(listings, p);
    assert p(listings[i]) && p(listings[j]);
    FilterPosition(listings, p, i);
    FilterPosition(listings, p, j);
    FilterOrder(listings, p, i, j);
    StoreNewDuplicateFails(t, user, sp, news, env, |Filter(listings[..i], p)|, |Filter(listings[..j], p)|);
  }

  // ---------------------------------------------------------------- writes

  /** Putting records one after another; a later record replaces an earlier
      one with the same key. */
  function PutAll(results: map<(string, string), SearchResult>, rs: seq<SearchResult>): (r: map<(string, string), SearchResult>)
    ensures results.Keys <= r.Keys
    ensures forall i :: 0 <= i < |rs| ==> ResultKey(rs[i]) in r
  {
    if rs == [] then results
    else PutAll(results, rs[..|rs| - 1])[ResultKey(rs[|rs| - 1]) := rs[|rs| - 1]]
  }

  lemma {:induction false} PutAllAppend(m: map<(string, string), SearchResult>, a: seq<SearchResult>, b: seq<SearchResult>)
    ensures PutAll(m, a + b) == PutAll(PutAll(m, a), b)
    decreases |b|
  {
    if b == [] {
      assert a + b == a;
    } else {
      assert (a + b)[..|a + b| - 1] == a + b[..|b| - 1];
      PutAllAppend(m, a, b[..|b| - 1]);
    }
  }

  /** After the puts every record's key is stored, holding the last record
      put with that key; every other entry is untouched. */
  lemma {:induction false} PutAllLookup(m: map<(string, string), SearchResult>, rs: seq<SearchResult>, k: (string, string))
    ensures k in PutAll(m, rs) <==> k in m || exists i :: 0 <= i < |rs| && ResultKey(rs[i]) == k
    ensures (forall i :: 0 <= i < |rs| ==> ResultKey(rs[i]) != k) && k in m ==> PutAll(m, rs)[k] == m[k]
    ensures forall i ::
              (0 <= i < |rs| && ResultKey(rs[i]) == k && (forall j :: i < j < |rs| ==> ResultKey(rs[j]) != k))
              ==> PutAll(m, rs)[k] == rs[i]
  {
    if rs != [] {
      var init := rs[..|rs| - 1];
      PutAllLookup(m, init, k);
      assert forall i :: 0 <= i < |init| ==> init[i] == rs[i];
      if ResultKey(rs[|rs| - 1]) != k {
        assert (exists i :: 0 <= i < |rs| && ResultKey(rs[i]) == k) <==> (exists i :: 0 <= i < |init| && ResultKey(init[i]) == k);
      }
    }
  }

  // ---------------------------------------------------------------- mail

  /** The match e-mail for one listing, addressed to the user. */
  function MatchDelivery(user: UserProfile, l: Listing, env: Env): Delivery {
    var e := EmailTemplates.NewListingMatchEmail(l, ChatUrl, env.formatNumber);
    Delivery(user.email, e.subject, e.body)
  }

  /** The message the send loop builds for each listing. The loop and its
      lemmas below are stated for any such `mail`; the worker passes this one,
      so that the properties of the loop do not depend on the template text. */
  function MatchMail(user: UserProfile, env: Env): Listing -> Delivery {
    l => MatchDelivery(user, l, env)
  }

  /** `SET notified = true` on one stored result. */
  function MarkNotified(results: map<(string, string), SearchResult>, k: (string, string)): (r: map<(string, string), SearchResult>)
    ensures r.Keys == results.Keys
  {
    if k in results then results[k := results[k].(notified := true)] else results
  }

  /** One pass of the send loop with message `d` for listing `l`: when the
      e-mail service accepts the message, the result is marked notified and a
      `new_listing` notification with the message's subject is put; when it
      does not, the error is caught and nothing is written. */
  function NotifyOne(t: Tables, user: UserProfile, profileId: string, l: Listing, d: Delivery, env: Env): Tables {
    if env.accepts(d) then
      t.(outbox := t.outbox + [d],
         results := MarkNotified(t.results, (user.userId, Key(profileId, l.listingId))),
         notifications := t.notifications + [
           Notification(user.userId, env.newId(|t.notifications|), NewListing, EmailChannel,
                        user.email, d.subject, env.now, "sent")])
    else t
  }

  /** The send loop over the given listings, in order. It leaves every other
      table alone and adds no result key. */
  function NotifyAll(t: Tables, user: UserProfile, profileId: string, ls: seq<Listing>, mail: Listing -> Delivery, env: Env): (r: Tables)
    ensures && r.users == t.users && r.viewings == t.viewings && r.documents == t.documents
            && r.invocations == t.invocations && r.results.Keys == t.results.Keys
  {
    if ls == [] then t
    else
      var l := ls[|ls| - 1];
      NotifyOne(NotifyAll(t, user, profileId, ls[..|ls| - 1], mail, env), user, profileId, l, mail(l), env)
  }

  /** The messages the service accepts, in order. */
  function Sent(ls: seq<Listing>, mail: Listing -> Delivery, accepts: Delivery -> bool): (r: seq<Delivery>)
    ensures |r| <= |ls|
    ensures forall i :: 0 <= i < |r| ==> accepts(r[i])
    ensures forall i :: 0 <= i < |ls| && accepts(mail(ls[i])) ==> mail(ls[i]) in r
  {
    if ls == [] then []
    else
      var d := mail(ls[|ls| - 1]);
      Sent(ls[..|ls| - 1], mail, accepts) + if accepts(d) then [d] else []
  }

  /** One more pass of the send loop. */
  lemma NotifyStep(t: Tables, user: UserProfile, profileId: string, ls: seq<Listing>, i: nat, mail: Listing -> Delivery, env: Env)
    requires i < |ls|
    ensures NotifyAll(t, user, profileId, ls[..i + 1], mail, env)
         == NotifyOne(NotifyAll(t, user, profileId, ls[..i], mail, env), user, profileId, ls[i], mail(ls[i]), env)
  {
    assert ls[..i + 1][..i] == ls[..i];
  }

  /** The send loop mails exactly the accepted messages, in order. */
  lemma {:induction false} NotifyAllOutbox(t: Tables, user: UserProfile, profileId: string, ls: seq<Listing>, mail: Listing -> Delivery, env: Env)
    ensures NotifyAll(t, user, profileId, ls, mail, env).outbox == t.outbox + Sent(ls, mail, env.accepts)
  {
    if ls != [] {
      var init := ls[..|ls| - 1];
      var d := mail(ls[|ls| - 1]);
      var extra := if env.accepts(d) then [d] else [];
      NotifyAllOutbox(t, user, profileId, init, mail, env);
      assert NotifyAll(t, user, profileId, ls, mail, env).outbox == NotifyAll(t, user, profileId, init, mail, env).outbox + extra;
      AppendAssoc(t.outbox, Sent(init, mail, env.accepts), extra);
    }
  }

  /** The notifications put for new listings: one per accepted message,
      appended after the existing records. */
  predicate MatchNotification(n: Notification, user: UserProfile, env: Env) {
    && n.kind == NewListing && n.channel == EmailChannel && n.status == "sent"
    && n.userId == user.userId && n.recipientAddress == user.email && n.sentAt == env.now
  }

  lemma {:induction false} NotifyAllNotifications(t: Tables, user: UserProfile, profileId: string, ls: seq<Listing>, mail: Listing -> Delivery, env: Env)
    ensures var t' := NotifyAll(t, user, profileId, ls, mail, env);
      && t.notifications <= t'.notifications
      && |t'.notifications| == |t.notifications| + |Sent(ls, mail, env.accepts)|
      && forall i :: |t.notifications| <= i < |t'.notifications| ==> MatchNotification(t'.notifications[i], user, env)
  {
    if ls != [] {
      NotifyAllNotifications(t, user, profileId, ls[..|ls| - 1], mail, env);
    }
  }

  /** The key of one of the listings whose message was accepted. */
  predicate MarkedBy(k: (string, string), user: UserProfile, profileId: string, ls: seq<Listing>, mail: Listing -> Delivery, env: Env) {
    exists i :: 0 <= i < |ls| && k == (user.userId, Key(profileId, ls[i].listingId)) && env.accepts(mail(ls[i]))
  }

  /** A stored result is marked notified exactly when the message of a listing
      with its key was accepted; otherwise it is untouched. */
  lemma {:induction false} NotifyAllMarks(t: Tables, user: UserProfile, profileId: string, ls: seq<Listing>, mail: Listing -> Delivery, env: Env, k: (string, string))
    requires k in t.results
    ensures k in NotifyAll(t, user, profileId, ls, mail, env).results
    ensures NotifyAll(t, user, profileId, ls, mail, env).results[k]
         == if MarkedBy(k, user, profileId, ls, mail, env) then t.results[k].(notified := true) else t.results[k]
  {
    if ls != [] {
      var init := ls[..|ls| - 1];
      var l := ls[|ls| - 1];
      NotifyAllMarks(t, user, profileId, init, mail, env, k);
      var before := NotifyAll(t, user, profileId, init, mail, env);
      var hit := env.accepts(mail(l)) && k == (user.userId, Key(profileId, l.listingId));
      assert NotifyAll(t, user, profileId, ls, mail, env).results[k]
          == if hit then before.results[k].(notified := true) else before.results[k];
      MarkedBySnoc(k, user, profileId, ls, mail, env);
    }
  }

  lemma MarkedBySnoc(k: (string, string), user: UserProfile, profileId: string, ls: seq<Listing>, mail: Listing -> Delivery, env: Env)
    requires ls != []
    ensures var l := ls[|ls| - 1];
      MarkedBy(k, user, profileId, ls, mail, env) <==>
        MarkedBy(k, user, profileId, ls[..|ls| - 1], mail, env)
        || (env.accepts(mail(l)) && k == (user.userId, Key(profileId, l.listingId)))
  {
    var init := ls[..|ls| - 1];
    assert forall i :: 0 <= i < |init| ==> init[i] == ls[i];
    if MarkedBy(k, user, profileId, ls, mail, env) && !MarkedBy(k, user, profileId, init, mail, env) {
      var i :| 0 <= i < |ls| && k == (user.userId, Key(profileId, ls[i].listingId)) && env.accepts(mail(ls[i]));
      assert i == |ls| - 1;
    }
  }

  // ---------------------------------------------------------------- one profile

  /** The provider's answer for the profile's criteria. */
  function Fetched(sp: SearchProfile, env: Env): Result<seq<Listing>, string> {
    Rentcast.Interpret(env.fetch(Rentcast.ExpectedParams(sp.criteria)))
  }

  /** The listings a profile run finds new, given the keys it reads; none
      when the provider fails. */
  function FoundNew(t: Tables, user: UserProfile, sp: SearchProfile, env: Env): seq<Listing> {
    var fetched := Fetched(sp, env);
    if fetched.Err? then []
    else NewListings(fetched.value, ExistingRead(t.results, user.userId, sp.profileId, env), sp.profileId)
  }

  /** `processSearchProfile` on the tables: the reference meaning of one
      profile run. A provider failure or an empty diff ends it quietly. */
  function ProfileRun(t: Tables, user: UserProfile, sp: SearchProfile, env: Env): (r: (Tables, Outcome))
    ensures && r.0.users == t.users && r.0.viewings == t.viewings
            && r.0.documents == t.documents && r.0.invocations == t.invocations
    ensures FoundNew(t, user, sp, env) == [] ==> r == (t, Returned)
  {
    var news := FoundNew(t, user, sp, env);
    if news == [] then (t, Returned) else StoreNew(t, user, sp, news, env)
  }

  /** The records of the new listings, each with its platform URL. */
  function NewRecords(user: UserProfile, sp: SearchProfile, news: seq<Listing>, env: Env): seq<SearchResult> {
    Records(user.userId, sp.profileId, env.now, EnrichAll(news, user.listingViewingPreference))
  }

  /** Writing the batches in order, stopping at the first refused one (whose
      exception leaves the run), then mailing every match when the profile
      wants e-mail and the user has an address. */
  function StoreNew(t: Tables, user: UserProfile, sp: SearchProfile, news: seq<Listing>, env: Env): (r: (Tables, Outcome))
    ensures && r.0.users == t.users && r.0.viewings == t.viewings
            && r.0.documents == t.documents && r.0.invocations == t.invocations
  {
    var chunks := Batches(NewRecords(user, sp, news, env));
    var k := WrittenBatches(chunks, env);
    var written := t.(results := PutAll(t.results, Flatten(chunks[..k])));
    if k < |chunks| then (written, Threw("BatchWriteItem failed"))
    else if sp.notificationPreferences.email && user.email != "" then
      (NotifyAll(written, user, sp.profileId, EnrichAll(news, user.listingViewingPreference), MatchMail(user, env), env), Returned)
    else (written, Returned)
  }

  /** Every listing of the provider's answer has a stored key for the user. */
  predicate AllStored(results: map<(string, string), SearchResult>, user: UserProfile, sp: SearchProfile, listings: seq<Listing>) {
    forall i :: 0 <= i < |listings| ==> (user.userId, Key(sp.profileId, listings[i].listingId)) in results
  }

  /** Writing the records of the new listings stores a key for every fetched
      listing, whichever of the stored keys were read. */
  lemma PutNewStoresAll(results: map<(string, string), SearchResult>, user: UserProfile, sp: SearchProfile, env: Env,
                        listings: seq<Listing>, existing: set<string>)
    requires existing <= ExistingKeys(results, user.userId, sp.profileId)
    ensures var news := NewListings(listings, existing, sp.profileId);
      AllStored(PutAll(results, NewRecords(user, sp, news, env)), user, sp, listings)
  {
    forall i | 0 <= i < |listings|
      ensures var news := NewListings(listings, existing, sp.profileId);
        (user.userId, Key(sp.profileId, listings[i].listingId)) in PutAll(results, NewRecords(user, sp, news, env))
    {
      PutNewStoresOne(results, user, sp, env, listings, existing, i);
    }
  }

  lemma PutNewStoresOne(results: map<(string, string), SearchResult>, user: UserProfile, sp: SearchProfile, env: Env,
                        listings: seq<Listing>, existing: set<string>, i: nat)
    requires existing <= ExistingKeys(results, user.userId, sp.profileId)
    requires i < |listings|
    ensures var news := NewListings(listings, existing, sp.profileId);
      (user.userId, Key(sp.profileId, listings[i].listingId)) in PutAll(results, NewRecords(user, sp, news, env))
  {
    var news := NewListings(listings, existing, sp.profileId);
    var records := NewRecords(user, sp, news, env);
    var key := Key(sp.profileId, listings[i].listingId);
    if key in existing {
      assert (user.userId, key) in results;
    } else {
      assert listings[i] in news;
      var j :| 0 <= j < |news| && news[j] == listings[i];
      assert records[j] == Record(user.userId, sp.profileId, env.now, Enrich(news[j], user.listingViewingPreference));
      assert ResultKey(records[j]) == (user.userId, key);
    }
  }

  /** When every batch is written, every record is. */
  lemma AllWritten(records: seq<SearchResult>, env: Env)
    requires WrittenBatches(Batches(records), env) == |Batches(records)|
    ensures Flatten(Batches(records)[..WrittenBatches(Batches(records), env)]) == records
  {
    BatchesCover(records);
    assert Batches(records)[..|Batches(records)|] == Batches(records);
  }

  /** A store step that returns normally has written every new record, and
      the mail it sends adds or removes no key. */
  lemma StoreNewKeys(t: Tables, user: UserProfile, sp: SearchProfile, news: seq<Listing>, env: Env)
    requires StoreNew(t, user, sp, news, env).1 == Returned
    ensures StoreNew(t, user, sp, news, env).0.results.Keys == PutAll(t.results, NewRecords(user, sp, news, env)).Keys
  {
    var records := NewRecords(user, sp, news, env);
    AllWritten(records, env);
    var written := t.(results := PutAll(t.results, records));
    if sp.notificationPreferences.email && user.email != "" {
      assert StoreNew(t, user, sp, news, env).0
          == NotifyAll(written, user, sp.profileId, EnrichAll(news, user.listingViewingPreference), MatchMail(user, env), env);
    } else {
      assert StoreNew(t, user, sp, news, env).0 == written;
    }
  }

  /** A run that returns normally stores a key for every listing the provider
      gave. */
  lemma CompletedRunStoresAll(t: Tables, user: UserProfile, sp: SearchProfile, env: Env)
    requires ProfileRun(t, user, sp, env).1 == Returned
    requires Fetched(sp, env).Ok?
    ensures AllStored(ProfileRun(t, user, sp, env).0.results, user, sp, Fetched(sp, env).value)
  {
    var listings := Fetched(sp, env).value;
    var news := FoundNew(t, user, sp, env);
    PutNewStoresAll(t.results, user, sp, env, listings, ExistingRead(t.results, user.userId, sp.profileId, env));
    if news == [] {
      assert NewRecords(user, sp, news, env) == [];
    } else {
      StoreNewKeys(t, user, sp, news, env);
    }
  }

  /** Dedup idempotence: once a run has returned normally, a second run with
      the same provider answer, whose Query page holds all the profile's
      stored keys, finds nothing new and changes nothing. */
  lemma SecondRunIsNoOp(t: Tables, user: UserProfile, sp: SearchProfile, env: Env)
    requires ProfileRun(t, user, sp, env).1 == Returned
    requires FullRead(ProfileRun(t, user, sp, env).0.results, user.userId, sp.profileId, env)
    ensures var t' := ProfileRun(t, user, sp, env).0;
      FoundNew(t', user, sp, env) == [] && ProfileRun(t', user, sp, env) == (t', Returned)
  {
    var fetched := Fetched(sp, env);
    if fetched.Ok? {
      var t' := ProfileRun(t, user, sp, env).0;
      CompletedRunStoresAll(t, user, sp, env);
      var existing := ExistingRead(t'.results, user.userId, sp.profileId, env);
      assert existing == ExistingKeys(t'.results, user.userId, sp.profileId);
      forall i | 0 <= i < |fetched.value|
        ensures Key(sp.profileId, fetched.value[i].listingId) in existing
      {
        PrefixOfKey(sp.profileId, fetched.value[i].listingId);
      }
    }
  }

  /** A fetched listing whose stored key the Query's page left out is found
      new again. */
  lemma PageMissFoundAgain(t: Tables, user: UserProfile, sp: SearchProfile, env: Env, i: nat)
    requires Fetched(sp, env).Ok? && i < |Fetched(sp, env).value|
    requires Key(sp.profileId, Fetched(sp, env).value[i].listingId)
             !in env.existingPage(ExistingKeys(t.results, user.userId, sp.profileId))
    ensures Fetched(sp, env).value[i] in FoundNew(t, user, sp, env)
  {
    var existing := ExistingRead(t.results, user.userId, sp.profileId, env);
    assert Key(sp.profileId, Fetched(sp, env).value[i].listingId) !in existing;
  }

  /** Putting un-notified records, one of them under `k`, leaves `k` stored
      and not notified. */
  lemma {:induction false} PutUnnotifiedKey(m: map<(string, string), SearchResult>, rs: seq<SearchResult>, j: nat)
    requires j < |rs| && forall i :: 0 <= i < |rs| ==> !rs[i].notified
    ensures !PutAll(m, rs)[ResultKey(rs[j])].notified
  {
    if ResultKey(rs[|rs| - 1]) != ResultKey(rs[j]) {
      PutUnnotifiedKey(m, rs[..|rs| - 1], j);
    }
  }

  /** A completed store step that mails nothing leaves the key of every new
      listing un-notified, whatever was stored under it. */
  lemma StoreNewResets(t: Tables, user: UserProfile, sp: SearchProfile, news: seq<Listing>, env: Env, j: nat)
    requires j < |news| && StoreNew(t, user, sp, news, env).1 == Returned
    requires !(sp.notificationPreferences.email && user.email != "")
    ensures var k := (user.userId, Key(sp.profileId, news[j].listingId));
      k in StoreNew(t, user, sp, news, env).0.results && !StoreNew(t, user, sp, news, env).0.results[k].notified
  {
    var records := NewRecords(user, sp, news, env);
    AllWritten(records, env);
    assert StoreNew(t, user, sp, news, env).0 == t.(results := PutAll(t.results, records));
    assert records[j] == Record(user.userId, sp.profileId, env.now, Enrich(news[j], user.listingViewingPreference));
    assert forall i :: 0 <= i < |records| ==> !records[i].notified;
    PutUnnotifiedKey(t.results, records, j);
  }

  /** A completed store step that mails the matches sends the match of every
      new listing that the e-mail service accepts, whatever was stored. */
  lemma StoreNewMails(t: Tables, user: UserProfile, sp: SearchProfile, news: seq<Listing>, env: Env, j: nat)
    requires j < |news| && StoreNew(t, user, sp, news, env).1 == Returned
    requires sp.notificationPreferences.email && user.email != ""
    requires env.accepts(MatchDelivery(user, Enrich(news[j], user.listingViewingPreference), env))
    ensures |t.outbox| <= |StoreNew(t, user, sp, news, env).0.outbox|
    ensures MatchDelivery(user, Enrich(news[j], user.listingViewingPreference), env)
            in StoreNew(t, user, sp, news, env).0.outbox[|t.outbox|..]
  {
    var enriched := EnrichAll(news, user.listingViewingPreference);
    var records := NewRecords(user, sp, news, env);
    var chunks := Batches(records);
    var written := t.(results := PutAll(t.results, Flatten(chunks[..WrittenBatches(chunks, env)])));
    assert StoreNew(t, user, sp, news, env).0 == NotifyAll(written, user, sp.profileId, enriched, MatchMail(user, env), env);
    NotifyAllOutbox(written, user, sp.profileId, enriched, MatchMail(user, env), env);
    assert MatchMail(user, env)(enriched[j]) == MatchDelivery(user, Enrich(news[j], user.listingViewingPreference), env);
    assert StoreNew(t, user, sp, news, env).0.outbox[|t.outbox|..] == Sent(enriched, MatchMail(user, env), env.accepts);
  }

  /** With a stored key missing from the Query's page, a run that returns
      normally puts that listing again with `notified = false`: a result
      already notified loses its flag, so the run is not a worker step. */
  lemma PageMissResetsFlag(t: Tables, user: UserProfile, sp: SearchProfile, env: Env, i: nat)
    requires Fetched(sp, env).Ok? && i < |Fetched(sp, env).value|
    requires Key(sp.profileId, Fetched(sp, env).value[i].listingId)
             !in env.existingPage(ExistingKeys(t.results, user.userId, sp.profileId))
    requires ProfileRun(t, user, sp, env).1 == Returned
    requires !(sp.notificationPreferences.email && user.email != "")
    ensures var k := (user.userId, Key(sp.profileId, Fetched(sp, env).value[i].listingId));
      k in ProfileRun(t, user, sp, env).0.results && !ProfileRun(t, user, sp, env).0.results[k].notified
    ensures var k := (user.userId, Key(sp.profileId, Fetched(sp, env).value[i].listingId));
      k in t.results && t.results[k].notified ==> !WorkerStep(t, ProfileRun(t, user, sp, env).0)
  {
    var news := FoundNew(t, user, sp, env);
    PageMissFoundAgain(t, user, sp, env, i);
    var j :| 0 <= j < |news| && news[j] == Fetched(sp, env).value[i];
    assert ProfileRun(t, user, sp, env) == StoreNew(t, user, sp, news, env);
    StoreNewResets(t, user, sp, news, env, j);
  }

  /** With a stored key missing from the Query's page, a run that returns
      normally mails that listing's match again when the service accepts it. */
  lemma PageMissMailsAgain(t: Tables, user: UserProfile, sp: SearchProfile, env: Env, i: nat)
    requires Fetched(sp, env).Ok? && i < |Fetched(sp, env).value|
    requires Key(sp.profileId, Fetched(sp, env).value[i].listingId)
             !in env.existingPage(ExistingKeys(t.results, user.userId, sp.profileId))
    requires ProfileRun(t, user, sp, env).1 == Returned
    requires sp.notificationPreferences.email && user.email != ""
    requires env.accepts(MatchDelivery(user, Enrich(Fetched(sp, env).value[i], user.listingViewingPreference), env))
    ensures |t.outbox| <= |ProfileRun(t, user, sp, env).0.outbox|
    ensures MatchDelivery(user, Enrich(Fetched(sp, env).value[i], user.listingViewingPreference), env)
            in ProfileRun(t, user, sp, env).0.outbox[|t.outbox|..]
  {
    var news := FoundNew(t, user, sp, env);
    PageMissFoundAgain(t, user, sp, env, i);
    var j :| 0 <= j < |news| && news[j] == Fetched(sp, env).value[i];
    assert ProfileRun(t, user, sp, env) == StoreNew(t, user, sp, news, env);
    StoreNewMails(t, user, sp, news, env, j);
  }

  /** Putting records under keys not stored yet is a worker step. */
  lemma PutFreshIsWorkerStep(t: Tables, rs: seq<SearchResult>)
    requires forall i :: 0 <= i < |rs| ==> ResultKey(rs[i]) !in t.results
    ensures WorkerStep(t, t.(results := PutAll(t.results, rs)))
  {
    forall k | k in t.results
      ensures k in PutAll(t.results, rs) && PutAll(t.results, rs)[k] == t.results[k]
    {
      PutAllKeepsOther(t.results, rs, k);
    }
  }

  /** The send loop is a worker step. */
  lemma NotifyAllIsWorkerStep(t: Tables, user: UserProfile, profileId: string, ls: seq<Listing>, mail: Listing -> Delivery, env: Env)
    ensures WorkerStep(t, NotifyAll(t, user, profileId, ls, mail, env))
  {
    NotifyAllOutbox(t, user, profileId, ls, mail, env);
    NotifyAllNotifications(t, user, profileId, ls, mail, env);
    forall k | k in t.results
      ensures t.results[k].notified ==> NotifyAll(t, user, profileId, ls, mail, env).results[k].notified
    {
      NotifyAllMarks(t, user, profileId, ls, mail, env, k);
    }
  }

  /** What the written batches hold is a prefix of the records. */
  lemma WrittenPrefix(records: seq<SearchResult>, k: nat)
    requires k <= |Batches(records)|
    ensures Flatten(Batches(records)[..k]) <= records
  {
    var chunks := Batches(records);
    BatchesCover(records);
    assert chunks == chunks[..k] + chunks[k..];
    FlattenAppend(chunks[..k], chunks[k..]);
  }

  /** Writing fresh records and mailing the matches is a worker step. */
  lemma StoreNewIsWorkerStep(t: Tables, user: UserProfile, sp: SearchProfile, news: seq<Listing>, env: Env)
    requires forall i :: 0 <= i < |NewRecords(user, sp, news, env)| ==> ResultKey(NewRecords(user, sp, news, env)[i]) !in t.results
    ensures WorkerStep(t, StoreNew(t, user, sp, news, env).0)
  {
    var records := NewRecords(user, sp, news, env);
    var chunks := Batches(records);
    var k := WrittenBatches(chunks, env);
    var put := Flatten(chunks[..k]);
    WrittenPrefix(records, k);
    assert forall i :: 0 <= i < |put| ==> put[i] == records[i];
    var written := t.(results := PutAll(t.results, put));
    PutFreshIsWorkerStep(t, put);
    if k == |chunks| && sp.notificationPreferences.email && user.email != "" {
      var enriched := EnrichAll(news, user.listingViewingPreference);
      assert StoreNew(t, user, sp, news, env).0 == NotifyAll(written, user, sp.profileId, enriched, MatchMail(user, env), env);
      NotifyAllIsWorkerStep(written, user, sp.profileId, enriched, MatchMail(user, env), env);
      WorkerStepTransitive(t, written, StoreNew(t, user, sp, news, env).0);
    } else {
      assert StoreNew(t, user, sp, news, env).0 == written;
    }
  }

  /** A profile run is a worker step: it keeps users, viewings, documents and
      invocations, only adds results or marks them notified, and only appends
      mail and notifications. */
  lemma ProfileRunIsWorkerStep(t: Tables, user: UserProfile, sp: SearchProfile, env: Env)
    requires FullRead(t.results, user.userId, sp.profileId, env)
    ensures WorkerStep(t, ProfileRun(t, user, sp, env).0)
  {
    var news := FoundNew(t, user, sp, env);
    if news == [] {
      WorkerStepReflexive(t);
    } else {
      NewRecordsFresh(t, user, sp, env);
      StoreNewIsWorkerStep(t, user, sp, news, env);
    }
  }

  /** Puts under other keys leave a stored result as it is. */
  lemma {:induction false} PutAllKeepsOther(m: map<(string, string), SearchResult>, rs: seq<SearchResult>, k: (string, string))
    requires k in m && forall i :: 0 <= i < |rs| ==> ResultKey(rs[i]) != k
    ensures k in PutAll(m, rs) && PutAll(m, rs)[k] == m[k]
  {
    if rs != [] {
      PutAllKeepsOther(m, rs[..|rs| - 1], k);
    }
  }

  /** When the page holds every stored key, the records of the listings a run
      finds new have keys not yet stored. */
  lemma NewRecordsFresh(t: Tables, user: UserProfile, sp: SearchProfile, env: Env)
    requires FullRead(t.results, user.userId, sp.profileId, env)
    ensures var rs := NewRecords(user, sp, FoundNew(t, user, sp, env), env);
      forall i :: 0 <= i < |rs| ==> ResultKey(rs[i]) !in t.results
  {
    var news := FoundNew(t, user, sp, env);
    var rs := NewRecords(user, sp, news, env);
    forall i | 0 <= i < |rs|
      ensures ResultKey(rs[i]) !in t.results
    {
      PrefixOfKey(sp.profileId, news[i].listingId);
    }
  }

  /** A refused batch throws before any mail: the outbox and notifications
      are as they were. */
  lemma BatchFailureSendsNothing(t: Tables, user: UserProfile, sp: SearchProfile, env: Env)
    requires ProfileRun(t, user, sp, env).1.Threw?
    ensures var t' := ProfileRun(t, user, sp, env).0;
      t'.outbox == t.outbox && t'.notifications == t.notifications
  {
    var news := FoundNew(t, user, sp, env);
    var chunks := Batches(NewRecords(user, sp, news, env));
    assert ProfileRun(t, user, sp, env).0 == t.(results := PutAll(t.results, Flatten(chunks[..WrittenBatches(chunks, env)])));
  }

  /** When the page held every stored key, a refused batch leaves every
      stored result as it was. */
  lemma BatchFailureKeepsResults(t: Tables, user: UserProfile, sp: SearchProfile, env: Env)
    requires ProfileRun(t, user, sp, env).1.Threw?
    requires FullRead(t.results, user.userId, sp.profileId, env)
    ensures var t' := ProfileRun(t, user, sp, env).0;
      forall k :: k in t.results ==> k in t'.results && t'.results[k] == t.results[k]
  {
    var news := FoundNew(t, user, sp, env);
    assert ProfileRun(t, user, sp, env) == StoreNew(t, user, sp, news, env);
    NewRecordsFresh(t, user, sp, env);
    StoreNewFailureKeeps(t, user, sp, news, env);
  }

  lemma StoreNewFailureKeeps(t: Tables, user: UserProfile, sp: SearchProfile, news: seq<Listing>, env: Env)
    requires StoreNew(t, user, sp, news, env).1.Threw?
    requires forall i :: 0 <= i < |NewRecords(user, sp, news, env)| ==> ResultKey(NewRecords(user, sp, news, env)[i]) !in t.results
    ensures var t' := StoreNew(t, user, sp, news, env).0;
      forall k :: k in t.results ==> k in t'.results && t'.results[k] == t.results[k]
  {
    var records := NewRecords(user, sp, news, env);
    var chunks := Batches(records);
    var put := Flatten(chunks[..WrittenBatches(chunks, env)]);
    assert StoreNew(t, user, sp, news, env).0.results == PutAll(t.results, put);
    WrittenPrefix(records, WrittenBatches(chunks, env));
    assert forall i :: 0 <= i < |put| ==> put[i] == records[i];
    forall k | k in t.results
      ensures k in PutAll(t.results, put) && PutAll(t.results, put)[k] == t.results[k]
    {
      PutAllKeepsOther(t.results, put, k);
    }
  }

  /** Putting un-notified records sets no flag. */
  lemma {:induction false} PutUnnotifiedFlags(m: map<(string, string), SearchResult>, rs: seq<SearchResult>, k: (string, string))
    requires forall i :: 0 <= i < |rs| ==> !rs[i].notified
    requires k in PutAll(m, rs) && PutAll(m, rs)[k].notified
    ensures k in m && m[k].notified
  {
    if rs != [] {
      var init := rs[..|rs| - 1];
      if ResultKey(rs[|rs| - 1]) != k {
        PutUnnotifiedFlags(m, init, k);
      }
    }
  }

  /** The key of a listing whose match e-mail was accepted. */
  predicate AcceptedMatch(user: UserProfile, sp: SearchProfile, news: seq<Listing>, env: Env, k: (string, string)) {
    exists i :: 0 <= i < |news| && k == (user.userId, Key(sp.profileId, news[i].listingId))
      && env.accepts(MatchDelivery(user, Enrich(news[i], user.listingViewingPreference), env))
  }

  /** The send loop over fresh, un-notified records sets only flags of
      accepted matches. */
  lemma NotifyMarksAccepted(t: Tables, put: seq<SearchResult>, user: UserProfile, sp: SearchProfile, news: seq<Listing>, env: Env, k: (string, string))
    requires forall i :: 0 <= i < |put| ==> !put[i].notified
    requires var t' := NotifyAll(t.(results := PutAll(t.results, put)), user, sp.profileId, EnrichAll(news, user.listingViewingPreference), MatchMail(user, env), env);
      k in t'.results && t'.results[k].notified
    requires !(k in t.results && t.results[k].notified)
    ensures AcceptedMatch(user, sp, news, env, k)
  {
    var written := t.(results := PutAll(t.results, put));
    var enriched := EnrichAll(news, user.listingViewingPreference);
    NotifyAllMarks(written, user, sp.profileId, enriched, MatchMail(user, env), env, k);
    if !MarkedBy(k, user, sp.profileId, enriched, MatchMail(user, env), env) {
      PutUnnotifiedFlags(t.results, put, k);
      assert false;
    }
    var i :| 0 <= i < |enriched| && k == (user.userId, Key(sp.profileId, enriched[i].listingId))
             && env.accepts(MatchMail(user, env)(enriched[i]));
    assert enriched[i] == Enrich(news[i], user.listingViewingPreference);
    assert MatchMail(user, env)(enriched[i]) == MatchDelivery(user, enriched[i], env);
    assert k == (user.userId, Key(sp.profileId, news[i].listingId));
  }

  /** The records a run writes are all still unnotified. */
  lemma WrittenUnnotified(user: UserProfile, sp: SearchProfile, news: seq<Listing>, env: Env, put: seq<SearchResult>)
    requires var chunks := Batches(NewRecords(user, sp, news, env));
      put == Flatten(chunks[..WrittenBatches(chunks, env)])
    ensures forall i :: 0 <= i < |put| ==> !put[i].notified
  {
    var records := NewRecords(user, sp, news, env);
    var chunks := Batches(records);
    WrittenPrefix(records, WrittenBatches(chunks, env));
    assert forall i :: 0 <= i < |put| ==> put[i] == records[i];
  }

  lemma StoreNewMarks(t: Tables, user: UserProfile, sp: SearchProfile, news: seq<Listing>, env: Env, k: (string, string))
    requires k in StoreNew(t, user, sp, news, env).0.results
    requires StoreNew(t, user, sp, news, env).0.results[k].notified
    requires !(k in t.results && t.results[k].notified)
    ensures AcceptedMatch(user, sp, news, env, k)
  {
    var chunks := Batches(NewRecords(user, sp, news, env));
    var k' := WrittenBatches(chunks, env);
    var put := Flatten(chunks[..k']);
    WrittenUnnotified(user, sp, news, env, put);
    var written := t.(results := PutAll(t.results, put));
    if k' == |chunks| && sp.notificationPreferences.email && user.email != "" {
      assert StoreNew(t, user, sp, news, env).0
          == NotifyAll(written, user, sp.profileId, EnrichAll(news, user.listingViewingPreference), MatchMail(user, env), env);
      NotifyMarksAccepted(t, put, user, sp, news, env, k);
    } else {
      assert StoreNew(t, user, sp, news, env).0 == written;
      PutUnnotifiedFlags(t.results, put, k);
      assert false;
    }
  }

  /** A result ends up notified only if it was already, or the match e-mail
      for a new listing with its key was accepted. */
  lemma NotifiedOnlyAfterAcceptance(t: Tables, user: UserProfile, sp: SearchProfile, env: Env, k: (string, string))
    requires k in ProfileRun(t, user, sp, env).0.results
    requires ProfileRun(t, user, sp, env).0.results[k].notified
    requires !(k in t.results && t.results[k].notified)
    ensures AcceptedMatch(user, sp, FoundNew(t, user, sp, env), env, k)
  {
    var news := FoundNew(t, user, sp, env);
    if news == [] {
      assert false;
    }
    StoreNewMarks(t, user, sp, news, env, k);
  }

  // ---------------------------------------------------------------- one user

  predicate Monitored(sp: SearchProfile) {
    sp.monitoring
  }

  /** The profiles in order, each with the state the previous one left, until
      one throws; the exception leaves `processUserProfile`. */
  function ProfilesRun(t: Tables, user: UserProfile, ps: seq<SearchProfile>, env: Env): (Tables, Outcome)
    decreases |ps|
  {
    if ps == [] then (t, Returned)
    else
      var r := ProfileRun(t, user, ps[0], env);
      if r.1.Threw? then r else ProfilesRun(r.0, user, ps[1..], env)
  }

  /** One profile run, then the rest unless it threw. */
  lemma ProfilesRunCons(t: Tables, user: UserProfile, ps: seq<SearchProfile>, env: Env)
    requires ps != []
    ensures var r := ProfileRun(t, user, ps[0], env);
      ProfilesRun(t, user, ps, env) == if r.1.Threw? then r else ProfilesRun(r.0, user, ps[1..], env)
  {
  }

  /** `processUserProfile`: the monitored profiles, in order. */
  function UserRun(t: Tables, user: UserProfile, env: Env): (Tables, Outcome) {
    ProfilesRun(t, user, Filter(user.searchProfiles, Monitored), env)
  }

  lemma {:induction false} ProfilesRunIsWorkerStep(t: Tables, user: UserProfile, ps: seq<SearchProfile>, env: Env)
    requires ReadsAllKeys(env)
    ensures WorkerStep(t, ProfilesRun(t, user, ps, env).0)
    decreases |ps|
  {
    if ps == [] {
      WorkerStepReflexive(t);
    } else {
      var r := ProfileRun(t, user, ps[0], env);
      ProfileRunIsWorkerStep(t, user, ps[0], env);
      if r.1.Returned? {
        ProfilesRunIsWorkerStep(r.0, user, ps[1..], env);
        WorkerStepTransitive(t, r.0, ProfilesRun(r.0, user, ps[1..], env).0);
      }
    }
  }

  /** A user with no monitored profile is left alone. */
  lemma UnmonitoredUserUntouched(t: Tables, user: UserProfile, env: Env)
    requires forall i :: 0 <= i < |user.searchProfiles| ==> !user.searchProfiles[i].monitoring
    ensures UserRun(t, user, env) == (t, Returned)
  {
  }

  // ---------------------------------------------------------------- cron

  /** One scan page: every user in turn, each isolated from the others'
      failures by `Promise.allSettled`. */
  function CronUsers(t: Tables, users: seq<UserProfile>, env: Env): Tables
    decreases |users|
  {
    if users == [] then t else CronUsers(UserRun(t, users[0], env).0, users[1..], env)
  }

  /** Every scan page in turn. */
  function CronPages(t: Tables, pages: seq<seq<UserProfile>>, env: Env): Tables
    decreases |pages|
  {
    if pages == [] then t else CronPages(CronUsers(t, pages[0], env), pages[1..], env)
  }

  lemma {:induction false} CronUsersIsWorkerStep(t: Tables, users: seq<UserProfile>, env: Env)
    requires ReadsAllKeys(env)
    ensures WorkerStep(t, CronUsers(t, users, env))
    decreases |users|
  {
    if users == [] {
      WorkerStepReflexive(t);
    } else {
      var t1 := UserRun(t, users[0], env).0;
      ProfilesRunIsWorkerStep(t, users[0], Filter(users[0].searchProfiles, Monitored), env);
      CronUsersIsWorkerStep(t1, users[1..], env);
      WorkerStepTransitive(t, t1, CronUsers(t1, users[1..], env));
    }
  }

  lemma {:induction false} CronPagesIsWorkerStep(t: Tables, pages: seq<seq<UserProfile>>, env: Env)
    requires ReadsAllKeys(env)
    ensures WorkerStep(t, CronPages(t, pages, env))
    decreases |pages|
  {
    if pages == [] {
      WorkerStepReflexive(t);
    } else {
      var t1 := CronUsers(t, pages[0], env);
      CronUsersIsWorkerStep(t, pages[0], env);
      CronPagesIsWorkerStep(t1, pages[1..], env);
      WorkerStepTransitive(t, t1, CronPages(t1, pages[1..], env));
    }
  }

  lemma {:induction false} CronUsersAppend(t: Tables, a: seq<UserProfile>, b: seq<UserProfile>, env: Env)
    ensures CronUsers(t, a + b, env) == CronUsers(CronUsers(t, a, env), b, env)
    decreases |a|
  {
    if a == [] {
      assert a + b == b;
    } else {
      assert (a + b)[0] == a[0] && (a + b)[1..] == a[1..] + b;
      CronUsersAppend(UserRun(t, a[0], env).0, a[1..], b, env);
    }
  }

  /** Running the pages one after another is running their users one after
      another: no user is run twice and none is skipped. */
  lemma {:induction false} CronPagesFlatten(t: Tables, pages: seq<seq<UserProfile>>, env: Env)
    ensures CronPages(t, pages, env) == CronUsers(t, Flatten(pages), env)
    decreases |pages|
  {
    if pages != [] {
      CronPagesFlatten(CronUsers(t, pages[0], env), pages[1..], env);
      CronUsersAppend(t, pages[0], Flatten(pages[1..]), env);
    }
  }

  /** The pages of the paginated Scan of the UserProfile table: stored
      profiles, and all of them. */
  predicate PagesCover(t: Tables, pages: seq<seq<UserProfile>>) {
    && (forall u :: u in Flatten(pages) ==> u.userId in t.users && t.users[u.userId] == u)
    && (forall id :: id in t.users ==> t.users[id] in Flatten(pages))
  }

  /** A cron run reaches every stored user: it runs the users of the scan in
      order, and every monitored search profile of every stored user is
      among the profiles handed to that user's run. */
  lemma CronRunsEveryUser(t: Tables, pages: seq<seq<UserProfile>>, env: Env)
    requires PagesCover(t, pages)
    ensures CronPages(t, pages, env) == CronUsers(t, Flatten(pages), env)
    ensures forall id, sp :: id in t.users && sp in t.users[id].searchProfiles && sp.monitoring ==>
      t.users[id] in Flatten(pages) && sp in Filter(t.users[id].searchProfiles, Monitored)
  {
    CronPagesFlatten(t, pages, env);
  }

  lemma {:induction false} ProfilesRunKeepsViewings(t: Tables, user: UserProfile, ps: seq<SearchProfile>, env: Env)
    ensures ProfilesRun(t, user, ps, env).0.viewings == t.viewings
    decreases |ps|
  {
    if ps != [] {
      ProfilesRunKeepsViewings(ProfileRun(t, user, ps[0], env).0, user, ps[1..], env);
    }
  }

  lemma {:induction false} CronLeavesViewings(t: Tables, pages: seq<seq<UserProfile>>, env: Env)
    ensures CronPages(t, pages, env).viewings == t.viewings
    decreases |pages|
  {
    if pages != [] {
      CronUsersKeepsViewings(t, pages[0], env);
      CronLeavesViewings(CronUsers(t, pages[0], env), pages[1..], env);
    }
  }

  lemma {:induction false} CronUsersKeepsViewings(t: Tables, users: seq<UserProfile>, env: Env)
    ensures CronUsers(t, users, env).viewings == t.viewings
    decreases |users|
  {
    if users != [] {
      ProfilesRunKeepsViewings(t, users[0], Filter(users[0].searchProfiles, Monitored), env);
      CronUsersKeepsViewings(UserRun(t, users[0], env).0, users[1..], env);
    }
  }

  // ---------------------------------------------------------------- feedback sweep

  /** The scan filter: no feedback asked or given yet, and a proposed time
      that sorts before now. */
  predicate FeedbackDue(v: Viewing, now: string) {
    v.feedbackRequestedAt.None? && v.feedback.None? && v.proposedDateTime.Some?
    && StrLess(v.proposedDateTime.value, now)
  }

  /** The viewing owner's address, when the profile exists and has one. */
  function OwnerEmail(t: Tables, userId: string): Option<string> {
    if userId in t.users && t.users[userId].email != "" then Some(t.users[userId].email) else None
  }

  function FeedbackDelivery(to: string, v: Viewing): Delivery {
    var e := EmailTemplates.ViewingFeedbackRequestEmail(v, ChatUrl + "?feedback=" + v.viewingId);
    Delivery(to, e.subject, e.body)
  }

  function ViewingKey(v: Viewing): (string, string) {
    (v.userId, v.viewingId)
  }

  /** `SET feedbackRequestedAt = :now` on one viewing. */
  function MarkRequested(viewings: map<(string, string), Viewing>, k: (string, string), now: string): (r: map<(string, string), Viewing>)
    ensures r.Keys == viewings.Keys
  {
    if k in viewings then viewings[k := viewings[k].(feedbackRequestedAt := Some(now))] else viewings
  }

  /** One pass of the sweep loop: skip a viewing whose owner has no address;
      otherwise mail the message `mail` builds for the owner and the viewing
      and, when it is accepted, stamp the viewing. The loop and its lemmas are
      stated for any such `mail`; the worker passes `FeedbackDelivery`. */
  function SweepOne(t: Tables, v: Viewing, mail: (string, Viewing) -> Delivery, env: Env): Tables {
    match OwnerEmail(t, v.userId)
    case None => t
    case Some(to) =>
      var d := mail(to, v);
      if env.accepts(d) then
        t.(outbox := t.outbox + [d], viewings := MarkRequested(t.viewings, ViewingKey(v), env.now))
      else t
  }

  /** The sweep loop over the given viewings, in order. It changes only the
      stamps of viewings and appends mail; it adds no notification record. */
  function SweepAll(t: Tables, vs: seq<Viewing>, mail: (string, Viewing) -> Delivery, env: Env): (r: Tables)
    ensures && r.users == t.users && r.results == t.results && r.notifications == t.notifications
            && r.documents == t.documents && r.invocations == t.invocations
            && r.viewings.Keys == t.viewings.Keys
  {
    if vs == [] then t else SweepOne(SweepAll(t, vs[..|vs| - 1], mail, env), vs[|vs| - 1], mail, env)
  }

  /** `sendFeedbackRequests` over the items of one scan of the Viewings table. */
  function SweepRun(t: Tables, scanned: seq<Viewing>, env: Env): (r: Tables)
    ensures && r.users == t.users && r.results == t.results && r.notifications == t.notifications
            && r.documents == t.documents && r.invocations == t.invocations
            && r.viewings.Keys == t.viewings.Keys
    ensures t.outbox <= r.outbox
    ensures |r.outbox| <= |t.outbox| + |Filter(scanned, (v: Viewing) => FeedbackDue(v, env.now))|
  {
    SweepAllGrowth(t, Filter(scanned, (v: Viewing) => FeedbackDue(v, env.now)), FeedbackDelivery, env);
    SweepAll(t, Filter(scanned, (v: Viewing) => FeedbackDue(v, env.now)), FeedbackDelivery, env)
  }

  /** The viewing of the list that the sweep stamps with key `k`. */
  predicate AskedIn(t: Tables, vs: seq<Viewing>, mail: (string, Viewing) -> Delivery, env: Env, k: (string, string)) {
    exists i :: 0 <= i < |vs| && ViewingKey(vs[i]) == k && OwnerEmail(t, vs[i].userId).Some?
                && env.accepts(mail(OwnerEmail(t, vs[i].userId).value, vs[i]))
  }

  lemma AskedInSnoc(t: Tables, vs: seq<Viewing>, mail: (string, Viewing) -> Delivery, env: Env, k: (string, string))
    requires vs != []
    ensures var v := vs[|vs| - 1];
      AskedIn(t, vs, mail, env, k) <==>
        AskedIn(t, vs[..|vs| - 1], mail, env, k)
        || (ViewingKey(v) == k && OwnerEmail(t, v.userId).Some?
            && env.accepts(mail(OwnerEmail(t, v.userId).value, v)))
  {
    var init := vs[..|vs| - 1];
    assert forall i :: 0 <= i < |init| ==> init[i] == vs[i];
    if AskedIn(t, vs, mail, env, k) && !AskedIn(t, init, mail, env, k) {
      var i :| 0 <= i < |vs| && ViewingKey(vs[i]) == k && OwnerEmail(t, vs[i].userId).Some?
               && env.accepts(mail(OwnerEmail(t, vs[i].userId).value, vs[i]));
      assert i == |vs| - 1;
    }
  }

  /** Every viewing is stamped exactly when a listed viewing with its key has
      an owner address and its request was accepted; nothing else about it
      changes. */
  lemma {:induction false} SweepAllViewing(t: Tables, vs: seq<Viewing>, mail: (string, Viewing) -> Delivery, env: Env, k: (string, string))
    requires k in t.viewings
    ensures k in SweepAll(t, vs, mail, env).viewings
    ensures SweepAll(t, vs, mail, env).viewings[k]
         == if AskedIn(t, vs, mail, env, k) then t.viewings[k].(feedbackRequestedAt := Some(env.now)) else t.viewings[k]
  {
    if vs != [] {
      var init := vs[..|vs| - 1];
      SweepAllViewing(t, init, mail, env, k);
      AskedInSnoc(t, vs, mail, env, k);
    }
  }

  /** The scan reads the table: each item is the stored viewing under its key. */
  predicate ScanOf(t: Tables, scanned: seq<Viewing>) {
    forall i :: 0 <= i < |scanned| ==> ViewingKey(scanned[i]) in t.viewings && t.viewings[ViewingKey(scanned[i])] == scanned[i]
  }

  /** Feedback is requested at most once per viewing: a viewing the sweep
      stamps had no stamp before, and a viewing already stamped is left as
      it is; so the sweep is a worker step. */
  lemma SweepIsWorkerStep(t: Tables, scanned: seq<Viewing>, env: Env)
    requires ScanOf(t, scanned)
    ensures WorkerStep(t, SweepRun(t, scanned, env))
    ensures forall k :: k in t.viewings && t.viewings[k].feedbackRequestedAt.Some? ==>
      SweepRun(t, scanned, env).viewings[k] == t.viewings[k]
  {
    var due := Filter(scanned, (v: Viewing) => FeedbackDue(v, env.now));
    SweepAllGrowth(t, due, FeedbackDelivery, env);
    forall k | k in t.viewings
      ensures ViewingStep(t.viewings[k], SweepRun(t, scanned, env).viewings[k])
      ensures t.viewings[k].feedbackRequestedAt.Some? ==> SweepRun(t, scanned, env).viewings[k] == t.viewings[k]
    {
      SweepAllViewing(t, due, FeedbackDelivery, env, k);
      if AskedIn(t, due, FeedbackDelivery, env, k) {
        var i :| 0 <= i < |due| && ViewingKey(due[i]) == k && OwnerEmail(t, due[i].userId).Some?
                 && env.accepts(FeedbackDelivery(OwnerEmail(t, due[i].userId).value, due[i]));
        assert due[i] in scanned;
      }
    }
  }

  /** The sweep mails only owners of due viewings, and puts no notification
      record. */
  lemma SweepMailsDueOwners(t: Tables, scanned: seq<Viewing>, env: Env)
    ensures var t' := SweepRun(t, scanned, env);
      t'.notifications == t.notifications && t.outbox <= t'.outbox
      && |t'.outbox| - |t.outbox| <= |Filter(scanned, (v: Viewing) => FeedbackDue(v, env.now))|
  {
    var due := Filter(scanned, (v: Viewing) => FeedbackDue(v, env.now));
    SweepAllGrowth(t, due, FeedbackDelivery, env);
  }

  /** One more pass of the sweep loop. */
  lemma SweepStep(t: Tables, vs: seq<Viewing>, i: nat, mail: (string, Viewing) -> Delivery, env: Env)
    requires i < |vs|
    ensures SweepAll(t, vs[..i + 1], mail, env) == SweepOne(SweepAll(t, vs[..i], mail, env), vs[i], mail, env)
  {
    assert vs[..i + 1][..i] == vs[..i];
  }

  /** The sweep only appends mail, at most one message per viewing. */
  lemma {:induction false} SweepAllGrowth(t: Tables, vs: seq<Viewing>, mail: (string, Viewing) -> Delivery, env: Env)
    ensures t.outbox <= SweepAll(t, vs, mail, env).outbox
    ensures |SweepAll(t, vs, mail, env).outbox| <= |t.outbox| + |vs|
  {
    if vs != [] {
      SweepAllGrowth(t, vs[..|vs| - 1], mail, env);
    }
  }

  // ---------------------------------------------------------------- the handler

  /** The invocation payload: `{ userId?, profileId? }`. */
  datatype Event = Event(userId: Option<string>, profileId: Option<string>)

  predicate Present(s: Option<string>) {
    s.Some? && s.value != ""
  }

  /** `searchProfiles.find(p => p.profileId === id)`. */
  function FindProfile(ps: seq<SearchProfile>, id: string): (r: Option<SearchProfile>)
    ensures r.Some? ==> r.value in ps && r.value.profileId == id
    ensures r.None? ==> forall i :: 0 <= i < |ps| ==> ps[i].profileId != id
  {
    if ps == [] then None else if ps[0].profileId == id then Some(ps[0]) else FindProfile(ps[1..], id)
  }

  /** The targeted path: the named user only (one profile when one is named
      and it is monitored), and no feedback sweep. */
  function TargetedRun(t: Tables, userId: string, profileId: Option<string>, env: Env): (r: (Tables, Outcome))
    ensures r.0 != t || r.1.Threw? ==> userId in t.users
    ensures Present(profileId) && (r.0 != t || r.1.Threw?) ==>
      && FindProfile(t.users[userId].searchProfiles, profileId.value).Some?
      && FindProfile(t.users[userId].searchProfiles, profileId.value).value.monitoring
  {
    if userId !in t.users then (t, Returned)
    else
      var user := t.users[userId];
      if Present(profileId) then
        match FindProfile(user.searchProfiles, profileId.value)
        case Some(sp) => if sp.monitoring then ProfileRun(t, user, sp, env) else (t, Returned)
        case None => (t, Returned)
      else UserRun(t, user, env)
  }

  /** `handler`: a targeted run when the event names a user; otherwise all
      scan pages, then one feedback sweep over the viewings scan. */
  function HandlerRun(t: Tables, event: Option<Event>, pages: seq<seq<UserProfile>>, viewingScan: seq<Viewing>, env: Env): (Tables, Outcome) {
    if event.Some? && Present(event.value.userId) then TargetedRun(t, event.value.userId.value, event.value.profileId, env)
    else (SweepRun(CronPages(t, pages, env), viewingScan, env), Returned)
  }

  /** A targeted run sends no feedback request and never changes a viewing. */
  lemma TargetedLeavesViewings(t: Tables, userId: string, profileId: Option<string>, env: Env)
    ensures TargetedRun(t, userId, profileId, env).0.viewings == t.viewings
  {
    if userId in t.users && !Present(profileId) {
      ProfilesRunKeepsViewings(t, t.users[userId], Filter(t.users[userId].searchProfiles, Monitored), env);
    }
  }

  /** When every Query fits in one page, a targeted run is a worker step. */
  lemma TargetedIsWorkerStep(t: Tables, userId: string, profileId: Option<string>, env: Env)
    requires ReadsAllKeys(env)
    ensures WorkerStep(t, TargetedRun(t, userId, profileId, env).0)
  {
    if userId in t.users {
      var user := t.users[userId];
      if Present(profileId) {
        var found := FindProfile(user.searchProfiles, profileId.value);
        if found.Some? && found.value.monitoring {
          ProfileRunIsWorkerStep(t, user, found.value, env);
        } else {
          WorkerStepReflexive(t);
        }
      } else {
        ProfilesRunIsWorkerStep(t, user, Filter(user.searchProfiles, Monitored), env);
      }
    } else {
      WorkerStepReflexive(t);
    }
  }

  /** A cron invocation always returns normally; when every Query fits in
      one page, the whole invocation is a worker step. */
  lemma HandlerIsWorkerStep(t: Tables, event: Option<Event>, pages: seq<seq<UserProfile>>, viewingScan: seq<Viewing>, env: Env)
    requires ScanOf(t, viewingScan)
    requires ReadsAllKeys(env)
    ensures WorkerStep(t, HandlerRun(t, event, pages, viewingScan, env).0)
    ensures !(event.Some? && Present(event.value.userId)) ==> HandlerRun(t, event, pages, viewingScan, env).1 == Returned
  {
    if event.Some? && Present(event.value.userId) {
      TargetedIsWorkerStep(t, event.value.userId.value, event.value.profileId, env);
    } else {
      var t1 := CronPages(t, pages, env);
      CronPagesIsWorkerStep(t, pages, env);
      CronLeavesViewings(t, pages, env);
      SweepIsWorkerStep(t1, viewingScan, env);
      WorkerStepTransitive(t, t1, SweepRun(t1, viewingScan, env));
    }
  }

  // ---------------------------------------------------------------- the store

  /** `sendNotification`: e-mail goes to the e-mail service, which may refuse
      it (the call then throws, `ok` is false); SMS and push are stubs that
      only log. */
  datatype Channel = EmailRoute | Sms | Push

  method SendNotification(store: Store, channel: Channel, d: Delivery, env: Env) returns (ok: bool)
    modifies store
    ensures ok == (channel.EmailRoute? ==> env.accepts(d))
    ensures store.State() == old(store.State()).(outbox := old(store.outbox) + if channel.EmailRoute? && ok then [d] else [])
  {
    ok := true;
    if channel.EmailRoute? {
      if env.accepts(d) {
        store.outbox := store.outbox + [d];
      } else {
        ok := false;
      }
    }
  }

  /** The loop may go on past a written batch and stops at the refused one. */
  lemma WrittenStep(chunks: seq<seq<SearchResult>>, env: Env, j: nat)
    requires j <= WrittenBatches(chunks, env) && j < |chunks|
    ensures BatchWriteOk(chunks[j], env) ==> j + 1 <= WrittenBatches(chunks, env)
    ensures !BatchWriteOk(chunks[j], env) ==> j == WrittenBatches(chunks, env)
  {
  }

  /** The first j batches hold the first `25 j` records. */
  lemma {:induction false} BatchesPrefix(s: seq<SearchResult>, j: nat)
    requires j <= |Batches(s)|
    ensures Flatten(Batches(s)[..j]) == s[..if j * BatchSize <= |s| then j * BatchSize else |s|]
    decreases |s|
  {
    if j > 0 {
      if |s| <= BatchSize {
        assert Batches(s)[..j] == [s];
        assert Flatten([s]) == s;
      } else {
        BatchesPrefix(s[BatchSize..], j - 1);
        assert Batches(s)[..j] == [s[..BatchSize]] + Batches(s[BatchSize..])[..j - 1];
      }
    }
  }

  lemma FlattenSnoc<T>(chunks: seq<seq<T>>, j: nat)
    requires j < |chunks|
    ensures Flatten(chunks[..j + 1]) == Flatten(chunks[..j]) + chunks[j]
  {
    assert chunks[..j + 1] == chunks[..j] + [chunks[j]];
    FlattenAppend(chunks[..j], [chunks[j]]);
    assert Flatten([chunks[j]]) == chunks[j] + Flatten([]);
  }

  /** One pass of the batch-write loop at `i = 25 j`: the slice is the j-th
      batch, and whether it is written decides whether the loop goes on. */
  lemma BatchStep(records: seq<SearchResult>, env: Env, j: nat)
    requires j <= WrittenBatches(Batches(records), env) && j * BatchSize < |records|
    ensures var chunks := Batches(records);
      var i := j * BatchSize;
      var end := if i + BatchSize <= |records| then i + BatchSize else |records|;
      && j < |chunks| && records[i..end] == chunks[j]
      && records[..end] == records[..i] + records[i..end]
      && (BatchWriteOk(chunks[j], env) ==> j + 1 <= WrittenBatches(chunks, env))
      && (!BatchWriteOk(chunks[j], env) ==> j == WrittenBatches(chunks, env))
      && (j + 1 < |chunks| <==> i + BatchSize < |records|)
  {
    var chunks := Batches(records);
    var i := j * BatchSize;
    assert (j + 1) * BatchSize == i + BatchSize;
    BatchIndex(records, j);
    BatchIndex(records, j + 1);
    BatchAt(records, j);
    WrittenStep(chunks, env, j);
  }

  /** One pass of the batch-write loop: the batch starting at record `i`
      is put when the store accepts it, and nothing changes otherwise. */
  method WriteBatch(store: Store, records: seq<SearchResult>, i: nat, ghost j: nat, env: Env) returns (written: bool)
    requires i == j * BatchSize < |records| && j <= WrittenBatches(Batches(records), env)
    modifies store
    ensures j < |Batches(records)|
    ensures written <==> BatchWriteOk(Batches(records)[j], env)
    ensures written ==> j + 1 <= WrittenBatches(Batches(records), env)
    ensures !written ==> j == WrittenBatches(Batches(records), env)
    ensures store.State() == old(store.State()).(results := if written then PutAll(old(store.results), Batches(records)[j])
                                                            else old(store.results))
  {
    var end := if i + BatchSize <= |records| then i + BatchSize else |records|;
    var batch := records[i..end];
    BatchStep(records, env, j);
    if BatchWriteOk(batch, env) {
      store.results := PutAll(store.results, batch);
      written := true;
    } else {
      written := false;
    }
  }

  /** The batch-write loop: `slice(i, i + 25)` for `i = 0, 25, …`; a refused
      batch throws and ends the loop. */
  method WriteBatches(store: Store, records: seq<SearchResult>, env: Env) returns (ok: bool)
    modifies store
    ensures var chunks := Batches(records);
      var k := WrittenBatches(chunks, env);
      && (ok <==> k == |chunks|)
      && store.State() == old(store.State()).(results := PutAll(old(store.results), Flatten(chunks[..k])))
  {
    ghost var chunks := Batches(records);
    BatchIndex(records, 0);
    assert chunks[..0] == [];
    var i := 0;
    ghost var j := 0;
    while i < |records|
      invariant 0 <= j <= WrittenBatches(chunks, env) && i == j * BatchSize
      invariant j < |chunks| <==> i < |records|
      invariant store.State() == old(store.State()).(results := PutAll(old(store.results), Flatten(chunks[..j])))
      decreases |records| - i
    {
      BatchStep(records, env, j);
      ghost var done := Flatten(chunks[..j]);
      var written := WriteBatch(store, records, i, j, env);
      if !written {
        return false;
      }
      FlattenSnoc(chunks, j);
      PutAllAppend(old(store.results), done, chunks[j]);
      assert store.results == PutAll(old(store.results), Flatten(chunks[..j + 1]));
      assert i + BatchSize == (j + 1) * BatchSize;
      i := i + BatchSize;
      j := j + 1;
    }
    assert chunks[..j] == chunks;
    return true;
  }

  /** One pass of the send loop, the body of its `try`: mail the listing;
      when the mail is accepted, mark the result notified and put a
      notification record; a refused mail is caught. */
  method NotifyListing(store: Store, user: UserProfile, profileId: string, l: Listing, env: Env)
    modifies store
    ensures store.State() == NotifyOne(old(store.State()), user, profileId, l, MatchDelivery(user, l, env), env)
  {
    var d := MatchDelivery(user, l, env);
    var count := |store.notifications|;
    var sent := SendNotification(store, EmailRoute, d, env);
    if sent {
      store.results := MarkNotified(store.results, (user.userId, Key(profileId, l.listingId)));
      store.notifications := store.notifications + [
        Notification(user.userId, env.newId(count), NewListing, EmailChannel,
                     user.email, d.subject, env.now, "sent")];
    }
  }

  /** The send loop over the listings in order; each failure is caught
      inside the pass, so the loop always goes on. */
  method NotifyMatches(store: Store, user: UserProfile, profileId: string, ls: seq<Listing>, env: Env)
    modifies store
    ensures store.State() == NotifyAll(old(store.State()), user, profileId, ls, MatchMail(user, env), env)
  {
    var i := 0;
    while i < |ls|
      invariant 0 <= i <= |ls|
      invariant store.State() == NotifyAll(old(store.State()), user, profileId, ls[..i], MatchMail(user, env), env)
    {
      NotifyStep(old(store.State()), user, profileId, ls, i, MatchMail(user, env), env);
      NotifyListing(store, user, profileId, ls[i], env);
      i := i + 1;
    }
    assert ls[..i] == ls;
  }

  /** `processSearchProfile`: the run ends in the state, and with the outcome,
      that `ProfileRun` gives. */
  method ProcessSearchProfile(store: Store, user: UserProfile, sp: SearchProfile, env: Env) returns (outcome: Outcome)
    modifies store
    ensures (store.State(), outcome) == ProfileRun(old(store.State()), user, sp, env)
  {
    var fetched := Rentcast.SearchListings(sp.criteria, env.fetch);
    if fetched.Err? {
      return Returned;
    }
    var existing := ExistingRead(store.results, user.userId, sp.profileId, env);
    var news := NewListings(fetched.value, existing, sp.profileId);
    if news == [] {
      return Returned;
    }
    var enriched := EnrichAll(news, user.listingViewingPreference);
    var ok := WriteBatches(store, Records(user.userId, sp.profileId, env.now, enriched), env);
    if !ok {
      return Threw("BatchWriteItem failed");
    }
    if sp.notificationPreferences.email && user.email != "" {
      NotifyMatches(store, user, sp.profileId, enriched, env);
    }
    return Returned;
  }

  /** `processUserProfile`: the monitored profiles in order; an exception from
      one of them ends the loop and reaches the caller. */
  method ProcessUserProfile(store: Store, user: UserProfile, env: Env) returns (outcome: Outcome)
    modifies store
    ensures (store.State(), outcome) == UserRun(old(store.State()), user, env)
  {
    var monitored := Filter(user.searchProfiles, Monitored);
    if |monitored| == 0 {
      return Returned;
    }
    var i := 0;
    while i < |monitored|
      invariant 0 <= i <= |monitored|
      invariant UserRun(old(store.State()), user, env) == ProfilesRun(store.State(), user, monitored[i..], env)
    {
      ghost var before := store.State();
      assert monitored[i..][0] == monitored[i] && monitored[i..][1..] == monitored[i + 1..];
      var o := ProcessSearchProfile(store, user, monitored[i], env);
      ProfilesRunCons(before, user, monitored[i..], env);
      if o.Threw? {
        return o;
      }
      i := i + 1;
    }
    return Returned;
  }

  /** One pass of the sweep loop: look up the owner's address, skip the
      viewing when there is none, otherwise mail the request and stamp the
      viewing when the mail is accepted; a refused mail is caught. */
  method RequestFeedback(store: Store, v: Viewing, env: Env)
    modifies store
    ensures store.State() == SweepOne(old(store.State()), v, FeedbackDelivery, env)
  {
    var to := if v.userId in store.users then store.users[v.userId].email else "";
    if to != "" {
      var d := FeedbackDelivery(to, v);
      var sent := SendNotification(store, EmailRoute, d, env);
      if sent {
        store.viewings := MarkRequested(store.viewings, ViewingKey(v), env.now);
      }
    }
  }

  /** `sendFeedbackRequests` over one scan of the Viewings table. */
  method SendFeedbackRequests(store: Store, scanned: seq<Viewing>, env: Env)
    modifies store
    ensures store.State() == SweepRun(old(store.State()), scanned, env)
  {
    var viewings := Filter(scanned, (v: Viewing) => FeedbackDue(v, env.now));
    var i := 0;
    while i < |viewings|
      invariant 0 <= i <= |viewings|
      invariant store.State() == SweepAll(old(store.State()), viewings[..i], FeedbackDelivery, env)
    {
      SweepStep(old(store.State()), viewings, i, FeedbackDelivery, env);
      RequestFeedback(store, viewings[i], env);
      i := i + 1;
    }
    assert viewings[..i] == viewings;
  }

  /** One scan page: every user of the page, each one's failure caught. */
  method ProcessPage(store: Store, users: seq<UserProfile>, env: Env)
    modifies store
    ensures store.State() == CronUsers(old(store.State()), users, env)
  {
    var i := 0;
    while i < |users|
      invariant 0 <= i <= |users|
      invariant CronUsers(old(store.State()), users, env) == CronUsers(store.State(), users[i..], env)
    {
      assert users[i..][1..] == users[i + 1..];
      var _ := ProcessUserProfile(store, users[i], env);
      i := i + 1;
    }
  }

  /** `handler`. `pages` are the pages the Users scan returns and
      `viewingScan` the items the Viewings scan returns. */
  method Handler(store: Store, event: Option<Event>, pages: seq<seq<UserProfile>>, viewingScan: seq<Viewing>, env: Env)
    returns (outcome: Outcome)
    modifies store
    ensures (store.State(), outcome) == HandlerRun(old(store.State()), event, pages, viewingScan, env)
  {
    if event.Some? && Present(event.value.userId) {
      var userId := event.value.userId.value;
      if userId in store.users {
        var user := store.users[userId];
        if Present(event.value.profileId) {
          var profile := FindProfile(user.searchProfiles, event.value.profileId.value);
          if profile.Some? && profile.value.monitoring {
            outcome := ProcessSearchProfile(store, user, profile.value, env);
            return;
          }
        } else {
          outcome := ProcessUserProfile(store, user, env);
          return;
        }
      }
      return Returned;
    }
    var p := 0;
    while p < |pages|
      invariant 0 <= p <= |pages|
      invariant CronPages(old(store.State()), pages, env) == CronPages(store.State(), pages[p..], env)
    {
      assert pages[p..][1..] == pages[p + 1..];
      ProcessPage(store, pages[p], env);
      p := p + 1;
    }
    SendFeedbackRequests(store, viewingScan, env);
    return Returned;
  }
}
