/** The `schedule_viewing` chat tool
    (chat-service/src/tools/schedule-viewing.ts): looks the listing up among
    the user's stored matches, saves a `requested` viewing, asks the seller's
    agent for a time when the listing names one, confirms to the buyer by
    e-mail, records a `viewing_request` notification and reports what it did. */
module ScheduleViewing {
  import opened Common
  import opened Types
  import opened Db
  import SearchWorker
  import EmailTemplates
  import Rentcast

  datatype Input = Input(listingId: string, profileId: string, proposedDateTime: Option<string>)

  datatype Reply = Reply(viewingId: string, message: string)

  /** What a call depends on besides the tables: whether the e-mail service
      accepts a message, the two fresh UUIDs, the clock, and the slot
      formatting the agent template would use. */
  datatype Env = Env(
    accepts: Delivery -> bool,
    viewingId: string,
    notificationId: string,
    now: string,
    slotLabel: string -> string)

  /** The exception a refused `SendEmailCommand` raises. */
  const SendRejected := "MessageRejected"

  /** The note for a listing without an agent address, byte for byte as the
      source file spells it: its em dash was saved as UTF-8 and read back as
      Windows-1252, so the text holds the three characters U+00E2, U+20AC and
      U+201D where the dash should be. */
  const NoContactNote := " (No agent contact on file \U{00E2}\U{20AC}\U{201D} you may need to reach out directly.)"

  /** The search result under `(userId, "<profileId>#<listingId>")`, if any. */
  function FoundListing(results: map<(string, string), SearchResult>, userId: string, input: Input): (r: Option<Listing>)
    ensures r.Some? <==> (userId, SearchWorker.Key(input.profileId, input.listingId)) in results
    ensures r.Some? ==> r.value == results[(userId, SearchWorker.Key(input.profileId, input.listingId))].listingData
  {
    var k := (userId, SearchWorker.Key(input.profileId, input.listingId));
    if k in results then Some(results[k].listingData) else None
  }

  /** `listing?.address ?? "Listing <listingId>"`. */
  function Address(listing: Option<Listing>, listingId: string): string {
    if listing.Some? then listing.value.address else "Listing " + listingId
  }

  /** The buyer's full name when the profile has both a first and a last
      name, else the e-mail address. */
  function BuyerName(user: Option<UserProfile>, userEmail: string): string {
    if user.Some? && Truthy(user.value.firstName) && Truthy(user.value.lastName)
    then user.value.firstName.value + " " + user.value.lastName.value
    else userEmail
  }

  /** The viewing record that is put. */
  function NewViewing(userId: string, input: Input, listing: Option<Listing>, env: Env): Viewing {
    Viewing(
      userId := userId,
      viewingId := env.viewingId,
      listingId := input.listingId,
      profileId := input.profileId,
      listingAddress := Address(listing, input.listingId),
      agentEmail := if listing.Some? then listing.value.agentEmail else None,
      agentName := if listing.Some? then listing.value.agentName else None,
      requestedAt := env.now,
      proposedDateTime := input.proposedDateTime,
      status := Requested,
      feedback := None,
      feedbackRequestedAt := None,
      feedbackCollectedAt := None,
      availabilitySlots := None,
      agentSelectedSlot := None,
      agentRespondedAt := None)
  }

  /** The e-mail to the agent, when the viewing names one: the outbox after it,
      or the exception. The tool calls the template without a slot list, so
      the template always throws and the send to the agent that follows it is
      never reached. */
  function AgentStep(outbox: seq<Delivery>, viewing: Viewing, userEmail: string, buyerName: string, env: Env)
    : Result<seq<Delivery>, string>
  {
    if !Truthy(viewing.agentEmail) then Ok(outbox)
    else
      match EmailTemplates.ViewingRequestToAgentEmail(viewing, userEmail, buyerName, None, env.slotLabel)
      case Err(e) => Err(e)
      case Ok(_) => assert false; Ok(outbox)
  }

  /** The confirmation handed to the e-mail service for the buyer. */
  function Confirmation(viewing: Viewing, userEmail: string): Delivery {
    var e := EmailTemplates.ViewingConfirmationToBuyerEmail(viewing, SearchWorker.ChatUrl);
    Delivery(userEmail, e.subject, e.body)
  }

  /** The sentence about the agent inside the reply. */
  function AgentMessage(agentEmail: Option<string>, agentName: Option<string>): string {
    if Truthy(agentEmail) then " Request sent to " + agentName.GetOr("the agent") + " at " + agentEmail.value + "."
    else NoContactNote
  }

  function Message(address: string, agentMessage: string, userEmail: string): string {
    "Viewing requested for " + address + "." + agentMessage + " Confirmation sent to " + userEmail + "."
  }

  /** `execute`: the tables after the call and its reply or exception. The
      viewing is put before any e-mail is attempted, so it stays saved
      whichever later step throws. */
  function Run(t: Tables, userId: string, input: Input, userEmail: string, env: Env): (r: (Tables, Result<Reply, string>))
    ensures t.outbox <= r.0.outbox && |r.0.outbox| <= |t.outbox| + 1
    ensures r.1.Ok? ==> r.1.value.viewingId == env.viewingId && |r.0.notifications| == |t.notifications| + 1
                        && |r.0.outbox| > |t.outbox| && r.0.outbox[|r.0.outbox| - 1].to == userEmail
    ensures r.1.Err? ==> r.0.notifications == t.notifications
  {
    var listing := FoundListing(t.results, userId, input);
    var user := if userId in t.users then Some(t.users[userId]) else None;
    var viewing := NewViewing(userId, input, listing, env);
    var t1 := t.(viewings := t.viewings[(userId, env.viewingId) := viewing]);
    match AgentStep(t1.outbox, viewing, userEmail, BuyerName(user, userEmail), env)
    case Err(e) => (t1, Err(e))
    case Ok(outbox) =>
      var d := Confirmation(viewing, userEmail);
      if !env.accepts(d) then (t1.(outbox := outbox), Err(SendRejected))
      else
        var n := Notification(userId, env.notificationId, ViewingRequest, EmailChannel, userEmail, d.subject, env.now, "sent");
        (t1.(outbox := outbox + [d], notifications := t1.notifications + [n]),
         Ok(Reply(env.viewingId, Message(viewing.listingAddress, AgentMessage(viewing.agentEmail, viewing.agentName), userEmail))))
  }

  /** `execute` on the store. */
  method Execute(store: Store, userId: string, input: Input, userEmail: string, env: Env)
    returns (r: Result<Reply, string>)
    modifies store
    ensures (store.State(), r) == Run(old(store.State()), userId, input, userEmail, env)
  {
    var listing := FoundListing(store.results, userId, input);
    var user := if userId in store.users then Some(store.users[userId]) else None;
    var viewing := NewViewing(userId, input, listing, env);
    store.viewings := store.viewings[(userId, env.viewingId) := viewing];
    var agent := AgentStep(store.outbox, viewing, userEmail, BuyerName(user, userEmail), env);
    if agent.Err? {
      return Err(agent.error);
    }
    store.outbox := agent.value;
    var d := Confirmation(viewing, userEmail);
    if !env.accepts(d) {
      return Err(SendRejected);
    }
    store.outbox := store.outbox + [d];
    store.notifications := store.notifications
      + [Notification(userId, env.notificationId, ViewingRequest, EmailChannel, userEmail, d.subject, env.now, "sent")];
    r := Ok(Reply(env.viewingId, Message(viewing.listingAddress, AgentMessage(viewing.agentEmail, viewing.agentName), userEmail)));
  }

  // ---------------------------------------------------------------- properties

  /** The saved viewing, whatever the outcome: keyed by the fresh id, in the
      requested state with no feedback, for the asked listing and profile,
      with the stored match's address and agent or the fallback address and no
      agent. Nothing else in the viewings table changes, and no user, result
      or document either. */
  lemma ViewingSaved(t: Tables, userId: string, input: Input, userEmail: string, env: Env)
    ensures var (t', _) := Run(t, userId, input, userEmail, env);
      var k := (userId, SearchWorker.Key(input.profileId, input.listingId));
      && t'.viewings.Keys == t.viewings.Keys + {(userId, env.viewingId)}
      && (forall k' :: k' in t.viewings && k' != (userId, env.viewingId) ==> t'.viewings[k'] == t.viewings[k'])
      && t'.users == t.users && t'.results == t.results && t'.documents == t.documents
      && t'.invocations == t.invocations
      && var v := t'.viewings[(userId, env.viewingId)];
      && v.userId == userId && v.viewingId == env.viewingId
      && v.listingId == input.listingId && v.profileId == input.profileId
      && v.proposedDateTime == input.proposedDateTime
      && v.status == Requested && v.requestedAt == env.now
      && v.feedback.None? && v.feedbackRequestedAt.None? && v.feedbackCollectedAt.None?
      && (k in t.results ==>
            v.listingAddress == t.results[k].listingData.address
            && v.agentEmail == t.results[k].listingData.agentEmail
            && v.agentName == t.results[k].listingData.agentName)
      && (k !in t.results ==>
            v.listingAddress == "Listing " + input.listingId && v.agentEmail.None? && v.agentName.None?)
  {
    RunFrame(t, userId, input, userEmail, env);
  }

  /** Whatever the outcome, the call puts the one viewing and touches no
      other table than the outbox and the notifications. */
  lemma RunFrame(t: Tables, userId: string, input: Input, userEmail: string, env: Env)
    ensures var t' := Run(t, userId, input, userEmail, env).0;
      && t'.viewings == t.viewings[(userId, env.viewingId) := NewViewing(userId, input, FoundListing(t.results, userId, input), env)]
      && t'.users == t.users && t'.results == t.results && t'.documents == t.documents
      && t'.invocations == t.invocations
  {
    var viewing := NewViewing(userId, input, FoundListing(t.results, userId, input), env);
    var t1 := t.(viewings := t.viewings[(userId, env.viewingId) := viewing]);
    var user := if userId in t.users then Some(t.users[userId]) else None;
    match AgentStep(t1.outbox, viewing, userEmail, BuyerName(user, userEmail), env)
    case Err(e) =>
      assert Run(t, userId, input, userEmail, env).0 == t1;
    case Ok(outbox) =>
      var d := Confirmation(viewing, userEmail);
      if env.accepts(d) {
        var n := Notification(userId, env.notificationId, ViewingRequest, EmailChannel, userEmail, d.subject, env.now, "sent");
        assert Run(t, userId, input, userEmail, env).0 == t1.(outbox := outbox + [d], notifications := t1.notifications + [n]);
      } else {
        assert Run(t, userId, input, userEmail, env).0 == t1.(outbox := outbox);
      }
  }

  /** A listing with an agent address makes the call throw the template's
      error after the viewing is saved: no e-mail goes out, to the agent or to
      the buyer, and no notification is recorded. */
  lemma AgentContactThrows(t: Tables, userId: string, input: Input, userEmail: string, env: Env)
    requires Truthy(NewViewing(userId, input, FoundListing(t.results, userId, input), env).agentEmail)
    ensures var (t', r) := Run(t, userId, input, userEmail, env);
      && r == Err(EmailTemplates.MissingSlotsError)
      && t'.outbox == t.outbox && t'.notifications == t.notifications
  {
  }

  /** Without an agent address: when the buyer's confirmation is accepted it
      is the only message sent and exactly one `viewing_request` notification,
      addressed to the buyer with the confirmation's subject, is recorded;
      when it is refused the call throws and records nothing. */
  lemma BuyerConfirmed(t: Tables, userId: string, input: Input, userEmail: string, env: Env)
    requires !Truthy(NewViewing(userId, input, FoundListing(t.results, userId, input), env).agentEmail)
    ensures var (t', r) := Run(t, userId, input, userEmail, env);
      var v := NewViewing(userId, input, FoundListing(t.results, userId, input), env);
      var d := Confirmation(v, userEmail);
      && d.to == userEmail && d.subject == EmailTemplates.ConfirmationSubjectPrefix + v.listingAddress
      && (env.accepts(d) ==>
            && r.Ok? && r.value.viewingId == env.viewingId
            && t'.outbox == t.outbox + [d]
            && t'.notifications == t.notifications + [
                 Notification(userId, env.notificationId, ViewingRequest, EmailChannel, userEmail, d.subject, env.now, "sent")])
      && (!env.accepts(d) ==>
            r == Err(SendRejected) && t'.outbox == t.outbox && t'.notifications == t.notifications)
  {
  }

  /** A successful reply always carries the no-contact note: the branch that
      would name the agent is reached only when the call has already thrown. */
  lemma SuccessNamesNoAgent(t: Tables, userId: string, input: Input, userEmail: string, env: Env)
    requires Run(t, userId, input, userEmail, env).1.Ok?
    ensures var v := NewViewing(userId, input, FoundListing(t.results, userId, input), env);
      Run(t, userId, input, userEmail, env).1.value.message
        == "Viewing requested for " + v.listingAddress + "." + NoContactNote + " Confirmation sent to " + userEmail + "."
  {
  }

  /** The buyer is named by first and last name only when the profile has both. */
  lemma BuyerNameChoice(user: Option<UserProfile>, userEmail: string)
    ensures BuyerName(user, userEmail) != userEmail ==>
      user.Some? && Truthy(user.value.firstName) && Truthy(user.value.lastName)
    ensures user.Some? && Truthy(user.value.firstName) && Truthy(user.value.lastName) ==>
      BuyerName(user, userEmail) == user.value.firstName.value + " " + user.value.lastName.value
    ensures user.None? ==> BuyerName(user, userEmail) == userEmail
  {
  }

  /** The sentence would name the agent, or `the agent` when the listing has
      no name; an empty name is kept, since `??` only replaces a missing one. */
  lemma AgentMessageChoice(agentEmail: Option<string>, agentName: Option<string>)
    ensures Truthy(agentEmail) && agentName.Some? ==>
      AgentMessage(agentEmail, agentName) == " Request sent to " + agentName.value + " at " + agentEmail.value + "."
    ensures Truthy(agentEmail) && agentName.None? ==>
      AgentMessage(agentEmail, agentName) == " Request sent to the agent at " + agentEmail.value + "."
    ensures !Truthy(agentEmail) ==> AgentMessage(agentEmail, agentName) == NoContactNote
  {
  }

  /** A fresh viewing with a proposed time is what the feedback sweep will ask
      about once that time has passed. */
  lemma NewViewingBecomesDue(t: Tables, userId: string, input: Input, userEmail: string, env: Env, later: string)
    requires input.proposedDateTime.Some? && StrLess(input.proposedDateTime.value, later)
    ensures var (t', _) := Run(t, userId, input, userEmail, env);
      SearchWorker.FeedbackDue(t'.viewings[(userId, env.viewingId)], later)
  {
  }

  /** The listings the search worker stores come from the provider's records,
      which carry no agent address, so a viewing of any such match takes the
      no-agent path. */
  lemma WorkerMatchesHaveNoAgent(data: seq<RentcastProperty>, i: nat, preference: Option<string>,
                                 userId: string, profileId: string, now: string)
    requires i < |data|
    ensures var l := SearchWorker.Enrich(Rentcast.NormalizeAll(data)[i], preference);
      var sr := SearchWorker.Record(userId, profileId, now, l);
      sr.listingData.agentEmail.None? && sr.listingData.agentName.None?
  {
  }
}
