# SirRealtor core, modelled in Dafny

SirRealtor is a home-buying assistant. A buyer chats with it to describe what they
are looking for. It keeps search profiles per user, runs a daily search against a
listings provider (Rentcast), stores and e-mails new matches, and e-mails viewing
requests and feedback requests. A small web UI shows profiles, matches and
viewings.

This project models the back end's core and a handful of UI helpers:

- the search worker: profile runs, the diff against stored results, batch writes,
  match mails, the cron sweep and the feedback-request sweep;
- the Rentcast provider and the listing URL builder;
- the e-mail templates;
- the chat handler and its tools;
- the data API handler;
- the infrastructure configuration;
- the UI helpers of the listings page, the search-profile card, the profile panel,
  the icon size helpers and the sign-up page.

The AWS tables (Users, SearchResults, Notifications, Viewings, Documents), the
outgoing mail and the Lambda invocations form one value, `Db.Tables`. The class
`Db.Store` holds that value in fields that the handler methods update in place.
Every method is proved equal to a specification function on `Tables`, for example
`ensures (store.State(), r) == Run(old(store.State()), …)`. The properties are
proved as lemmas about those functions.

Some inputs come from outside the code, so the model takes them as parameters:

- the clock (`now`);
- fresh identifiers (`randomUUID`);
- whether SES accepts a message;
- whether a batch write succeeds;
- the provider's HTTP answer;
- the language model's answers;
- the tools' outcomes as the chat handler sees them;
- the URL presigner;
- the items a DynamoDB Scan or Query returns.

Where an exception in the source reaches a caller, the model returns a `Result`
or an `Outcome` value (`Returned`, or `Threw` with a message).

The send loop of the search worker and its feedback sweep are stated for any
function from a listing (or an owner and a viewing) to a message. The worker
passes the match e-mail and the feedback e-mail. The loop properties therefore
depend only on which messages SES accepts, not on the message text.

The data handler follows the program as written, including the unchecked object key of an upload confirmation (see "## Findings"). `DataHandler.HandleChecked` is the same handler with the key check added, and the properties of the corrected behaviour are proved about it.

Numbers are integers. Strings are sequences of characters, and string order is
code-point order.

## Model

| member | source | states |
|---|---|---|
| SearchWorker.KeyInjective | chat-service/src/search-worker.ts:109-111 | two `profileId#listingId` keys are equal only for equal pairs, when the profile ids contain no `#` |
| SearchWorker.KeyCollision | chat-service/src/search-worker.ts:109-111 | with a `#` inside an id, two different pairs share one key, so one listing is taken for the other |
| SearchWorker.ExistingRead | chat-service/src/search-worker.ts:92-106 | the keys the run reads are stored keys of the user's profile: those the Query's one page holds |
| SearchWorker.NewListings | chat-service/src/search-worker.ts:109-111 | the new listings are exactly the fetched ones whose key is not among those read, in provider order |
| SearchWorker.NewListingsCounts | chat-service/src/search-worker.ts:109-111 | a listing whose key was not read is kept as many times as the response holds it; one whose key was read is dropped |
| SearchWorker.EnrichAll | chat-service/src/search-worker.ts:124-127 | every new listing gets its URL for the user's platform, one for one |
| SearchWorker.Records | chat-service/src/search-worker.ts:130-151 | one search-result record per new listing, in order |
| SearchWorker.Batches | chat-service/src/search-worker.ts:130-151 | each batch holds between 1 and 25 records |
| SearchWorker.BatchesCover | chat-service/src/search-worker.ts:130-151 | the batches concatenate back to the records; all but the last are full; there are ceil(n/25) of them |
| SearchWorker.BatchIndex | chat-service/src/search-worker.ts:130 | batch j exists exactly when 25·j is inside the list |
| SearchWorker.BatchAt | chat-service/src/search-worker.ts:130-133 | batch j is the slice from 25·j to min(25·(j+1), n) |
| SearchWorker.FiftySevenInThreeBatches | chat-service/src/search-worker.ts:130-151 | 57 records are written as 25, 25 and 7 |
| SearchWorker.WrittenBatches | chat-service/src/search-worker.ts:130-151 | every batch before the first refused one was written, and the one after them was refused |
| SearchWorker.DuplicateInBatchFails | chat-service/src/search-worker.ts:130-151 | a listing id repeated within the first batch makes the first write fail |
| SearchWorker.StoreNewDuplicateFails | chat-service/src/search-worker.ts:129-151 | two new listings with one id among the first 25 make the store step throw before anything is written |
| SearchWorker.RepeatedNewListingFails | chat-service/src/search-worker.ts:108-151 | a provider answer naming an unread listing id twice among its first 25 listings makes the profile run throw with the tables unchanged |
| SearchWorker.PutAllLookup | chat-service/src/search-worker.ts:130-151 | after the puts, a key is stored exactly when it was stored before or some record carries it; it holds the last record put with it, and other keys are untouched |
| SearchWorker.PutAll | chat-service/src/search-worker.ts:130-151 | putting records keeps every stored key and stores the key of each record put |
| SearchWorker.NotifyAll | chat-service/src/search-worker.ts:154-195 | the send loop, for any message per listing, changes no user, viewing, document or invocation and adds no result key |
| SearchWorker.Sent | chat-service/src/search-worker.ts:156-159 | the mails sent are no more than the listings, all accepted, and include every accepted one |
| SearchWorker.StoreNew | chat-service/src/search-worker.ts:129-195 | writing the batches and mailing the matches changes no user, viewing, document or invocation |
| SearchWorker.NotifyAllOutbox | chat-service/src/search-worker.ts:154-195 | the send loop appends to the outbox exactly the accepted messages, one per listing in order, for any message per listing |
| SearchWorker.NotifyAllNotifications | chat-service/src/search-worker.ts:157-193 | one notification record per accepted mail, appended after the existing ones |
| SearchWorker.NotifyAllMarks | chat-service/src/search-worker.ts:157-193 | a stored result is flagged notified exactly when the mail for its listing was accepted |
| SearchWorker.PutNewStoresAll | chat-service/src/search-worker.ts:92-151 | writing the new records stores a key for every fetched listing, whichever stored keys the Query read |
| SearchWorker.StoreNewKeys | chat-service/src/search-worker.ts:130-195 | a store step that returns normally has written every new record, and the mails add no key |
| SearchWorker.CompletedRunStoresAll | chat-service/src/search-worker.ts:75-196 | a profile run that returns normally stores a key for every listing the provider gave |
| SearchWorker.SecondRunIsNoOp | chat-service/src/search-worker.ts:75-196 | after a completed run, a second run with the same provider answer, whose Query page holds all the profile's stored keys, finds nothing new and changes nothing |
| SearchWorker.PageMissFoundAgain | chat-service/src/search-worker.ts:92-111 | a fetched listing whose stored key the Query's page left out is found new again |
| SearchWorker.PutUnnotifiedKey | chat-service/src/search-worker.ts:133-150 | after putting un-notified records, the key of each is stored un-notified |
| SearchWorker.StoreNewResets | chat-service/src/search-worker.ts:129-151 | a completed store step that mails nothing leaves the key of every new listing un-notified, whatever was stored under it |
| SearchWorker.StoreNewMails | chat-service/src/search-worker.ts:154-195 | a completed store step that mails the matches sends the match of every new listing that SES accepts |
| SearchWorker.PageMissResetsFlag | chat-service/src/search-worker.ts:92-151 | with a stored key left out of the Query's page, a completed run puts that listing again with `notified = false`; a result already notified loses its flag, so the run is not a worker step |
| SearchWorker.PageMissMailsAgain | chat-service/src/search-worker.ts:92-195 | with a stored key left out of the Query's page, a completed run mails that listing's match again when SES accepts it |
| SearchWorker.PutFreshIsWorkerStep | chat-service/src/search-worker.ts:130-151 | putting records under unstored keys only adds results, so it is a worker step |
| SearchWorker.NotifyAllIsWorkerStep | chat-service/src/search-worker.ts:154-195 | the send loop is a worker step |
| SearchWorker.WrittenPrefix | chat-service/src/search-worker.ts:130-151 | what the written batches hold is a prefix of the records |
| SearchWorker.StoreNewIsWorkerStep | chat-service/src/search-worker.ts:130-195 | writing fresh records and mailing the matches is a worker step |
| SearchWorker.ProfileRunIsWorkerStep | chat-service/src/search-worker.ts:75-196 | when the Query's page holds every stored key of the profile, a profile run only adds results, sets notified flags, appends mail and notification records |
| SearchWorker.NewRecordsFresh | chat-service/src/search-worker.ts:92-111 | when the Query's page holds every stored key of the profile, the records of the listings a run finds new carry keys not yet stored |
| SearchWorker.BatchFailureSendsNothing | chat-service/src/search-worker.ts:130-151 | a refused batch throws before any mail: outbox and notifications are unchanged |
| SearchWorker.BatchFailureKeepsResults | chat-service/src/search-worker.ts:92-151 | when the Query's page held every stored key, a refused batch leaves every stored result as it was |
| SearchWorker.StoreNewFailureKeeps | chat-service/src/search-worker.ts:130-151 | a store step over fresh records that throws leaves every stored result as it was |
| SearchWorker.NotifyMarksAccepted | chat-service/src/search-worker.ts:157-193 | the send loop over fresh records sets only the flags of accepted matches |
| SearchWorker.StoreNewMarks | chat-service/src/search-worker.ts:130-195 | after the store step, a newly flagged result is an accepted match |
| SearchWorker.NotifiedOnlyAfterAcceptance | chat-service/src/search-worker.ts:75-196 | a result ends up notified only if it already was, or the match mail for a new listing with its key was accepted |
| SearchWorker.ProfilesRunIsWorkerStep | chat-service/src/search-worker.ts:66-73 | when every existing-keys Query fits in one page, running a user's profiles in order is a worker step |
| SearchWorker.UnmonitoredUserUntouched | chat-service/src/search-worker.ts:66-73 | a user with no monitored profile is left alone and the run returns normally |
| SearchWorker.CronUsersIsWorkerStep | chat-service/src/search-worker.ts:281-299 | when every existing-keys Query fits in one page, one page of users, each user's failure caught, is a worker step |
| SearchWorker.CronPagesIsWorkerStep | chat-service/src/search-worker.ts:281-299 | when every existing-keys Query fits in one page, following every scan page is a worker step |
| SearchWorker.ProfilesRunKeepsViewings | chat-service/src/search-worker.ts:66-73 | neither does a user's run |
| SearchWorker.CronLeavesViewings | chat-service/src/search-worker.ts:281-299 | nor the cron pass over all pages |
| SearchWorker.CronUsersKeepsViewings | chat-service/src/search-worker.ts:281-299 | nor one page of it |
| SearchWorker.SweepAll | chat-service/src/search-worker.ts:216-249 | the feedback sweep, for any message per owner and viewing, changes no user, result, notification, document or invocation and keeps the viewing keys |
| SearchWorker.SweepAllViewing | chat-service/src/search-worker.ts:232-248 | a viewing is stamped `feedbackRequestedAt = now` exactly when its owner has an address and the mail was accepted; otherwise it is unchanged |
| SearchWorker.SweepIsWorkerStep | chat-service/src/search-worker.ts:203-212 | the sweep is a worker step, and a viewing already asked about is never changed again |
| SearchWorker.SweepMailsDueOwners | chat-service/src/search-worker.ts:203-248 | the sweep sends at most one mail per due viewing and records no notification |
| SearchWorker.SweepAllGrowth | chat-service/src/search-worker.ts:232-248 | the sweep only appends to the outbox, at most one mail per scanned viewing |
| SearchWorker.FindProfile | chat-service/src/search-worker.ts:268 | the profile found carries the id asked for; none is found only when no profile has that id |
| SearchWorker.TargetedLeavesViewings | chat-service/src/search-worker.ts:258-278 | a targeted run sends no feedback request and never changes a viewing |
| SearchWorker.TargetedIsWorkerStep | chat-service/src/search-worker.ts:258-278 | when every existing-keys Query fits in one page, a targeted run is a worker step |
| SearchWorker.HandlerIsWorkerStep | chat-service/src/search-worker.ts:252-305 | when every existing-keys Query fits in one page, any invocation is a worker step; a cron invocation returns normally when no DynamoDB call fails |
| SearchWorker.SendNotification | chat-service/src/search-worker.ts:29-51 | an e-mail is appended to the outbox exactly when SES accepts it; nothing else changes |
| SearchWorker.WriteBatch | chat-service/src/search-worker.ts:132-150 | one pass puts the j-th batch exactly when the store accepts it, and a refusal is the first one |
| SearchWorker.WriteBatches | chat-service/src/search-worker.ts:130-151 | the loop writes the batches in order up to the first refused one and reports whether all were written |
| SearchWorker.NotifyListing | chat-service/src/search-worker.ts:157-193 | one pass mails the listing and, when the mail is accepted, flags the result and appends the notification; a refusal changes nothing |
| SearchWorker.NotifyMatches | chat-service/src/search-worker.ts:154-195 | the per-listing send loop, with each failure caught, ends in the state of `NotifyAll` |
| SearchWorker.ProcessSearchProfile | chat-service/src/search-worker.ts:75-196 | the profile run ends in the state and outcome of `ProfileRun` |
| SearchWorker.ProfileRun | chat-service/src/search-worker.ts:75-196 | a profile run changes no user, viewing, document or invocation; when nothing new is found it changes nothing and returns normally |
| SearchWorker.SweepRun | chat-service/src/search-worker.ts:198-250 | the feedback sweep changes no user, result, notification, document or invocation, adds or removes no viewing, and only appends to the outbox, at most one mail per due scanned viewing |
| SearchWorker.TargetedRun | chat-service/src/search-worker.ts:258-278 | a targeted run changes nothing and returns normally unless the user is stored and, when a profile is named, that profile exists and is monitored |
| SearchWorker.CronUsersAppend | chat-service/src/search-worker.ts:281-299 | running two lists of users in turn is running their concatenation |
| SearchWorker.CronPagesFlatten | chat-service/src/search-worker.ts:281-299 | running the scan pages one after another runs each scanned user once, in scan order |
| SearchWorker.CronRunsEveryUser | chat-service/src/search-worker.ts:280-299 | when the pages are the whole UserProfile table, the cron run reaches every stored user and every monitored profile of theirs |
| SearchWorker.ProcessUserProfile | chat-service/src/search-worker.ts:66-73 | the monitored profiles in order; an exception ends the loop and reaches the caller |
| SearchWorker.RequestFeedback | chat-service/src/search-worker.ts:217-248 | one pass skips an owner without address; otherwise mails the request and stamps the viewing when the mail is accepted |
| SearchWorker.SendFeedbackRequests | chat-service/src/search-worker.ts:198-250 | the sweep over one scan of Viewings ends in the state of `SweepRun` |
| SearchWorker.ProcessPage | chat-service/src/search-worker.ts:288-296 | every user of a page is run, each failure caught (`allSettled`) |
| SearchWorker.Handler | chat-service/src/search-worker.ts:252-305 | a targeted run for a `userId` event, otherwise the cron pass over all pages and then the sweep |
| Rentcast.SetParam | chat-service/src/mls/rentcast-provider.ts:26-37 | `URLSearchParams.set` leaves exactly the new value under its name |
| Rentcast.RemoveKey | chat-service/src/mls/rentcast-provider.ts:26-37 | no parameter with the removed name remains |
| Rentcast.BuildParams | chat-service/src/mls/rentcast-provider.ts:26-37 | the successive `params.set` calls build the expected parameter list, in set order |
| Rentcast.LookupOptional | chat-service/src/mls/rentcast-provider.ts:28-35 | an optional parameter is present exactly when its value is |
| Rentcast.ParamsContent | chat-service/src/mls/rentcast-provider.ts:28-37 | each name carries the criterion's value when it is set (0 included for the numbers), with `limit=50` and `status=Active` always sent |
| Rentcast.ParamsEndWithLimitAndStatus | chat-service/src/mls/rentcast-provider.ts:36-37 | `limit` and `status` come last |
| Rentcast.Coordinate | chat-service/src/mls/rentcast-provider.ts:60-61 | a coordinate is kept exactly when the provider gave a number |
| Rentcast.Normalize | chat-service/src/mls/rentcast-provider.ts:53-63 | a normalised listing carries no agent contact and no URL, and has a latitude or longitude exactly when the record's is a number |
| Rentcast.NormalizeAll | chat-service/src/mls/rentcast-provider.ts:53-63 | one listing per provider property, in order |
| Rentcast.NormalizedListing | chat-service/src/mls/rentcast-provider.ts:53-63 | each field comes from its provider field; agent contact and URL are never set |
| Rentcast.SearchListings | chat-service/src/mls/rentcast-provider.ts:25-64 | a transport failure or non-OK status is an error naming the status; an OK answer gives the normalized listings |
| ListingUrl.Utf8Char | chat-service/src/mls/listing-url.ts:7-9 | the UTF-8 encoding of one character is one to four bytes |
| ListingUrl.EncodeUriComponent | chat-service/src/mls/listing-url.ts:7-9 | the encoding is at least as long as the input and at most twelve characters per input character |
| ListingUrl.Escapes | chat-service/src/mls/listing-url.ts:7-9 | three characters `%XX` per byte |
| ListingUrl.EncodeRoundTrip | chat-service/src/mls/listing-url.ts:7-9 | `encodeURIComponent` output is in escaped form and percent-decodes back to the input's UTF-8 bytes |
| ListingUrl.EscapedFormHasNoSpace | chat-service/src/mls/listing-url.ts:7-9 | encoded text contains no space |
| ListingUrl.EncodeUnreservedIsIdentity | chat-service/src/mls/listing-url.ts:7-9 | unreserved characters pass through unchanged |
| ListingUrl.ReplaceSpaces | chat-service/src/mls/listing-url.ts:11 | every space becomes `-` and nothing else changes |
| ListingUrl.BuildListingUrl | chat-service/src/mls/listing-url.ts:1-13 | the URL starts with the Redfin, Realtor or Zillow prefix |
| ListingUrl.EncodedPlatformUrl | chat-service/src/mls/listing-url.ts:6-9 | Redfin and Realtor URLs end in the percent-encoded address |
| ListingUrl.ZillowUrl | chat-service/src/mls/listing-url.ts:10-11 | the Zillow URL, the default, is the address with spaces as dashes between a fixed prefix and suffix, and has no space |
| EmailTemplates.MatchEmailShape | chat-service/src/email-templates.ts:3-25 | the match mail's subject, its links (listing URL when truthy, then chat) and its rows, with the size row only for a truthy size |
| EmailTemplates.MatchEmailHrefs | chat-service/src/email-templates.ts:15-20 | the match mail links the listing when it has a URL, then always the chat |
| EmailTemplates.MatchEmailParagraphs | chat-service/src/email-templates.ts:10-21 | the match mail's paragraphs are the intro, price, rooms, the size exactly when `sqft` is truthy, and the footer |
| EmailTemplates.NewListingMatchEmail | chat-service/src/email-templates.ts:3-25 | seven blocks plus one for a truthy size and one for a URL; the address heading and the chat button are always there |
| EmailTemplates.ViewingRequestToAgentEmail | chat-service/src/email-templates.ts:27-66 | the call throws exactly when no slot list is passed; otherwise the subject names the address and there is one block per slot besides seven fixed ones |
| EmailTemplates.ViewingConfirmationToBuyerEmail | chat-service/src/email-templates.ts:68-93 | seven blocks plus one for a proposed time and one for an agent name; the Open Chat button is there and the mail ends with the sent-via line |
| EmailTemplates.ViewingFeedbackRequestEmail | chat-service/src/email-templates.ts:95-114 | the mail links the feedback URL and ends with the sent-via line; the subject is a question |
| EmailTemplates.SlotButtons | chat-service/src/email-templates.ts:35-44 | one button per slot, in order, linking to `slot=<i>` |
| EmailTemplates.SlotUrlIsNotNoneUrl | chat-service/src/email-templates.ts:37-46 | a slot link never equals the `slot=none` link |
| EmailTemplates.AgentEmailLinks | chat-service/src/email-templates.ts:27-66 | without slots the template throws; otherwise the links are the slot buttons in order, then the none link |
| EmailTemplates.BuyerConfirmationRows | chat-service/src/email-templates.ts:68-93 | the proposed time and the agent rows appear exactly when truthy, in that order |
| EmailTemplates.BuyerConfirmationLinks | chat-service/src/email-templates.ts:68-93 | the confirmation's only link is the chat URL |
| EmailTemplates.FeedbackEmailShape | chat-service/src/email-templates.ts:95-114 | the feedback request names the address and links only to the chat |
| ChatHandler.Dispatch | chat-service/src/handler.ts:34-56 | the tool selected gets the request's input and user id; only `schedule_viewing` gets the e-mail claim |
| ChatHandler.ExecuteTool | chat-service/src/handler.ts:34-56 | a known tool's value is what that tool returned; an unknown name is answered with the error object |
| ChatHandler.DispatchTable | chat-service/src/handler.ts:25-56 | a name selects a tool exactly when it is one of the six, and only `schedule_viewing` receives the e-mail |
| ChatHandler.UnknownToolRefused | chat-service/src/handler.ts:25-56 | any other name, `update_user_details` included, gives `Unknown tool: <name>` and runs nothing |
| ChatHandler.ToolFailureCaught | chat-service/src/handler.ts:111-128 | a tool that throws becomes an error object; one that returns is passed on |
| ChatHandler.ToolResults | chat-service/src/handler.ts:111-128 | one `tool_result` per `tool_use` block, in order, answering it by id |
| ChatHandler.FirstText | chat-service/src/handler.ts:105-109 | the reply is the text of the first text block, and empty when there is none |
| ChatHandler.RoundsAppendAtMost | chat-service/src/handler.ts:89-132 | the loop only appends to the conversation, at most one assistant message per round |
| ChatHandler.ToolsForeverExhaustsRounds | chat-service/src/handler.ts:89-132 | a model that always asks for tools gets exactly `left` rounds, two messages each |
| ChatHandler.EndTurnReplies | chat-service/src/handler.ts:103-109 | an `end_turn` answer is appended and ends the loop with its first text |
| ChatHandler.ToolRoundAnswersEveryUse | chat-service/src/handler.ts:111-128 | the user message after a `tool_use` answer holds one result per tool use, ids matching |
| ChatHandler.BadRequestsSkipModel | chat-service/src/handler.ts:61-79 | a missing body, bad JSON or no messages is 400 whatever the model would answer |
| ChatHandler.ReplyShape | chat-service/src/handler.ts:84-144 | the session id is the given one or the `sub`; the reply extends the request's messages with at most ten assistant messages |
| ChatHandler.RoundsRunOut | chat-service/src/handler.ts:89-132 | a model that never ends its turn yields `''` after exactly ten rounds |
| ChatHandler.Rounds | chat-service/src/handler.ts:94-132 | a loop that ends normally only appends to the conversation, at most two messages per round |
| ChatHandler.Respond | chat-service/src/handler.ts:58-149 | the status is 400 exactly for a missing body, bad JSON or no messages, and otherwise 500 or a reply; a reply's messages extend the request's |
| ChatHandler.Handler | chat-service/src/handler.ts:58-149 | the handler's loop, growing the conversation in place, answers what `Respond` gives |
| ChatHandler.ChatCreatedUserIsNeverMailed | chat-service/src/handler.ts:43-44 | a user first created through the chat is stored with e-mail `''`, and the worker never mails them a match |
| UpsertSearchProfile.FindIndex | chat-service/src/tools/upsert-search-profile.ts:87 | the first index with the id, or -1 when none has it |
| UpsertSearchProfile.ProfileIdChoice | chat-service/src/tools/upsert-search-profile.ts:86 | the id written is the given one, else a fresh one |
| UpsertSearchProfile.ReplacedInPlace | chat-service/src/tools/upsert-search-profile.ts:96-109 | an existing profile is replaced at its index with new name, criteria and `updatedAt`, keeping its `createdAt`; the others are unchanged |
| UpsertSearchProfile.AppendedWhenAbsent | chat-service/src/tools/upsert-search-profile.ts:108-112 | an unknown id is appended at the end with `createdAt = now` |
| UpsertSearchProfile.Defaults | chat-service/src/tools/upsert-search-profile.ts:90-101 | monitoring defaults off, e-mail notices on, SMS and push off; the default flag goes to the first profile of an empty list |
| UpsertSearchProfile.NewUserRecord | chat-service/src/tools/upsert-search-profile.ts:76-84 | a first-time user gets the given address or `''`, no names, this one profile, both stamps now |
| UpsertSearchProfile.Frame | chat-service/src/tools/upsert-search-profile.ts:114-121 | only the user's own record changes, stamped now |
| UpsertSearchProfile.TriggerExactlyWhenJustEnabled | chat-service/src/tools/upsert-search-profile.ts:123-134 | the worker is invoked exactly when monitoring turns on from off and the worker is configured |
| UpsertSearchProfile.SecondUpsertDoesNotTrigger | chat-service/src/tools/upsert-search-profile.ts:88-124 | repeating the same upsert invokes the worker at most once |
| UpsertSearchProfile.MessageReportsActionAndMonitoring | chat-service/src/tools/upsert-search-profile.ts:136-139 | the message's ending tells `created` from `updated` and the monitoring state |
| UpsertSearchProfile.Execute | chat-service/src/tools/upsert-search-profile.ts:65-140 | the store and reply after `execute` are those of `Run` |
| UpsertSearchProfile.Run | chat-service/src/tools/upsert-search-profile.ts:65-140 | the user is stored afterwards, holding a profile with the returned id and the input's name, and at most one search is triggered |
| UpsertSearchProfile.PlacedIsFound | chat-service/src/tools/upsert-search-profile.ts:87-112 | after the replace or push, the profile id is found at the replaced index or at the end |
| UpdateUserDetails.Field.Name | chat-service/src/tools/update-user-details.ts:74-89 | no whitelisted field is `updatedAt` or `email` |
| UpdateUserDetails.SetParts | chat-service/src/tools/update-user-details.ts:109 | one `#k = :k` per key |
| UpdateUserDetails.NameEntries | chat-service/src/tools/update-user-details.ts:110 | one `[#k, k]` per key |
| UpdateUserDetails.ValueEntries | chat-service/src/tools/update-user-details.ts:111-113 | one `[:k, v]` per entry |
| UpdateUserDetails.SetIfDefined | chat-service/src/tools/update-user-details.ts:95-107 | one `if (… !== undefined)` assignment appends the field's entry |
| UpdateUserDetails.CollectFields | chat-service/src/tools/update-user-details.ts:94-107 | the thirteen checks, in order, build `updatedAt` followed by the defined whitelisted fields |
| UpdateUserDetails.Execute | chat-service/src/tools/update-user-details.ts:91-127 | the request built from the assignments in order, and the message |
| UpdateUserDetails.FieldOrder | chat-service/src/tools/update-user-details.ts:94-107 | `updatedAt` first, then the defined whitelisted fields in whitelist order |
| UpdateUserDetails.WrittenHasName | chat-service/src/tools/update-user-details.ts:95-107 | a key is written exactly when a listed field has that name and the input defines it |
| UpdateUserDetails.WrittenExactlyWhenDefined | chat-service/src/tools/update-user-details.ts:94-107 | `updatedAt = now` comes first, and a field is written exactly when its input is defined |
| UpdateUserDetails.WrittenCarriesInput | chat-service/src/tools/update-user-details.ts:95-107 | every written field carries the input's own value |
| UpdateUserDetails.OnlyWhitelistWritten | chat-service/src/tools/update-user-details.ts:74-107 | nothing but `updatedAt` and whitelisted fields is written; never the e-mail |
| UpdateUserDetails.RequestShape | chat-service/src/tools/update-user-details.ts:109-122 | the SET clause, the name map and the value map agree key by key |
| UpdateUserDetails.MessageListsDefinedKeys | chat-service/src/tools/update-user-details.ts:125-126 | the message lists exactly the input's defined keys, in input order |
| UpdateUserDetails.MessageMayNameUnwrittenKey | chat-service/src/tools/update-user-details.ts:94-126 | an `email` key in the input is named in the message though it is not written |
| ScheduleViewing.FoundListing | chat-service/src/tools/schedule-viewing.ts:52-63 | the listing comes from the result stored under `profileId#listingId`, if there is one |
| ScheduleViewing.RunFrame | chat-service/src/tools/schedule-viewing.ts:62-102 | whatever the outcome, the call puts exactly the one new viewing and leaves users, results and documents alone |
| ScheduleViewing.ViewingSaved | chat-service/src/tools/schedule-viewing.ts:62-102 | the new viewing is stored under a fresh id, status `requested`, with the listing's address and agent, or `Listing <id>` and no agent |
| ScheduleViewing.AgentContactThrows | chat-service/src/tools/schedule-viewing.ts:108-120 | with an agent address the template is called without slots and throws: no mail and no notification |
| ScheduleViewing.BuyerConfirmed | chat-service/src/tools/schedule-viewing.ts:122-151 | the buyer's confirmation is sent and one notification recorded when SES accepts; otherwise the call throws and records nothing |
| ScheduleViewing.SuccessNamesNoAgent | chat-service/src/tools/schedule-viewing.ts:153-160 | a successful reply always carries the no-contact note |
| ScheduleViewing.BuyerNameChoice | chat-service/src/tools/schedule-viewing.ts:76-80 | the buyer is named `first last` only when both are truthy, else by the e-mail |
| ScheduleViewing.AgentMessageChoice | chat-service/src/tools/schedule-viewing.ts:153-155 | the agent sentence names the agent or `the agent`; without an address it is the no-contact note |
| ScheduleViewing.NewViewingBecomesDue | chat-service/src/tools/schedule-viewing.ts:83-94 | a viewing with a proposed time is due for the feedback sweep once that time has passed |
| ScheduleViewing.WorkerMatchesHaveNoAgent | chat-service/src/mls/rentcast-provider.ts:53-63 | results the worker stores have no agent contact, so for them scheduling takes the no-agent path |
| ScheduleViewing.Execute | chat-service/src/tools/schedule-viewing.ts:44-161 | the store and reply after `execute` are those of `Run` |
| ScheduleViewing.Run | chat-service/src/tools/schedule-viewing.ts:44-161 | at most one mail is appended; success returns the new viewing id, records one notification and mails the buyer last; failure records no notification |
| SaveViewingFeedback.Apply | chat-service/src/tools/save-viewing-feedback.ts:53-66 | the update touches only the key `(userId, viewingId)`: it saves the feedback on the stored viewing, or, having no condition, creates the item when none is stored |
| SaveViewingFeedback.ApplyCreates | chat-service/src/tools/save-viewing-feedback.ts:53-66 | the item created for an unknown id holds the key, the feedback, its collection time and status `completed`, and no listing, agent, request time, proposed time, slots or feedback request |
| SaveViewingFeedback.SavedFields | chat-service/src/tools/save-viewing-feedback.ts:47-66 | feedback, collection time and status `completed` are set; nothing else changes |
| SaveViewingFeedback.SavedLeavesFilters | chat-service/src/tools/save-viewing-feedback.ts:47-66 | a saved viewing is neither due for the sweep nor pending, at any later time |
| SaveViewingFeedback.SaveIdempotent | chat-service/src/tools/save-viewing-feedback.ts:53-66 | saving the same feedback twice is saving it once |
| SaveViewingFeedback.ApplyKeepsKeying | chat-service/src/tools/save-viewing-feedback.ts:53-66 | every viewing stays stored under its own key |
| SaveViewingFeedback.Message | chat-service/src/tools/save-viewing-feedback.ts:68-70 | the message starts `Feedback saved: ` and ends with the offer clause matching the answer |
| SaveViewingFeedback.MessageReportsOffer | chat-service/src/tools/save-viewing-feedback.ts:68-70 | the message ends with the offer clause exactly when the user would make an offer |
| GetPendingFeedback.Execute | chat-service/src/tools/get-pending-feedback.ts:21-41 | the reply is the pending viewings, in query order, and all of them, with their count |
| GetPendingFeedback.OnlyOwnViewings | chat-service/src/tools/get-pending-feedback.ts:25-36 | only the caller's viewings come back, and each of their pending ones does |
| GetPendingFeedback.PendingIgnoresStatusAndStamp | chat-service/src/tools/get-pending-feedback.ts:29-30 | neither the status nor the sweep's stamp takes part in the filter |
| GetPendingFeedback.DueIffPendingAndUnasked | chat-service/src/tools/get-pending-feedback.ts:29-30 | due for the sweep exactly when pending, with a proposed time, and not yet asked |
| GetPendingFeedback.UnscheduledIsPending | chat-service/src/tools/get-pending-feedback.ts:29-30 | a viewing with no proposed time and no feedback is always pending |
| GetSearchResults.EffectiveLimit | chat-service/src/tools/get-search-results.ts:37 | the default is 10 and the cap 50 |
| GetSearchResults.Execute | chat-service/src/tools/get-search-results.ts:33-57 | a limit below 1 throws; otherwise at most `limit` results, all from the first `limit` index rows |
| GetSearchResults.UnfilteredIsPage | chat-service/src/tools/get-search-results.ts:39-56 | without a profile filter the reply is the first `limit` rows |
| GetSearchResults.FilteredAfterLimit | chat-service/src/tools/get-search-results.ts:46-54 | the profile filter applies after the limit: only that profile's rows within the page |
| GetSearchResults.RepliesNewestFirst | chat-service/src/tools/get-search-results.ts:45-54 | the reply is newest first whenever the index is |
| GetSearchResults.OnlyOwnResults | chat-service/src/tools/get-search-results.ts:33-57 | when the Query returns the caller's index, the reply holds only the caller's stored results, newest first, of the asked profile; unfiltered and within the limit, all of them |
| GetSearchResults.LimitExamples | chat-service/src/tools/get-search-results.ts:37 | no limit gives 10, 200 gives 50, 3 gives 3 |
| DataHandler.RouteOf | chat-service/src/data-handler.ts:255-283 | every route but the agent's link needs a truthy `sub` |
| DataHandler.RoutingTable | chat-service/src/data-handler.ts:262-278 | each path and method selects its route; everything else is 401 or 404 |
| DataHandler.Profile | chat-service/src/data-handler.ts:24-35 | the stored profile, or an empty one naming the user |
| DataHandler.Refreshed | chat-service/src/data-handler.ts:62-66 | one refreshed result per result, in order |
| DataHandler.RefreshedUrls | chat-service/src/data-handler.ts:62-66 | only the listing URL changes, to the one for the user's platform; refreshing twice is refreshing once |
| DataHandler.RefreshUrls | chat-service/src/data-handler.ts:62-66 | the in-place loop over the array gives `Refreshed` |
| DataHandler.NoneForProfile | chat-service/src/data-handler.ts:68-73 | a profile id that occurs in no result has no results |
| DataHandler.GroupDomain | chat-service/src/data-handler.ts:68-73 | the groups are the profile ids that occur |
| DataHandler.GroupIsFilter | chat-service/src/data-handler.ts:68-73 | each group is its profile's results, in order |
| DataHandler.GroupPartitions | chat-service/src/data-handler.ts:68-73 | each result lies in its profile's group, and groups hold nothing else |
| DataHandler.GroupByProfile | chat-service/src/data-handler.ts:68-73 | the grouping loop gives `Group` |
| DataHandler.SearchResultsOf | chat-service/src/data-handler.ts:37-76 | the route's response is `SearchResults` |
| DataHandler.SearchResultsShape | chat-service/src/data-handler.ts:37-76 | 200 with at most 100 results, grouped by profile |
| DataHandler.DecimalPrefix | chat-service/src/data-handler.ts:99-105 | the longest prefix of decimal digits, as `parseInt` reads it |
| DataHandler.HexPrefix | chat-service/src/data-handler.ts:99-105 | the longest prefix of hexadecimal digits, for `0x` input |
| DataHandler.ParseIntOfNatToString | chat-service/src/data-handler.ts:99-105 | the agent's `slot=<i>` reads back as i |
| DataHandler.ParseIntOfNone | chat-service/src/data-handler.ts:99-105 | `none` is not a number |
| DataHandler.ParseIntOfNegativeZero | chat-service/src/data-handler.ts:99-105 | `-0` parses, as negative zero |
| DataHandler.ParseIntOfPrefix | chat-service/src/data-handler.ts:99-105 | digits are read as far as they go |
| DataHandler.ClickedSlotConfirms | chat-service/src/data-handler.ts:99-120 | following the i-th button confirms the viewing for the i-th slot |
| DataHandler.NoneKeepsProposal | chat-service/src/data-handler.ts:99-120 | `slot=none` keeps the viewing requested and its proposed time |
| DataHandler.UnusableSlotConfirmsNone | chat-service/src/data-handler.ts:99-120 | any other unusable slot confirms with the literal time `none` |
| DataHandler.ParseInt | chat-service/src/data-handler.ts:100 | no digit after the blanks and sign gives NaN; a number is negative exactly when the trimmed text starts with `-` |
| DataHandler.SelectedSlot | chat-service/src/data-handler.ts:99-100 | the selected slot is `none` or one of the viewing's slots, and `none` is kept as `none` |
| DataHandler.Answer | chat-service/src/data-handler.ts:99-120 | the update sets the selected slot and response time and touches nothing else but status and proposed time: `none` keeps the viewing requested with its proposed time, a slot confirms it for that slot |
| DataHandler.RecordViewingResponse | chat-service/src/data-handler.ts:78-149 | the agent's link answers 200, 400 or 404; only the 200 path writes; it adds or removes no viewing, touches no other table and sends at most one mail |
| DataHandler.RecordViewingResponseOn | chat-service/src/data-handler.ts:78-149 | the store and response are those of `RecordViewingResponse` |
| DataHandler.ResponseRejects | chat-service/src/data-handler.ts:79-94 | missing parameters are 400, an unknown id 404, both before any write |
| DataHandler.ResponseRecorded | chat-service/src/data-handler.ts:99-146 | the found viewing is updated, nothing else is; the buyer is mailed when they have an address |
| DataHandler.Insert | chat-service/src/data-handler.ts:162 | inserting adds exactly one element |
| DataHandler.SortByRequestedAt | chat-service/src/data-handler.ts:162 | the sort is a permutation |
| DataHandler.InsertKeepsTies | chat-service/src/data-handler.ts:162 | inserting a viewing keeps the order of the viewings requested at any one time |
| DataHandler.SortKeepsTies | chat-service/src/data-handler.ts:162 | the sort is stable: viewings requested at the same time keep their query order |
| DataHandler.ListsOwnViewings | chat-service/src/data-handler.ts:151-165 | when the Query returns the caller's partition, GET /viewings lists exactly the caller's stored viewings, newest first, and writes nothing |
| DataHandler.ListsOwnDocuments | chat-service/src/data-handler.ts:167-178 | when the Query returns the caller's partition, GET /documents lists exactly the caller's stored documents, in descending id order, and writes nothing |
| DataHandler.ListsOwnResults | chat-service/src/data-handler.ts:37-76 | GET /search-results writes nothing, lists the caller's stored results newest first with their URL rebuilt, and lists all of them when there are at most 100 |
| DataHandler.SearchResultsListsOwn | chat-service/src/data-handler.ts:37-76 | the first 100 rows of the index, their URLs rebuilt, are stored results of the caller, newest first; with at most 100 rows every one is listed |
| DataHandler.SortedViewings | chat-service/src/data-handler.ts:151-165 | the viewings come back newest first and are exactly the queried ones |
| DataHandler.UploadUrl | chat-service/src/data-handler.ts:180-198 | 400 unless both parameters are set; otherwise a PUT URL for `<user>/<document>`, valid five minutes |
| DataHandler.ConfirmUploadOn | chat-service/src/data-handler.ts:200-225 | the store and response are those of `ConfirmUploadAsWritten`: the body's `s3Key` is stored unchecked |
| DataHandler.ConfirmValidation | chat-service/src/data-handler.ts:200-225 | as written: bad JSON fails, a missing field is 400, and a complete body is stored as sent |
| DataHandler.DownloadUrl | chat-service/src/data-handler.ts:227-253 | 400 without an id, 404 for another user's document, else a GET URL for its stored key, valid fifteen minutes |
| DataHandler.ForeignKeyServed | chat-service/src/data-handler.ts:209-215 | as written, a caller can register any object key and then get a download URL for it |
| DataHandler.ConfirmKeepsOwnKeys | chat-service/src/data-handler.ts:209-215 | with the key check, every stored document's key stays under its owner's prefix |
| DataHandler.DownloadsOwnObject | chat-service/src/data-handler.ts:227-253 | then a download URL is only presigned for the caller's own object |
| DataHandler.ConfirmKeepsKeyed | chat-service/src/data-handler.ts:200-225 | confirming as written keeps every document stored under its owner and id |
| DataHandler.CheckedHandlerKeepsOwnKeys | chat-service/src/data-handler.ts:200-253 | the handler with the key check differs from `Handle` only on a confirmation naming a foreign key, keeps every stored key under its owner's prefix, and presigns downloads only for the caller's own object |
| DataHandler.Handler | chat-service/src/data-handler.ts:255-283 | the handler's response and store are those of `Handle`, which confirms uploads as written |
| DataHandler.ReadOnlyRoutes | chat-service/src/data-handler.ts:255-283 | only the agent's link and the upload confirmation write |
| DataHandler.UnauthenticatedIsRefused | chat-service/src/data-handler.ts:258-261 | without a `sub` claim the response is 401 and nothing is written |
| DataHandler.Handle | chat-service/src/data-handler.ts:255-283 | no route touches users, results, notifications or invocations; only the confirmation writes documents; only the agent's link writes viewings, and it sends at most one mail |
| Config.EnvSuffix | infra/lib/config.ts:28 | `-<env>` for a truthy environment name, else empty |
| Config.GetConfig | infra/lib/config.ts:12-38 | success exactly when the account is set and not the placeholder, and both regions and the domain are set |
| Config.ErrorOrder | infra/lib/config.ts:21-26 | the error is that of the first failing check |
| Config.ConfigValues | infra/lib/config.ts:30-36 | values pass through, and the hosts are `app<suffix>.<base>` and `api<suffix>.<base>` |
| Config.ProductionHosts | infra/lib/config.ts:28-36 | production gets `app.<base>`; an environment gets `app-<env>.<base>` |
| Config.AppHostDeterminesBase | infra/lib/config.ts:35 | for environment names without a dot, the app host determines the base domain and the suffix |
| ListingsPage.Keep | ui/src/pages/ListingsPage.tsx:45-54 | a result is kept exactly when it meets every non-blank numeric filter |
| ListingsPage.FilteredIsSublist | ui/src/pages/ListingsPage.tsx:45-54 | the filtered list is an ordered sublist of exactly the kept results; blank filters keep all |
| ListingsPage.ProfileResults | ui/src/pages/ListingsPage.tsx:42 | the profile's group, or empty |
| ListingsPage.LocationPill | ui/src/pages/ListingsPage.tsx:74-76 | `city, state`, or whichever is set |
| ListingsPage.CriteriaPills | ui/src/pages/ListingsPage.tsx:69-80 | one pill per truthy criterion, in the page's order, at most six; none without a profile |
| ListingsPage.PresentOrder | ui/src/pages/ListingsPage.tsx:69-80 | pills keep the relative order of their criteria |
| ListingsPage.PresentAt | ui/src/pages/ListingsPage.tsx:69-80 | a present criterion's pill sits after the pills of the present ones before it |
| ListingsPage.PricePills | ui/src/pages/ListingsPage.tsx:77-78 | the price pills show the bounds in rounded thousands |
| ListingsPage.PillExamples | ui/src/pages/ListingsPage.tsx:69-80 | no truthy criterion, no pill; only a location, only that pill |
| ListingsPage.CountLabelReads | ui/src/pages/ListingsPage.tsx:99-100 | the label starts with the shown count, is singular exactly for one, and mentions the total exactly when it differs |
| SearchProfileCard.PriceText | ui/src/components/sidebar/SearchProfileCard.tsx:20-26 | a price reads `$<n>k` |
| SearchProfileCard.CriteriaParts | ui/src/components/sidebar/SearchProfileCard.tsx:13-27 | at most three parts, none empty |
| SearchProfileCard.FormatCriteria | ui/src/components/sidebar/SearchProfileCard.tsx:13-28 | the pushes, the join and the fallback give `CriteriaText` |
| SearchProfileCard.PricePartCases | ui/src/components/sidebar/SearchProfileCard.tsx:20-26 | the price part in each of its four cases |
| SearchProfileCard.ZeroIsUnset | ui/src/components/sidebar/SearchProfileCard.tsx:16-26 | a criterion of 0 or an empty city changes nothing in the summary |
| SearchProfileCard.PlaceholderIffNoCriteria | ui/src/components/sidebar/SearchProfileCard.tsx:13-28 | the placeholder shows exactly when no criterion is set; a bedroom count leads |
| SearchProfileCard.AllPartsJoined | ui/src/components/sidebar/SearchProfileCard.tsx:27 | all three parts are joined in order with ` · ` |
| SearchProfileCard.Card | ui/src/components/sidebar/SearchProfileCard.tsx:31-75 | name, Live or Paused chip, summary, the first three matches and a link counting all; the empty message exactly when there are none |
| SearchProfileCard.LinkCountsAll | ui/src/components/sidebar/SearchProfileCard.tsx:68-75 | the link's number is the total, not the three shown |
| ProfilePanel.Initials | ui/src/components/sidebar/ProfilePanel.tsx:8-13 | one or two characters |
| ProfilePanel.View | ui/src/components/sidebar/ProfilePanel.tsx:16-65 | the prompt alone without a profile; else initials, non-empty name line, e-mail, phone or placeholder, and the prompt exactly when incomplete |
| ProfilePanel.InitialsCases | ui/src/components/sidebar/ProfilePanel.tsx:8-13 | both names' first letters, else the e-mail's first, else `?`, upper-cased |
| ProfilePanel.DisplayNameCases | ui/src/components/sidebar/ProfilePanel.tsx:24-27 | a display name exists exactly when a name is set, and reads `first last` or the one name set |
| ProfilePanel.BlankNameHidden | ui/src/components/sidebar/ProfilePanel.tsx:24-41 | a blank first name counts as a name yet shows no name line, and no prompt |
| ProfilePanel.IncompleteIff | ui/src/components/sidebar/ProfilePanel.tsx:28-65 | incomplete exactly when there is no name or no phone |
| NextureIcons.SizeHelper | ui/src/icons/nexture-icons.tsx:14-19 | a number passes through; large 24, small and tiny 16, medium or none 20 |
| NextureIcons.StrokeHundredths | ui/src/icons/nexture-icons.tsx:21-25 | 1.15 exactly for 32, 1.5 from 20 up, 1.75 below |
| NextureIcons.NamedStroke | ui/src/icons/nexture-icons.tsx:14-25 | named sizes never get 1.15; only small and tiny get 1.75 |
| NextureIcons.StrokeMonotoneBesides32 | ui/src/icons/nexture-icons.tsx:21-25 | apart from 32 a larger icon never gets a thicker stroke; 32 is thinner than both neighbours |
| SignUpPage.Validate | ui/src/pages/SignUpPage.tsx:40-51 | no error exactly when all fields are set, the e-mail matches and the passwords agree |
| SignUpPage.ValidateOrder | ui/src/pages/SignUpPage.tsx:40-51 | the first failing check's message |
| SignUpPage.EmailExamples | ui/src/pages/SignUpPage.tsx:44 | addresses the pattern accepts and rejects |
| SignUpPage.SignUpOnlyWhenValid | ui/src/pages/SignUpPage.tsx:38-67 | the provider is called only for valid input, and loading ends; a failed check changes only the error |
| SignUpPage.StepOnlyOnSuccess | ui/src/pages/SignUpPage.tsx:52-63 | the confirm step is reached exactly on success, with no error |
| SignUpPage.SignInOnlyAfterConfirm | ui/src/pages/SignUpPage.tsx:69-87 | sign-in follows only a confirmed code, and navigation only a sign-in |
| SignUpPage.HappyPath | ui/src/pages/SignUpPage.tsx:38-87 | valid credentials and an accepted code end on the chat after exactly three calls |
| SignUpPage.SignUpForm.constructor | ui/src/pages/SignUpPage.tsx:27-36 | the form starts empty on the credentials step |
| SignUpPage.SignUpForm.EnterCredentials | ui/src/pages/SignUpPage.tsx:27-36 | the three inputs change and nothing else |
| SignUpPage.SignUpForm.EnterCode | ui/src/pages/SignUpPage.tsx:27-36 | the code input changes and nothing else |
| SignUpPage.SignUpForm.HandleSignUp | ui/src/pages/SignUpPage.tsx:38-67 | the form after `handleSignUp` is `AfterSignUp` |
| SignUpPage.SignUpForm.HandleConfirm | ui/src/pages/SignUpPage.tsx:69-87 | the form after `handleConfirm` is `AfterConfirm` |

## Left out

- AWS services are modelled by their effect on `Db.Tables`. Marshalling, table names and environment variables are not modelled.
- Concurrency is left out. `Promise.allSettled` over one page of users runs the users in order, with each failure caught.
- The language model's answers and the tools' outcomes, as the chat handler sees them, are oracles. The chat handler's tool outcomes are not linked to the tool models.
- JSON parsing and serialisation are left out. Requests arrive already parsed, or as a "malformed" marker.
- Fractional numbers are not modelled. Bathrooms, prices, coordinates and icon sizes are integers, or `real` for coordinates.
- `toLocaleString`, the slot date labels and number formatting are parameters.
- `localeCompare` is code-point order.
- Case mapping covers ASCII letters only.
- `viewingAgentResponseToBuyerEmail` is imported by the data handler but is not defined in email-templates.ts. Its result is a parameter.
- The data handler's outer `try`/`catch` (chat-service/src/data-handler.ts:260-282) only sees synchronous failures, because each route's promise is returned without `await`. A route's exception is therefore a rejected promise, modelled as the `Failed` response: malformed JSON in `confirmUpload`, and a refused e-mail in `recordViewingResponse` (chat-service/src/data-handler.ts:136-146).
- DynamoDB calls are assumed to succeed, apart from the batch writes of the search worker. An uncaught failure of the reads and writes at chat-service/src/search-worker.ts:92-102, 203-212, 218-225, 259-264 and 282-289 is not modelled.
- The search worker's writes after an accepted send are not atomic with the send (chat-service/src/search-worker.ts:162-173, 186-191, 237-244). When such a write fails after SES has accepted the mail, the flag is not set and the mail is sent again on the next run. The model takes every such write to succeed.
- `UnprocessedItems` of a `BatchWriteItem` reply is ignored by the source (chat-service/src/search-worker.ts:146-150), and the model likewise treats an accepted batch as fully written.
- The existing-keys Query of a profile run reads one page and ignores `LastEvaluatedKey` (chat-service/src/search-worker.ts:92-102). The model takes which stored keys that page holds as the parameter `SearchWorker.Env.existingPage`, and the diff uses only those keys. It does not model which keys a 1 MB page holds (a prefix in sort-key order); any subset is allowed. A stored listing whose key the page leaves out is put again with `notified = false` (chat-service/src/search-worker.ts:134-142) and mailed again (chat-service/src/search-worker.ts:156-159); `SearchWorker.PageMissResetsFlag` and `SearchWorker.PageMissMailsAgain` prove both.
- SearchWorker.SecondRunIsNoOp: requires that the second run's Query page holds every stored key of the profile (`FullRead`). Without it, a second run re-finds the keys the page leaves out.
- SearchWorker.ProfileRunIsWorkerStep: requires `FullRead`. Without it, a re-put can clear a notified flag (`SearchWorker.PageMissResetsFlag`).
- SearchWorker.NewRecordsFresh: requires `FullRead`. Without it, a new record can carry a stored key.
- SearchWorker.BatchFailureKeepsResults: requires `FullRead`, for the same reason.
- SearchWorker.ProfilesRunIsWorkerStep, SearchWorker.CronUsersIsWorkerStep, SearchWorker.CronPagesIsWorkerStep, SearchWorker.TargetedIsWorkerStep and SearchWorker.HandlerIsWorkerStep: require `ReadsAllKeys`, meaning that every existing-keys Query fits in one page.
- SaveViewingFeedback.Apply: an item created for an unknown viewing id lacks `listingId`, `profileId`, `listingAddress` and `requestedAt`. The model stores them as empty strings. In the source they are absent. The sort comparator of GET /viewings (chat-service/src/data-handler.ts:162) then throws a `TypeError` whenever such an item is its `b` argument. That exception is not modelled.
- The items a Query or Scan returns are parameters. Where a property needs them to be the stored rows, the lemma requires it: `DataHandler.DocumentsOf`, `GetPendingFeedback.UserQuery`, `GetSearchResults.IndexOf`, `SearchWorker.ScanOf` and `SearchWorker.PagesCover` state what the read returns.
- Lone UTF-16 surrogates, on which `encodeURIComponent` throws a `URIError` (chat-service/src/mls/listing-url.ts:7-9), cannot occur in a Dafny string of code points, so that exception is not modelled.
- Secrets Manager client set-up, the memoisation of the MLS provider and the Anthropic client are not modelled.
- get-user-profile.ts is not part of this model.
- The user's e-mail claim is always a string, never absent.
- UpdateUserDetails.Execute: the update tool is not in the handler's tool list. It is modelled as the UpdateItem request it builds, not applied to the store.
- SignUpPage: `handleResend` and the React rendering are not modelled. The pages are modelled as the values they compute.
- The Viewings scans of the feedback sweep and of the agent's link read one page, as the source does. The page is a parameter, so a viewing on a later page is not seen.

## Findings

| source | as written | input that shows it | evidently intended | confidence | as-written member | corrected member |
|---|---|---|---|---|---|---|
| chat-service/src/data-handler.ts:209-215 | `confirmUpload` stores the `s3Key` from the request body unchecked, and `getDownloadUrl` presigns whatever key is stored | user `mallory` confirms `{documentId: "d", s3Key: "victim/secret.pdf", …}`, then asks for the download URL of `d` | a document's key is the `<userId>/<documentId>` that `getUploadUrl` issued, so downloads stay within the caller's own prefix | not executed | DataHandler.ForeignKeyServed | DataHandler.ConfirmKeepsOwnKeys |
