/** The four e-mail templates (chat-service/src/email-templates.ts). A body is
    kept as its headings, paragraphs and links in document order; styling is
    left out. `toLocaleString` on numbers and the date rendering of a slot are
    the `formatNumber` and `slotLabel` parameters. */
module EmailTemplates {
  import opened Common
  import opened Types
  import opened ListingUrl

  const ViewingResponseUrl := "https://app.sirrealtor.com/viewing-response"

  /** The note closing every message but the match e-mail. */
  const SentVia := "Sent via SirRealtor (sirrealtor.com)"

  /** The fixed texts of the templates. */
  const MatchHeading := "New Property Match Found"
  const MatchIntro := "SirRealtor found a new listing that matches your search criteria:"
  const ViewListingCaption := "View Listing →"
  const ChatCaption := "Chat with SirRealtor →"
  const RequestSubjectPrefix := "Viewing Request: "
  const RequestHeading := "Viewing Request via SirRealtor"
  const RequestIntro := "A buyer has requested to view your listing. Please select a time that works:"
  const SlotsIntro := "Available times — click to confirm:"
  const NoneCaption := "None of these times work"
  const RequestFooter := "Sent via SirRealtor (sirrealtor.com). Clicking a time confirms it directly — no login required."
  const ConfirmationSubjectPrefix := "Viewing Requested: "
  const ConfirmationHeading := "Viewing Request Sent"
  const ConfirmationIntro := "Your viewing request has been sent to the seller's agent!"
  const AwaitingStatus := "Status: Awaiting confirmation"
  const OpenChatCaption := "Open Chat →"
  const FeedbackSubjectPrefix := "How was your viewing at "
  const FeedbackHeading := "How did the viewing go?"
  const FeedbackIntro := "You recently viewed "
  const FeedbackQuestion := ". We'd love to know what you thought!"
  const FeedbackPrompt := "Click below to share your feedback with SirRealtor and continue your search."
  const FeedbackCaption := "Share Feedback →"

  function MatchSubject(listing: Listing, formatNumber: int -> string): string {
    "New match: " + listing.address + " — $" + formatNumber(listing.price)
  }

  function MatchHead(listing: Listing, formatNumber: int -> string): seq<Block> {
    [ Heading(MatchHeading),
      Paragraph(MatchIntro),
      Heading(listing.address),
      Paragraph("Price: $" + formatNumber(listing.price)),
      Paragraph("Bedrooms: " + IntToString(listing.bedrooms) + " \U{00A0} Bathrooms: " + IntToString(listing.bathrooms)) ]
  }

  /** The size row, shown only for a truthy `sqft`. */
  function SizeRow(sqft: Option<int>, formatNumber: int -> string): seq<Block> {
    if TruthyNum(sqft) then [Paragraph("Size: " + formatNumber(sqft.value) + " sqft")] else []
  }

  /** The "View Listing" link, shown only for a truthy `listingUrl`. */
  function ListingLinkRow(listingUrl: Option<string>): seq<Block> {
    if Truthy(listingUrl) then [Anchor(listingUrl.value, ViewListingCaption)] else []
  }

  const MatchFooter := "You're receiving this because you enabled monitoring for this search. Reply to opt out."

  function MatchFoot(chatUrl: string): seq<Block> {
    [ Anchor(chatUrl, ChatCaption), Paragraph(MatchFooter) ]
  }

  /** `newListingMatchEmail`. */
  function NewListingMatchEmail(listing: Listing, chatUrl: string, formatNumber: int -> string): (e: Email)
    ensures |e.body| == 7 + (if TruthyNum(listing.sqft) then 1 else 0) + (if Truthy(listing.listingUrl) then 1 else 0)
    ensures Heading(listing.address) in e.body && Anchor(chatUrl, ChatCaption) in e.body
  {
    Email(
      MatchSubject(listing, formatNumber),
      MatchHead(listing, formatNumber) + SizeRow(listing.sqft, formatNumber)
      + ListingLinkRow(listing.listingUrl) + MatchFoot(chatUrl))
  }

  /** The head of the match e-mail has no link, and three paragraphs: the
      introduction, the price and the rooms. */
  lemma MatchHeadPieces(listing: Listing, formatNumber: int -> string)
    ensures var head := MatchHead(listing, formatNumber);
      && Hrefs(head) == []
      && Paragraphs(head) ==
           [ MatchIntro,
             "Price: $" + formatNumber(listing.price),
             "Bedrooms: " + IntToString(listing.bedrooms) + " \U{00A0} Bathrooms: " + IntToString(listing.bathrooms) ]
  {
    var head := MatchHead(listing, formatNumber);
    HrefsWithoutAnchors(head);
    assert head == [head[0]] + ([head[1]] + ([head[2]] + head[3..]));
    ParagraphsAppend([head[0]], [head[1]] + ([head[2]] + head[3..]));
    ParagraphsAppend([head[1]], [head[2]] + head[3..]);
    ParagraphsAppend([head[2]], head[3..]);
    ParagraphsOfParagraphs(head[3..]);
  }

  /** The optional rows and the foot: the size row is one paragraph, the
      listing row one link, and the foot the chat link and the footer. */
  lemma MatchTailPieces(listing: Listing, chatUrl: string, formatNumber: int -> string)
    ensures Hrefs(SizeRow(listing.sqft, formatNumber)) == []
    ensures Paragraphs(SizeRow(listing.sqft, formatNumber))
         == if TruthyNum(listing.sqft) then ["Size: " + formatNumber(listing.sqft.value) + " sqft"] else []
    ensures Hrefs(ListingLinkRow(listing.listingUrl)) == if Truthy(listing.listingUrl) then [listing.listingUrl.value] else []
    ensures Paragraphs(ListingLinkRow(listing.listingUrl)) == []
    ensures Hrefs(MatchFoot(chatUrl)) == [chatUrl] && Paragraphs(MatchFoot(chatUrl)) == [MatchFooter]
  {
    var foot := MatchFoot(chatUrl);
    assert foot == [foot[0]] + [foot[1]];
    HrefsAppend([foot[0]], [foot[1]]);
    ParagraphsAppend([foot[0]], [foot[1]]);
  }

  /** The match e-mail links to the listing exactly when it has a non-empty URL,
      then always to `chatUrl`; it has the size paragraph exactly when `sqft` is
      present and not 0; its subject names the address and the formatted price. */
  lemma MatchEmailShape(listing: Listing, chatUrl: string, formatNumber: int -> string)
    ensures var e := NewListingMatchEmail(listing, chatUrl, formatNumber);
      && e.subject == "New match: " + listing.address + " — $" + formatNumber(listing.price)
      && Hrefs(e.body) == (if Truthy(listing.listingUrl) then [listing.listingUrl.value] else []) + [chatUrl]
      && Paragraphs(e.body) ==
           [ MatchIntro,
             "Price: $" + formatNumber(listing.price),
             "Bedrooms: " + IntToString(listing.bedrooms) + " \U{00A0} Bathrooms: " + IntToString(listing.bathrooms) ]
           + (if TruthyNum(listing.sqft) then ["Size: " + formatNumber(listing.sqft.value) + " sqft"] else [])
           + [MatchFooter]
  {
    MatchEmailHrefs(listing, chatUrl, formatNumber);
    MatchEmailParagraphs(listing, chatUrl, formatNumber);
  }

  lemma MatchEmailHrefs(listing: Listing, chatUrl: string, formatNumber: int -> string)
    ensures Hrefs(NewListingMatchEmail(listing, chatUrl, formatNumber).body)
         == (if Truthy(listing.listingUrl) then [listing.listingUrl.value] else []) + [chatUrl]
  {
    var head := MatchHead(listing, formatNumber);
    var size := SizeRow(listing.sqft, formatNumber);
    var link := ListingLinkRow(listing.listingUrl);
    var foot := MatchFoot(chatUrl);
    MatchHeadPieces(listing, formatNumber);
    MatchTailPieces(listing, chatUrl, formatNumber);
    HrefsAppend(head + size + link, foot);
    HrefsAppend(head + size, link);
    HrefsAppend(head, size);
  }

  lemma MatchEmailParagraphs(listing: Listing, chatUrl: string, formatNumber: int -> string)
    ensures Paragraphs(NewListingMatchEmail(listing, chatUrl, formatNumber).body) ==
           [ MatchIntro,
             "Price: $" + formatNumber(listing.price),
             "Bedrooms: " + IntToString(listing.bedrooms) + " \U{00A0} Bathrooms: " + IntToString(listing.bathrooms) ]
           + (if TruthyNum(listing.sqft) then ["Size: " + formatNumber(listing.sqft.value) + " sqft"] else [])
           + [MatchFooter]
  {
    var head := MatchHead(listing, formatNumber);
    var size := SizeRow(listing.sqft, formatNumber);
    var link := ListingLinkRow(listing.listingUrl);
    var foot := MatchFoot(chatUrl);
    MatchHeadPieces(listing, formatNumber);
    MatchTailPieces(listing, chatUrl, formatNumber);
    ParagraphsAppend(head + size + link, foot);
    ParagraphsAppend(head + size, link);
    ParagraphsAppend(head, size);
  }


  /** The link of the i-th availability slot. */
  function SlotUrl(viewingId: string, i: nat): string {
    ViewingResponseUrl + "?viewingId=" + EncodeUriComponent(viewingId) + "&slot=" + NatToString(i)
  }

  /** The link the agent follows when no slot suits. */
  function NoneUrl(viewingId: string): string {
    ViewingResponseUrl + "?viewingId=" + EncodeUriComponent(viewingId) + "&slot=none"
  }

  /** One button per slot, in order. */
  function SlotButtons(viewingId: string, slots: seq<string>, slotLabel: string -> string): (r: seq<Block>)
    ensures |r| == |slots|
    ensures forall i :: 0 <= i < |slots| ==> r[i] == Anchor(SlotUrl(viewingId, i), slotLabel(slots[i]))
  {
    seq(|slots|, i requires 0 <= i < |slots| => Anchor(SlotUrl(viewingId, i), slotLabel(slots[i])))
  }

  /** The error JavaScript raises when the template maps over a missing slot list. */
  const MissingSlotsError := "TypeError: Cannot read properties of undefined (reading 'map')"

  /** `viewingRequestToAgentEmail`; the slot list is optional because a caller
      may leave the fourth argument out, and then the template throws. */
  function ViewingRequestToAgentEmail(viewing: Viewing, buyerEmail: string, buyerName: string,
                                      slots: Option<seq<string>>, slotLabel: string -> string): (r: Result<Email, string>)
    ensures r.Err? <==> slots.None?
    ensures r.Ok? ==> |r.value.body| == 7 + |slots.value|
    ensures r.Ok? ==> r.value.subject == RequestSubjectPrefix + viewing.listingAddress
  {
    if slots.None? then Err(MissingSlotsError)
    else
      Ok(Email(
        RequestSubjectPrefix + viewing.listingAddress,
        [ Heading(RequestHeading),
          Paragraph(RequestIntro),
          Paragraph("Property: " + viewing.listingAddress),
          Paragraph("Buyer: " + buyerName + " <" + buyerEmail + ">"),
          Paragraph(SlotsIntro) ]
        + SlotButtons(viewing.viewingId, slots.value, slotLabel)
        + [ Anchor(NoneUrl(viewing.viewingId), NoneCaption),
            Paragraph(RequestFooter) ]))
  }

  /** A slot link ends in a digit, the none link in `e`: they never coincide. */
  lemma SlotUrlIsNotNoneUrl(viewingId: string, i: nat)
    ensures SlotUrl(viewingId, i) != NoneUrl(viewingId)
  {
    var s, n := SlotUrl(viewingId, i), NoneUrl(viewingId);
    assert s[|s| - 1] == NatToString(i)[|NatToString(i)| - 1];
    assert n[|n| - 1] == 'e';
  }

  /** Without a slot list the template fails. With one, the links are exactly
      one per slot in order, the i-th carrying `slot=i` for the encoded viewing
      id, and then the one `slot=none` link, which no slot link equals. */
  lemma AgentEmailLinks(viewing: Viewing, buyerEmail: string, buyerName: string,
                        slots: Option<seq<string>>, slotLabel: string -> string)
    ensures var r := ViewingRequestToAgentEmail(viewing, buyerEmail, buyerName, slots, slotLabel);
      && (r.Err? <==> slots.None?)
      && (r.Ok? ==>
            && r.value.subject == RequestSubjectPrefix + viewing.listingAddress
            && var links := Hrefs(r.value.body);
            && |links| == |slots.value| + 1
            && (forall i :: 0 <= i < |slots.value| ==> links[i] == SlotUrl(viewing.viewingId, i))
            && links[|slots.value|] == NoneUrl(viewing.viewingId)
            && (forall i :: 0 <= i < |slots.value| ==> links[i] != NoneUrl(viewing.viewingId)))
  {
    if slots.Some? {
      var r := ViewingRequestToAgentEmail(viewing, buyerEmail, buyerName, slots, slotLabel);
      var head := [ Heading(RequestHeading),
          Paragraph(RequestIntro),
          Paragraph("Property: " + viewing.listingAddress),
          Paragraph("Buyer: " + buyerName + " <" + buyerEmail + ">"),
          Paragraph(SlotsIntro) ];
      var buttons := SlotButtons(viewing.viewingId, slots.value, slotLabel);
      var foot := [ Anchor(NoneUrl(viewing.viewingId), NoneCaption),
            Paragraph(RequestFooter) ];
      assert r.value.body == head + buttons + foot;
      HrefsAppend(head + buttons, foot);
      HrefsAppend(head, buttons);
      HrefsWithoutAnchors(head);
      assert Hrefs(foot) == [NoneUrl(viewing.viewingId)] by {
        assert foot[1..] == [foot[1]];
      }
      HrefsOfAnchors(buttons);
      forall i | 0 <= i < |slots.value|
        ensures SlotUrl(viewing.viewingId, i) != NoneUrl(viewing.viewingId)
      {
        SlotUrlIsNotNoneUrl(viewing.viewingId, i);
      }
    }
  }

  function ConfirmationHead(viewing: Viewing): seq<Block> {
    [ Heading(ConfirmationHeading),
      Paragraph(ConfirmationIntro),
      Paragraph("Property: " + viewing.listingAddress) ]
  }

  /** The proposed-time row, shown only when the viewing has one. */
  function ProposedTimeRow(proposedDateTime: Option<string>): seq<Block> {
    if Truthy(proposedDateTime) then [Paragraph("Proposed Time: " + proposedDateTime.value)] else []
  }

  /** The agent row, shown only when the viewing names an agent. */
  function AgentRow(agentName: Option<string>): seq<Block> {
    if Truthy(agentName) then [Paragraph("Agent: " + agentName.value)] else []
  }

  const FollowUp := "We'll follow up once the agent responds. You can also check your viewing status in chat."

  function ConfirmationFoot(chatUrl: string): seq<Block> {
    [ Paragraph(AwaitingStatus), Paragraph(FollowUp), Anchor(chatUrl, OpenChatCaption), Paragraph(SentVia) ]
  }

  /** `viewingConfirmationToBuyerEmail`. */
  function ViewingConfirmationToBuyerEmail(viewing: Viewing, chatUrl: string): (e: Email)
    ensures |e.body| == 7 + (if Truthy(viewing.proposedDateTime) then 1 else 0) + (if Truthy(viewing.agentName) then 1 else 0)
    ensures Anchor(chatUrl, OpenChatCaption) in e.body && e.body[|e.body| - 1] == Paragraph(SentVia)
  {
    Email(
      ConfirmationSubjectPrefix + viewing.listingAddress,
      ConfirmationHead(viewing) + ProposedTimeRow(viewing.proposedDateTime)
      + AgentRow(viewing.agentName) + ConfirmationFoot(chatUrl))
  }

  lemma ConfirmationPieces(viewing: Viewing, chatUrl: string)
    ensures Paragraphs(ConfirmationHead(viewing)) ==
      [ConfirmationIntro, "Property: " + viewing.listingAddress]
    ensures Paragraphs(ConfirmationFoot(chatUrl)) == [AwaitingStatus, FollowUp, SentVia]
    ensures Hrefs(ConfirmationHead(viewing)) == [] && Hrefs(ConfirmationFoot(chatUrl)) == [chatUrl]
  {
    var head := ConfirmationHead(viewing);
    var foot := ConfirmationFoot(chatUrl);
    assert head == [head[0]] + head[1..];
    ParagraphsAppend([head[0]], head[1..]);
    ParagraphsOfParagraphs(head[1..]);
    HrefsWithoutAnchors(head);
    assert foot == foot[..2] + ([foot[2]] + [foot[3]]);
    ParagraphsAppend(foot[..2], [foot[2]] + [foot[3]]);
    ParagraphsOfParagraphs(foot[..2]);
    ParagraphsAppend([foot[2]], [foot[3]]);
    HrefsAppend(foot[..2], [foot[2]] + [foot[3]]);
    HrefsWithoutAnchors(foot[..2]);
    HrefsAppend([foot[2]], [foot[3]]);
  }

  /** The confirmation shows the proposed time and the agent each exactly when
      the viewing has a non-empty one, in that order after the property row. */
  lemma BuyerConfirmationRows(viewing: Viewing, chatUrl: string)
    ensures var e := ViewingConfirmationToBuyerEmail(viewing, chatUrl);
      && e.subject == ConfirmationSubjectPrefix + viewing.listingAddress
      && Paragraphs(e.body) ==
           [ConfirmationIntro, "Property: " + viewing.listingAddress]
           + (if Truthy(viewing.proposedDateTime) then ["Proposed Time: " + viewing.proposedDateTime.value] else [])
           + (if Truthy(viewing.agentName) then ["Agent: " + viewing.agentName.value] else [])
           + [AwaitingStatus, FollowUp, SentVia]
  {
    var head := ConfirmationHead(viewing);
    var time := ProposedTimeRow(viewing.proposedDateTime);
    var agent := AgentRow(viewing.agentName);
    var foot := ConfirmationFoot(chatUrl);
    ParagraphsAppend(head + time + agent, foot);
    ParagraphsAppend(head + time, agent);
    ParagraphsAppend(head, time);
    ConfirmationPieces(viewing, chatUrl);
  }

  /** The confirmation's one link is the call to action, to `chatUrl`. */
  lemma BuyerConfirmationLinks(viewing: Viewing, chatUrl: string)
    ensures Hrefs(ViewingConfirmationToBuyerEmail(viewing, chatUrl).body) == [chatUrl]
  {
    var head := ConfirmationHead(viewing);
    var time := ProposedTimeRow(viewing.proposedDateTime);
    var agent := AgentRow(viewing.agentName);
    var foot := ConfirmationFoot(chatUrl);
    HrefsAppend(head + time + agent, foot);
    HrefsAppend(head + time, agent);
    HrefsAppend(head, time);
    HrefsWithoutAnchors(time);
    HrefsWithoutAnchors(agent);
    ConfirmationPieces(viewing, chatUrl);
  }

  /** `viewingFeedbackRequestEmail`. */
  function ViewingFeedbackRequestEmail(viewing: Viewing, chatUrl: string): (e: Email)
    ensures Anchor(chatUrl, FeedbackCaption) in e.body && e.body[|e.body| - 1] == Paragraph(SentVia)
    ensures |e.subject| > 0 && e.subject[|e.subject| - 1] == '?'
  {
    Email(
      FeedbackSubjectPrefix + viewing.listingAddress + "?",
      [ Heading(FeedbackHeading),
        Paragraph(FeedbackIntro + viewing.listingAddress + FeedbackQuestion),
        Paragraph(FeedbackPrompt),
        Anchor(chatUrl, FeedbackCaption),
        Paragraph(SentVia) ])
  }

  /** The feedback request has one link, to the given `chatUrl`. */
  lemma FeedbackEmailShape(viewing: Viewing, chatUrl: string)
    ensures var e := ViewingFeedbackRequestEmail(viewing, chatUrl);
      e.subject == FeedbackSubjectPrefix + viewing.listingAddress + "?" && Hrefs(e.body) == [chatUrl]
  {
    var b := ViewingFeedbackRequestEmail(viewing, chatUrl).body;
    assert b == b[..3] + [b[3]] + [b[4]];
    HrefsAppend(b[..3] + [b[3]], [b[4]]);
    HrefsAppend(b[..3], [b[3]]);
    HrefsWithoutAnchors(b[..3]);
  }
}
