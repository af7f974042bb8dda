/** The records the chat service, the search worker and the data handler
    share (chat-service/src/types.ts and chat-service/src/mls/mls-provider.ts),
    with the union of the fields the code actually reads: the user's
    `listingViewingPreference` and the viewing's `availabilitySlots`,
    `agentSelectedSlot` and `agentRespondedAt` are read or written by the code
    although the declared interfaces lack them. Every optional property is an
    `Option`; numbers are integers. */
module Types {
  import opened Common

  datatype SearchCriteria = SearchCriteria(
    minPrice: Option<int>,
    maxPrice: Option<int>,
    bedrooms: Option<int>,
    bathrooms: Option<int>,
    propertyType: Option<string>,
    city: Option<string>,
    state: Option<string>,
    zipCodes: Option<seq<string>>)

  datatype NotificationPreferences = NotificationPreferences(email: bool, sms: bool, push: bool)

  datatype SearchProfile = SearchProfile(
    profileId: string,
    name: string,
    isDefault: bool,
    criteria: SearchCriteria,
    monitoring: bool,
    notificationPreferences: NotificationPreferences,
    createdAt: string,
    updatedAt: string)

  datatype UserProfile = UserProfile(
    userId: string,
    email: string,
    firstName: Option<string>,
    lastName: Option<string>,
    phone: Option<string>,
    searchProfiles: seq<SearchProfile>,
    listingViewingPreference: Option<string>,
    createdAt: string,
    updatedAt: string)

  /** A coordinate as the provider's JSON holds it: a number or anything else. */
  datatype RawCoordinate = CoordinateNumber(degrees: real) | CoordinateOther

  /** One record of the Rentcast listings response. */
  datatype RentcastProperty = RentcastProperty(
    id: string,
    formattedAddress: string,
    price: int,
    bedrooms: int,
    bathrooms: int,
    squareFootage: Option<int>,
    latitude: Option<RawCoordinate>,
    longitude: Option<RawCoordinate>)

  datatype Listing = Listing(
    listingId: string,
    address: string,
    price: int,
    bedrooms: int,
    bathrooms: int,
    sqft: Option<int>,
    agentEmail: Option<string>,
    agentName: Option<string>,
    listingUrl: Option<string>,
    latitude: Option<real>,
    longitude: Option<real>,
    rawData: RentcastProperty)

  datatype SearchResult = SearchResult(
    userId: string,
    profileIdListingId: string,
    profileId: string,
    listingId: string,
    listingData: Listing,
    matchedAt: string,
    notified: bool)

  datatype NotificationType = NewListing | ViewingRequest | ViewingConfirmation | ViewingFeedbackRequest

  datatype NotificationChannel = EmailChannel | SmsPlaceholder | PushPlaceholder

  datatype Notification = Notification(
    userId: string,
    notificationId: string,
    kind: NotificationType,
    channel: NotificationChannel,
    recipientAddress: string,
    subject: string,
    sentAt: string,
    status: string)

  datatype ViewingStatus = Requested | Confirmed | Completed | Cancelled

  datatype ViewingFeedback = ViewingFeedback(rating: int, notes: string, wouldMakeOffer: bool)

  datatype Viewing = Viewing(
    userId: string,
    viewingId: string,
    listingId: string,
    profileId: string,
    listingAddress: string,
    agentEmail: Option<string>,
    agentName: Option<string>,
    requestedAt: string,
    proposedDateTime: Option<string>,
    status: ViewingStatus,
    feedback: Option<ViewingFeedback>,
    feedbackRequestedAt: Option<string>,
    feedbackCollectedAt: Option<string>,
    availabilitySlots: Option<seq<string>>,
    agentSelectedSlot: Option<string>,
    agentRespondedAt: Option<string>)

  datatype UserDocument = UserDocument(
    userId: string,
    documentId: string,
    fileName: string,
    contentType: string,
    sizeBytes: int,
    s3Key: string,
    uploadedAt: string)

  /** The parts of an e-mail body the model keeps: headings, paragraphs and links,
      in document order. All other markup is left out. */
  datatype Block = Heading(text: string) | Paragraph(text: string) | Anchor(href: string, caption: string)

  datatype Email = Email(subject: string, body: seq<Block>)

  /** One message handed to the e-mail service. */
  datatype Delivery = Delivery(to: string, subject: string, body: seq<Block>)

  /** The `{userId, profileId}` payload of an asynchronous search-worker invocation. */
  datatype WorkRequest = WorkRequest(userId: string, profileId: string)

  /** The `href`s of the anchors of a body, in order. */
  function Hrefs(body: seq<Block>): (r: seq<string>)
    ensures |r| <= |body|
  {
    if body == [] then []
    else (if body[0].Anchor? then [body[0].href] else []) + Hrefs(body[1..])
  }

  lemma {:induction false} HrefsAppend(a: seq<Block>, b: seq<Block>)
    ensures Hrefs(a + b) == Hrefs(a) + Hrefs(b)
  {
    if a == [] {
      assert a + b == b;
    } else {
      assert (a + b)[0] == a[0];
      assert (a + b)[1..] == a[1..] + b;
      HrefsAppend(a[1..], b);
    }
  }

  /** The texts of the paragraphs of a body, in order. */
  function Paragraphs(body: seq<Block>): (r: seq<string>)
    ensures |r| <= |body|
  {
    if body == [] then []
    else (if body[0].Paragraph? then [body[0].text] else []) + Paragraphs(body[1..])
  }

  lemma {:induction false} ParagraphsAppend(a: seq<Block>, b: seq<Block>)
    ensures Paragraphs(a + b) == Paragraphs(a) + Paragraphs(b)
  {
    if a == [] {
      assert a + b == b;
    } else {
      assert (a + b)[0] == a[0];
      assert (a + b)[1..] == a[1..] + b;
      ParagraphsAppend(a[1..], b);
    }
  }

  lemma {:induction false} HrefsWithoutAnchors(body: seq<Block>)
    requires forall i :: 0 <= i < |body| ==> !body[i].Anchor?
    ensures Hrefs(body) == []
  {
    if body != [] {
      HrefsWithoutAnchors(body[1..]);
    }
  }

  lemma {:induction false} HrefsOfAnchors(body: seq<Block>)
    requires forall i :: 0 <= i < |body| ==> body[i].Anchor?
    ensures |Hrefs(body)| == |body|
    ensures forall i :: 0 <= i < |body| ==> Hrefs(body)[i] == body[i].href
  {
    if body != [] {
      HrefsOfAnchors(body[1..]);
    }
  }

  lemma {:induction false} ParagraphsWithoutParagraphs(body: seq<Block>)
    requires forall i :: 0 <= i < |body| ==> !body[i].Paragraph?
    ensures Paragraphs(body) == []
  {
    if body != [] {
      ParagraphsWithoutParagraphs(body[1..]);
    }
  }

  lemma {:induction false} ParagraphsOfParagraphs(body: seq<Block>)
    requires forall i :: 0 <= i < |body| ==> body[i].Paragraph?
    ensures |Paragraphs(body)| == |body|
    ensures forall i :: 0 <= i < |body| ==> Paragraphs(body)[i] == body[i].text
  {
    if body != [] {
      ParagraphsOfParagraphs(body[1..]);
    }
  }
}
