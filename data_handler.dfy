/** The REST data handler (chat-service/src/data-handler.ts): the routes the
    web app calls for the profile, the grouped search results, viewings and
    documents, and the unauthenticated link an agent follows to answer a
    viewing request. */
module DataHandler {
  import opened Common
  import opened Types
  import opened Db
  import SearchWorker
  import GetSearchResults
  import GetPendingFeedback
  import ListingUrl

  // ---------------------------------------------------------------- requests and responses

  /** A JSON request body, for the one route that reads it: text `JSON.parse`
      refuses, or an object with the five fields `confirmUpload` fetched. */
  datatype JsonBody =
    | Malformed
    | UploadFields(documentId: Option<string>, s3Key: Option<string>, fileName: Option<string>,
                   contentType: Option<string>, sizeBytes: Option<int>)

  /** What the handler reads of an API Gateway event: the raw path, the HTTP
      method, the `sub` claim of the JWT authorizer, the query string
      parameters and the body. */
  datatype Request = Request(
    path: string,
    httpMethod: string,
    sub: Option<string>,
    query: map<string, string>,
    body: Option<JsonBody>)

  datatype Payload =
    | ErrorBody(error: string)
    | ProfileBody(profile: UserProfile)
    | NoProfileBody(userId: string)
    | ResultsBody(results: seq<SearchResult>, grouped: map<string, seq<SearchResult>>)
    | OkBody
    | ViewingsBody(viewings: seq<Viewing>)
    | DocumentsBody(documents: seq<UserDocument>)
    | UploadBody(uploadUrl: string, documentId: string, s3Key: string)
    | DocumentBody(document: UserDocument)
    | DownloadBody(downloadUrl: string)

  /** A JSON response, or the exception the returned promise rejects with. */
  datatype Response = Json(statusCode: int, body: Payload) | Failed(reason: string)

  /** The S3 operation a URL is presigned for, with its lifetime in seconds. */
  datatype Presign = PutObject(key: string, contentType: string, expiresIn: int) | GetObject(key: string, expiresIn: int)

  /** What a request depends on besides the tables: the clock, a fresh
      document id, the presigner, whether the e-mail service accepts a
      message, and the `viewingAgentResponseToBuyerEmail` template, which
      email-templates.ts does not define. */
  datatype Env = Env(
    now: string,
    documentId: string,
    presign: Presign -> string,
    accepts: Delivery -> bool,
    responseEmail: (Viewing, bool, string) -> Email)

  /** What the Query and Scan calls of a request return: the user's rows of
      the `userId-matchedAt-index` newest first, the user's viewings and
      documents in descending sort-key order (`ScanIndexForward: false`),
      and the first page of a Scan of the Viewings table. */
  datatype Reads = Reads(
    resultsIndex: seq<SearchResult>,
    viewingsQuery: seq<Viewing>,
    documentsQuery: seq<UserDocument>,
    scanned: seq<Viewing>)

  const SendRejected := "MessageRejected"
  const ResultsLimit := 100
  const UploadExpiry := 300
  const DownloadExpiry := 900

  function Param(query: map<string, string>, name: string): Option<string> {
    if name in query then Some(query[name]) else None
  }

  // ---------------------------------------------------------------- routing

  datatype Route =
    | ViewingResponse | Unauthorized | ProfileRoute | SearchResultsRoute | ViewingsRoute
    | ListDocuments | UploadUrlRoute | ConfirmUploadRoute | DownloadUrlRoute | NotFound

  /** The if-chain of `handler`; every route but the agent's link needs a
      non-empty `sub` claim. */
  function RouteOf(path: string, httpMethod: string, sub: Option<string>): (r: Route)
    ensures r != ViewingResponse && r != Unauthorized ==> Truthy(sub)
  {
    if path == "/viewing-response" then ViewingResponse
    else if !Truthy(sub) then Unauthorized
    else if path == "/profile" then ProfileRoute
    else if path == "/search-results" then SearchResultsRoute
    else if path == "/viewings" then ViewingsRoute
    else if path == "/documents" && httpMethod == "GET" then ListDocuments
    else if path == "/documents/upload-url" then UploadUrlRoute
    else if path == "/documents" && httpMethod == "POST" then ConfirmUploadRoute
    else if path == "/documents/download-url" then DownloadUrlRoute
    else NotFound
  }

  const AuthenticatedPaths := {"/profile", "/search-results", "/viewings", "/documents",
                               "/documents/upload-url", "/documents/download-url"}

  /** The routing table: the agent's link whatever the claims; 401 for every
      other path without a `sub`; `/documents` lists on GET and confirms on
      POST; any other path or method is 404. */
  lemma RoutingTable(path: string, httpMethod: string, sub: Option<string>)
    ensures (RouteOf(path, httpMethod, sub) == ViewingResponse) <==> path == "/viewing-response"
    ensures (RouteOf(path, httpMethod, sub) == Unauthorized) <==> path != "/viewing-response" && !Truthy(sub)
    ensures Truthy(sub) ==>
      && ((RouteOf(path, httpMethod, sub) == ListDocuments) <==> path == "/documents" && httpMethod == "GET")
      && ((RouteOf(path, httpMethod, sub) == ConfirmUploadRoute) <==> path == "/documents" && httpMethod == "POST")
      && ((RouteOf(path, httpMethod, sub) == ProfileRoute) <==> path == "/profile")
      && ((RouteOf(path, httpMethod, sub) == SearchResultsRoute) <==> path == "/search-results")
      && ((RouteOf(path, httpMethod, sub) == ViewingsRoute) <==> path == "/viewings")
      && ((RouteOf(path, httpMethod, sub) == UploadUrlRoute) <==> path == "/documents/upload-url")
      && ((RouteOf(path, httpMethod, sub) == DownloadUrlRoute) <==> path == "/documents/download-url")
    ensures (RouteOf(path, httpMethod, sub) == NotFound) <==>
      path != "/viewing-response" && Truthy(sub)
      && (path !in AuthenticatedPaths || (path == "/documents" && httpMethod != "GET" && httpMethod != "POST"))
  {
  }

  // ---------------------------------------------------------------- getProfile

  /** The stored profile, or an empty one that names the user. */
  function Profile(users: map<string, UserProfile>, userId: string): (p: Payload)
    ensures p.ProfileBody? <==> userId in users
    ensures p.ProfileBody? ==> p.profile == users[userId]
    ensures p.NoProfileBody? ==> p.userId == userId
  {
    if userId in users then ProfileBody(users[userId]) else NoProfileBody(userId)
  }

  // ---------------------------------------------------------------- getSearchResults

  /** One result with its listing URL rebuilt for the given preference. */
  function Refresh(r: SearchResult, preference: Option<string>): SearchResult {
    r.(listingData := SearchWorker.Enrich(r.listingData, preference))
  }

  function Refreshed(s: seq<SearchResult>, preference: Option<string>): (r: seq<SearchResult>)
    ensures |r| == |s|
    ensures forall i :: 0 <= i < |s| ==> r[i] == Refresh(s[i], preference)
  {
    seq(|s|, i requires 0 <= i < |s| => Refresh(s[i], preference))
  }

  /** Every returned URL is built from the stored address and the user's
      current preference, whatever URL was stored; nothing else changes, so
      rebuilding twice is rebuilding once. */
  lemma RefreshedUrls(s: seq<SearchResult>, preference: Option<string>)
    ensures forall i :: 0 <= i < |s| ==>
      && Refreshed(s, preference)[i].listingData.listingUrl
           == Some(ListingUrl.BuildListingUrl(s[i].listingData.address, preference))
      && Refreshed(s, preference)[i].(listingData := s[i].listingData) == s[i]
      && Refreshed(s, preference)[i].listingData.(listingUrl := s[i].listingData.listingUrl) == s[i].listingData
    ensures Refreshed(Refreshed(s, preference), preference) == Refreshed(s, preference)
  {
  }

  /** `r.listingData.listingUrl = buildListingUrl(...)` for every element, in place. */
  method RefreshUrls(a: array<SearchResult>, preference: Option<string>)
    modifies a
    ensures a[..] == Refreshed(old(a[..]), preference)
  {
    var i := 0;
    while i < a.Length
      invariant 0 <= i <= a.Length
      invariant forall j :: 0 <= j < i ==> a[j] == Refresh(old(a[j]), preference)
      invariant forall j :: i <= j < a.Length ==> a[j] == old(a[j])
    {
      a[i] := a[i].(listingData := a[i].listingData.(listingUrl :=
                Some(ListingUrl.BuildListingUrl(a[i].listingData.address, preference))));
      i := i + 1;
    }
  }

  /** The `grouped` object: each profile id seen, with its results in order. */
  function Group(s: seq<SearchResult>): map<string, seq<SearchResult>>
    decreases |s|
  {
    if s == [] then map[]
    else
      var g := Group(s[..|s| - 1]);
      var r := s[|s| - 1];
      g[r.profileId := (if r.profileId in g then g[r.profileId] else []) + [r]]
  }

  lemma {:induction false} NoneForProfile(s: seq<SearchResult>, p: string)
    requires p !in ProfileIds(s)
    ensures GetSearchResults.ForProfile(s, p) == []
  {
    if s != [] {
      assert s[0] in s;
      assert ProfileIds(s[1..]) <= ProfileIds(s) by {
        forall x | x in s[1..] ensures x in s { }
      }
      NoneForProfile(s[1..], p);
    }
  }

  /** The profile ids of some results. */
  function ProfileIds(s: seq<SearchResult>): set<string> {
    set x | x in s :: x.profileId
  }

  /** The groups are the profile ids that occur. */
  lemma {:induction false} GroupDomain(s: seq<SearchResult>)
    ensures Group(s).Keys == ProfileIds(s)
    decreases |s|
  {
    if s != [] {
      var init := s[..|s| - 1];
      assert s == init + [s[|s| - 1]];
      GroupDomain(init);
      assert ProfileIds(s) == ProfileIds(init) + {s[|s| - 1].profileId};
    }
  }

  /** Each group is the results of its profile, in their order. */
  lemma {:induction false} GroupIsFilter(s: seq<SearchResult>)
    ensures forall p :: p in Group(s) ==> Group(s)[p] == GetSearchResults.ForProfile(s, p)
    decreases |s|
  {
    if s != [] {
      var init := s[..|s| - 1];
      var r := s[|s| - 1];
      assert s == init + [r];
      GroupIsFilter(init);
      GroupDomain(init);
      forall p | p in Group(s)
        ensures Group(s)[p] == GetSearchResults.ForProfile(s, p)
      {
        FilterAppend(init, [r], (x: SearchResult) => x.profileId == p);
        if p !in Group(init) {
          NoneForProfile(init, p);
        }
      }
    }
  }

  /** Every result lies in the group of its profile id and in no other, and
      the groups hold nothing but results. */
  lemma GroupPartitions(s: seq<SearchResult>)
    ensures forall i :: 0 <= i < |s| ==> s[i].profileId in Group(s) && s[i] in Group(s)[s[i].profileId]
    ensures forall p, x :: p in Group(s) && x in Group(s)[p] ==> x in s && x.profileId == p
  {
    GroupDomain(s);
    GroupIsFilter(s);
  }

  /** The grouping loop over the array of results. */
  method GroupByProfile(a: array<SearchResult>) returns (grouped: map<string, seq<SearchResult>>)
    ensures grouped == Group(a[..])
  {
    grouped := map[];
    var i := 0;
    while i < a.Length
      invariant 0 <= i <= a.Length
      invariant grouped == Group(a[..i])
    {
      assert a[..i + 1][..i] == a[..i];
      var r := a[i];
      if r.profileId !in grouped {
        grouped := grouped[r.profileId := []];
      }
      grouped := grouped[r.profileId := grouped[r.profileId] + [r]];
      i := i + 1;
    }
    assert a[..a.Length] == a[..];
  }

  function Preference(users: map<string, UserProfile>, userId: string): Option<string> {
    if userId in users then users[userId].listingViewingPreference else None
  }

  /** `getSearchResults`: the first 100 rows of the index, URLs rebuilt, and
      the same rows grouped by profile. */
  function SearchResults(users: map<string, UserProfile>, userId: string, index: seq<SearchResult>): Response {
    var results := Refreshed(index[..GetSearchResults.Min(ResultsLimit, |index|)], Preference(users, userId));
    Json(200, ResultsBody(results, Group(results)))
  }

  method SearchResultsOf(users: map<string, UserProfile>, userId: string, index: seq<SearchResult>)
    returns (r: Response)
    ensures r == SearchResults(users, userId, index)
  {
    var n := GetSearchResults.Min(ResultsLimit, |index|);
    var a := new SearchResult[n](i requires 0 <= i < n => index[i]);
    assert a[..] == index[..n];
    RefreshUrls(a, Preference(users, userId));
    var grouped := GroupByProfile(a);
    r := Json(200, ResultsBody(a[..], grouped));
  }

  /** The reply lists at most 100 results, the newest when the index is
      newest first, and every group is that profile's part of the list. */
  lemma SearchResultsShape(users: map<string, UserProfile>, userId: string, index: seq<SearchResult>)
    ensures var r := SearchResults(users, userId, index);
      && r.Json? && r.statusCode == 200 && r.body.ResultsBody?
      && |r.body.results| == GetSearchResults.Min(ResultsLimit, |index|) <= ResultsLimit
      && (forall p :: p in r.body.grouped ==>
            r.body.grouped[p] == GetSearchResults.ForProfile(r.body.results, p))
  {
    var results := Refreshed(index[..GetSearchResults.Min(ResultsLimit, |index|)], Preference(users, userId));
    GroupIsFilter(results);
  }

  // ---------------------------------------------------------------- recordViewingResponse

  /** JavaScript's `parseInt` of one argument, as far as an array index goes:
      not a number, or a sign and a magnitude (so that `-0` is kept apart). */
  datatype JsInt = NaN | Num(negative: bool, magnitude: nat)

  predicate IsHexDigit(c: char) {
    IsDigit(c) || 'a' <= c <= 'f' || 'A' <= c <= 'F'
  }

  function HexDigitValue(c: char): (v: nat)
    requires IsHexDigit(c)
    ensures v < 16
  {
    if IsDigit(c) then c as int - '0' as int
    else if 'a' <= c <= 'f' then c as int - 'a' as int + 10
    else c as int - 'A' as int + 10
  }

  function HexValue(s: string): nat
    requires forall i :: 0 <= i < |s| ==> IsHexDigit(s[i])
  {
    if s == [] then 0 else HexValue(s[..|s| - 1]) * 16 + HexDigitValue(s[|s| - 1])
  }

  /** The longest prefix of decimal digits. */
  function DecimalPrefix(s: string): (d: string)
    ensures |d| <= |s| && d == s[..|d|]
    ensures forall i :: 0 <= i < |d| ==> IsDigit(d[i])
    ensures |d| < |s| ==> !IsDigit(s[|d|])
  {
    if s == [] || !IsDigit(s[0]) then [] else [s[0]] + DecimalPrefix(s[1..])
  }

  /** The longest prefix of hexadecimal digits. */
  function HexPrefix(s: string): (d: string)
    ensures |d| <= |s| && d == s[..|d|]
    ensures forall i :: 0 <= i < |d| ==> IsHexDigit(d[i])
    ensures |d| < |s| ==> !IsHexDigit(s[|d|])
  {
    if s == [] || !IsHexDigit(s[0]) then [] else [s[0]] + HexPrefix(s[1..])
  }

  /** `parseInt(s)`: leading white space, an optional sign, then a `0x`
      prefix and hexadecimal digits or else decimal digits, read as far as
      they go; no digit at all is NaN. */
  function ParseInt(s: string): (r: JsInt)
    ensures (forall i :: 0 <= i < |s| ==> !IsDigit(s[i])) ==> r == NaN
    ensures r.Num? ==> (r.negative <==> TrimStart(s) != [] && TrimStart(s)[0] == '-')
  {
    var t := TrimStart(s);
    var negative := |t| > 0 && t[0] == '-';
    var u := if |t| > 0 && (t[0] == '-' || t[0] == '+') then t[1..] else t;
    if |u| >= 2 && u[0] == '0' && (u[1] == 'x' || u[1] == 'X') then
      var h := HexPrefix(u[2..]);
      if h == [] then NaN else Num(negative, HexValue(h))
    else
      var d := DecimalPrefix(u);
      if d == [] then NaN else Num(negative, DecimalValue(d))
  }

  lemma {:induction false} DecimalPrefixOfDigits(s: string)
    requires forall i :: 0 <= i < |s| ==> IsDigit(s[i])
    ensures DecimalPrefix(s) == s
  {
    if s != [] {
      DecimalPrefixOfDigits(s[1..]);
      assert s == [s[0]] + s[1..];
    }
  }

  /** The `slot=<i>` of the agent's i-th button reads back as i. */
  lemma ParseIntOfNatToString(n: nat)
    ensures ParseInt(NatToString(n)) == Num(false, n)
  {
    var s := NatToString(n);
    assert TrimStart(s) == s;
    DecimalPrefixOfDigits(s);
    DecimalValueOfNatToString(n);
  }

  /** A slot value without digits is not a number. */
  lemma ParseIntOfNone()
    ensures ParseInt("none") == NaN
  {
    var s := "none";
    assert s[0] == 'n' && s[1] == 'o' && !IsJsWhitespace(s[0]) && !IsDigit(s[0]);
    assert TrimStart(s) == s;
    assert DecimalPrefix(s) == [];
  }

  /** `-0` is a number: negative zero. */
  lemma ParseIntOfNegativeZero()
    ensures ParseInt("-0") == Num(true, 0)
  {
    var s := "-0";
    assert s[0] == '-' && !IsJsWhitespace(s[0]);
    assert TrimStart(s) == s;
    var u := s[1..];
    assert u == "0" && |u| == 1 && IsDigit(u[0]);
    assert u[1..] == [];
    assert DecimalPrefix(u) == u;
    assert DecimalValue(u) == 0;
  }

  /** Digits are read as far as they go. */
  lemma ParseIntOfPrefix()
    ensures ParseInt("1x") == Num(false, 1)
  {
    assert TrimStart("1x") == "1x";
    assert DecimalPrefix("1x") == "1";
    assert "1"[..0] == [];
    assert DecimalValue("1") == 1;
  }

  /** `isNone ? 'none' : (availabilitySlots?.[parseInt(slot)] ?? 'none')`.
      A negative index names no element, except `-0`, which names the first. */
  function SelectedSlot(slots: Option<seq<string>>, slot: string): (r: string)
    ensures r == "none" || (slots.Some? && r in slots.value)
    ensures slot == "none" ==> r == "none"
  {
    if slot == "none" then "none"
    else
      match ParseInt(slot)
      case NaN => "none"
      case Num(negative, m) =>
        if slots.Some? && (!negative || m == 0) && m < |slots.value| then slots.value[m] else "none"
  }

  /** The UpdateItem's SET on the viewing. */
  function Answer(v: Viewing, selected: string, isNone: bool, now: string): (r: Viewing)
    ensures r.(agentSelectedSlot := v.agentSelectedSlot, agentRespondedAt := v.agentRespondedAt,
               status := v.status, proposedDateTime := v.proposedDateTime) == v
    ensures r.agentSelectedSlot == Some(selected) && r.agentRespondedAt == Some(now)
    ensures isNone ==> r.status == Requested && r.proposedDateTime == v.proposedDateTime
    ensures !isNone ==> r.status == Confirmed && r.proposedDateTime == Some(selected)
  {
    v.(agentSelectedSlot := Some(selected),
       agentRespondedAt := Some(now),
       status := if isNone then Requested else Confirmed,
       proposedDateTime := if isNone then v.proposedDateTime else Some(selected))
  }

  /** The agent's answer to a viewing for a given `slot` parameter. */
  function Responded(v: Viewing, slot: string, now: string): Viewing {
    Answer(v, SelectedSlot(v.availabilitySlots, slot), slot == "none", now)
  }

  /** Following the i-th button confirms the viewing for the i-th slot. */
  lemma ClickedSlotConfirms(v: Viewing, i: nat, now: string)
    requires v.availabilitySlots.Some? && i < |v.availabilitySlots.value|
    ensures var r := Responded(v, NatToString(i), now);
      && r.status == Confirmed
      && r.proposedDateTime == Some(v.availabilitySlots.value[i])
      && r.agentSelectedSlot == Some(v.availabilitySlots.value[i])
      && r.agentRespondedAt == Some(now)
  {
    ParseIntOfNatToString(i);
    assert NatToString(i) != "none" by {
      assert '0' <= NatToString(i)[0] <= '9';
    }
  }

  /** `slot=none` keeps the viewing requested and its proposed time as it was. */
  lemma NoneKeepsProposal(v: Viewing, now: string)
    ensures var r := Responded(v, "none", now);
      && r.status == Requested
      && r.proposedDateTime == v.proposedDateTime
      && r.agentSelectedSlot == Some("none")
  {
  }

  /** Any other slot value confirms; one that names no slot confirms with the
      literal time `none`. */
  lemma UnusableSlotConfirmsNone(v: Viewing, slot: string, now: string)
    requires slot != "none"
    requires ParseInt(slot).NaN? || v.availabilitySlots.None?
      || (ParseInt(slot).Num? && ParseInt(slot).magnitude >= |v.availabilitySlots.value|)
      || (ParseInt(slot).Num? && ParseInt(slot).negative && ParseInt(slot).magnitude > 0)
    ensures var r := Responded(v, slot, now);
      r.status == Confirmed && r.proposedDateTime == Some("none") && r.agentSelectedSlot == Some("none")
  {
  }

  function SetResponse(viewings: map<(string, string), Viewing>, k: (string, string), selected: string, isNone: bool, now: string)
    : map<(string, string), Viewing>
  {
    if k in viewings then viewings[k := Answer(viewings[k], selected, isNone, now)] else viewings
  }

  /** The viewings of the scanned page with the requested id, in scan order. */
  function WithId(scanned: seq<Viewing>, viewingId: string): seq<Viewing> {
    Filter(scanned, (v: Viewing) => v.viewingId == viewingId)
  }

  /** `recordViewingResponse`. */
  function RecordViewingResponse(t: Tables, query: map<string, string>, scanned: seq<Viewing>, env: Env)
    : (r: (Tables, Response))
    ensures && r.0.users == t.users && r.0.results == t.results && r.0.notifications == t.notifications
            && r.0.documents == t.documents && r.0.invocations == t.invocations
    ensures r.0.viewings.Keys == t.viewings.Keys
    ensures t.outbox <= r.0.outbox && |r.0.outbox| <= |t.outbox| + 1
    ensures r.1.Json? ==> r.1.statusCode in {200, 400, 404}
    ensures r.1.Json? && r.1.statusCode != 200 ==> r.0 == t
  {
    var viewingId := Param(query, "viewingId");
    var slot := Param(query, "slot");
    if !Truthy(viewingId) || slot.None? then (t, Json(400, ErrorBody("Missing viewingId or slot")))
    else
      var items := WithId(scanned, viewingId.value);
      if items == [] then (t, Json(404, ErrorBody("Viewing not found")))
      else
        var v := items[0];
        var isNone := slot.value == "none";
        var selected := SelectedSlot(v.availabilitySlots, slot.value);
        var t1 := t.(viewings := SetResponse(t.viewings, SearchWorker.ViewingKey(v), selected, isNone, env.now));
        match SearchWorker.OwnerEmail(t, v.userId)
        case None => (t1, Json(200, OkBody))
        case Some(to) =>
          var e := env.responseEmail(v.(agentSelectedSlot := Some(selected)), !isNone, SearchWorker.ChatUrl);
          var d := Delivery(to, e.subject, e.body);
          if env.accepts(d) then (t1.(outbox := t1.outbox + [d]), Json(200, OkBody))
          else (t1, Failed(SendRejected))
  }

  method RecordViewingResponseOn(store: Store, query: map<string, string>, scanned: seq<Viewing>, env: Env)
    returns (r: Response)
    modifies store
    ensures (store.State(), r) == RecordViewingResponse(old(store.State()), query, scanned, env)
  {
    var viewingId := Param(query, "viewingId");
    var slot := Param(query, "slot");
    if !Truthy(viewingId) || slot.None? {
      return Json(400, ErrorBody("Missing viewingId or slot"));
    }
    var items := WithId(scanned, viewingId.value);
    if items == [] {
      return Json(404, ErrorBody("Viewing not found"));
    }
    var v := items[0];
    var isNone := slot.value == "none";
    var selected := SelectedSlot(v.availabilitySlots, slot.value);
    store.viewings := SetResponse(store.viewings, SearchWorker.ViewingKey(v), selected, isNone, env.now);
    var to := SearchWorker.OwnerEmail(store.State(), v.userId);
    if to.Some? {
      var e := env.responseEmail(v.(agentSelectedSlot := Some(selected)), !isNone, SearchWorker.ChatUrl);
      var d := Delivery(to.value, e.subject, e.body);
      if !env.accepts(d) {
        return Failed(SendRejected);
      }
      store.outbox := store.outbox + [d];
    }
    r := Json(200, OkBody);
  }

  /** A missing `viewingId` or `slot` is 400 and an id the scanned page does
      not hold is 404, both before anything is written. */
  lemma ResponseRejects(t: Tables, query: map<string, string>, scanned: seq<Viewing>, env: Env)
    ensures var viewingId := Param(query, "viewingId");
      !Truthy(viewingId) || Param(query, "slot").None? ==>
        RecordViewingResponse(t, query, scanned, env) == (t, Json(400, ErrorBody("Missing viewingId or slot")))
    ensures var viewingId := Param(query, "viewingId");
      Truthy(viewingId) && Param(query, "slot").Some?
      && (forall i :: 0 <= i < |scanned| ==> scanned[i].viewingId != viewingId.value) ==>
        RecordViewingResponse(t, query, scanned, env) == (t, Json(404, ErrorBody("Viewing not found")))
  {
    var viewingId := Param(query, "viewingId");
    if Truthy(viewingId) && Param(query, "slot").Some?
       && (forall i :: 0 <= i < |scanned| ==> scanned[i].viewingId != viewingId.value) {
      var items := WithId(scanned, viewingId.value);
      if items != [] {
        assert items[0] in scanned;
      }
    }
  }

  /** For a viewing the scan found, the stored viewing becomes the agent's
      answer for the given slot and no other viewing changes; the buyer is
      mailed exactly when the profile has an address and the message is
      accepted, and a refused message rejects after the update. */
  lemma ResponseRecorded(t: Tables, query: map<string, string>, scanned: seq<Viewing>, env: Env)
    requires SearchWorker.ScanOf(t, scanned)
    requires Truthy(Param(query, "viewingId")) && Param(query, "slot").Some?
    requires WithId(scanned, Param(query, "viewingId").value) != []
    ensures var v := WithId(scanned, Param(query, "viewingId").value)[0];
      var k := SearchWorker.ViewingKey(v);
      var (t', r) := RecordViewingResponse(t, query, scanned, env);
      && v.viewingId == Param(query, "viewingId").value
      && t'.viewings.Keys == t.viewings.Keys
      && t'.viewings[k] == Responded(v, Param(query, "slot").value, env.now)
      && (forall k' :: k' in t.viewings && k' != k ==> t'.viewings[k'] == t.viewings[k'])
      && t'.users == t.users && t'.results == t.results && t'.notifications == t.notifications
      && t'.documents == t.documents && t'.invocations == t.invocations
      && (SearchWorker.OwnerEmail(t, v.userId).None? ==> t'.outbox == t.outbox && r == Json(200, OkBody))
      && (SearchWorker.OwnerEmail(t, v.userId).Some? ==>
            |t'.outbox| == |t.outbox| + (if r.Json? then 1 else 0)
            && t.outbox <= t'.outbox
            && (r.Json? ==> t'.outbox[|t.outbox|].to == SearchWorker.OwnerEmail(t, v.userId).value))
  {
    var items := WithId(scanned, Param(query, "viewingId").value);
    assert items[0] in scanned;
  }

  // ---------------------------------------------------------------- getViewings

  /** Newest `requestedAt` first, ties kept in query order. The comparison is
      by code point; see README on `localeCompare`. */
  predicate Descending(s: seq<Viewing>) {
    forall i, j :: 0 <= i < j < |s| ==> !StrLess(s[i].requestedAt, s[j].requestedAt)
  }

  /** Insert into a descending list after every element no older than `x`. */
  function Insert(x: Viewing, s: seq<Viewing>): (r: seq<Viewing>)
    ensures multiset(r) == multiset(s) + multiset{x}
  {
    if s == [] then [x]
    else if StrLess(s[0].requestedAt, x.requestedAt) then [x] + s
    else
      assert s == [s[0]] + s[1..];
      [s[0]] + Insert(x, s[1..])
  }

  /** The stable sort `viewings.sort((a, b) => b.requestedAt.localeCompare(a.requestedAt))`. */
  function SortByRequestedAt(s: seq<Viewing>): (r: seq<Viewing>)
    ensures multiset(r) == multiset(s)
    decreases |s|
  {
    if s == [] then []
    else
      assert s == s[..|s| - 1] + [s[|s| - 1]];
      Insert(s[|s| - 1], SortByRequestedAt(s[..|s| - 1]))
  }

  lemma ConsDescending(x: Viewing, rest: seq<Viewing>)
    requires Descending(rest)
    requires forall y :: y in rest ==> !StrLess(x.requestedAt, y.requestedAt)
    ensures Descending([x] + rest)
  {
    var f := [x] + rest;
    forall i, j | 0 <= i < j < |f|
      ensures !StrLess(f[i].requestedAt, f[j].requestedAt)
    {
      assert f[j] == rest[j - 1];
      if i > 0 {
        assert f[i] == rest[i - 1];
      }
    }
  }

  lemma TailDescending(s: seq<Viewing>)
    requires s != [] && Descending(s)
    ensures Descending(s[1..])
  {
    forall i, j | 0 <= i < j < |s[1..]|
      ensures !StrLess(s[1..][i].requestedAt, s[1..][j].requestedAt)
    {
      assert s[1..][i] == s[i + 1] && s[1..][j] == s[j + 1];
    }
  }

  lemma {:induction false} InsertDescending(x: Viewing, s: seq<Viewing>)
    requires Descending(s)
    ensures Descending(Insert(x, s))
  {
    if s != [] {
      if StrLess(s[0].requestedAt, x.requestedAt) {
        forall y | y in s
          ensures !StrLess(x.requestedAt, y.requestedAt)
        {
          var j :| 0 <= j < |s| && s[j] == y;
          if StrLess(x.requestedAt, y.requestedAt) {
            StrLessTransitive(s[0].requestedAt, x.requestedAt, y.requestedAt);
            if j == 0 {
              StrLessIrreflexive(y.requestedAt);
            }
          }
        }
        ConsDescending(x, s);
      } else {
        TailDescending(s);
        InsertDescending(x, s[1..]);
        var rest := Insert(x, s[1..]);
        forall y | y in rest
          ensures !StrLess(s[0].requestedAt, y.requestedAt)
        {
          assert y in multiset(rest);
          if y != x {
            assert y in s[1..];
            var j :| 0 <= j < |s[1..]| && s[1..][j] == y;
            assert s[j + 1] == y;
          }
        }
        ConsDescending(s[0], rest);
      }
    }
  }

  /** The viewings come back newest first, and they are exactly the queried ones. */
  lemma {:induction false} SortedViewings(s: seq<Viewing>)
    ensures Descending(SortByRequestedAt(s))
    ensures multiset(SortByRequestedAt(s)) == multiset(s)
    decreases |s|
  {
    if s != [] {
      SortedViewings(s[..|s| - 1]);
      InsertDescending(s[|s| - 1], SortByRequestedAt(s[..|s| - 1]));
    }
  }

  /** The viewings requested at time `a`, in their order. */
  function Ties(s: seq<Viewing>, a: string): seq<Viewing> {
    if s == [] then [] else (if s[0].requestedAt == a then [s[0]] else []) + Ties(s[1..], a)
  }

  lemma {:induction false} TiesAppend(s: seq<Viewing>, r: seq<Viewing>, a: string)
    ensures Ties(s + r, a) == Ties(s, a) + Ties(r, a)
  {
    if s == [] {
      assert s + r == r;
    } else {
      var h := if s[0].requestedAt == a then [s[0]] else [];
      assert (s + r)[0] == s[0] && (s + r)[1..] == s[1..] + r;
      assert Ties(s + r, a) == h + Ties(s[1..] + r, a);
      TiesAppend(s[1..], r, a);
      AppendAssoc(h, Ties(s[1..], a), Ties(r, a));
    }
  }

  /** A descending list whose head is older than `a` holds nothing requested at `a`. */
  lemma {:induction false} NoTiesAfter(s: seq<Viewing>, a: string)
    requires Descending(s) && s != [] && StrLess(s[0].requestedAt, a)
    ensures Ties(s, a) == []
  {
    if s[0].requestedAt == a {
      StrLessIrreflexive(a);
    }
    if |s| > 1 {
      NoTiesBelow(s, a);
    } else {
      assert s[1..] == [];
    }
  }

  lemma NoTiesBelow(s: seq<Viewing>, a: string)
    requires Descending(s) && |s| > 1 && StrLess(s[0].requestedAt, a)
    ensures Ties(s[1..], a) == []
  {
    var t := s[1..];
    forall i | 0 <= i < |t|
      ensures t[i].requestedAt != a
    {
      assert t[i] == s[i + 1];
      assert !StrLess(s[0].requestedAt, s[i + 1].requestedAt);
    }
    NoTiesIn(t, a);
  }

  lemma {:induction false} NoTiesIn(s: seq<Viewing>, a: string)
    requires forall i :: 0 <= i < |s| ==> s[i].requestedAt != a
    ensures Ties(s, a) == []
  {
    if s != [] {
      NoTiesIn(s[1..], a);
    }
  }

  lemma {:induction false} InsertKeepsTies(x: Viewing, s: seq<Viewing>, a: string)
    requires Descending(s)
    ensures Ties(Insert(x, s), a) == Ties(s, a) + (if x.requestedAt == a then [x] else [])
  {
    if s == [] {
      assert Ties([x], a) == (if x.requestedAt == a then [x] else []) + Ties([], a);
    } else if StrLess(s[0].requestedAt, x.requestedAt) {
      InsertInFront(x, s, a);
    } else {
      TailDescending(s);
      InsertKeepsTies(x, s[1..], a);
      InsertBehind(x, s, a);
    }
  }

  lemma InsertInFront(x: Viewing, s: seq<Viewing>, a: string)
    requires Descending(s) && s != [] && StrLess(s[0].requestedAt, x.requestedAt)
    ensures Ties(Insert(x, s), a) == Ties(s, a) + (if x.requestedAt == a then [x] else [])
  {
    var tx := if x.requestedAt == a then [x] else [];
    assert Insert(x, s) == [x] + s;
    assert ([x] + s)[0] == x && ([x] + s)[1..] == s;
    assert Ties([x] + s, a) == tx + Ties(s, a);
    if x.requestedAt == a {
      NoTiesAfter(s, a);
    } else {
      assert tx + Ties(s, a) == Ties(s, a) + tx;
    }
  }

  lemma InsertBehind(x: Viewing, s: seq<Viewing>, a: string)
    requires s != [] && !StrLess(s[0].requestedAt, x.requestedAt)
    requires Ties(Insert(x, s[1..]), a) == Ties(s[1..], a) + (if x.requestedAt == a then [x] else [])
    ensures Ties(Insert(x, s), a) == Ties(s, a) + (if x.requestedAt == a then [x] else [])
  {
    var tx := if x.requestedAt == a then [x] else [];
    var rest := Insert(x, s[1..]);
    var h := if s[0].requestedAt == a then [s[0]] else [];
    assert Insert(x, s) == [s[0]] + rest;
    assert ([s[0]] + rest)[0] == s[0] && ([s[0]] + rest)[1..] == rest;
    assert Ties([s[0]] + rest, a) == h + Ties(rest, a);
    assert Ties(s, a) == h + Ties(s[1..], a);
    AppendAssoc(h, Ties(s[1..], a), tx);
  }

  /** The sort is stable: the viewings requested at any one time come out in
      the order the query returned them. */
  lemma {:induction false} SortKeepsTies(s: seq<Viewing>, a: string)
    ensures Ties(SortByRequestedAt(s), a) == Ties(s, a)
    decreases |s|
  {
    if s != [] {
      var init, last := s[..|s| - 1], s[|s| - 1];
      assert s == init + [last];
      TiesAppend(init, [last], a);
      assert [last][1..] == [];
      var sorted := SortByRequestedAt(init);
      assert SortByRequestedAt(s) == Insert(last, sorted);
      SortKeepsTies(init, a);
      SortedViewings(init);
      InsertKeepsTies(last, sorted, a);
    }
  }

  // ---------------------------------------------------------------- documents

  /** The object key `getUploadUrl` hands out for a document. */
  function OwnKey(userId: string, documentId: string): string {
    userId + "/" + documentId
  }

  /** `getUploadUrl`: both parameters are needed; the object key is the user's
      id and the fresh document id, and the URL is presigned for a PUT of that
      key with the given content type, valid five minutes. */
  function UploadUrl(userId: string, query: map<string, string>, env: Env): (r: Response)
    ensures r.Json? && (r.statusCode == 200 || r.statusCode == 400)
    ensures (r.statusCode == 200) <==> Truthy(Param(query, "fileName")) && Truthy(Param(query, "contentType"))
    ensures r.statusCode == 200 ==>
      r.body == UploadBody(env.presign(PutObject(OwnKey(userId, env.documentId), Param(query, "contentType").value, UploadExpiry)),
                           env.documentId, OwnKey(userId, env.documentId))
  {
    var fileName := Param(query, "fileName");
    var contentType := Param(query, "contentType");
    if !Truthy(fileName) || !Truthy(contentType) then Json(400, ErrorBody("Missing fileName or contentType"))
    else
      var s3Key := OwnKey(userId, env.documentId);
      Json(200, UploadBody(env.presign(PutObject(s3Key, contentType.value, UploadExpiry)), env.documentId, s3Key))
  }

  /** `!documentId || !s3Key || !fileName || !contentType || sizeBytes === undefined`. */
  predicate Complete(b: JsonBody)
    requires b.UploadFields?
  {
    Truthy(b.documentId) && Truthy(b.s3Key) && Truthy(b.fileName) && Truthy(b.contentType) && b.sizeBytes.Some?
  }

  /** `confirmUpload` as written: the record is stored with whatever `s3Key`
      the client sent. A missing body parses as `{}`. */
  function ConfirmUploadAsWritten(t: Tables, userId: string, body: Option<JsonBody>, now: string): (Tables, Response) {
    var b := body.GetOr(UploadFields(None, None, None, None, None));
    if b.Malformed? then (t, Failed("SyntaxError"))
    else if !Complete(b) then (t, Json(400, ErrorBody("Missing required fields")))
    else
      var doc := UserDocument(userId, b.documentId.value, b.fileName.value, b.contentType.value,
                              b.sizeBytes.value, b.s3Key.value, now);
      (t.(documents := t.documents[(userId, b.documentId.value) := doc]), Json(200, DocumentBody(doc)))
  }

  /** `confirmUpload` with the `s3Key` checked against the key `getUploadUrl`
      handed out for the document; a foreign key is refused like a missing
      field. */
  function ConfirmUpload(t: Tables, userId: string, body: Option<JsonBody>, now: string): (Tables, Response) {
    var b := body.GetOr(UploadFields(None, None, None, None, None));
    if b.Malformed? then (t, Failed("SyntaxError"))
    else if !Complete(b) || b.s3Key.value != OwnKey(userId, b.documentId.value) then
      (t, Json(400, ErrorBody("Missing required fields")))
    else ConfirmUploadAsWritten(t, userId, body, now)
  }

  method ConfirmUploadOn(store: Store, userId: string, body: Option<JsonBody>, now: string) returns (r: Response)
    modifies store
    ensures (store.State(), r) == ConfirmUploadAsWritten(old(store.State()), userId, body, now)
  {
    var b := body.GetOr(UploadFields(None, None, None, None, None));
    if b.Malformed? {
      return Failed("SyntaxError");
    }
    if !Complete(b) {
      return Json(400, ErrorBody("Missing required fields"));
    }
    var doc := UserDocument(userId, b.documentId.value, b.fileName.value, b.contentType.value,
                            b.sizeBytes.value, b.s3Key.value, now);
    store.documents := store.documents[(userId, b.documentId.value) := doc];
    r := Json(200, DocumentBody(doc));
  }

  /** All five fields are required; a size of 0 is accepted, since only a
      missing size is refused. A confirmed record belongs to the caller, is
      stored under `(userId, documentId)` with the upload time, and replaces
      only that key. */
  lemma ConfirmValidation(t: Tables, userId: string, body: Option<JsonBody>, now: string)
    ensures var (t', r) := ConfirmUploadAsWritten(t, userId, body, now);
      var b := body.GetOr(UploadFields(None, None, None, None, None));
      && (r.Failed? <==> b.Malformed?)
      && (r == Json(400, ErrorBody("Missing required fields")) <==> b.UploadFields? && !Complete(b))
      && (r.Json? && r.statusCode == 200 <==> b.UploadFields? && Complete(b))
      && (r.Json? && r.statusCode == 200 ==>
            && r.body.DocumentBody?
            && r.body.document == UserDocument(userId, b.documentId.value, b.fileName.value, b.contentType.value,
                                               b.sizeBytes.value, b.s3Key.value, now)
            && t'.documents == t.documents[(userId, b.documentId.value) := r.body.document])
      && (!(r.Json? && r.statusCode == 200) ==> t' == t)
    ensures body == Some(UploadFields(Some("d"), Some("u/d"), Some("f.pdf"), Some("application/pdf"), Some(0))) ==>
      ConfirmUploadAsWritten(t, userId, body, now).1.Json? && ConfirmUploadAsWritten(t, userId, body, now).1.statusCode == 200
  {
  }

  /** `getDownloadUrl`: the document must be the caller's; the URL is
      presigned for a GET of its stored key, valid fifteen minutes. */
  function DownloadUrl(documents: map<(string, string), UserDocument>, userId: string, query: map<string, string>, env: Env)
    : (r: Response)
    ensures r.Json?
    ensures (r.statusCode == 400) <==> !Truthy(Param(query, "documentId"))
    ensures (r.statusCode == 404) <==> Truthy(Param(query, "documentId")) && (userId, Param(query, "documentId").value) !in documents
    ensures r.statusCode == 200 ==>
      r.body == DownloadBody(env.presign(GetObject(documents[(userId, Param(query, "documentId").value)].s3Key, DownloadExpiry)))
  {
    var documentId := Param(query, "documentId");
    if !Truthy(documentId) then Json(400, ErrorBody("Missing documentId"))
    else if (userId, documentId.value) !in documents then Json(404, ErrorBody("Document not found"))
    else Json(200, DownloadBody(env.presign(GetObject(documents[(userId, documentId.value)].s3Key, DownloadExpiry))))
  }

  /** As written, a client that confirms a record for another user's object
      key is then handed a download URL for that object: the ownership check
      covers the record, not the key inside it. */
  lemma ForeignKeyServed(t: Tables, env: Env)
    ensures var body := Some(UploadFields(Some("d"), Some("victim/secret.pdf"), Some("f.pdf"), Some("application/pdf"), Some(1)));
      var (t', r) := ConfirmUploadAsWritten(t, "mallory", body, env.now);
      && r.Json? && r.statusCode == 200
      && DownloadUrl(t'.documents, "mallory", map["documentId" := "d"], env)
           == Json(200, DownloadBody(env.presign(GetObject("victim/secret.pdf", DownloadExpiry))))
      && !("mallory/" <= "victim/secret.pdf")
  {
    var body := Some(UploadFields(Some("d"), Some("victim/secret.pdf"), Some("f.pdf"), Some("application/pdf"), Some(1)));
    var t' := ConfirmUploadAsWritten(t, "mallory", body, env.now).0;
    assert ("mallory", "d") in t'.documents;
    assert "victim/secret.pdf"[0] != "mallory/"[0];
  }

  /** Every document record holds a key under its owner's prefix. */
  predicate OwnKeys(documents: map<(string, string), UserDocument>) {
    forall k :: k in documents ==> documents[k].s3Key == OwnKey(k.0, k.1)
  }

  /** With the check, confirming keeps every stored key its owner's, so a
      download URL is only ever presigned for an object under the caller's
      own prefix. */
  lemma ConfirmKeepsOwnKeys(t: Tables, userId: string, body: Option<JsonBody>, now: string)
    requires OwnKeys(t.documents)
    ensures OwnKeys(ConfirmUpload(t, userId, body, now).0.documents)
  {
  }

  lemma DownloadsOwnObject(documents: map<(string, string), UserDocument>, userId: string, query: map<string, string>, env: Env)
    requires OwnKeys(documents)
    ensures var r := DownloadUrl(documents, userId, query, env);
      r.statusCode == 200 ==>
        r.body == DownloadBody(env.presign(GetObject(OwnKey(userId, Param(query, "documentId").value), DownloadExpiry)))
        && userId + "/" <= OwnKey(userId, Param(query, "documentId").value)
  {
  }

  // ---------------------------------------------------------------- handler

  /** `handler`: the route's answer and the tables after it. The handler
      never writes a profile, a search result, a notification or an
      invocation; only the upload confirmation writes a document, and only
      the agent's link writes a viewing or sends mail, at most one. */
  function Handle(t: Tables, req: Request, fetched: Reads, env: Env): (r: (Tables, Response))
    ensures && r.0.users == t.users && r.0.results == t.results
            && r.0.notifications == t.notifications && r.0.invocations == t.invocations
    ensures RouteOf(req.path, req.httpMethod, req.sub) != ConfirmUploadRoute ==> r.0.documents == t.documents
    ensures RouteOf(req.path, req.httpMethod, req.sub) != ViewingResponse ==>
      r.0.viewings == t.viewings && r.0.outbox == t.outbox
    ensures t.outbox <= r.0.outbox && |r.0.outbox| <= |t.outbox| + 1
  {
    match RouteOf(req.path, req.httpMethod, req.sub)
    case ViewingResponse => RecordViewingResponse(t, req.query, fetched.scanned, env)
    case Unauthorized => (t, Json(401, ErrorBody("Unauthorized")))
    case ProfileRoute => (t, Json(200, Profile(t.users, req.sub.value)))
    case SearchResultsRoute => (t, SearchResults(t.users, req.sub.value, fetched.resultsIndex))
    case ViewingsRoute => (t, Json(200, ViewingsBody(SortByRequestedAt(fetched.viewingsQuery))))
    case ListDocuments => (t, Json(200, DocumentsBody(fetched.documentsQuery)))
    case UploadUrlRoute => (t, UploadUrl(req.sub.value, req.query, env))
    case ConfirmUploadRoute => ConfirmUploadAsWritten(t, req.sub.value, req.body, env.now)
    case DownloadUrlRoute => (t, DownloadUrl(t.documents, req.sub.value, req.query, env))
    case NotFound => (t, Json(404, ErrorBody("Not found")))
  }

  method Handler(store: Store, req: Request, fetched: Reads, env: Env) returns (r: Response)
    modifies store
    ensures (store.State(), r) == Handle(old(store.State()), req, fetched, env)
  {
    var route := RouteOf(req.path, req.httpMethod, req.sub);
    match route
    case ViewingResponse =>
      r := RecordViewingResponseOn(store, req.query, fetched.scanned, env);
    case Unauthorized =>
      r := Json(401, ErrorBody("Unauthorized"));
    case ProfileRoute =>
      r := Json(200, Profile(store.users, req.sub.value));
    case SearchResultsRoute =>
      r := SearchResultsOf(store.users, req.sub.value, fetched.resultsIndex);
    case ViewingsRoute =>
      r := Json(200, ViewingsBody(SortByRequestedAt(fetched.viewingsQuery)));
    case ListDocuments =>
      r := Json(200, DocumentsBody(fetched.documentsQuery));
    case UploadUrlRoute =>
      r := UploadUrl(req.sub.value, req.query, env);
    case ConfirmUploadRoute =>
      r := ConfirmUploadOn(store, req.sub.value, req.body, env.now);
    case DownloadUrlRoute =>
      r := DownloadUrl(store.documents, req.sub.value, req.query, env);
    case NotFound =>
      r := Json(404, ErrorBody("Not found"));
  }

  /** Only the agent's link and the upload confirmation write: every other
      route leaves the tables as they are. */
  lemma ReadOnlyRoutes(t: Tables, req: Request, fetched: Reads, env: Env)
    requires RouteOf(req.path, req.httpMethod, req.sub) != ViewingResponse
    requires RouteOf(req.path, req.httpMethod, req.sub) != ConfirmUploadRoute
    ensures Handle(t, req, fetched, env).0 == t
  {
  }

  /** Without a `sub` claim nothing but the agent's link is served, and
      nothing is written. */
  lemma UnauthenticatedIsRefused(t: Tables, req: Request, fetched: Reads, env: Env)
    requires req.path != "/viewing-response" && !Truthy(req.sub)
    ensures Handle(t, req, fetched, env) == (t, Json(401, ErrorBody("Unauthorized")))
  {
  }

  /** `handler` with the corrected `confirmUpload`: the same routes, except
      that a confirmation naming an object key other than the caller's own is
      refused. */
  function HandleChecked(t: Tables, req: Request, fetched: Reads, env: Env): (Tables, Response) {
    if RouteOf(req.path, req.httpMethod, req.sub) == ConfirmUploadRoute then ConfirmUpload(t, req.sub.value, req.body, env.now)
    else Handle(t, req, fetched, env)
  }

  /** The corrected handler answers as the program does except on a
      confirmation that names a foreign key; and it keeps every stored key
      its owner's, so every download URL it presigns is for an object under
      the caller's own prefix. */
  lemma CheckedHandlerKeepsOwnKeys(t: Tables, req: Request, fetched: Reads, env: Env)
    requires OwnKeys(t.documents)
    ensures OwnKeys(HandleChecked(t, req, fetched, env).0.documents)
    ensures HandleChecked(t, req, fetched, env) != Handle(t, req, fetched, env) ==>
      && RouteOf(req.path, req.httpMethod, req.sub) == ConfirmUploadRoute
      && req.body.Some? && req.body.value.UploadFields? && Complete(req.body.value)
      && req.body.value.s3Key.value != OwnKey(req.sub.value, req.body.value.documentId.value)
    ensures var r := HandleChecked(t, req, fetched, env).1;
      RouteOf(req.path, req.httpMethod, req.sub) == DownloadUrlRoute && r.Json? && r.statusCode == 200 ==>
        r.body == DownloadBody(env.presign(GetObject(OwnKey(req.sub.value, Param(req.query, "documentId").value), DownloadExpiry)))
  {
    if RouteOf(req.path, req.httpMethod, req.sub) == ConfirmUploadRoute {
      ConfirmKeepsOwnKeys(t, req.sub.value, req.body, env.now);
    } else if RouteOf(req.path, req.httpMethod, req.sub) == DownloadUrlRoute {
      DownloadsOwnObject(t.documents, req.sub.value, req.query, env);
    }
  }

  // ---------------------------------------------------------------- what the reads return

  /** Every document record is stored under its owner and its id. */
  predicate DocumentsKeyed(documents: map<(string, string), UserDocument>) {
    forall k :: k in documents ==> documents[k].userId == k.0 && documents[k].documentId == k.1
  }

  /** `ds` is what the Query on `userId = :uid` of the Documents table
      returns: stored documents of that partition, and all of them, with the
      sort key descending (`ScanIndexForward: false`). */
  predicate DocumentsOf(documents: map<(string, string), UserDocument>, userId: string, ds: seq<UserDocument>) {
    && (forall i :: 0 <= i < |ds| ==>
          (userId, ds[i].documentId) in documents && documents[(userId, ds[i].documentId)] == ds[i])
    && (forall k :: k in documents && k.0 == userId ==> documents[k] in ds)
    && (forall i, j :: 0 <= i < j < |ds| ==> StrLess(ds[j].documentId, ds[i].documentId))
  }

  /** The confirmation as written keeps records keyed by owner and id,
      whatever object key they name. */
  lemma ConfirmKeepsKeyed(t: Tables, userId: string, body: Option<JsonBody>, now: string)
    requires DocumentsKeyed(t.documents)
    ensures DocumentsKeyed(ConfirmUploadAsWritten(t, userId, body, now).0.documents)
  {
  }

  /** GET /documents lists exactly the caller's documents: each one listed is
      stored, belongs to the caller, and each of the caller's stored
      documents is listed. */
  lemma ListsOwnDocuments(t: Tables, req: Request, fetched: Reads, env: Env)
    requires RouteOf(req.path, req.httpMethod, req.sub) == ListDocuments
    requires DocumentsKeyed(t.documents) && DocumentsOf(t.documents, req.sub.value, fetched.documentsQuery)
    ensures var r := Handle(t, req, fetched, env);
      && r.0 == t && r.1.Json? && r.1.statusCode == 200 && r.1.body.DocumentsBody?
      && (forall d :: d in r.1.body.documents ==>
            d.userId == req.sub.value && (d.userId, d.documentId) in t.documents && t.documents[(d.userId, d.documentId)] == d)
      && (forall k :: k in t.documents && k.0 == req.sub.value ==> t.documents[k] in r.1.body.documents)
      && (forall i, j :: 0 <= i < j < |r.1.body.documents| ==>
            StrLess(r.1.body.documents[j].documentId, r.1.body.documents[i].documentId))
  {
    var ds := fetched.documentsQuery;
    forall d | d in ds
      ensures d.userId == req.sub.value && (d.userId, d.documentId) in t.documents && t.documents[(d.userId, d.documentId)] == d
    {
      var i :| 0 <= i < |ds| && ds[i] == d;
      assert (req.sub.value, ds[i].documentId) in t.documents;
    }
  }

  /** GET /viewings lists exactly the caller's viewings, newest first: each
      one listed is the stored viewing of the caller under its id, and each
      of the caller's stored viewings is listed. */
  lemma ListsOwnViewings(t: Tables, req: Request, fetched: Reads, env: Env)
    requires RouteOf(req.path, req.httpMethod, req.sub) == ViewingsRoute
    requires GetPendingFeedback.Keyed(t.viewings)
    requires GetPendingFeedback.UserQuery(t.viewings, req.sub.value, fetched.viewingsQuery)
    ensures var r := Handle(t, req, fetched, env);
      && r.0 == t && r.1.Json? && r.1.statusCode == 200 && r.1.body.ViewingsBody?
      && Descending(r.1.body.viewings)
      && (forall v :: v in r.1.body.viewings ==>
            v.userId == req.sub.value && SearchWorker.ViewingKey(v) in t.viewings && t.viewings[SearchWorker.ViewingKey(v)] == v)
      && (forall k :: k in t.viewings && k.0 == req.sub.value ==> t.viewings[k] in r.1.body.viewings)
  {
    var vs := fetched.viewingsQuery;
    var sorted := SortByRequestedAt(vs);
    SortedViewings(vs);
    forall v | v in sorted
      ensures v.userId == req.sub.value && SearchWorker.ViewingKey(v) in t.viewings && t.viewings[SearchWorker.ViewingKey(v)] == v
    {
      assert v in multiset(vs);
      var i :| 0 <= i < |vs| && vs[i] == v;
      assert (req.sub.value, vs[i].viewingId) in t.viewings;
    }
    forall k | k in t.viewings && k.0 == req.sub.value
      ensures t.viewings[k] in sorted
    {
      assert t.viewings[k] in multiset(vs);
    }
  }

  /** GET /search-results lists the caller's stored results, each with its
      URL rebuilt and nothing else changed, newest first; when the caller has
      no more than 100 results, every one of them is listed. */
  lemma ListsOwnResults(t: Tables, req: Request, fetched: Reads, env: Env)
    requires RouteOf(req.path, req.httpMethod, req.sub) == SearchResultsRoute
    requires GetSearchResults.IndexOf(t.results, req.sub.value, fetched.resultsIndex)
    ensures var r := Handle(t, req, fetched, env);
      var preference := Preference(t.users, req.sub.value);
      && r.0 == t && r.1.Json? && r.1.statusCode == 200 && r.1.body.ResultsBody?
      && GetSearchResults.NewestFirst(r.1.body.results)
      && (forall i :: 0 <= i < |r.1.body.results| ==>
            var k := (req.sub.value, r.1.body.results[i].profileIdListingId);
            k in t.results && r.1.body.results[i] == Refresh(t.results[k], preference))
      && (|fetched.resultsIndex| <= ResultsLimit ==>
            forall k :: k in t.results && k.0 == req.sub.value ==> Refresh(t.results[k], preference) in r.1.body.results)
  {
    assert Handle(t, req, fetched, env) == (t, SearchResults(t.users, req.sub.value, fetched.resultsIndex));
    SearchResultsListsOwn(t.results, t.users, req.sub.value, fetched.resultsIndex);
  }

  lemma SearchResultsListsOwn(results: map<(string, string), SearchResult>, users: map<string, UserProfile>,
                              userId: string, index: seq<SearchResult>)
    requires GetSearchResults.IndexOf(results, userId, index)
    ensures var r := SearchResults(users, userId, index);
      var preference := Preference(users, userId);
      && r.Json? && r.statusCode == 200 && r.body.ResultsBody?
      && GetSearchResults.NewestFirst(r.body.results)
      && (forall i :: 0 <= i < |r.body.results| ==>
            var k := (userId, r.body.results[i].profileIdListingId);
            k in results && r.body.results[i] == Refresh(results[k], preference))
      && (|index| <= ResultsLimit ==>
            forall k :: k in results && k.0 == userId ==> Refresh(results[k], preference) in r.body.results)
  {
    var preference := Preference(users, userId);
    var page := index[..GetSearchResults.Min(ResultsLimit, |index|)];
    assert forall i :: 0 <= i < |page| ==> page[i] == index[i];
    RefreshedStored(results, userId, page, preference);
    RefreshedNewestFirst(page, preference);
    if |index| <= ResultsLimit {
      assert page == index;
      RefreshedComplete(results, userId, index, preference);
    }
  }


  lemma RefreshedStored(results: map<(string, string), SearchResult>, userId: string, page: seq<SearchResult>,
                        preference: Option<string>)
    requires forall i :: 0 <= i < |page| ==>
      (userId, page[i].profileIdListingId) in results && results[(userId, page[i].profileIdListingId)] == page[i]
    ensures forall i :: 0 <= i < |page| ==>
      var k := (userId, Refreshed(page, preference)[i].profileIdListingId);
      k in results && Refreshed(page, preference)[i] == Refresh(results[k], preference)
  {
  }

  lemma RefreshedNewestFirst(page: seq<SearchResult>, preference: Option<string>)
    requires GetSearchResults.NewestFirst(page)
    ensures GetSearchResults.NewestFirst(Refreshed(page, preference))
  {
    var r := Refreshed(page, preference);
    forall i, j | 0 <= i < j < |r|
      ensures GetSearchResults.NotOlder(r[i], r[j])
    {
      assert GetSearchResults.NotOlder(page[i], page[j]);
    }
  }

  lemma RefreshedComplete(results: map<(string, string), SearchResult>, userId: string, index: seq<SearchResult>,
                          preference: Option<string>)
    requires forall k :: k in results && k.0 == userId ==> results[k] in index
    ensures forall k :: k in results && k.0 == userId ==> Refresh(results[k], preference) in Refreshed(index, preference)
  {
    forall k | k in results && k.0 == userId
      ensures Refresh(results[k], preference) in Refreshed(index, preference)
    {
      var i :| 0 <= i < |index| && index[i] == results[k];
      assert Refreshed(index, preference)[i] == Refresh(results[k], preference);
    }
  }

}
