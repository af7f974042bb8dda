/** The `get_search_results` chat tool
    (chat-service/src/tools/get-search-results.ts): the user's newest matches
    from the `userId-matchedAt-index`, at most `limit` of them, then narrowed
    to one search profile when one is named. */
module GetSearchResults {
  import opened Common
  import opened Types

  const DefaultLimit := 10
  const MaxLimit := 50

  datatype Input = Input(profileId: Option<string>, limit: Option<int>)

  datatype Reply = Reply(results: seq<SearchResult>, count: int)

  /** `Math.min(input.limit ?? 10, 50)`. */
  function EffectiveLimit(limit: Option<int>): (n: int)
    ensures n <= MaxLimit
    ensures limit.None? ==> n == DefaultLimit
    ensures limit.Some? && limit.value <= MaxLimit ==> n == limit.value
  {
    var asked := limit.GetOr(DefaultLimit);
    if asked < MaxLimit then asked else MaxLimit
  }

  /** Descending `matchedAt`, as the Query with `ScanIndexForward: false`
      returns the index. */
  predicate NewestFirst(s: seq<SearchResult>) {
    forall i, j :: 0 <= i < j < |s| ==> NotOlder(s[i], s[j])
  }

  function ForProfile(s: seq<SearchResult>, profileId: string): seq<SearchResult> {
    Filter(s, (r: SearchResult) => r.profileId == profileId)
  }

  /** `execute` over the user's rows of the index in descending `matchedAt`
      order. DynamoDB refuses a `Limit` below 1, so a limit of 0 or less
      makes the Query, and the tool, throw. */
  function Execute(index: seq<SearchResult>, input: Input): (r: Result<Reply, string>)
    ensures r.Ok? <==> EffectiveLimit(input.limit) >= 1
    ensures r.Ok? ==> r.value.count == |r.value.results| <= EffectiveLimit(input.limit)
    ensures r.Ok? ==> forall i :: 0 <= i < |r.value.results| ==>
      r.value.results[i] in index[..Min(EffectiveLimit(input.limit), |index|)]
  {
    var limit := EffectiveLimit(input.limit);
    if limit < 1 then Err("ValidationException: Limit must be at least 1")
    else
      var page := index[..Min(limit, |index|)];
      var results := if Truthy(input.profileId) then ForProfile(page, input.profileId.value) else page;
      Ok(Reply(results, |results|))
  }

  function Min(a: int, b: int): int {
    if a < b then a else b
  }

  /** Without a profile filter the reply is the first `limit` rows. */
  lemma UnfilteredIsPage(index: seq<SearchResult>, input: Input)
    requires !Truthy(input.profileId) && EffectiveLimit(input.limit) >= 1
    ensures Execute(index, input) == Ok(Reply(index[..Min(EffectiveLimit(input.limit), |index|)],
                                              Min(EffectiveLimit(input.limit), |index|)))
  {
  }

  /** With a profile filter the reply is the rows of the page, not of the
      whole index, that belong to that profile: a match of the profile that
      lies beyond the limit is never returned, even when the page holds fewer
      than `limit` of the profile's matches. */
  lemma FilteredAfterLimit(index: seq<SearchResult>, input: Input)
    requires Truthy(input.profileId) && EffectiveLimit(input.limit) >= 1
    ensures var page := index[..Min(EffectiveLimit(input.limit), |index|)];
      && Execute(index, input).Ok?
      && (forall i :: 0 <= i < |Execute(index, input).value.results| ==>
            Execute(index, input).value.results[i].profileId == input.profileId.value)
      && (forall i :: 0 <= i < |page| && page[i].profileId == input.profileId.value ==>
            page[i] in Execute(index, input).value.results)
  {
  }

  /** `a` was matched no earlier than `b`. */
  predicate NotOlder(a: SearchResult, b: SearchResult) {
    !StrLess(a.matchedAt, b.matchedAt)
  }

  /** The head of a newest-first list is no older than anything filtered from its tail. */
  lemma HeadNotOlder(s: seq<SearchResult>, p: SearchResult -> bool)
    requires s != [] && NewestFirst(s)
    ensures forall x :: x in Filter(s[1..], p) ==> NotOlder(s[0], x)
  {
    forall x | x in Filter(s[1..], p)
      ensures NotOlder(s[0], x)
    {
      var i :| 0 <= i < |Filter(s[1..], p)| && Filter(s[1..], p)[i] == x;
      var m :| 0 <= m < |s[1..]| && s[1..][m] == x;
      assert s[m + 1] == x;
    }
  }

  lemma ConsNewestFirst(x: SearchResult, rest: seq<SearchResult>)
    requires NewestFirst(rest) && forall y :: y in rest ==> NotOlder(x, y)
    ensures NewestFirst([x] + rest)
  {
    var f := [x] + rest;
    forall i, j | 0 <= i < j < |f|
      ensures NotOlder(f[i], f[j])
    {
      assert f[j] == rest[j - 1];
      if i > 0 {
        assert f[i] == rest[i - 1];
      }
    }
  }

  lemma {:induction false} FilterKeepsNewestFirst(s: seq<SearchResult>, p: SearchResult -> bool)
    requires NewestFirst(s)
    ensures NewestFirst(Filter(s, p))
  {
    if s != [] {
      assert NewestFirst(s[1..]) by {
        forall i, j | 0 <= i < j < |s[1..]|
          ensures NotOlder(s[1..][i], s[1..][j])
        {
          assert s[1..][i] == s[i + 1] && s[1..][j] == s[j + 1];
        }
      }
      FilterKeepsNewestFirst(s[1..], p);
      if p(s[0]) {
        HeadNotOlder(s, p);
        ConsNewestFirst(s[0], Filter(s[1..], p));
      }
    }
  }

  /** The reply is newest first whenever the index is. */
  lemma RepliesNewestFirst(index: seq<SearchResult>, input: Input)
    requires NewestFirst(index) && Execute(index, input).Ok?
    ensures NewestFirst(Execute(index, input).value.results)
  {
    var page := index[..Min(EffectiveLimit(input.limit), |index|)];
    assert NewestFirst(page) by {
      forall i, j | 0 <= i < j < |page|
        ensures NotOlder(page[i], page[j])
      {
        assert page[i] == index[i] && page[j] == index[j];
      }
    }
    if Truthy(input.profileId) {
      FilterKeepsNewestFirst(page, (r: SearchResult) => r.profileId == input.profileId.value);
    }
  }

  /** The default of 10 and the cap of 50. */
  lemma LimitExamples()
    ensures EffectiveLimit(None) == 10
    ensures EffectiveLimit(Some(200)) == 50
    ensures EffectiveLimit(Some(3)) == 3
  {
  }

  /** `index` is what the Query on the `userId-matchedAt-index` returns for
      `userId`: stored results of that user, newest first, and all of them. */
  predicate IndexOf(results: map<(string, string), SearchResult>, userId: string, index: seq<SearchResult>) {
    && NewestFirst(index)
    && (forall i :: 0 <= i < |index| ==>
          (userId, index[i].profileIdListingId) in results && results[(userId, index[i].profileIdListingId)] == index[i])
    && (forall k :: k in results && k.0 == userId ==> results[k] in index)
  }

  /** Only the caller's stored results come back, newest first and of the
      named profile when one is named; with no profile named and no more
      stored results than the limit, every one of them comes back. */
  lemma OnlyOwnResults(results: map<(string, string), SearchResult>, userId: string, index: seq<SearchResult>, input: Input)
    requires IndexOf(results, userId, index)
    ensures var r := Execute(index, input);
      r.Ok? ==>
        && NewestFirst(r.value.results)
        && (forall i :: 0 <= i < |r.value.results| ==>
              var k := (userId, r.value.results[i].profileIdListingId);
              k in results && results[k] == r.value.results[i]
              && (Truthy(input.profileId) ==> r.value.results[i].profileId == input.profileId.value))
        && (!Truthy(input.profileId) && |index| <= EffectiveLimit(input.limit) ==>
              forall k :: k in results && k.0 == userId ==> results[k] in r.value.results)
  {
    var r := Execute(index, input);
    if r.Ok? {
      RepliesNewestFirst(index, input);
      var page := index[..Min(EffectiveLimit(input.limit), |index|)];
      forall i | 0 <= i < |r.value.results|
        ensures var k := (userId, r.value.results[i].profileIdListingId);
          k in results && results[k] == r.value.results[i]
      {
        var x := r.value.results[i];
        assert x in page;
        var j :| 0 <= j < |page| && page[j] == x;
        assert index[j] == x;
      }
      if !Truthy(input.profileId) && |index| <= EffectiveLimit(input.limit) {
        assert page == index;
      }
    }
  }
}
