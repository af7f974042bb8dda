/** The Rentcast adapter (chat-service/src/mls/rentcast-provider.ts): the
    criteria become an ordered list of query parameters, one HTTP request is
    made, a non-OK response is an error, and every provider record becomes one
    listing. The HTTP request itself is the `fetch` parameter. */
module Rentcast {
  import opened Common
  import opened Types

  /** The names of the query parameters the adapter can set. */
  datatype ParamName =
    | City | State | ZipCode | Bedrooms | Bathrooms | PriceMin | PriceMax | PropertyType | Limit | Status
  {
    /** The name as written in the query string. */
    function Text(): string {
      match this
      case City => "city"
      case State => "state"
      case ZipCode => "zipCode"
      case Bedrooms => "bedrooms"
      case Bathrooms => "bathrooms"
      case PriceMin => "priceMin"
      case PriceMax => "priceMax"
      case PropertyType => "propertyType"
      case Limit => "limit"
      case Status => "status"
    }

    /** The position of the name in the order the adapter sets them. */
    function Rank(): nat {
      match this
      case City => 0
      case State => 1
      case ZipCode => 2
      case Bedrooms => 3
      case Bathrooms => 4
      case PriceMin => 5
      case PriceMax => 6
      case PropertyType => 7
      case Limit => 8
      case Status => 9
    }
  }

  /** One query parameter, `(name, value)`; the query string is the list in order. */
  type Param = (ParamName, string)

  const BaseUrl := "https://api.rentcast.io/v1"

  /** What the `fetch` call gives back: a transport failure, or a response whose
      body, when the status is OK, is the provider's record array. */
  datatype FetchOutcome =
    | NetworkError(reason: string)
    | Response(ok: bool, status: int, statusText: string, data: seq<RentcastProperty>)

  /** The value of the first parameter called `key`. */
  function Lookup(params: seq<Param>, key: ParamName): (v: Option<string>)
  {
    if params == [] then None
    else if params[0].0 == key then Some(params[0].1)
    else Lookup(params[1..], key)
  }

  /** `URLSearchParams.set`: the first parameter with that name takes the new
      value and any later ones are removed; without one, the pair is appended. */
  function SetParam(params: seq<Param>, key: ParamName, value: string): (r: seq<Param>)
    ensures Lookup(r, key) == Some(value)
  {
    if params == [] then [(key, value)]
    else if params[0].0 == key then [(key, value)] + RemoveKey(params[1..], key)
    else [params[0]] + SetParam(params[1..], key, value)
  }

  function RemoveKey(params: seq<Param>, key: ParamName): (r: seq<Param>)
    ensures forall i :: 0 <= i < |r| ==> r[i].0 != key
  {
    if params == [] then []
    else (if params[0].0 == key then [] else [params[0]]) + RemoveKey(params[1..], key)
  }

  lemma {:induction false} SetFreshKeyAppends(params: seq<Param>, key: ParamName, value: string)
    requires forall i :: 0 <= i < |params| ==> params[i].0 != key
    ensures SetParam(params, key, value) == params + [(key, value)]
  {
    if params != [] {
      SetFreshKeyAppends(params[1..], key, value);
      assert params == [params[0]] + params[1..];
    }
  }

  /** A parameter that is present exactly when `v` is. */
  function Optional(key: ParamName, v: Option<string>): (r: seq<Param>)
    ensures |r| <= 1
  {
    if v.Some? then [(key, v.value)] else []
  }

  function NonEmpty(s: Option<string>): Option<string> {
    if Truthy(s) then s else None
  }

  function FirstZip(zips: Option<seq<string>>): Option<string> {
    if zips.Some? && |zips.value| > 0 then Some(zips.value[0]) else None
  }

  function Number(n: Option<int>): Option<string> {
    if n.Some? then Some(IntToString(n.value)) else None
  }

  /** The parameter list the adapter builds for `c`, as a reference value:
      each criterion that is present contributes its one pair, in the fixed
      order, and `limit` and `status` close the list. */
  function ExpectedParams(c: SearchCriteria): seq<Param> {
    Optional(City, NonEmpty(c.city))
    + Optional(State, NonEmpty(c.state))
    + Optional(ZipCode, FirstZip(c.zipCodes))
    + Optional(Bedrooms, Number(c.bedrooms))
    + Optional(Bathrooms, Number(c.bathrooms))
    + Optional(PriceMin, Number(c.minPrice))
    + Optional(PriceMax, Number(c.maxPrice))
    + Optional(PropertyType, NonEmpty(c.propertyType))
    + [(Limit, "50"), (Status, "Active")]
  }

  /** Every name in `params` comes before position `n` of the order. */
  predicate RanksBelow(params: seq<Param>, n: nat) {
    forall i :: 0 <= i < |params| ==> params[i].0.Rank() < n
  }

  /** The names appear in the adapter's order, each at most once. */
  predicate InOrder(params: seq<Param>) {
    forall i, j :: 0 <= i < j < |params| ==> params[i].0.Rank() < params[j].0.Rank()
  }

  /** One `params.set` for a name later in the order than every name set so far;
      the pair is then appended. */
  method Set(params: seq<Param>, key: ParamName, value: string) returns (r: seq<Param>)
    requires RanksBelow(params, key.Rank()) && InOrder(params)
    ensures r == params + [(key, value)]
    ensures RanksBelow(r, key.Rank() + 1) && InOrder(r)
  {
    SetFreshKeyAppends(params, key, value);
    r := SetParam(params, key, value);
  }

  /** `params.set(key, v)` when there is a value to send, for a name later in
      the order than every name set so far. */
  method SetWhen(params: seq<Param>, key: ParamName, v: Option<string>) returns (r: seq<Param>)
    requires RanksBelow(params, key.Rank()) && InOrder(params)
    ensures r == params + Optional(key, v)
    ensures RanksBelow(r, key.Rank() + 1) && InOrder(r)
  {
    r := params;
    if v.Some? {
      r := Set(params, key, v.value);
    }
  }

  /** The successive `params.set` calls of `searchListings`. */
  method BuildParams(c: SearchCriteria) returns (params: seq<Param>)
    ensures params == ExpectedParams(c)
    ensures InOrder(params)
  {
    params := [];
    params := SetWhen(params, City, NonEmpty(c.city));
    params := SetWhen(params, State, NonEmpty(c.state));
    params := SetWhen(params, ZipCode, FirstZip(c.zipCodes));
    params := SetWhen(params, Bedrooms, Number(c.bedrooms));
    params := SetWhen(params, Bathrooms, Number(c.bathrooms));
    params := SetWhen(params, PriceMin, Number(c.minPrice));
    params := SetWhen(params, PriceMax, Number(c.maxPrice));
    params := SetWhen(params, PropertyType, NonEmpty(c.propertyType));
    params := Set(params, Limit, "50");
    params := Set(params, Status, "Active");
  }

  lemma {:induction false} LookupAppend(a: seq<Param>, b: seq<Param>, key: ParamName)
    ensures Lookup(a + b, key) == Lookup(a, key).OrElse(Lookup(b, key))
  {
    if a == [] {
      assert a + b == b;
    } else {
      assert (a + b)[0] == a[0];
      assert (a + b)[1..] == a[1..] + b;
      LookupAppend(a[1..], b, key);
    }
  }

  /** The value the adapter sends under each name, by the rules of
      `searchListings`; `None` for a name it never sends. */
  function SentValue(c: SearchCriteria, key: ParamName): Option<string> {
    match key
    case City => NonEmpty(c.city)
    case State => NonEmpty(c.state)
    case ZipCode => FirstZip(c.zipCodes)
    case Bedrooms => Number(c.bedrooms)
    case Bathrooms => Number(c.bathrooms)
    case PriceMin => Number(c.minPrice)
    case PriceMax => Number(c.maxPrice)
    case PropertyType => NonEmpty(c.propertyType)
    case Limit => Some("50")
    case Status => Some("Active")
  }

  lemma LookupOptional(name: ParamName, v: Option<string>, key: ParamName)
    ensures Lookup(Optional(name, v), key) == if name == key then v else None
  {
  }

  /** Every name of the list carries the value the rules give it: `city`, `state` and `propertyType` only when non-empty, the
      first zip code only when there is one, the numeric bounds whenever
      present (0 included), and always `limit=50` and `status=Active`. */
  lemma ParamsContent(c: SearchCriteria, key: ParamName)
    ensures Lookup(ExpectedParams(c), key) == SentValue(c, key)
  {
    var o1 := Optional(City, NonEmpty(c.city));
    var o2 := Optional(State, NonEmpty(c.state));
    var o3 := Optional(ZipCode, FirstZip(c.zipCodes));
    var o4 := Optional(Bedrooms, Number(c.bedrooms));
    var o5 := Optional(Bathrooms, Number(c.bathrooms));
    var o6 := Optional(PriceMin, Number(c.minPrice));
    var o7 := Optional(PriceMax, Number(c.maxPrice));
    var o8 := Optional(PropertyType, NonEmpty(c.propertyType));
    var tail := [(Limit, "50"), (Status, "Active")];
    LookupAppend(o1, o2, key);
    LookupAppend(o1 + o2, o3, key);
    LookupAppend(o1 + o2 + o3, o4, key);
    LookupAppend(o1 + o2 + o3 + o4, o5, key);
    LookupAppend(o1 + o2 + o3 + o4 + o5, o6, key);
    LookupAppend(o1 + o2 + o3 + o4 + o5 + o6, o7, key);
    LookupAppend(o1 + o2 + o3 + o4 + o5 + o6 + o7, o8, key);
    LookupAppend(o1 + o2 + o3 + o4 + o5 + o6 + o7 + o8, tail, key);
    LookupOptional(City, NonEmpty(c.city), key);
    LookupOptional(State, NonEmpty(c.state), key);
    LookupOptional(ZipCode, FirstZip(c.zipCodes), key);
    LookupOptional(Bedrooms, Number(c.bedrooms), key);
    LookupOptional(Bathrooms, Number(c.bathrooms), key);
    LookupOptional(PriceMin, Number(c.minPrice), key);
    LookupOptional(PriceMax, Number(c.maxPrice), key);
    LookupOptional(PropertyType, NonEmpty(c.propertyType), key);
    assert Lookup(tail, key) == if key == Limit then Some("50") else if key == Status then Some("Active") else None;
  }

  /** `limit` and `status` come last, after every criteria parameter. */
  lemma ParamsEndWithLimitAndStatus(c: SearchCriteria)
    ensures var p := ExpectedParams(c);
      |p| >= 2 && p[|p| - 2..] == [(Limit, "50"), (Status, "Active")]
  {
  }

  /** `data.map(...)` for one record: identity fields copied, coordinates kept
      only when they are numbers, agent fields and the platform URL unset. */
  function Normalize(p: RentcastProperty): (l: Listing)
    ensures l.agentEmail.None? && l.agentName.None? && l.listingUrl.None?
    ensures l.latitude.Some? <==> p.latitude.Some? && p.latitude.value.CoordinateNumber?
    ensures l.longitude.Some? <==> p.longitude.Some? && p.longitude.value.CoordinateNumber?
  {
    Listing(
      listingId := p.id,
      address := p.formattedAddress,
      price := p.price,
      bedrooms := p.bedrooms,
      bathrooms := p.bathrooms,
      sqft := p.squareFootage,
      agentEmail := None,
      agentName := None,
      listingUrl := None,
      latitude := Coordinate(p.latitude),
      longitude := Coordinate(p.longitude),
      rawData := p)
  }

  /** `typeof x === 'number' ? x : undefined`. */
  function Coordinate(x: Option<RawCoordinate>): (r: Option<real>)
    ensures r.Some? <==> x.Some? && x.value.CoordinateNumber?
    ensures r.Some? ==> r.value == x.value.degrees
  {
    if x.Some? && x.value.CoordinateNumber? then Some(x.value.degrees) else None
  }

  function NormalizeAll(data: seq<RentcastProperty>): (r: seq<Listing>)
    ensures |r| == |data|
    ensures forall i :: 0 <= i < |data| ==> r[i] == Normalize(data[i])
  {
    if data == [] then [] else [Normalize(data[0])] + NormalizeAll(data[1..])
  }

  /** One listing per provider record, in the same order, carrying the record's
      id, address, price, rooms and size and the record itself; the agent fields
      and the platform URL are never set. */
  lemma NormalizedListing(data: seq<RentcastProperty>, i: nat)
    requires i < |data|
    ensures var l := NormalizeAll(data)[i];
      && l.listingId == data[i].id && l.address == data[i].formattedAddress
      && l.price == data[i].price && l.bedrooms == data[i].bedrooms
      && l.bathrooms == data[i].bathrooms && l.sqft == data[i].squareFootage
      && l.rawData == data[i]
      && l.agentEmail.None? && l.agentName.None? && l.listingUrl.None?
      && (l.latitude.Some? <==> data[i].latitude.Some? && data[i].latitude.value.CoordinateNumber?)
      && (l.longitude.Some? <==> data[i].longitude.Some? && data[i].longitude.value.CoordinateNumber?)
  {
  }

  function ErrorMessage(status: int, statusText: string): string {
    "Rentcast API error: " + IntToString(status) + " " + statusText
  }

  /** What `searchListings` makes of the outcome of its request. */
  function Interpret(out: FetchOutcome): Result<seq<Listing>, string> {
    match out
    case NetworkError(reason) => Err(reason)
    case Response(ok, status, statusText, data) =>
      if ok then Ok(NormalizeAll(data)) else Err(ErrorMessage(status, statusText))
  }

  /** `searchListings`: one request with the built parameters; a transport
      failure or a non-OK status is an error and yields no listings. */
  method SearchListings(c: SearchCriteria, fetch: seq<Param> -> FetchOutcome)
    returns (r: Result<seq<Listing>, string>)
    ensures var out := fetch(ExpectedParams(c));
      match out
      case NetworkError(reason) => r == Err(reason)
      case Response(ok, status, statusText, data) =>
        && (r.Ok? <==> ok)
        && (!ok ==> r.error == ErrorMessage(status, statusText))
        && (ok ==> r.value == NormalizeAll(data))
    ensures r == Interpret(fetch(ExpectedParams(c)))
  {
    var params := BuildParams(c);
    var out := fetch(params);
    match out
    case NetworkError(reason) =>
      r := Err(reason);
    case Response(ok, status, statusText, data) =>
      if !ok {
        r := Err(ErrorMessage(status, statusText));
      } else {
        r := Ok(NormalizeAll(data));
      }
  }
}
