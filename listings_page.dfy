/** The listings page of the web app (ui/src/pages/ListingsPage.tsx): one
    search profile's matches, narrowed by four optional number filters, with
    the profile's criteria shown as pills and a count text. */
module ListingsPage {
  import opened Common
  import opened Types

  /** The text of a filter field as `Number(...)` reads it: empty, a number,
      or text that is not a number. */
  datatype FilterField = Blank | Number(n: int) | NotANumber

  datatype Filters = Filters(minPrice: FilterField, maxPrice: FilterField, minBeds: FilterField, minBaths: FilterField)

  const NoFilters := Filters(Blank, Blank, Blank, Blank)

  /** `value < Number(field)`: false for NaN, as every comparison with NaN is. */
  predicate Below(value: int, field: FilterField) {
    field.Number? && value < field.n
  }

  predicate Above(value: int, field: FilterField) {
    field.Number? && value > field.n
  }

  /** The filter callback, with its early returns; a blank field is skipped.
      A listing is kept exactly when every numeric filter holds: price at
      least the minimum and at most the maximum, at least the beds and the
      baths; blank fields and text that is not a number never exclude. */
  predicate Keep(r: SearchResult, f: Filters)
    ensures Keep(r, f) <==>
      && Admits(f.minPrice, r.listingData.price, true)
      && Admits(f.maxPrice, r.listingData.price, false)
      && Admits(f.minBeds, r.listingData.bedrooms, true)
      && Admits(f.minBaths, r.listingData.bathrooms, true)
  {
    var l := r.listingData;
    if f.minPrice != Blank && Below(l.price, f.minPrice) then false
    else if f.maxPrice != Blank && Above(l.price, f.maxPrice) then false
    else if f.minBeds != Blank && Below(l.bedrooms, f.minBeds) then false
    else if f.minBaths != Blank && Below(l.bathrooms, f.minBaths) then false
    else true
  }

  /** The filter callback as a value, so that every use names the same one. */
  function Keeper(f: Filters): SearchResult -> bool {
    (r: SearchResult) => Keep(r, f)
  }

  function Filtered(results: seq<SearchResult>, f: Filters): seq<SearchResult> {
    Filter(results, Keeper(f))
  }

  /** Whether a number field lets a value through as a lower or upper bound. */
  predicate Admits(field: FilterField, value: int, lower: bool) {
    match field
    case Number(n) => if lower then value >= n else value <= n
    case _ => true
  }

  /** The shown listings keep their order and leave some out: a listing is
      shown exactly when it is among the profile's results and passes the
      filters; with every field blank they are all the profile's results. */
  lemma FilteredIsSublist(results: seq<SearchResult>, f: Filters)
    ensures IsSubsequence(Filtered(results, f), results)
    ensures forall x :: x in Filtered(results, f) <==> x in results && Keep(x, f)
    ensures Filtered(results, NoFilters) == results
  {
    FilterIsSubsequence(results, Keeper(f));
    var s := Filtered(results, f);
    forall x | x in s
      ensures x in results && Keep(x, f)
    {
      var i :| 0 <= i < |s| && s[i] == x;
    }
    forall x | x in results && Keep(x, f)
      ensures x in s
    {
      var i :| 0 <= i < |results| && results[i] == x;
    }
    forall i | 0 <= i < |results|
      ensures Keeper(NoFilters)(results[i])
    {
    }
    FilterKeepsAll(results, Keeper(NoFilters));
  }

  /** `grouped[profileId ?? ''] ?? []`. */
  function ProfileResults(grouped: map<string, seq<SearchResult>>, profileId: Option<string>): (r: seq<SearchResult>)
    ensures profileId.GetOr("") in grouped ==> r == grouped[profileId.GetOr("")]
    ensures profileId.GetOr("") !in grouped ==> r == []
  {
    var key := profileId.GetOr("");
    if key in grouped then grouped[key] else []
  }

  // ---------------------------------------------------------------- pills

  function PriceK(x: int): string {
    IntToString(RoundedThousands(x))
  }

  /** The candidate pills in display order, each present only when its
      criterion is truthy. */
  function PillCandidates(c: SearchCriteria): seq<Option<string>> {
    [ if TruthyNum(c.bedrooms) then Some(IntToString(c.bedrooms.value) + " bed") else None,
      if TruthyNum(c.bathrooms) then Some(IntToString(c.bathrooms.value) + " bath") else None,
      LocationPill(c),
      if TruthyNum(c.minPrice) then Some("from $" + PriceK(c.minPrice.value) + "k") else None,
      if TruthyNum(c.maxPrice) then Some("up to $" + PriceK(c.maxPrice.value) + "k") else None,
      if Truthy(c.propertyType) then Some(c.propertyType.value) else None ]
  }

  /** `city, state`, or whichever of the two is set. */
  function LocationPill(c: SearchCriteria): (p: Option<string>)
    ensures p.Some? <==> Truthy(c.city) || Truthy(c.state)
    ensures Truthy(c.city) && Truthy(c.state) ==> p == Some(c.city.value + ", " + c.state.value)
    ensures Truthy(c.city) && !Truthy(c.state) ==> p == Some(c.city.value)
    ensures !Truthy(c.city) && Truthy(c.state) ==> p == Some(c.state.value)
  {
    if Truthy(c.city) && Truthy(c.state) then Some(c.city.value + ", " + c.state.value)
    else if Truthy(c.city) then Some(c.city.value)
    else if Truthy(c.state) then Some(c.state.value)
    else None
  }

  /** The present values, in order. */
  function Present(s: seq<Option<string>>): (r: seq<string>)
    ensures |r| <= |s|
  {
    if s == [] then [] else (if s[0].Some? then [s[0].value] else []) + Present(s[1..])
  }

  lemma {:induction false} PresentAppend(a: seq<Option<string>>, b: seq<Option<string>>)
    ensures Present(a + b) == Present(a) + Present(b)
  {
    if a == [] {
      assert a + b == b;
    } else {
      var h := if a[0].Some? then [a[0].value] else [];
      assert (a + b)[0] == a[0] && (a + b)[1..] == a[1..] + b;
      assert Present(a + b) == h + Present(a[1..] + b);
      PresentAppend(a[1..], b);
      assert h + (Present(a[1..]) + Present(b)) == (h + Present(a[1..])) + Present(b);
    }
  }

  lemma PresentSnoc(a: seq<Option<string>>, x: Option<string>)
    ensures Present(a + [x]) == Present(a) + Opt(x)
  {
    PresentAppend(a, [x]);
    assert Present([x]) == Opt(x) + Present([]);
  }

  /** The value of a present candidate, as a list of zero or one pill. */
  function Opt(o: Option<string>): seq<string> {
    if o.Some? then [o.value] else []
  }

  /** Six candidates unfold into the six optional pills in their order. */
  lemma PresentSix(s: seq<Option<string>>)
    requires |s| == 6
    ensures Present(s) == Opt(s[0]) + Opt(s[1]) + Opt(s[2]) + Opt(s[3]) + Opt(s[4]) + Opt(s[5])
  {
    assert s[..0] + [s[0]] == s[..1];
    PresentSnoc(s[..0], s[0]);
    assert Present(s[..1]) == Opt(s[0]);
    assert s[..1] + [s[1]] == s[..2];
    PresentSnoc(s[..1], s[1]);
    assert s[..2] + [s[2]] == s[..3];
    PresentSnoc(s[..2], s[2]);
    assert s[..3] + [s[3]] == s[..4];
    PresentSnoc(s[..3], s[3]);
    assert s[..4] + [s[4]] == s[..5];
    PresentSnoc(s[..4], s[4]);
    assert s[..5] + [s[5]] == s;
    PresentSnoc(s[..5], s[5]);
  }

  /** The pills as the page builds them: one `push` per truthy criterion, in
      the order beds, baths, location, minimum price, maximum price, type. */
  method CriteriaPills(searchProfile: Option<SearchProfile>) returns (pills: seq<string>)
    ensures searchProfile.None? ==> pills == []
    ensures searchProfile.Some? ==> pills == Present(PillCandidates(searchProfile.value.criteria))
    ensures |pills| <= 6
  {
    pills := [];
    if searchProfile.Some? {
      var c := searchProfile.value.criteria;
      ghost var cands := PillCandidates(c);
      PresentSix(cands);
      if TruthyNum(c.bedrooms) {
        pills := pills + [IntToString(c.bedrooms.value) + " bed"];
      }
      assert pills == Opt(cands[0]);
      if TruthyNum(c.bathrooms) {
        pills := pills + [IntToString(c.bathrooms.value) + " bath"];
      }
      assert pills == Opt(cands[0]) + Opt(cands[1]);
      if Truthy(c.city) && Truthy(c.state) {
        pills := pills + [c.city.value + ", " + c.state.value];
      } else if Truthy(c.city) {
        pills := pills + [c.city.value];
      } else if Truthy(c.state) {
        pills := pills + [c.state.value];
      }
      assert pills == Opt(cands[0]) + Opt(cands[1]) + Opt(cands[2]);
      if TruthyNum(c.minPrice) {
        pills := pills + ["from $" + PriceK(c.minPrice.value) + "k"];
      }
      assert pills == Opt(cands[0]) + Opt(cands[1]) + Opt(cands[2]) + Opt(cands[3]);
      if TruthyNum(c.maxPrice) {
        pills := pills + ["up to $" + PriceK(c.maxPrice.value) + "k"];
      }
      assert pills == Opt(cands[0]) + Opt(cands[1]) + Opt(cands[2]) + Opt(cands[3]) + Opt(cands[4]);
      if Truthy(c.propertyType) {
        pills := pills + [c.propertyType.value];
      }
    }
  }

  /** Present values keep their relative order: a value before another among
      the candidates comes before it among the pills. */
  lemma {:induction false} PresentOrder(s: seq<Option<string>>, i: nat, j: nat)
    requires i < j < |s| && s[i].Some? && s[j].Some?
    ensures |Present(s[..i])| < |Present(s[..j])| < |Present(s)|
    ensures Present(s)[|Present(s[..i])|] == s[i].value
    ensures Present(s)[|Present(s[..j])|] == s[j].value
  {
    PresentAt(s, i);
    PresentAt(s, j);
    assert s[..j] == s[..i + 1] + s[i + 1..j];
    PresentAppend(s[..i + 1], s[i + 1..j]);
  }

  /** A present candidate lands at the index given by the present ones before it. */
  lemma PresentAt(s: seq<Option<string>>, i: nat)
    requires i < |s| && s[i].Some?
    ensures |Present(s[..i])| < |Present(s)|
    ensures Present(s[..i + 1]) == Present(s[..i]) + [s[i].value]
    ensures Present(s)[|Present(s[..i])|] == s[i].value
  {
    assert s[..i + 1] == s[..i] + [s[i]];
    PresentSnoc(s[..i], s[i]);
    assert s == s[..i + 1] + s[i + 1..];
    PresentAppend(s[..i + 1], s[i + 1..]);
  }

  /** The price pills show the bound in thousands, rounded to the nearest. */
  lemma PricePills(c: SearchCriteria)
    ensures TruthyNum(c.minPrice) ==> PillCandidates(c)[3] == Some("from $" + IntToString(RoundedThousands(c.minPrice.value)) + "k")
    ensures !TruthyNum(c.minPrice) ==> PillCandidates(c)[3] == None
    ensures TruthyNum(c.maxPrice) ==> PillCandidates(c)[4] == Some("up to $" + IntToString(RoundedThousands(c.maxPrice.value)) + "k")
    ensures PillCandidates(c)[4].Some? ==>
      var k := RoundedThousands(c.maxPrice.value);
      1000 * k - 500 <= c.maxPrice.value < 1000 * k + 500
  {
  }

  /** With no truthy criterion there is no pill; a profile with only a
      location has exactly that pill. */
  lemma PillExamples(c: SearchCriteria)
    ensures !TruthyNum(c.bedrooms) && !TruthyNum(c.bathrooms) && !Truthy(c.city) && !Truthy(c.state)
            && !TruthyNum(c.minPrice) && !TruthyNum(c.maxPrice) && !Truthy(c.propertyType)
            ==> Present(PillCandidates(c)) == []
    ensures !TruthyNum(c.bedrooms) && !TruthyNum(c.bathrooms) && Truthy(c.city) && Truthy(c.state)
            && !TruthyNum(c.minPrice) && !TruthyNum(c.maxPrice) && !Truthy(c.propertyType)
            ==> Present(PillCandidates(c)) == [c.city.value + ", " + c.state.value]
  {
    PresentSix(PillCandidates(c));
  }

  // ---------------------------------------------------------------- count text

  /** `{n} listing{n !== 1 ? 's' : ''}` followed by ` ({total} total)` when
      the filters hid something. */
  function CountLabel(shown: nat, total: nat): string {
    NatToString(shown) + " listing" + (if shown != 1 then "s" else "")
    + (if shown != total then " (" + NatToString(total) + " total)" else "")
  }

  /** The text starts with the shown count, is singular exactly when one
      listing is shown, and mentions the total exactly when it differs. */
  lemma CountLabelReads(shown: nat, total: nat)
    ensures var text := CountLabel(shown, total);
      var k := |NatToString(shown)|;
      && |text| >= k + 8
      && text[..k] == NatToString(shown) && DecimalValue(text[..k]) == shown
      && text[k..k + 8] == " listing"
      && ((|text| > k + 8 && text[k + 8] == 's') <==> shown != 1)
      && (text[|text| - 1] == ')' <==> shown != total)
  {
    DecimalValueOfNatToString(shown);
    var text := CountLabel(shown, total);
    var k := |NatToString(shown)|;
    assert text[..k] == NatToString(shown);
    assert text[k..k + 8] == " listing";
  }
}
