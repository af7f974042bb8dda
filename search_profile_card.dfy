/** The sidebar card of one search profile
    (ui/src/components/sidebar/SearchProfileCard.tsx): its name, a Live or
    Paused chip, a one-line summary of the criteria, the first three matches
    and a link to all of them. */
module SearchProfileCard {
  import opened Common
  import opened Types

  const NoCriteria := "No criteria set"
  const PartSeparator := " · "
  const RangeDash := "–"
  const NoMatchesText := "No matches yet — monitoring will run daily at 8 AM."
  const TopCount := 3

  /** `$${Math.round(x / 1000)}k`. */
  function PriceText(x: int): (s: string)
    ensures |s| >= 3 && s[0] == '$' && s[|s| - 1] == 'k'
  {
    "$" + IntToString(RoundedThousands(x)) + "k"
  }

  /** The bedrooms part: `<n>BR` for a truthy count. */
  function BedroomsPart(c: SearchCriteria): Option<string> {
    if TruthyNum(c.bedrooms) then Some(IntToString(c.bedrooms.value) + "BR") else None
  }

  /** The location part: `city state` (a space, no comma), or whichever is set. */
  function LocationPart(c: SearchCriteria): Option<string> {
    if Truthy(c.city) && Truthy(c.state) then Some(c.city.value + " " + c.state.value)
    else if Truthy(c.city) then Some(c.city.value)
    else if Truthy(c.state) then Some(c.state.value)
    else None
  }

  /** The price part: a range when both bounds are set, else `up to` the
      maximum, else `from` the minimum. */
  function PricePart(c: SearchCriteria): Option<string> {
    if TruthyNum(c.minPrice) && TruthyNum(c.maxPrice) then
      Some(PriceText(c.minPrice.value) + RangeDash + PriceText(c.maxPrice.value))
    else if TruthyNum(c.maxPrice) then Some("up to " + PriceText(c.maxPrice.value))
    else if TruthyNum(c.minPrice) then Some("from " + PriceText(c.minPrice.value))
    else None
  }

  function Opt(o: Option<string>): seq<string> {
    if o.Some? then [o.value] else []
  }

  /** The parts of the summary in their order: bedrooms, location, price. */
  function CriteriaParts(c: SearchCriteria): (parts: seq<string>)
    ensures |parts| <= 3
    ensures forall i :: 0 <= i < |parts| ==> parts[i] != ""
  {
    Opt(BedroomsPart(c)) + Opt(LocationPart(c)) + Opt(PricePart(c))
  }

  /** The summary line: the parts joined by a middle dot, or a placeholder. */
  function CriteriaText(c: SearchCriteria): string {
    var parts := CriteriaParts(c);
    if parts == [] then NoCriteria else Join(parts, PartSeparator)
  }

  /** A joined list starts with its first part. */
  lemma JoinStartsWithFirst(parts: seq<string>, sep: string)
    requires parts != []
    ensures |Join(parts, sep)| >= |parts[0]| && Join(parts, sep)[..|parts[0]|] == parts[0]
  {
    var j := Join(parts, sep);
    if |parts| > 1 {
      assert j == parts[0] + (sep + Join(parts[1..], sep));
    }
  }

  /** `formatCriteria`: pushes the parts one by one, joins them and falls
      back to the placeholder when the join is empty. */
  method FormatCriteria(profile: SearchProfile) returns (text: string)
    ensures text == CriteriaText(profile.criteria)
  {
    var parts: seq<string> := [];
    var c := profile.criteria;
    if TruthyNum(c.bedrooms) {
      parts := parts + [IntToString(c.bedrooms.value) + "BR"];
    }
    if Truthy(c.city) && Truthy(c.state) {
      parts := parts + [c.city.value + " " + c.state.value];
    } else if Truthy(c.city) {
      parts := parts + [c.city.value];
    } else if Truthy(c.state) {
      parts := parts + [c.state.value];
    }
    assert parts == Opt(BedroomsPart(c)) + Opt(LocationPart(c));
    if TruthyNum(c.minPrice) || TruthyNum(c.maxPrice) {
      var min := if TruthyNum(c.minPrice) then PriceText(c.minPrice.value) else "";
      var max := if TruthyNum(c.maxPrice) then PriceText(c.maxPrice.value) else "";
      if min != "" && max != "" {
        parts := parts + [min + RangeDash + max];
      } else if max != "" {
        parts := parts + ["up to " + max];
      } else if min != "" {
        parts := parts + ["from " + min];
      }
    }
    assert parts == CriteriaParts(c);
    var joined := Join(parts, PartSeparator);
    if parts != [] {
      JoinStartsWithFirst(parts, PartSeparator);
    }
    text := if joined == "" then NoCriteria else joined;
  }

  /** The price part in each case, with the bounds shown in rounded thousands. */
  lemma PricePartCases(c: SearchCriteria)
    ensures TruthyNum(c.minPrice) && TruthyNum(c.maxPrice) ==>
      PricePart(c) == Some("$" + IntToString(RoundedThousands(c.minPrice.value)) + "k–$"
                           + IntToString(RoundedThousands(c.maxPrice.value)) + "k")
    ensures !TruthyNum(c.minPrice) && TruthyNum(c.maxPrice) ==>
      PricePart(c) == Some("up to $" + IntToString(RoundedThousands(c.maxPrice.value)) + "k")
    ensures TruthyNum(c.minPrice) && !TruthyNum(c.maxPrice) ==>
      PricePart(c) == Some("from $" + IntToString(RoundedThousands(c.minPrice.value)) + "k")
    ensures PricePart(c).None? <==> !TruthyNum(c.minPrice) && !TruthyNum(c.maxPrice)
  {
    if TruthyNum(c.minPrice) && TruthyNum(c.maxPrice) {
      RangeText(IntToString(RoundedThousands(c.minPrice.value)), IntToString(RoundedThousands(c.maxPrice.value)));
    } else if TruthyNum(c.maxPrice) {
      var hi := IntToString(RoundedThousands(c.maxPrice.value));
      assert "up to " + ("$" + hi + "k") == "up to $" + hi + "k";
    } else if TruthyNum(c.minPrice) {
      var lo := IntToString(RoundedThousands(c.minPrice.value));
      assert "from " + ("$" + lo + "k") == "from $" + lo + "k";
    }
  }

  /** The range text regrouped around its dash. */
  lemma RangeText(lo: string, hi: string)
    ensures "$" + lo + "k" + RangeDash + ("$" + hi + "k") == "$" + lo + "k–$" + hi + "k"
  {
    var a := "$" + lo;
    assert "k–$" == "k" + RangeDash + "$";
    assert a + "k" + RangeDash + ("$" + hi + "k") == a + ("k" + RangeDash + "$") + hi + "k";
  }

  /** Zero counts as unset: a criterion of 0 changes nothing in the summary. */
  lemma ZeroIsUnset(c: SearchCriteria)
    ensures CriteriaText(c.(bedrooms := Some(0))) == CriteriaText(c.(bedrooms := None))
    ensures CriteriaText(c.(minPrice := Some(0))) == CriteriaText(c.(minPrice := None))
    ensures CriteriaText(c.(maxPrice := Some(0))) == CriteriaText(c.(maxPrice := None))
    ensures CriteriaText(c.(city := Some(""))) == CriteriaText(c.(city := None))
  {
    var c0, c1 := c.(bedrooms := Some(0)), c.(bedrooms := None);
    assert BedroomsPart(c0) == BedroomsPart(c1) && LocationPart(c0) == LocationPart(c1) && PricePart(c0) == PricePart(c1);
    assert CriteriaParts(c0) == CriteriaParts(c1);
    c0, c1 := c.(minPrice := Some(0)), c.(minPrice := None);
    assert BedroomsPart(c0) == BedroomsPart(c1) && LocationPart(c0) == LocationPart(c1) && PricePart(c0) == PricePart(c1);
    assert CriteriaParts(c0) == CriteriaParts(c1);
    c0, c1 := c.(maxPrice := Some(0)), c.(maxPrice := None);
    assert BedroomsPart(c0) == BedroomsPart(c1) && LocationPart(c0) == LocationPart(c1) && PricePart(c0) == PricePart(c1);
    assert CriteriaParts(c0) == CriteriaParts(c1);
    c0, c1 := c.(city := Some("")), c.(city := None);
    assert BedroomsPart(c0) == BedroomsPart(c1) && LocationPart(c0) == LocationPart(c1) && PricePart(c0) == PricePart(c1);
    assert CriteriaParts(c0) == CriteriaParts(c1);
  }

  /** The placeholder shows exactly when no criterion is set; otherwise the
      summary starts with the first part that is set. */
  lemma PlaceholderIffNoCriteria(c: SearchCriteria)
    ensures CriteriaParts(c) == [] <==>
      !TruthyNum(c.bedrooms) && !Truthy(c.city) && !Truthy(c.state)
      && !TruthyNum(c.minPrice) && !TruthyNum(c.maxPrice)
    ensures CriteriaParts(c) == [] ==> CriteriaText(c) == NoCriteria
    ensures TruthyNum(c.bedrooms) ==>
      var t := CriteriaText(c);
      var b := IntToString(c.bedrooms.value) + "BR";
      |t| >= |b| && t[..|b|] == b
  {
    var parts := CriteriaParts(c);
    if TruthyNum(c.bedrooms) {
      assert parts[0] == IntToString(c.bedrooms.value) + "BR";
      JoinStartsWithFirst(parts, PartSeparator);
    }
  }

  /** The bedrooms, location and price parts, when all are set, are joined
      in that order with the middle-dot separator. */
  lemma AllPartsJoined(c: SearchCriteria)
    requires BedroomsPart(c).Some? && LocationPart(c).Some? && PricePart(c).Some?
    ensures CriteriaText(c) ==
      BedroomsPart(c).value + PartSeparator + LocationPart(c).value + PartSeparator + PricePart(c).value
  {
    var parts := CriteriaParts(c);
    assert parts == [BedroomsPart(c).value, LocationPart(c).value, PricePart(c).value];
    assert parts[1..] == [LocationPart(c).value, PricePart(c).value];
    assert parts[1..][1..] == [PricePart(c).value];
    assert Join(parts[1..], PartSeparator) == LocationPart(c).value + PartSeparator + PricePart(c).value;
    assert Join(parts, PartSeparator) == BedroomsPart(c).value + PartSeparator + Join(parts[1..], PartSeparator);
  }

  // ---------------------------------------------------------------- the card

  datatype Link = Link(to: string, text: string)

  datatype Body = NoMatchesYet(text: string) | Matches(top: seq<SearchResult>, showAll: Option<Link>)

  datatype CardView = CardView(name: string, chip: string, criteria: string, body: Body)

  /** What the card shows for a profile and its matches. */
  function Card(profile: SearchProfile, results: seq<SearchResult>): (v: CardView)
    ensures v.name == profile.name
    ensures v.chip == (if profile.monitoring then "Live" else "Paused")
    ensures v.criteria == CriteriaText(profile.criteria)
    ensures v.body.NoMatchesYet? <==> results == []
    ensures v.body.Matches? ==>
      && |v.body.top| == (if |results| < TopCount then |results| else TopCount)
      && v.body.top == results[..|v.body.top|]
      && v.body.showAll == Some(Link("/listings/" + profile.profileId,
                                     "Show all " + NatToString(|results|) + " listings →"))
  {
    var top := if |results| < TopCount then results else results[..TopCount];
    var body :=
      if |top| == 0 then NoMatchesYet(NoMatchesText)
      else Matches(top, if |results| > 0 then Some(Link("/listings/" + profile.profileId,
                                                      "Show all " + NatToString(|results|) + " listings →"))
                        else None);
    CardView(profile.name, if profile.monitoring then "Live" else "Paused", CriteriaText(profile.criteria), body)
  }

  /** The link's count is the whole number of matches, not the three shown. */
  lemma LinkCountsAll(profile: SearchProfile, results: seq<SearchResult>)
    requires |results| > TopCount
    ensures var v := Card(profile, results);
      v.body.Matches? && |v.body.top| == TopCount && v.body.showAll.Some?
      && DecimalValue(v.body.showAll.value.text[9..9 + |NatToString(|results|)|]) == |results|
  {
    DecimalValueOfNatToString(|results|);
    var t := Card(profile, results).body.showAll.value.text;
    assert t[9..9 + |NatToString(|results|)|] == NatToString(|results|);
  }
}
