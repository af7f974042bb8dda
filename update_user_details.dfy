/** The `update_user_details` chat tool
    (chat-service/src/tools/update-user-details.ts): a partial update of the
    user's profile record built from a fixed whitelist of fields. The model
    keeps the UpdateItem request the tool builds (the SET clause, the name map
    and the value map, in key order) and the reply message. */
module UpdateUserDetails {
  import opened Common

  /** A JSON value as the tool receives it. */
  datatype Value = JString(s: string) | JNumber(n: int) | JBool(b: bool) | JNull

  /** The input object: its own keys in order, and the value of each key
      that does not hold `undefined`. */
  datatype Input = Input(keys: seq<string>, values: map<string, Value>)

  /** The whitelisted fields, each with its attribute name. */
  datatype Field =
    | FirstName | LastName | Phone | BuyerStatus | PreApproved | PreApprovalAmount
    | PreferredContactMethod | FirstTimeHomeBuyer | CurrentCity | CurrentState
    | DesiredCity | DesiredState | ListingViewingPreference
  {
    function Name(): (n: string)
      ensures n != "updatedAt" && n != "email"
    {
      match this
      case FirstName => "firstName"
      case LastName => "lastName"
      case Phone => "phone"
      case BuyerStatus => "buyerStatus"
      case PreApproved => "preApproved"
      case PreApprovalAmount => "preApprovalAmount"
      case PreferredContactMethod => "preferredContactMethod"
      case FirstTimeHomeBuyer => "firstTimeHomeBuyer"
      case CurrentCity => "currentCity"
      case CurrentState => "currentState"
      case DesiredCity => "desiredCity"
      case DesiredState => "desiredState"
      case ListingViewingPreference => "listingViewingPreference"
    }
  }

  /** The fields in the order the tool checks them. */
  const Whitelist: seq<Field> := [
    FirstName, LastName, Phone, BuyerStatus, PreApproved, PreApprovalAmount,
    PreferredContactMethod, FirstTimeHomeBuyer, CurrentCity, CurrentState,
    DesiredCity, DesiredState, ListingViewingPreference]

  /** `input[name]`: the value of the key, `None` when the key is missing or
      holds `undefined`. */
  function Lookup(input: Input, name: string): Option<Value> {
    if name in input.values then Some(input.values[name]) else None
  }

  predicate Defined(input: Input, f: Field) {
    Lookup(input, f.Name()).Some?
  }

  /** `[name, input[name]]` when that is not `undefined`. */
  function Entry(input: Input, f: Field): seq<(string, Value)> {
    match Lookup(input, f.Name())
    case Some(v) => [(f.Name(), v)]
    case None => []
  }

  function Written(input: Input, fs: seq<Field>): seq<(string, Value)> {
    if fs == [] then [] else Entry(input, fs[0]) + Written(input, fs[1..])
  }

  /** The `updateFields` record as an ordered list of entries. */
  function UpdateFields(input: Input, now: string): seq<(string, Value)> {
    [("updatedAt", JString(now))] + Written(input, Whitelist)
  }

  function Names(fs: seq<Field>): (r: seq<string>)
    ensures |r| == |fs|
    ensures forall i :: 0 <= i < |fs| ==> r[i] == fs[i].Name()
  {
    if fs == [] then [] else [fs[0].Name()] + Names(fs[1..])
  }

  function Keys<V>(entries: seq<(string, V)>): (r: seq<string>)
    ensures |r| == |entries|
    ensures forall i :: 0 <= i < |entries| ==> r[i] == entries[i].0
  {
    if entries == [] then [] else [entries[0].0] + Keys(entries[1..])
  }

  datatype Request = Request(
    key: string,
    updateExpression: string,
    names: seq<(string, string)>,
    values: seq<(string, Value)>)

  /** `#k = :k` for each key. */
  function SetParts(keys: seq<string>): (r: seq<string>)
    ensures |r| == |keys|
    ensures forall i :: 0 <= i < |keys| ==> r[i] == "#" + keys[i] + " = :" + keys[i]
  {
    if keys == [] then [] else ["#" + keys[0] + " = :" + keys[0]] + SetParts(keys[1..])
  }

  /** `[#k, k]` for each key. */
  function NameEntries(keys: seq<string>): (r: seq<(string, string)>)
    ensures |r| == |keys|
    ensures forall i :: 0 <= i < |keys| ==> r[i] == ("#" + keys[i], keys[i])
  {
    if keys == [] then [] else [("#" + keys[0], keys[0])] + NameEntries(keys[1..])
  }

  /** `[:k, v]` for each entry. */
  function ValueEntries(fields: seq<(string, Value)>): (r: seq<(string, Value)>)
    ensures |r| == |fields|
    ensures forall i :: 0 <= i < |fields| ==> r[i] == (":" + fields[i].0, fields[i].1)
  {
    if fields == [] then [] else [(":" + fields[0].0, fields[0].1)] + ValueEntries(fields[1..])
  }

  function BuildRequest(userId: string, fields: seq<(string, Value)>): Request {
    Request(userId, "SET " + Join(SetParts(Keys(fields)), ", "), NameEntries(Keys(fields)), ValueEntries(fields))
  }

  /** The keys of the input whose value is defined, in input order. */
  function DefinedKeys(input: Input): seq<string> {
    Filter(input.keys, (k: string) => k in input.values)
  }

  function Message(input: Input): string {
    "User details updated: " + Join(DefinedKeys(input), ", ") + "."
  }

  // ---------------------------------------------------------------- the tool

  /** `if (input.<name> !== undefined) updateFields.<name> = input.<name>`. */
  method SetIfDefined(fields: seq<(string, Value)>, input: Input, f: Field) returns (r: seq<(string, Value)>)
    ensures r == fields + Entry(input, f)
  {
    r := fields;
    var v := Lookup(input, f.Name());
    if v.Some? {
      r := r + [(f.Name(), v.value)];
    }
  }

  /** `execute`: the request it sends and the message it returns. */
  method Execute(userId: string, input: Input, now: string) returns (request: Request, message: string)
    ensures request == BuildRequest(userId, UpdateFields(input, now))
    ensures message == Message(input)
  {
    var fields := CollectFields(input, now);
    request := BuildRequest(userId, fields);
    message := Message(input);
  }

  /** The `updateFields` object of `execute`: `updatedAt`, then one check
      per whitelisted field. */
  method CollectFields(input: Input, now: string) returns (fields: seq<(string, Value)>)
    ensures fields == UpdateFields(input, now)
  {
    fields := [("updatedAt", JString(now))];
    ghost var start := fields;
    fields := SetIfDefined(fields, input, FirstName);
    fields := SetIfDefined(fields, input, LastName);
    fields := SetIfDefined(fields, input, Phone);
    fields := SetIfDefined(fields, input, BuyerStatus);
    fields := SetIfDefined(fields, input, PreApproved);
    fields := SetIfDefined(fields, input, PreApprovalAmount);
    fields := SetIfDefined(fields, input, PreferredContactMethod);
    fields := SetIfDefined(fields, input, FirstTimeHomeBuyer);
    fields := SetIfDefined(fields, input, CurrentCity);
    fields := SetIfDefined(fields, input, CurrentState);
    fields := SetIfDefined(fields, input, DesiredCity);
    fields := SetIfDefined(fields, input, DesiredState);
    fields := SetIfDefined(fields, input, ListingViewingPreference);
    BuildFromIsAppend(start, input, Whitelist);
    WhitelistUnrolled(start, input);
  }

  /** The checks run left to right, each appending to what is built so far. */
  function BuildFrom(acc: seq<(string, Value)>, input: Input, fs: seq<Field>): seq<(string, Value)>
    decreases |fs|
  {
    if fs == [] then acc else BuildFrom(acc + Entry(input, fs[0]), input, fs[1..])
  }

  lemma {:induction false} BuildFromIsAppend(acc: seq<(string, Value)>, input: Input, fs: seq<Field>)
    ensures BuildFrom(acc, input, fs) == acc + Written(input, fs)
    decreases |fs|
  {
    if fs == [] {
      assert acc + [] == acc;
    } else {
      var e := Entry(input, fs[0]);
      Unfold(acc, input, fs);
      BuildFromIsAppend(acc + e, input, fs[1..]);
      AppendAssoc(acc, e, Written(input, fs[1..]));
    }
  }

  /** One step of both definitions. */
  lemma Unfold(acc: seq<(string, Value)>, input: Input, fs: seq<Field>)
    requires fs != []
    ensures BuildFrom(acc, input, fs) == BuildFrom(acc + Entry(input, fs[0]), input, fs[1..])
    ensures Written(input, fs) == Entry(input, fs[0]) + Written(input, fs[1..])
  {
  }

  /** One more check of the chain. */
  lemma Advance(input: Input, acc: seq<(string, Value)>, fs: seq<Field>, k: nat)
    requires k < |fs|
    ensures BuildFrom(acc, input, fs[k..]) == BuildFrom(acc + Entry(input, fs[k]), input, fs[k + 1..])
  {
    assert fs[k..][1..] == fs[k + 1..];
  }

  /** The whitelist checks, written out one field at a time. */
  lemma WhitelistUnrolled(acc: seq<(string, Value)>, input: Input)
    ensures BuildFrom(acc, input, Whitelist) ==
      acc + Entry(input, FirstName) + Entry(input, LastName) + Entry(input, Phone)
      + Entry(input, BuyerStatus) + Entry(input, PreApproved) + Entry(input, PreApprovalAmount)
      + Entry(input, PreferredContactMethod) + Entry(input, FirstTimeHomeBuyer)
      + Entry(input, CurrentCity) + Entry(input, CurrentState) + Entry(input, DesiredCity)
      + Entry(input, DesiredState) + Entry(input, ListingViewingPreference)
  {
    var b := acc;
    assert Whitelist[0..] == Whitelist;
    Advance(input, b, Whitelist, 0);
    b := b + Entry(input, FirstName);
    Advance(input, b, Whitelist, 1);
    b := b + Entry(input, LastName);
    Advance(input, b, Whitelist, 2);
    b := b + Entry(input, Phone);
    Advance(input, b, Whitelist, 3);
    b := b + Entry(input, BuyerStatus);
    Advance(input, b, Whitelist, 4);
    b := b + Entry(input, PreApproved);
    Advance(input, b, Whitelist, 5);
    b := b + Entry(input, PreApprovalAmount);
    Advance(input, b, Whitelist, 6);
    b := b + Entry(input, PreferredContactMethod);
    Advance(input, b, Whitelist, 7);
    b := b + Entry(input, FirstTimeHomeBuyer);
    Advance(input, b, Whitelist, 8);
    b := b + Entry(input, CurrentCity);
    Advance(input, b, Whitelist, 9);
    b := b + Entry(input, CurrentState);
    Advance(input, b, Whitelist, 10);
    b := b + Entry(input, DesiredCity);
    Advance(input, b, Whitelist, 11);
    b := b + Entry(input, DesiredState);
    Advance(input, b, Whitelist, 12);
    b := b + Entry(input, ListingViewingPreference);
    assert Whitelist[13..] == [];
  }

  // ---------------------------------------------------------------- properties

  lemma {:induction false} WrittenKeys(input: Input, fs: seq<Field>)
    ensures Keys(Written(input, fs)) == Names(Filter(fs, (f: Field) => Defined(input, f)))
  {
    if fs != [] {
      WrittenKeys(input, fs[1..]);
      KeysAppend(Entry(input, fs[0]), Written(input, fs[1..]));
      var p := (f: Field) => Defined(input, f);
      NamesAppend(if p(fs[0]) then [fs[0]] else [], Filter(fs[1..], p));
    }
  }

  lemma {:induction false} KeysAppend<V>(a: seq<(string, V)>, b: seq<(string, V)>)
    ensures Keys(a + b) == Keys(a) + Keys(b)
  {
    if a == [] {
      assert a + b == b;
    } else {
      assert (a + b)[1..] == a[1..] + b;
      KeysAppend(a[1..], b);
    }
  }

  lemma {:induction false} NamesAppend(a: seq<Field>, b: seq<Field>)
    ensures Names(a + b) == Names(a) + Names(b)
  {
    if a == [] {
      assert a + b == b;
    } else {
      assert (a + b)[1..] == a[1..] + b;
      NamesAppend(a[1..], b);
    }
  }

  /** The fields written are `updatedAt` first, then exactly the whitelisted
      fields whose input is not `undefined`, in whitelist order. */
  lemma FieldOrder(input: Input, now: string)
    ensures Keys(UpdateFields(input, now)) == ["updatedAt"] + Names(Filter(Whitelist, (f: Field) => Defined(input, f)))
  {
    WrittenKeys(input, Whitelist);
    KeysAppend([("updatedAt", JString(now))], Written(input, Whitelist));
  }

  lemma {:induction false} WrittenValues(input: Input, fs: seq<Field>)
    ensures forall i :: 0 <= i < |Written(input, fs)| ==>
      Lookup(input, Written(input, fs)[i].0) == Some(Written(input, fs)[i].1)
  {
    if fs != [] {
      WrittenValues(input, fs[1..]);
      var name := fs[0].Name();
      var e := Entry(input, fs[0]);
      var rest := Written(input, fs[1..]);
      var w := Written(input, fs);
      assert w == e + rest;
      assert e == [] || (name in input.values && e == [(name, input.values[name])]);
      forall i | 0 <= i < |w|
        ensures Lookup(input, w[i].0) == Some(w[i].1)
      {
        if i >= |e| {
          assert w[i] == rest[i - |e|];
        }
      }
    }
  }

  lemma EveryFieldListed(f: Field)
    ensures f in Whitelist
  {
  }

  /** A name is among the written keys exactly when a listed field has that
      name and the input defines it. */
  lemma {:induction false} WrittenHasName(input: Input, fs: seq<Field>, name: string)
    ensures name in Keys(Written(input, fs)) <==>
      (exists i :: 0 <= i < |fs| && fs[i].Name() == name) && Lookup(input, name).Some?
  {
    if fs != [] {
      WrittenHasName(input, fs[1..], name);
      KeysAppend(Entry(input, fs[0]), Written(input, fs[1..]));
      if exists i :: 0 <= i < |fs| && fs[i].Name() == name {
        var i :| 0 <= i < |fs| && fs[i].Name() == name;
        if i > 0 {
          assert fs[1..][i - 1] == fs[i];
        }
      }
      if exists i :: 0 <= i < |fs[1..]| && fs[1..][i].Name() == name {
        var i :| 0 <= i < |fs[1..]| && fs[1..][i].Name() == name;
        assert fs[i + 1] == fs[1..][i];
      }
    }
  }

  /** `updatedAt` comes first and is set to now, and each whitelisted field
      is written exactly when its input is defined. */
  lemma WrittenExactlyWhenDefined(input: Input, now: string, f: Field)
    ensures var u := UpdateFields(input, now);
      && u[0] == ("updatedAt", JString(now))
      && (f.Name() in Keys(u) <==> Defined(input, f))
  {
    KeysAppend([("updatedAt", JString(now))], Written(input, Whitelist));
    WrittenHasName(input, Whitelist, f.Name());
    EveryFieldListed(f);
    var i :| 0 <= i < |Whitelist| && Whitelist[i] == f;
  }

  /** Every written field after `updatedAt` carries the input's own value. */
  lemma WrittenCarriesInput(input: Input, now: string)
    ensures var u := UpdateFields(input, now);
      forall i :: 1 <= i < |u| ==> Lookup(input, u[i].0) == Some(u[i].1)
  {
    var u := UpdateFields(input, now);
    WrittenValues(input, Whitelist);
    assert forall i :: 1 <= i < |u| ==> u[i] == Written(input, Whitelist)[i - 1];
  }

  /** Nothing but `updatedAt` and whitelisted fields is ever written; in
      particular the e-mail address never is. */
  lemma OnlyWhitelistWritten(input: Input, now: string)
    ensures forall i :: 0 <= i < |UpdateFields(input, now)| ==>
      UpdateFields(input, now)[i].0 == "updatedAt" || exists f: Field :: UpdateFields(input, now)[i].0 == f.Name()
    ensures "email" !in Keys(UpdateFields(input, now))
  {
    var u := UpdateFields(input, now);
    var w := Written(input, Whitelist);
    KeysAppend([("updatedAt", JString(now))], w);
    forall i | 0 <= i < |u|
      ensures u[i].0 == "updatedAt" || exists f: Field :: u[i].0 == f.Name()
    {
      if i > 0 {
        assert u[i] == w[i - 1];
        assert Keys(w)[i - 1] == w[i - 1].0;
        WrittenHasName(input, Whitelist, u[i].0);
      }
    }
    WrittenHasName(input, Whitelist, "email");
  }

  /** The SET clause has one `#k = :k` per written field, and the name map and
      the value map carry the same keys in the same order. */
  lemma RequestShape(userId: string, input: Input, now: string)
    ensures var u := UpdateFields(input, now);
      var r := BuildRequest(userId, u);
      && r.key == userId
      && r.updateExpression == "SET " + Join(SetParts(Keys(u)), ", ")
      && |r.names| == |r.values| == |u|
      && (forall i :: 0 <= i < |u| ==>
            r.names[i] == ("#" + u[i].0, u[i].0) && r.values[i] == (":" + u[i].0, u[i].1)
            && SetParts(Keys(u))[i] == r.names[i].0 + " = " + r.values[i].0)
  {
  }

  /** The message lists the input's keys that hold a value, in input order,
      and nothing else; it names `updatedAt` only if the input itself carries
      such a key. */
  lemma MessageListsDefinedKeys(input: Input)
    ensures var listed := DefinedKeys(input);
      && Message(input) == "User details updated: " + Join(listed, ", ") + "."
      && IsSubsequence(listed, input.keys)
      && (forall k :: k in listed <==> k in input.keys && k in input.values)
      && ("updatedAt" !in input.keys ==> "updatedAt" !in listed)
  {
    FilterIsSubsequence(input.keys, (k: string) => k in input.values);
  }

  lemma {:induction false} WrittenNone(input: Input, fs: seq<Field>)
    requires forall i :: 0 <= i < |fs| ==> !Defined(input, fs[i])
    ensures Written(input, fs) == []
  {
    if fs != [] {
      WrittenNone(input, fs[1..]);
    }
  }

  /** The message is built from the input keys, not from the whitelist: a
      defined key outside it is reported as updated although it is not
      written. */
  lemma MessageMayNameUnwrittenKey(now: string)
    ensures var input := Input(["email"], map["email" := JString("a@b.c")]);
      && Message(input) == "User details updated: " + "email" + "."
      && UpdateFields(input, now) == [("updatedAt", JString(now))]
  {
    var input := Input(["email"], map["email" := JString("a@b.c")]);
    assert Message(input) == "User details updated: " + "email" + "." by {
      assert input.keys[1..] == [];
      assert DefinedKeys(input) == ["email"];
    }
    assert UpdateFields(input, now) == [("updatedAt", JString(now))] by {
      WrittenNone(input, Whitelist);
    }
  }
}
