/** The `upsert_search_profile` chat tool
    (chat-service/src/tools/upsert-search-profile.ts): load the user's
    profile record (or start a fresh one), replace the search profile with the
    same id in place or append a new one, put the record back, and start an
    immediate search-worker run when monitoring has just been switched on. */
module UpsertSearchProfile {
  import opened Common
  import opened Types
  import opened Db

  datatype Input = Input(
    profileId: Option<string>,
    name: string,
    criteria: SearchCriteria,
    monitoring: Option<bool>,
    emailNotifications: Option<bool>,
    isDefault: Option<bool>)

  datatype Reply = Reply(profileId: string, message: string)

  /** `findIndex` on the profile id: the first match, or -1. */
  function FindIndex(ps: seq<SearchProfile>, id: string): (i: int)
    ensures -1 <= i < |ps|
    ensures i >= 0 ==> ps[i].profileId == id && forall j :: 0 <= j < i ==> ps[j].profileId != id
    ensures i == -1 ==> forall j :: 0 <= j < |ps| ==> ps[j].profileId != id
  {
    if ps == [] then -1
    else if ps[0].profileId == id then 0
    else
      var k := FindIndex(ps[1..], id);
      if k == -1 then -1 else k + 1
  }

  /** The stored record, or the record a first-time user starts with. */
  function LoadUser(users: map<string, UserProfile>, userId: string, userEmail: Option<string>, now: string): UserProfile {
    if userId in users then users[userId]
    else UserProfile(userId, userEmail.GetOr(""), None, None, None, [], None, now, now)
  }

  /** The profile that is written, given the index of the profile it replaces. */
  function BuildProfile(user: UserProfile, profileId: string, idx: int, input: Input, now: string): SearchProfile
    requires -1 <= idx < |user.searchProfiles|
  {
    SearchProfile(
      profileId,
      input.name,
      input.isDefault.GetOr(idx == -1 && |user.searchProfiles| == 0),
      input.criteria,
      input.monitoring.GetOr(false),
      NotificationPreferences(input.emailNotifications.GetOr(true), false, false),
      if idx != -1 then user.searchProfiles[idx].createdAt else now,
      now)
  }

  /** The profile list after the replace-or-append. */
  function Placed(ps: seq<SearchProfile>, idx: int, profile: SearchProfile): seq<SearchProfile>
    requires -1 <= idx < |ps|
  {
    if idx != -1 then ps[idx := profile] else ps + [profile]
  }

  /** After the replace-or-append, looking the id up finds the written profile. */
  lemma PlacedIsFound(ps: seq<SearchProfile>, idx: int, profile: SearchProfile)
    requires idx == FindIndex(ps, profile.profileId)
    ensures FindIndex(Placed(ps, idx, profile), profile.profileId) == if idx != -1 then idx else |ps|
  {
    var qs := Placed(ps, idx, profile);
    var at := if idx != -1 then idx else |ps|;
    assert qs[at] == profile;
    forall j | 0 <= j < at
      ensures qs[j].profileId != profile.profileId
    {
      assert qs[j] == ps[j];
    }
  }

  function Action(found: bool): string {
    if found then "updated" else "created"
  }

  function MonitoringWord(on: bool): string {
    if on then "enabled" else "disabled"
  }

  /** The part of the message after the name. */
  function MessageTail(found: bool, monitoring: bool): string {
    "\" " + Action(found) + " successfully. Monitoring: " + MonitoringWord(monitoring) + "."
  }

  function Message(name: string, found: bool, monitoring: bool): string {
    "Search profile \"" + name + MessageTail(found, monitoring)
  }

  /** One run of `execute` on the tables. `freshId` is what `randomUUID`
      returns and `workerConfigured` whether the worker's function name is
      set in the environment. */
  function Run(t: Tables, userId: string, input: Input, userEmail: Option<string>, now: string,
               freshId: string, workerConfigured: bool): (r: (Tables, Reply))
    ensures userId in r.0.users
    ensures var ps := r.0.users[userId].searchProfiles;
      FindIndex(ps, r.1.profileId) != -1 && ps[FindIndex(ps, r.1.profileId)].name == input.name
    ensures t.invocations <= r.0.invocations && |r.0.invocations| <= |t.invocations| + 1
  {
    var user := LoadUser(t.users, userId, userEmail, now);
    var profileId := input.profileId.GetOr(freshId);
    var idx := FindIndex(user.searchProfiles, profileId);
    var wasMonitoring := if idx != -1 then user.searchProfiles[idx].monitoring else false;
    var profile := BuildProfile(user, profileId, idx, input, now);
    var saved := user.(searchProfiles := Placed(user.searchProfiles, idx, profile), updatedAt := now);
    PlacedIsFound(user.searchProfiles, idx, profile);
    var trigger := profile.monitoring && !wasMonitoring && workerConfigured;
    var t' := t.(users := t.users[userId := saved],
                 invocations := t.invocations + if trigger then [WorkRequest(userId, profileId)] else []);
    (t', Reply(profileId, Message(profile.name, idx != -1, profile.monitoring)))
  }

  // ---------------------------------------------------------------- properties

  /** The id written: the given one, or a fresh one. */
  lemma ProfileIdChoice(t: Tables, userId: string, input: Input, userEmail: Option<string>, now: string,
                        freshId: string, configured: bool)
    ensures var (_, reply) := Run(t, userId, input, userEmail, now, freshId, configured);
      reply.profileId == if input.profileId.Some? then input.profileId.value else freshId
  {
  }

  /** An existing profile is replaced at its index, keeping its `createdAt`;
      every other profile stays where it was and as it was. */
  lemma ReplacedInPlace(t: Tables, userId: string, input: Input, userEmail: Option<string>, now: string,
                        freshId: string, configured: bool)
    requires var user := LoadUser(t.users, userId, userEmail, now);
      FindIndex(user.searchProfiles, input.profileId.GetOr(freshId)) != -1
    ensures var user := LoadUser(t.users, userId, userEmail, now);
      var ps := user.searchProfiles;
      var i := FindIndex(ps, input.profileId.GetOr(freshId));
      var ps' := Run(t, userId, input, userEmail, now, freshId, configured).0.users[userId].searchProfiles;
      && |ps'| == |ps|
      && ps'[i].profileId == ps[i].profileId
      && ps'[i].createdAt == ps[i].createdAt
      && ps'[i].updatedAt == now
      && ps'[i].name == input.name
      && ps'[i].criteria == input.criteria
      && (forall j :: 0 <= j < |ps| && j != i ==> ps'[j] == ps[j])
  {
  }

  /** A profile id not in the list, given or fresh, is appended at the end
      with `createdAt = now`. */
  lemma AppendedWhenAbsent(t: Tables, userId: string, input: Input, userEmail: Option<string>, now: string,
                           freshId: string, configured: bool)
    requires var user := LoadUser(t.users, userId, userEmail, now);
      FindIndex(user.searchProfiles, input.profileId.GetOr(freshId)) == -1
    ensures var ps := LoadUser(t.users, userId, userEmail, now).searchProfiles;
      var ps' := Run(t, userId, input, userEmail, now, freshId, configured).0.users[userId].searchProfiles;
      && |ps'| == |ps| + 1
      && ps'[..|ps|] == ps
      && ps'[|ps|].profileId == input.profileId.GetOr(freshId)
      && ps'[|ps|].createdAt == now
  {
  }

  /** The defaults: monitoring off, e-mail on, SMS and push always off; a
      profile is the default when the input says so, or else when it is the
      first profile of an empty list. */
  lemma Defaults(user: UserProfile, profileId: string, idx: int, input: Input, now: string)
    requires -1 <= idx < |user.searchProfiles|
    ensures var p := BuildProfile(user, profileId, idx, input, now);
      && p.monitoring == (input.monitoring == Some(true))
      && p.notificationPreferences.email == (input.emailNotifications != Some(false))
      && !p.notificationPreferences.sms && !p.notificationPreferences.push
      && (input.isDefault.Some? ==> p.isDefault == input.isDefault.value)
      && (input.isDefault.None? ==> (p.isDefault <==> idx == -1 && user.searchProfiles == []))
  {
  }

  /** A first-time user gets the given address or '', no names, this one
      profile, and both timestamps set to now. */
  lemma NewUserRecord(t: Tables, userId: string, input: Input, userEmail: Option<string>, now: string,
                      freshId: string, configured: bool)
    requires userId !in t.users
    ensures var u := Run(t, userId, input, userEmail, now, freshId, configured).0.users[userId];
      && u.userId == userId
      && u.email == (if userEmail.Some? then userEmail.value else "")
      && u.firstName.None? && u.lastName.None? && u.phone.None?
      && |u.searchProfiles| == 1
      && u.searchProfiles[0].profileId == input.profileId.GetOr(freshId)
      && u.createdAt == now && u.updatedAt == now
  {
  }

  /** Only the user's own record changes, and the record is stamped `now`;
      nothing but the users table and the invocations changes. */
  lemma Frame(t: Tables, userId: string, input: Input, userEmail: Option<string>, now: string,
              freshId: string, configured: bool)
    ensures var t' := Run(t, userId, input, userEmail, now, freshId, configured).0;
      && t'.users.Keys == t.users.Keys + {userId}
      && (forall u :: u in t.users && u != userId ==> t'.users[u] == t.users[u])
      && t'.users[userId].updatedAt == now
      && t'.results == t.results && t'.notifications == t.notifications && t'.viewings == t.viewings
      && t'.documents == t.documents && t'.outbox == t.outbox
  {
  }

  /** The worker is invoked with `{userId, profileId}`, once, exactly when the
      new monitoring value is on, the old one (false for a new profile) was
      off, and the worker is configured; otherwise no invocation. */
  lemma TriggerExactlyWhenJustEnabled(t: Tables, userId: string, input: Input, userEmail: Option<string>, now: string,
                                      freshId: string, configured: bool)
    ensures var user := LoadUser(t.users, userId, userEmail, now);
      var id := input.profileId.GetOr(freshId);
      var i := FindIndex(user.searchProfiles, id);
      var was := i != -1 && user.searchProfiles[i].monitoring;
      var t' := Run(t, userId, input, userEmail, now, freshId, configured).0;
      && (input.monitoring == Some(true) && !was && configured ==>
            t'.invocations == t.invocations + [WorkRequest(userId, id)])
      && (!(input.monitoring == Some(true) && !was && configured) ==> t'.invocations == t.invocations)
  {
  }

  /** Upserting the same input twice invokes the worker at most once: the
      second run finds monitoring already on. */
  lemma SecondUpsertDoesNotTrigger(t: Tables, userId: string, input: Input, userEmail: Option<string>, now: string,
                                   freshId: string, configured: bool)
    requires input.profileId.Some?
    ensures var t1 := Run(t, userId, input, userEmail, now, freshId, configured).0;
      Run(t1, userId, input, userEmail, now, freshId, configured).0.invocations == t1.invocations
  {
    var user := LoadUser(t.users, userId, userEmail, now);
    var id := input.profileId.value;
    var idx := FindIndex(user.searchProfiles, id);
    var profile := BuildProfile(user, id, idx, input, now);
    var ps := Placed(user.searchProfiles, idx, profile);
    var t1 := Run(t, userId, input, userEmail, now, freshId, configured).0;
    assert t1.users[userId].searchProfiles == ps;
    var j := if idx != -1 then idx else |user.searchProfiles|;
    assert ps[j] == profile;
    var k := FindIndex(ps, id);
    assert k != -1 && k <= j;
    if idx != -1 {
      assert k == idx;
    } else {
      assert forall m :: 0 <= m < |user.searchProfiles| ==> ps[m] == user.searchProfiles[m];
      assert k == j;
    }
  }

  /** The message can be read back from its end: it says `updated` exactly
      when the profile already existed and reports the monitoring state. */
  lemma MessageReportsActionAndMonitoring(name: string, found: bool, monitoring: bool, f: bool, m: bool)
    ensures var msg := Message(name, found, monitoring);
      var tail := MessageTail(f, m);
      (|msg| >= |tail| && msg[|msg| - |tail|..] == tail) <==> (f == found && m == monitoring)
  {
    var msg := Message(name, found, monitoring);
    var own := MessageTail(found, monitoring);
    var tail := MessageTail(f, m);
    assert msg[|msg| - |own|..] == own;
    if m == monitoring {
      assert |tail| == |own|;
      if f != found {
        assert tail[3] != own[3];
      }
    } else if |tail| < |own| {
      assert |own| == |tail| + 1;
      assert msg[|msg| - |tail|..] == own[1..];
      assert own[1..][0] == ' ' && tail[0] == '"';
    } else {
      assert |tail| == |own| + 1;
      assert msg[|msg| - |tail|..][1..] == own;
      assert tail[1] == ' ' && own[0] == '"';
    }
  }

  // ---------------------------------------------------------------- the tool

  /** `execute`. The search profiles of the loaded record are changed in
      place (`searchProfiles[idx] = profile` or `push`), the record is put
      back whole, and the worker invocation is appended when it fires. */
  method Execute(store: Store, userId: string, input: Input, userEmail: Option<string>, now: string,
                 freshId: string, workerConfigured: bool) returns (reply: Reply)
    modifies store
    ensures (store.State(), reply) == Run(old(store.State()), userId, input, userEmail, now, freshId, workerConfigured)
  {
    var user := LoadUser(store.users, userId, userEmail, now);
    var profileId := if input.profileId.Some? then input.profileId.value else freshId;
    var idx := FindIndex(user.searchProfiles, profileId);
    var wasMonitoring := false;
    if idx != -1 {
      wasMonitoring := user.searchProfiles[idx].monitoring;
    }
    var profile := BuildProfile(user, profileId, idx, input, now);
    var profiles := user.searchProfiles;
    if idx != -1 {
      profiles := profiles[idx := profile];
    } else {
      profiles := profiles + [profile];
    }
    user := user.(searchProfiles := profiles);
    user := user.(updatedAt := now);
    store.users := store.users[userId := user];
    if profile.monitoring && !wasMonitoring && workerConfigured {
      store.invocations := store.invocations + [WorkRequest(userId, profileId)];
    } else {
      assert store.invocations + [] == store.invocations;
    }
    reply := Reply(profileId, Message(profile.name, idx != -1, profile.monitoring));
  }
}
