/**
 * Audio content and who may play it. Access comes from a live ACTIVE
 * subscription or from a redeemed access key that has not expired; the plan
 * behind it decides which plan-tagged content opens. Preview content is open
 * to everyone. Administrators mint one-time access keys.
 */
module Audio {
  import opened Common
  import opened Store
  import Subscriptions

  /* ---------------------------------------------------------------------- */
  /* Entitlement                                                            */
  /* ---------------------------------------------------------------------- */

  /** An ACTIVE subscription of the user that expires after now. */
  predicate LiveSubscription(subs: map<Id, Subscription>, id: Id, userId: Id, now: Time)
  {
    && id in subs && subs[id].userId == userId && subs[id].status == SubscriptionStatus.ACTIVE
    && subs[id].expiresAt.Some? && subs[id].expiresAt.value > now
  }

  /** A key the user redeemed that expires after now. */
  predicate LiveKey(keys: map<string, AccessKey>, code: string, userId: Id, now: Time)
  {
    && code in keys && keys[code].redeemedByUserId == Some(userId)
    && keys[code].expiresAt.Some? && keys[code].expiresAt.value > now
  }

  /** What the two lookups found: the flags, the plan (`subscription?.planId || accessKey?.planId`) and the expiry. */
  datatype Entitlement = Entitlement(hasSubscription: bool, hasAccessKey: bool, planId: Option<string>, expiresAt: Option<Time>)

  predicate HasAccess(e: Entitlement)
  {
    e.hasSubscription || e.hasAccessKey
  }

  /** `e` is what the lookups can answer for the user at time now; the subscription's plan wins over the key's. */
  ghost predicate Describes(subs: map<Id, Subscription>, keys: map<string, AccessKey>, userId: Id, now: Time, e: Entitlement)
  {
    && (e.hasSubscription <==> exists id :: LiveSubscription(subs, id, userId, now))
    && (e.hasAccessKey <==> exists c :: LiveKey(keys, c, userId, now))
    && (e.hasSubscription ==>
          exists id :: LiveSubscription(subs, id, userId, now)
            && e.planId == Some(Subscriptions.PlanName(subs[id].planId)) && e.expiresAt == subs[id].expiresAt)
    && (!e.hasSubscription && e.hasAccessKey ==>
          exists c :: LiveKey(keys, c, userId, now) && e.planId == OrNull(keys[c].planId) && e.expiresAt == keys[c].expiresAt)
    && (!e.hasSubscription && !e.hasAccessKey ==> e.planId.None? && e.expiresAt.None?)
  }

  /** The two `findFirst` lookups shared by the library and the stream endpoints. */
  method Entitle(db: Db, userId: Id, now: Time) returns (e: Entitlement)
    ensures Describes(db.subscriptions, db.accessKeys, userId, now, e)
  {
    var subs := db.subscriptions;
    var keys := db.accessKeys;
    var sub: Option<Id> := None;
    var key: Option<string> := None;
    if exists id :: id in subs && subs[id].userId == userId && subs[id].status == SubscriptionStatus.ACTIVE
                    && subs[id].expiresAt.Some? && subs[id].expiresAt.value > now {
      var id :| id in subs && subs[id].userId == userId && subs[id].status == SubscriptionStatus.ACTIVE
                && subs[id].expiresAt.Some? && subs[id].expiresAt.value > now;
      assert LiveSubscription(subs, id, userId, now);
      sub := Some(id);
    }
    if exists c :: c in keys && keys[c].redeemedByUserId == Some(userId)
                   && keys[c].expiresAt.Some? && keys[c].expiresAt.value > now {
      var c :| c in keys && keys[c].redeemedByUserId == Some(userId)
               && keys[c].expiresAt.Some? && keys[c].expiresAt.value > now;
      assert LiveKey(keys, c, userId, now);
      key := Some(c);
    }
    if sub.Some? {
      e := Entitlement(true, key.Some?, Some(Subscriptions.PlanName(subs[sub.value].planId)), subs[sub.value].expiresAt);
    } else if key.Some? {
      e := Entitlement(false, true, OrNull(keys[key.value].planId), keys[key.value].expiresAt);
    } else {
      e := Entitlement(false, false, None, None);
    }
  }

  /* ---------------------------------------------------------------------- */
  /* The library rule and the stream rule                                   */
  /* ---------------------------------------------------------------------- */

  /** The content carries a (truthy) plan tag. */
  predicate RequiresPlan(a: AudioContent)
  {
    a.requiredPlan.Some? && a.requiredPlan.value != ""
  }

  /** The library's `canAccess`. */
  predicate LibraryAccess(a: AudioContent, hasAccess: bool, planId: Option<string>)
  {
    a.isPreview
    || (hasAccess
        && (!RequiresPlan(a)
            || planId == a.requiredPlan
            || planId == Some("ANNUAL")
            || (planId == Some("QUARTERLY") && a.requiredPlan != Some("ANNUAL"))))
  }

  /** The stream endpoint's `hasRequiredPlan` for a tagged item. */
  predicate StreamPlanOk(requiredPlan: string, planId: Option<string>)
  {
    planId == Some(requiredPlan) || planId == Some("ANNUAL")
    || (planId == Some("QUARTERLY") && requiredPlan == "MONTHLY")
  }

  /** A higher plan opens everything a lower plan opens, in the library and in the stream. */
  lemma EntitlementMonotoneInPlan(a: AudioContent, hasAccess: bool, p: Plan, q: Plan)
    requires Subscriptions.Rank(p) <= Subscriptions.Rank(q)
    ensures LibraryAccess(a, hasAccess, Some(Subscriptions.PlanName(p)))
            ==> LibraryAccess(a, hasAccess, Some(Subscriptions.PlanName(q)))
    ensures RequiresPlan(a) && StreamPlanOk(a.requiredPlan.value, Some(Subscriptions.PlanName(p)))
            ==> StreamPlanOk(a.requiredPlan.value, Some(Subscriptions.PlanName(q)))
  {
  }

  /** For content tagged with one of the three plans, the two rules agree. */
  lemma StreamAgreesWithLibraryOnPlanTags(a: AudioContent, planId: Option<string>)
    requires !a.isPreview && RequiresPlan(a)
    requires Subscriptions.ParsePlan(a.requiredPlan.value).Some?
    requires planId.None? || Subscriptions.ParsePlan(planId.value).Some?
    ensures StreamPlanOk(a.requiredPlan.value, planId) <==> LibraryAccess(a, true, planId)
  {
  }

  /** For any other tag, a QUARTERLY holder sees the item as open in the library but cannot stream it. */
  lemma QuarterlyDisagreesOnOtherTags(a: AudioContent)
    requires !a.isPreview && RequiresPlan(a)
    requires Subscriptions.ParsePlan(a.requiredPlan.value).None?
    ensures LibraryAccess(a, true, Some("QUARTERLY"))
    ensures !StreamPlanOk(a.requiredPlan.value, Some("QUARTERLY"))
  {
    assert Subscriptions.PlanName(Plan.ANNUAL) == "ANNUAL";
    assert Subscriptions.PlanName(Plan.MONTHLY) == "MONTHLY";
    assert Subscriptions.PlanName(Plan.QUARTERLY) == "QUARTERLY";
  }

  /* ---------------------------------------------------------------------- */
  /* Library and stream endpoints                                           */
  /* ---------------------------------------------------------------------- */

  /** One library row: the file URL is shown only when the item can be played. */
  datatype LibraryEntry = LibraryEntry(audioId: Id, canAccess: bool, fileUrl: Option<string>)

  function Entry(audioId: Id, a: AudioContent, hasAccess: bool, planId: Option<string>): (x: LibraryEntry)
    ensures x.audioId == audioId
    ensures x.canAccess == LibraryAccess(a, hasAccess, planId)
    ensures x.fileUrl.None? <==> !x.canAccess
    ensures x.fileUrl.Some? ==> x.fileUrl.value == a.fileUrl
  {
    var canAccess := LibraryAccess(a, hasAccess, planId);
    LibraryEntry(audioId, canAccess, if canAccess then Some(a.fileUrl) else None)
  }

  datatype Library = Library(hasSubscription: bool, hasAccessKey: bool, planId: Option<string>,
                             expiresAt: Option<Time>, entries: seq<LibraryEntry>)

  function SortOrderOf(audio: map<Id, AudioContent>): Id -> int
  {
    (id: Id) => if id in audio then audio[id].sortOrder else 0
  }

  /** The library rows for a listing of audio ids, in the listing's order. */
  function Entries(ids: seq<Id>, audio: map<Id, AudioContent>, hasAccess: bool, planId: Option<string>): (es: seq<LibraryEntry>)
    requires forall id :: id in ids ==> id in audio
    ensures |es| == |ids|
    ensures forall k :: 0 <= k < |ids| ==> es[k] == Entry(ids[k], audio[ids[k]], hasAccess, planId)
  {
    seq(|ids|, k requires 0 <= k < |ids| => Entry(ids[k], audio[ids[k]], hasAccess, planId))
  }

  /** A listing sorted by sortOrder gives library rows in ascending sortOrder. */
  lemma EntriesInSortOrder(ids: seq<Id>, audio: map<Id, AudioContent>, hasAccess: bool, planId: Option<string>)
    requires forall id :: id in ids ==> id in audio
    requires SortedBy(ids, ByKey(SortOrderOf(audio)))
    ensures var es := Entries(ids, audio, hasAccess, planId);
      forall i, j :: 0 <= i < j < |es| ==> audio[es[i].audioId].sortOrder <= audio[es[j].audioId].sortOrder
  {
    var es := Entries(ids, audio, hasAccess, planId);
    forall i, j | 0 <= i < j < |es|
      ensures audio[es[i].audioId].sortOrder <= audio[es[j].audioId].sortOrder
    {
      assert ByKey(SortOrderOf(audio))(ids[i], ids[j]);
    }
  }

  /** Every listed id has its library row. */
  lemma EntriesCoverListing(ids: seq<Id>, audio: map<Id, AudioContent>, hasAccess: bool, planId: Option<string>)
    requires forall id :: id in ids ==> id in audio
    ensures var es := Entries(ids, audio, hasAccess, planId);
      forall id :: id in ids <==> exists k :: 0 <= k < |es| && es[k].audioId == id
  {
    var es := Entries(ids, audio, hasAccess, planId);
    forall id | id in ids
      ensures exists k :: 0 <= k < |es| && es[k].audioId == id
    {
      var k :| 0 <= k < |ids| && ids[k] == id;
      assert es[k].audioId == id;
    }
  }

  /** The library rows of getMyAudioLibrary: one row per audio item, in ascending sortOrder. */
  method LibraryEntries(audio: map<Id, AudioContent>, hasAccess: bool, planId: Option<string>)
    returns (entries: seq<LibraryEntry>)
    ensures |entries| == |audio|
    ensures forall id :: id in audio <==> exists k :: 0 <= k < |entries| && entries[k].audioId == id
    ensures forall k :: 0 <= k < |entries| ==>
      var id := entries[k].audioId;
      id in audio && entries[k] == Entry(id, audio[id], hasAccess, planId)
    ensures forall i, j :: 0 <= i < j < |entries| ==>
      audio[entries[i].audioId].sortOrder <= audio[entries[j].audioId].sortOrder
  {
    var ids := EnumerateSorted(audio.Keys, SortOrderOf(audio));
    entries := Entries(ids, audio, hasAccess, planId);
    EntriesInSortOrder(ids, audio, hasAccess, planId);
    EntriesCoverListing(ids, audio, hasAccess, planId);
    assert |audio.Keys| == |audio|;
  }

  /** getMyAudioLibrary: the entitlement, and one row per audio item in ascending sortOrder. */
  method GetMyAudioLibrary(db: Db, userId: Id, now: Time) returns (lib: Library)
    ensures Describes(db.subscriptions, db.accessKeys, userId, now,
                      Entitlement(lib.hasSubscription, lib.hasAccessKey, lib.planId, lib.expiresAt))
    ensures |lib.entries| == |db.audio|
    ensures forall id :: id in db.audio <==> exists k :: 0 <= k < |lib.entries| && lib.entries[k].audioId == id
    ensures forall k :: 0 <= k < |lib.entries| ==>
      var id := lib.entries[k].audioId;
      id in db.audio && lib.entries[k] == Entry(id, db.audio[id], lib.hasSubscription || lib.hasAccessKey, lib.planId)
    ensures forall i, j :: 0 <= i < j < |lib.entries| ==>
      db.audio[lib.entries[i].audioId].sortOrder <= db.audio[lib.entries[j].audioId].sortOrder
  {
    var e := Entitle(db, userId, now);
    var entries := LibraryEntries(db.audio, HasAccess(e), e.planId);
    lib := Library(e.hasSubscription, e.hasAccessKey, e.planId, e.expiresAt, entries);
  }

  /**
   * streamAudio: the stream URL, or the first failing check in the order
   * unknown id, preview, authentication, access, plan.
   */
  method StreamAudio(db: Db, audioId: Id, userId: Option<Id>, now: Time) returns (r: Response<string>)
    ensures audioId !in db.audio ==> r == Fail(404, "AUDIO_NOT_FOUND")
    ensures audioId in db.audio && db.audio[audioId].isPreview ==> r == Ok(db.audio[audioId].fileUrl)
    ensures audioId in db.audio && !db.audio[audioId].isPreview && userId.None? ==> r == Fail(401, "AUTH_REQUIRED")
    ensures audioId in db.audio && !db.audio[audioId].isPreview && userId.Some?
            && !(exists id :: LiveSubscription(db.subscriptions, id, userId.value, now))
            && !(exists c :: LiveKey(db.accessKeys, c, userId.value, now)) ==>
      r == Fail(403, "SUBSCRIPTION_REQUIRED")
    ensures audioId in db.audio && !db.audio[audioId].isPreview && userId.Some?
            && ((exists id :: LiveSubscription(db.subscriptions, id, userId.value, now))
                || (exists c :: LiveKey(db.accessKeys, c, userId.value, now))) ==>
      var a := db.audio[audioId];
      exists e :: Describes(db.subscriptions, db.accessKeys, userId.value, now, e)
        && (RequiresPlan(a) && !StreamPlanOk(a.requiredPlan.value, e.planId) ==> r == Fail(403, "PLAN_UPGRADE_REQUIRED"))
        && (!(RequiresPlan(a) && !StreamPlanOk(a.requiredPlan.value, e.planId)) ==> r == Ok(a.fileUrl))
    ensures r.Ok? ==> audioId in db.audio && r.value == db.audio[audioId].fileUrl
  {
    if audioId !in db.audio {
      return Fail(404, "AUDIO_NOT_FOUND");
    }
    var a := db.audio[audioId];
    if a.isPreview {
      return Ok(a.fileUrl);
    }
    if userId.None? {
      return Fail(401, "AUTH_REQUIRED");
    }
    var e := Entitle(db, userId.value, now);
    if !HasAccess(e) {
      return Fail(403, "SUBSCRIPTION_REQUIRED");
    }
    if RequiresPlan(a) && !StreamPlanOk(a.requiredPlan.value, e.planId) {
      return Fail(403, "PLAN_UPGRADE_REQUIRED");
    }
    r := Ok(a.fileUrl);
  }

  /* ---------------------------------------------------------------------- */
  /* Access keys                                                            */
  /* ---------------------------------------------------------------------- */

  /** The key after redemption by the user at time now. */
  function Redeemed(k: AccessKey, userId: Id, now: Time): AccessKey
  {
    k.(isRedeemed := true, redeemedAt := Some(now), redeemedByUserId := Some(userId),
       expiresAt := Some(AddMonths(now, k.durationMonths)))
  }

  /** A redeemed key with a positive duration gives its redeemer access at once, and is spent. */
  lemma RedeemingGrantsAccess(keys: map<string, AccessKey>, code: string, userId: Id, now: Time)
    requires code in keys && keys[code].durationMonths > 0
    ensures LiveKey(keys[code := Redeemed(keys[code], userId, now)], code, userId, now)
    ensures keys[code := Redeemed(keys[code], userId, now)][code].isRedeemed
  {
  }

  method RedeemAccessKey(db: Db, userId: Id, keyCode: string, now: Time) returns (r: Response<AccessKey>)
    modifies db`accessKeys
    ensures keyCode == "" ==> r == Fail(400, "KEY_REQUIRED") && db.accessKeys == old(db.accessKeys)
    ensures keyCode != "" && Trim(Upper(keyCode)) !in old(db.accessKeys) ==>
      r == Fail(404, "KEY_NOT_FOUND") && db.accessKeys == old(db.accessKeys)
    ensures keyCode != "" && Trim(Upper(keyCode)) in old(db.accessKeys) && old(db.accessKeys)[Trim(Upper(keyCode))].isRedeemed ==>
      r == Fail(400, "KEY_ALREADY_REDEEMED") && db.accessKeys == old(db.accessKeys)
    ensures keyCode != "" && Trim(Upper(keyCode)) in old(db.accessKeys) && !old(db.accessKeys)[Trim(Upper(keyCode))].isRedeemed ==>
      var code := Trim(Upper(keyCode));
      && r == Ok(Redeemed(old(db.accessKeys)[code], userId, now))
      && db.accessKeys == old(db.accessKeys)[code := Redeemed(old(db.accessKeys)[code], userId, now)]
  {
    if keyCode == "" {
      return Fail(400, "KEY_REQUIRED");
    }
    var code := Trim(Upper(keyCode));
    if code !in db.accessKeys {
      return Fail(404, "KEY_NOT_FOUND");
    }
    var key := db.accessKeys[code];
    if key.isRedeemed {
      return Fail(400, "KEY_ALREADY_REDEEMED");
    }
    var redeemed := Redeemed(key, userId, now);
    db.accessKeys := db.accessKeys[code := redeemed];
    r := Ok(redeemed);
  }

  /** `Math.min(count, 100)` iterations, count defaulting to 1; none when count is not positive. */
  function KeyCount(count: Option<int>): (n: nat)
    ensures n <= 100
    ensures count.None? ==> n == 1
    ensures count.Some? && count.value <= 0 ==> n == 0
    ensures count.Some? && 0 < count.value <= 100 ==> n == count.value
    ensures count.Some? && count.value > 100 ==> n == 100
  {
    var c := if count.Some? then count.value else 1;
    if c <= 0 then 0 else if c < 100 then c else 100
  }

  /** `VM-XXXXX-XXXXX` from two random parts. */
  function KeyCode(part: (string, string)): (code: string)
    ensures |code| >= 3 && code[..3] == "VM-"
  {
    "VM-" + part.0 + "-" + part.1
  }

  function Codes(parts: seq<(string, string)>): (codes: seq<string>)
    ensures |codes| == |parts|
    ensures forall k :: 0 <= k < |parts| ==> codes[k] == KeyCode(parts[k])
  {
    seq(|parts|, k requires 0 <= k < |parts| => KeyCode(parts[k]))
  }

  /** A fresh, unredeemed key. */
  function NewKey(planId: string, durationMonths: int): AccessKey
  {
    AccessKey(planId, durationMonths, false, None, None, None)
  }

  /** The rows created for a list of codes. */
  function KeysFor(codes: seq<string>, planId: string, durationMonths: int): (m: map<string, AccessKey>)
    ensures forall c :: c in m <==> c in codes
  {
    if codes == [] then map[]
    else
      var init := codes[..|codes| - 1];
      assert codes == init + [codes[|codes| - 1]];
      KeysFor(init, planId, durationMonths)[codes[|codes| - 1] := NewKey(planId, durationMonths)]
  }

  /** Distinct codes, none of them taken. */
  ghost predicate FreshCodes(codes: seq<string>, keys: map<string, AccessKey>)
  {
    Distinct(codes) && forall c :: c in codes ==> c !in keys
  }

  /** One more code that is not taken keeps the codes fresh. */
  lemma AddFreshCode(keys: seq<string>, code: string, before: map<string, AccessKey>)
    requires FreshCodes(keys, before)
    requires code !in before && code !in keys
    ensures FreshCodes(keys + [code], before)
  {
    var a := keys + [code];
    forall i, j | 0 <= i < j < |a|
      ensures a[i] != a[j]
    {
      if j < |keys| {
        assert a[i] == keys[i] && a[j] == keys[j];
      } else {
        assert a[i] in keys;
      }
    }
  }

  /** The rows for one more code are the earlier rows with that code's row added. */
  lemma AddKeyRow(keys: seq<string>, code: string, before: map<string, AccessKey>, planId: string, durationMonths: int)
    ensures before + KeysFor(keys + [code], planId, durationMonths)
            == (before + KeysFor(keys, planId, durationMonths))[code := NewKey(planId, durationMonths)]
  {
    var a := keys + [code];
    assert a[..|a| - 1] == keys;
  }

  /**
   * The creates of generateAccessKeys, one code at a time. A code that is
   * already taken makes its create fail, and the keys made before it stay.
   */
  method CreateKeys(db: Db, codes: seq<string>, planId: string, durationMonths: int)
    returns (ok: bool, ghost made: nat)
    modifies db`accessKeys
    ensures ok ==> FreshCodes(codes, old(db.accessKeys))
                   && db.accessKeys == old(db.accessKeys) + KeysFor(codes, planId, durationMonths)
    ensures !ok ==> && made < |codes|
                    && FreshCodes(codes[..made], old(db.accessKeys))
                    && db.accessKeys == old(db.accessKeys) + KeysFor(codes[..made], planId, durationMonths)
                    && codes[made] in db.accessKeys
  {
    var n := 0;
    ghost var before := db.accessKeys;
    while n < |codes|
      invariant 0 <= n <= |codes|
      invariant FreshCodes(codes[..n], before)
      invariant db.accessKeys == before + KeysFor(codes[..n], planId, durationMonths)
    {
      var code := codes[n];
      if code in db.accessKeys {
        return false, n;
      }
      assert code !in codes[..n];
      AddFreshCode(codes[..n], code, before);
      AddKeyRow(codes[..n], code, before, planId, durationMonths);
      db.accessKeys := db.accessKeys[code := NewKey(planId, durationMonths)];
      assert codes[..n + 1] == codes[..n] + [code];
      n := n + 1;
    }
    assert codes[..n] == codes;
    return true, n;
  }

  /**
   * generateAccessKeys; `parts` supplies the random parts of the codes. A
   * code that is already taken makes the create fail with a 500, and the
   * keys made before it stay.
   */
  method GenerateAccessKeys(db: Db, planId: string, durationMonths: int, count: Option<int>,
                            parts: seq<(string, string)>) returns (r: Response<seq<string>>, ghost made: nat)
    requires |parts| >= KeyCount(count)
    modifies db`accessKeys
    ensures planId == "" || durationMonths == 0 ==>
      r == Fail(400, "MISSING_FIELDS") && db.accessKeys == old(db.accessKeys)
    ensures r.Ok? ==>
      && planId != "" && durationMonths != 0
      && r.value == Codes(parts[..KeyCount(count)])
      && FreshCodes(r.value, old(db.accessKeys))
      && db.accessKeys == old(db.accessKeys) + KeysFor(r.value, planId, durationMonths)
    ensures planId != "" && durationMonths != 0 && r.Fail? ==>
      && r == Fail(500, "GENERATE_KEYS_FAILED")
      && made < KeyCount(count)
      && var codes := Codes(parts[..KeyCount(count)]);
      && FreshCodes(codes[..made], old(db.accessKeys))
      && db.accessKeys == old(db.accessKeys) + KeysFor(codes[..made], planId, durationMonths)
      && codes[made] in db.accessKeys
  {
    made := 0;
    if planId == "" || durationMonths == 0 {
      return Fail(400, "MISSING_FIELDS"), made;
    }
    var codes := Codes(parts[..KeyCount(count)]);
    var ok;
    ok, made := CreateKeys(db, codes, planId, durationMonths);
    if !ok {
      return Fail(500, "GENERATE_KEYS_FAILED"), made;
    }
    r := Ok(codes);
  }
}
