/**
 * A user's profile and addresses. Every address belongs to one profile and
 * has a type (shipping or billing); marking an address as default first
 * clears the other defaults of the same profile and type, so each profile has
 * at most one default address per type.
 */
module Profiles {
  import opened Common
  import opened Store

  /* ---------------------------------------------------------------------- */
  /* Default-address invariant                                              */
  /* ---------------------------------------------------------------------- */

  /** At most one default address per (profile, type). */
  ghost predicate OneDefaultPerType(addresses: map<Id, Address>)
  {
    forall i, j ::
      (&& i in addresses && j in addresses
       && addresses[i].isDefault && addresses[j].isDefault
       && addresses[i].profileId == addresses[j].profileId
       && addresses[i].addressType == addresses[j].addressType) ==> i == j
  }

  /** The `updateMany` that clears the defaults of a profile and type, sparing `except`. */
  function ClearDefaults(addresses: map<Id, Address>, profileId: Id, t: AddressType, except: Option<Id>): (r: map<Id, Address>)
    ensures r.Keys == addresses.Keys
  {
    map id | id in addresses ::
      if addresses[id].profileId == profileId && addresses[id].addressType == t && Some(id) != except
      then addresses[id].(isDefault := false) else addresses[id]
  }

  /** Only the defaults of that profile and type are cleared; nothing else changes. */
  lemma ClearDefaultsEffect(addresses: map<Id, Address>, profileId: Id, t: AddressType, except: Option<Id>)
    ensures var r := ClearDefaults(addresses, profileId, t, except);
      forall id :: id in addresses ==>
        && r[id].(isDefault := addresses[id].isDefault) == addresses[id]
        && (r[id].isDefault <==>
              addresses[id].isDefault
              && (addresses[id].profileId != profileId || addresses[id].addressType != t || Some(id) == except))
  {
  }

  /** The validated address body (type required, country defaulting to Chile, isDefault to false). */
  datatype AddressInput = AddressInput(
    addressType: AddressType, street: string, city: string, region: string,
    postalCode: string, country: string, isDefault: bool)

  function FromInput(profileId: Id, input: AddressInput, createdAt: Time): Address
  {
    Address(profileId, input.addressType, input.street, input.city, input.region,
            input.postalCode, input.country, input.isDefault, createdAt)
  }

  /** The addresses after createAddress. */
  function Created(addresses: map<Id, Address>, profileId: Id, input: AddressInput, newId: Id, now: Time): map<Id, Address>
  {
    var cleared := if input.isDefault then ClearDefaults(addresses, profileId, input.addressType, None) else addresses;
    cleared[newId := FromInput(profileId, input, now)]
  }

  /** The addresses after updateAddress of an existing address. */
  function Edited(addresses: map<Id, Address>, profileId: Id, id: Id, input: AddressInput): map<Id, Address>
    requires id in addresses
  {
    var cleared := if input.isDefault then ClearDefaults(addresses, profileId, input.addressType, Some(id)) else addresses;
    cleared[id := FromInput(profileId, input, addresses[id].createdAt)]
  }

  /** Creating an address keeps at most one default per (profile, type). */
  lemma CreateKeepsOneDefault(addresses: map<Id, Address>, profileId: Id, input: AddressInput, newId: Id, now: Time)
    requires OneDefaultPerType(addresses) && newId !in addresses
    ensures OneDefaultPerType(Created(addresses, profileId, input, newId, now))
  {
    var r := Created(addresses, profileId, input, newId, now);
    ClearDefaultsEffect(addresses, profileId, input.addressType, None);
    forall i, j | i in r && j in r && r[i].isDefault && r[j].isDefault
        && r[i].profileId == r[j].profileId && r[i].addressType == r[j].addressType
      ensures i == j
    {
      if i != newId && j != newId {
        assert addresses[i].isDefault && addresses[j].isDefault;
      }
    }
  }

  /** Updating an owned address keeps at most one default per (profile, type). */
  lemma UpdateKeepsOneDefault(addresses: map<Id, Address>, profileId: Id, id: Id, input: AddressInput)
    requires OneDefaultPerType(addresses) && id in addresses && addresses[id].profileId == profileId
    ensures OneDefaultPerType(Edited(addresses, profileId, id, input))
  {
    var r := Edited(addresses, profileId, id, input);
    ClearDefaultsEffect(addresses, profileId, input.addressType, Some(id));
    forall i, j | i in r && j in r && r[i].isDefault && r[j].isDefault
        && r[i].profileId == r[j].profileId && r[i].addressType == r[j].addressType
      ensures i == j
    {
      if i != id && j != id {
        assert addresses[i].isDefault && addresses[j].isDefault;
      }
    }
  }

  /** A default address that was just created is the only default of its profile and type. */
  lemma CreatedDefaultIsTheDefault(addresses: map<Id, Address>, profileId: Id, input: AddressInput, newId: Id, now: Time)
    requires input.isDefault
    ensures var r := Created(addresses, profileId, input, newId, now);
      && newId in r && r[newId].isDefault
      && forall id :: (id in r && r[id].isDefault && r[id].profileId == profileId
                       && r[id].addressType == input.addressType) ==> id == newId
  {
    ClearDefaultsEffect(addresses, profileId, input.addressType, None);
  }

  /** A default address that was just updated is the only default of its profile and type. */
  lemma EditedDefaultIsTheDefault(addresses: map<Id, Address>, profileId: Id, id: Id, input: AddressInput)
    requires id in addresses && input.isDefault
    ensures var r := Edited(addresses, profileId, id, input);
      && r[id].isDefault
      && forall other :: (other in r && r[other].isDefault && r[other].profileId == profileId
                          && r[other].addressType == input.addressType) ==> other == id
  {
    ClearDefaultsEffect(addresses, profileId, input.addressType, Some(id));
  }

  /* ---------------------------------------------------------------------- */
  /* Handlers                                                               */
  /* ---------------------------------------------------------------------- */

  /** The user owns the address through their profile. */
  predicate OwnsAddress(profiles: map<Id, Profile>, addresses: map<Id, Address>, userId: Id, addressId: Id)
  {
    userId in profiles && addressId in addresses && addresses[addressId].profileId == profiles[userId].id
  }

  /** getProfile: the user and the profile, telling a missing user from a missing profile. */
  method GetProfile(db: Db, userId: Id) returns (r: Response<(User, Profile)>)
    ensures userId !in db.users ==> r == Fail(404, "USER_NOT_FOUND")
    ensures userId in db.users && userId !in db.profiles ==> r == Fail(404, "PROFILE_NOT_FOUND")
    ensures r.Ok? <==> userId in db.users && userId in db.profiles
    ensures r.Ok? ==> r.value == (db.users[userId], db.profiles[userId])
  {
    if userId !in db.users {
      return Fail(404, "USER_NOT_FOUND");
    }
    if userId !in db.profiles {
      return Fail(404, "PROFILE_NOT_FOUND");
    }
    r := Ok((db.users[userId], db.profiles[userId]));
  }

  /** The fields updateProfile may change; an absent field is left alone. */
  datatype ProfilePatch = ProfilePatch(
    firstName: Option<string>, lastName: Option<string>, phone: Option<string>,
    customerType: Option<CustomerType>, taxId: Option<string>, preferredLanguage: Option<string>)

  function Pick<T>(o: Option<T>, current: T): (r: T)
    ensures o.Some? ==> r == o.value
    ensures o.None? ==> r == current
  {
    if o.Some? then o.value else current
  }

  function PatchedProfile(p: Profile, patch: ProfilePatch): Profile
  {
    p.(firstName := Pick(patch.firstName, p.firstName), lastName := Pick(patch.lastName, p.lastName),
       phone := if patch.phone.Some? then patch.phone else p.phone,
       customerType := Pick(patch.customerType, p.customerType),
       taxId := if patch.taxId.Some? then patch.taxId else p.taxId,
       preferredLanguage := Pick(patch.preferredLanguage, p.preferredLanguage))
  }

  /** A patch leaves the profile id alone, and applying it twice is applying it once. */
  lemma PatchedProfileIdempotent(p: Profile, patch: ProfilePatch)
    ensures PatchedProfile(p, patch).id == p.id
    ensures PatchedProfile(PatchedProfile(p, patch), patch) == PatchedProfile(p, patch)
    ensures patch == ProfilePatch(None, None, None, None, None, None) ==> PatchedProfile(p, patch) == p
  {
  }

  /** updateProfile: the update of a missing profile throws, answered as 500. */
  method UpdateProfile(db: Db, userId: Id, patch: ProfilePatch) returns (r: Response<Profile>)
    modifies db`profiles
    ensures userId !in old(db.profiles) ==> r == Fail(500, "UPDATE_PROFILE_FAILED") && db.profiles == old(db.profiles)
    ensures userId in old(db.profiles) ==>
      && r == Ok(PatchedProfile(old(db.profiles)[userId], patch))
      && db.profiles == old(db.profiles)[userId := PatchedProfile(old(db.profiles)[userId], patch)]
  {
    if userId !in db.profiles {
      return Fail(500, "UPDATE_PROFILE_FAILED");
    }
    var p := PatchedProfile(db.profiles[userId], patch);
    db.profiles := db.profiles[userId := p];
    r := Ok(p);
  }

  /** createAddress; `newId` is the id the database assigns. */
  method CreateAddress(db: Db, userId: Id, input: AddressInput, newId: Id, now: Time) returns (r: Response<Id>)
    requires newId !in db.addresses
    modifies db`addresses
    ensures userId !in db.profiles ==> r == Fail(404, "PROFILE_NOT_FOUND") && db.addresses == old(db.addresses)
    ensures userId in db.profiles ==>
      && r == Ok(newId)
      && db.addresses == Created(old(db.addresses), db.profiles[userId].id, input, newId, now)
    ensures OneDefaultPerType(old(db.addresses)) ==> OneDefaultPerType(db.addresses)
  {
    if userId !in db.profiles {
      return Fail(404, "PROFILE_NOT_FOUND");
    }
    var profileId := db.profiles[userId].id;
    if input.isDefault {
      db.addresses := ClearDefaults(db.addresses, profileId, input.addressType, None);
    }
    db.addresses := db.addresses[newId := FromInput(profileId, input, now)];
    r := Ok(newId);
    if OneDefaultPerType(old(db.addresses)) {
      CreateKeepsOneDefault(old(db.addresses), profileId, input, newId, now);
    }
  }

  /** updateAddress: profile first, then ownership; a missing address and another profile's address look the same. */
  method UpdateAddress(db: Db, userId: Id, addressId: Id, input: AddressInput) returns (r: Response<Address>)
    modifies db`addresses
    ensures userId !in db.profiles ==> r == Fail(404, "PROFILE_NOT_FOUND") && db.addresses == old(db.addresses)
    ensures userId in db.profiles && !OwnsAddress(db.profiles, old(db.addresses), userId, addressId) ==>
      r == Fail(404, "ADDRESS_NOT_FOUND") && db.addresses == old(db.addresses)
    ensures OwnsAddress(db.profiles, old(db.addresses), userId, addressId) ==>
      && db.addresses == Edited(old(db.addresses), db.profiles[userId].id, addressId, input)
      && r == Ok(db.addresses[addressId])
    ensures OneDefaultPerType(old(db.addresses)) ==> OneDefaultPerType(db.addresses)
  {
    if userId !in db.profiles {
      return Fail(404, "PROFILE_NOT_FOUND");
    }
    var profileId := db.profiles[userId].id;
    if !(addressId in db.addresses && db.addresses[addressId].profileId == profileId) {
      return Fail(404, "ADDRESS_NOT_FOUND");
    }
    var createdAt := db.addresses[addressId].createdAt;
    if input.isDefault {
      db.addresses := ClearDefaults(db.addresses, profileId, input.addressType, Some(addressId));
    }
    db.addresses := db.addresses[addressId := FromInput(profileId, input, createdAt)];
    r := Ok(db.addresses[addressId]);
    if OneDefaultPerType(old(db.addresses)) {
      UpdateKeepsOneDefault(old(db.addresses), profileId, addressId, input);
    }
  }

  /** deleteAddress: the same two checks, then only the addressed row goes. */
  method DeleteAddress(db: Db, userId: Id, addressId: Id) returns (r: Response<()>)
    modifies db`addresses
    ensures userId !in db.profiles ==> r == Fail(404, "PROFILE_NOT_FOUND") && db.addresses == old(db.addresses)
    ensures userId in db.profiles && !OwnsAddress(db.profiles, old(db.addresses), userId, addressId) ==>
      r == Fail(404, "ADDRESS_NOT_FOUND") && db.addresses == old(db.addresses)
    ensures OwnsAddress(db.profiles, old(db.addresses), userId, addressId) ==>
      r == Ok(()) && db.addresses == old(db.addresses) - {addressId}
    ensures OneDefaultPerType(old(db.addresses)) ==> OneDefaultPerType(db.addresses)
  {
    if userId !in db.profiles {
      return Fail(404, "PROFILE_NOT_FOUND");
    }
    if !(addressId in db.addresses && db.addresses[addressId].profileId == db.profiles[userId].id) {
      return Fail(404, "ADDRESS_NOT_FOUND");
    }
    db.addresses := db.addresses - {addressId};
    r := Ok(());
  }

  /* ---------------------------------------------------------------------- */
  /* Address listing                                                        */
  /* ---------------------------------------------------------------------- */

  /** `orderBy: [{ isDefault: 'desc' }, { createdAt: 'desc' }]`. */
  function DefaultThenNewest(addresses: map<Id, Address>): (Id, Id) -> bool
  {
    (a: Id, b: Id) =>
      var da := a in addresses && addresses[a].isDefault;
      var db := b in addresses && addresses[b].isDefault;
      var ta := if a in addresses then addresses[a].createdAt else 0;
      var tb := if b in addresses then addresses[b].createdAt else 0;
      (da && !db) || (da == db && ta >= tb)
  }

  lemma DefaultThenNewestIsTotalPreorder(addresses: map<Id, Address>)
    ensures TotalPreorder(DefaultThenNewest(addresses))
  {
  }

  /** getAddresses: the profile's addresses, defaults first, then newest first. */
  method GetAddresses(db: Db, userId: Id) returns (r: Response<seq<Id>>)
    ensures userId !in db.profiles ==> r == Fail(404, "PROFILE_NOT_FOUND")
    ensures userId in db.profiles ==> r.Ok?
    ensures r.Ok? ==>
      var ids := r.value;
      && userId in db.profiles
      && (forall id :: id in ids <==> OwnsAddress(db.profiles, db.addresses, userId, id))
      && Distinct(ids)
      && (forall k :: 0 <= k < |ids| ==> ids[k] in db.addresses)
      && (forall i, j :: 0 <= i < j < |ids| ==>
            var a, b := db.addresses[ids[i]], db.addresses[ids[j]];
            (a.isDefault && !b.isDefault) || (a.isDefault == b.isDefault && a.createdAt >= b.createdAt))
  {
    if userId !in db.profiles {
      return Fail(404, "PROFILE_NOT_FOUND");
    }
    var addresses := db.addresses;
    var profileId := db.profiles[userId].id;
    var owned := set id | id in addresses && addresses[id].profileId == profileId;
    DefaultThenNewestIsTotalPreorder(addresses);
    var ids := EnumerateOrdered(owned, DefaultThenNewest(addresses));
    forall i, j | 0 <= i < j < |ids|
      ensures ids[i] in addresses && ids[j] in addresses
      ensures var a, b := addresses[ids[i]], addresses[ids[j]];
              (a.isDefault && !b.isDefault) || (a.isDefault == b.isDefault && a.createdAt >= b.createdAt)
    {
      assert ids[i] in owned && ids[j] in owned;
      assert DefaultThenNewest(addresses)(ids[i], ids[j]);
    }
    r := Ok(ids);
  }

  /** In the listing every address before a default one is a default too: the defaults lead. */
  lemma DefaultsLeadTheListing(ids: seq<Id>, addresses: map<Id, Address>, i: int, j: int)
    requires forall k :: 0 <= k < |ids| ==> ids[k] in addresses
    requires forall a, b :: 0 <= a < b < |ids| ==>
      var x, y := addresses[ids[a]], addresses[ids[b]];
      (x.isDefault && !y.isDefault) || (x.isDefault == y.isDefault && x.createdAt >= y.createdAt)
    requires 0 <= i < j < |ids| && addresses[ids[j]].isDefault
    ensures addresses[ids[i]].isDefault
  {
    var x, y := addresses[ids[i]], addresses[ids[j]];
    assert (x.isDefault && !y.isDefault) || (x.isDefault == y.isDefault && x.createdAt >= y.createdAt);
  }
}
