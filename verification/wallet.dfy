/** The wallet store: the connection fields and a local table of user
    profiles keyed, case-insensitively, by wallet address. The clock
    (`Date.now()`) is a parameter `now`. */
module Wallet {
  import opened Wrappers
  import opened Text

  datatype Profile = Profile(
    id: string,
    address: string,
    username: string,
    profilePicture: Option<string>,
    ensName: Option<string>,
    joinedAt: int,
    lastLoginAt: int,
    isConnected: bool)

  /** The fields `updateProfile` may change; `None` leaves a field as it is.
      The id and the address cannot be updated. */
  datatype ProfileUpdate = ProfileUpdate(
    username: Option<string>,
    profilePicture: Option<string>,
    ensName: Option<string>,
    joinedAt: Option<int>,
    lastLoginAt: Option<int>,
    isConnected: Option<bool>)

  const NoChange := ProfileUpdate(None, None, None, None, None, None)

  datatype WalletState = WalletState(
    isConnected: bool,
    address: Option<string>,
    chainId: Option<int>,
    currentProfile: Option<Profile>,
    profiles: seq<Profile>)

  const Initial := WalletState(false, None, None, None, [])

  /** Addresses are compared after lower-casing both sides. */
  predicate SameAddress(a: string, b: string)
  {
    Lower(a) == Lower(b)
  }

  /** `generateProfileId`: `profile_<lower-cased address>_<now>`. */
  function ProfileId(address: string, now: nat): (r: string)
    ensures IdFor(r, Lower(address))
  {
    "profile_" + Lower(address) + "_" + NatToDecimal(now)
  }

  /** `id` has the shape `profile_<address>_<digits>`. */
  ghost predicate IdFor(id: string, address: string)
  {
    var prefix := "profile_" + address + "_";
    |prefix| < |id| && id[..|prefix|] == prefix
    && forall k :: |prefix| <= k < |id| ==> IsDigit(id[k])
  }

  /** An id of that shape names one address only: the underscore after the
      address is the last one, as the time stamp is all digits. So profiles
      of different addresses never share an id. */
  lemma IdNamesOneAddress(id: string, a: string, b: string)
    requires IdFor(id, a) && IdFor(id, b)
    ensures a == b
  {
    var pa, pb := 8 + |a|, 8 + |b|;
    assert id[..pa + 1] == "profile_" + a + "_";
    assert id[..pb + 1] == "profile_" + b + "_";
    assert id[pa] == '_' && id[pb] == '_';
    assert !IsDigit('_');
    assert pa == pb;
    assert a == id[8..pa];
    assert b == id[8..pb];
  }

  /** `generateDefaultUsername`: `Focuser_` and characters 2 to 7 of the
      address, that is the six hex digits after `0x`. */
  function DefaultUsername(address: string): (r: string)
    ensures 8 <= |r| <= 14 && r[..8] == "Focuser_"
    ensures |address| >= 8 ==> r == "Focuser_" + address[2..8]
    ensures |address| <= 2 ==> r == "Focuser_"
  {
    "Focuser_" + Slice(address, 2, 8)
  }

  lemma DefaultUsernameExample()
    ensures DefaultUsername("0xAbCdEf0123") == "Focuser_AbCdEf"
    ensures DefaultUsername("0x") == "Focuser_"
  {
    assert "0xAbCdEf0123"[2..8] == "AbCdEf";
  }

  /** `createProfile`'s new profile: lower-cased address, the ENS name as
      username unless it is absent or empty, then the default username;
      joined and logged in now, connected. */
  function Created(address: string, ensName: Option<string>, now: nat): (r: Profile)
    ensures r.address == Lower(address) && SameAddress(r.address, address)
    ensures IdFor(r.id, r.address)
    ensures r.isConnected && r.joinedAt == now && r.lastLoginAt == now
    ensures r.ensName == ensName && r.profilePicture.None?
    ensures ensName.Some? && ensName.value != "" ==> r.username == ensName.value
    ensures ensName.GetOr("") == "" ==> r.username == DefaultUsername(address)
    ensures r.username != ""
  {
    LowerIdempotent(address);
    Profile(ProfileId(address, now), Lower(address),
            if ensName.GetOr("") == "" then DefaultUsername(address) else ensName.value,
            None, ensName, now, now, true)
  }

  /** `profiles.find` by address: the index of the first profile whose
      address matches, or none. */
  function FindByAddress(ps: seq<Profile>, address: string): (r: Option<nat>)
    ensures r.Some? ==>
      && r.value < |ps| && SameAddress(ps[r.value].address, address)
      && forall i :: 0 <= i < r.value ==> !SameAddress(ps[i].address, address)
    ensures r.None? <==> forall i :: 0 <= i < |ps| ==> !SameAddress(ps[i].address, address)
  {
    if |ps| == 0 then None
    else if SameAddress(ps[0].address, address) then Some(0)
    else
      match FindByAddress(ps[1..], address)
      case None => None
      case Some(k) => Some(k + 1)
  }

  /** `getProfileByAddress`. */
  function ProfileByAddress(ps: seq<Profile>, address: string): (r: Option<Profile>)
    ensures r.Some? ==> r.value in ps && SameAddress(r.value.address, address)
    ensures r.None? <==> forall p :: p in ps ==> !SameAddress(p.address, address)
    ensures r.Some? ==>
      exists k :: 0 <= k < |ps| && ps[k] == r.value && forall i :: 0 <= i < k ==> !SameAddress(ps[i].address, address)
  {
    match FindByAddress(ps, address)
    case None => None
    case Some(k) => Some(ps[k])
  }

  /** `profiles.map(p => same address ? profile : p)`. */
  function ReplaceMatching(ps: seq<Profile>, address: string, p: Profile): (r: seq<Profile>)
    ensures |r| == |ps|
    ensures forall i :: 0 <= i < |ps| ==> r[i] == if SameAddress(ps[i].address, address) then p else ps[i]
  {
    seq(|ps|, i requires 0 <= i < |ps| => if SameAddress(ps[i].address, address) then p else ps[i])
  }

  /** `profiles.map(p => p.id === id ? profile : p)`. */
  function ReplaceId(ps: seq<Profile>, id: string, p: Profile): (r: seq<Profile>)
    ensures |r| == |ps|
    ensures forall i :: 0 <= i < |ps| ==> r[i] == if ps[i].id == id then p else ps[i]
  {
    seq(|ps|, i requires 0 <= i < |ps| => if ps[i].id == id then p else ps[i])
  }

  /** `profiles.map(p => p.id === id ? { ...p, isConnected: false } : p)`. */
  function MarkDisconnected(ps: seq<Profile>, id: string): (r: seq<Profile>)
    ensures |r| == |ps|
    ensures forall i :: 0 <= i < |ps| ==> r[i] == if ps[i].id == id then ps[i].(isConnected := false) else ps[i]
  {
    seq(|ps|, i requires 0 <= i < |ps| => if ps[i].id == id then ps[i].(isConnected := false) else ps[i])
  }

  /** The table the store keeps: at most one profile per address, addresses
      stored lower-cased, ids of the generated shape and distinct, and the
      current profile (if any) one of the table's entries. */
  ghost predicate Valid(w: WalletState)
  {
    && UniqueAddresses(w.profiles)
    && UniqueIds(w.profiles)
    && (forall i :: 0 <= i < |w.profiles| ==> Lower(w.profiles[i].address) == w.profiles[i].address)
    && (forall i :: 0 <= i < |w.profiles| ==> IdFor(w.profiles[i].id, w.profiles[i].address))
    && (w.currentProfile.Some? ==> w.currentProfile.value in w.profiles)
  }

  ghost predicate UniqueAddresses(ps: seq<Profile>)
  {
    forall i, j :: 0 <= i < j < |ps| ==> !SameAddress(ps[i].address, ps[j].address)
  }

  ghost predicate UniqueIds(ps: seq<Profile>)
  {
    forall i, j :: 0 <= i < j < |ps| ==> ps[i].id != ps[j].id
  }

  /** Entry by entry, the same ids and addresses. */
  ghost predicate SameKeys(ps: seq<Profile>, qs: seq<Profile>)
  {
    |ps| == |qs| && forall i :: 0 <= i < |ps| ==> ps[i].id == qs[i].id && ps[i].address == qs[i].address
  }

  lemma SameKeysKeepTable(w: WalletState, profiles: seq<Profile>, current: Option<Profile>)
    requires Valid(w) && SameKeys(w.profiles, profiles)
    requires current.Some? ==> current.value in profiles
    ensures Valid(w.(profiles := profiles, currentProfile := current))
  {
  }

  lemma InitialIsValid()
    ensures Valid(Initial)
  {
  }

  /** `setConnection`: a known address (compared case-insensitively) has
      every matching entry replaced by the first match with a new login
      time and the connected flag; an unknown address gets a new profile
      appended. Either way the store is connected to the lower-cased
      address on `chainId` with that profile as the current one. */
  function Connected(w: WalletState, address: string, chainId: int, now: nat): (r: WalletState)
    ensures r.isConnected && r.address == Some(Lower(address)) && r.chainId == Some(chainId)
    ensures r.currentProfile.Some? && r.currentProfile.value in r.profiles
    ensures SameAddress(r.currentProfile.value.address, address)
    ensures r.currentProfile.value.isConnected && r.currentProfile.value.lastLoginAt == now
    ensures FindByAddress(w.profiles, address).None? ==>
      && r.profiles == w.profiles + [Created(address, None, now)]
      && r.currentProfile == Some(Created(address, None, now))
    ensures FindByAddress(w.profiles, address).Some? ==>
      && |r.profiles| == |w.profiles|
      && r.currentProfile == Some(w.profiles[FindByAddress(w.profiles, address).value].(lastLoginAt := now, isConnected := true))
      && forall i :: 0 <= i < |w.profiles| ==>
           r.profiles[i] == if SameAddress(w.profiles[i].address, address) then r.currentProfile.value else w.profiles[i]
  {
    match FindByAddress(w.profiles, address)
    case None =>
      var p := Created(address, None, now);
      WalletState(true, Some(Lower(address)), Some(chainId), Some(p), w.profiles + [p])
    case Some(k) =>
      var p := w.profiles[k].(lastLoginAt := now, isConnected := true);
      var profiles := ReplaceMatching(w.profiles, address, p);
      assert profiles[k] == p;
      WalletState(true, Some(Lower(address)), Some(chainId), Some(p), profiles)
  }

  /** `setConnection` keeps the table valid: an address is never entered
      twice and a new profile's id is fresh. */
  lemma ConnectKeepsTableValid(w: WalletState, address: string, chainId: int, now: nat)
    requires Valid(w)
    ensures Valid(Connected(w, address, chainId, now))
  {
    if FindByAddress(w.profiles, address).None? {
      ConnectNewKeepsTable(w, address, chainId, now);
    } else {
      ConnectKnownKeepsTable(w, address, chainId, now);
    }
  }

  lemma ConnectNewKeepsTable(w: WalletState, address: string, chainId: int, now: nat)
    requires Valid(w) && FindByAddress(w.profiles, address).None?
    ensures Valid(Connected(w, address, chainId, now))
  {
    var p := Created(address, None, now);
    LowerIdempotent(address);
    forall i | 0 <= i < |w.profiles|
      ensures w.profiles[i].id != p.id && !SameAddress(w.profiles[i].address, p.address)
    {
      var q := w.profiles[i];
      if q.id == p.id {
        IdNamesOneAddress(p.id, q.address, p.address);
      }
    }
    AppendKeepsTable(w, p, Connected(w, address, chainId, now));
  }

  /** A profile with a fresh id and a new lower-cased address can be
      appended and made current. */
  lemma AppendKeepsTable(w: WalletState, p: Profile, r: WalletState)
    requires Valid(w)
    requires forall i :: 0 <= i < |w.profiles| ==> w.profiles[i].id != p.id && !SameAddress(w.profiles[i].address, p.address)
    requires Lower(p.address) == p.address && IdFor(p.id, p.address)
    requires r.profiles == w.profiles + [p] && r.currentProfile == Some(p)
    ensures Valid(r)
  {
  }

  lemma ConnectKnownKeepsTable(w: WalletState, address: string, chainId: int, now: nat)
    requires Valid(w) && FindByAddress(w.profiles, address).Some?
    ensures Valid(Connected(w, address, chainId, now))
  {
    var r := Connected(w, address, chainId, now);
    var k := FindByAddress(w.profiles, address).value;
    forall i | 0 <= i < |w.profiles|
      ensures r.profiles[i].id == w.profiles[i].id && r.profiles[i].address == w.profiles[i].address
    {
      if SameAddress(w.profiles[i].address, address) {
        assert SameAddress(w.profiles[i].address, w.profiles[k].address);
        assert i == k;
      }
    }
    assert SameKeys(w.profiles, r.profiles);
    SameKeysKeepTable(w, r.profiles, r.currentProfile);
  }

  /** Connecting a second time with the same address, even after other
      actions, finds the profile made the first time: the table does not
      grow. */
  lemma ReconnectFindsProfile(w: WalletState, address: string, chainId: int, now: nat, later: nat)
    requires Valid(w)
    ensures
      var first := Connected(w, address, chainId, now);
      var second := Connected(Disconnected(first), address, chainId, later);
      && |second.profiles| == |first.profiles|
      && second.currentProfile.value.id == first.currentProfile.value.id
  {
    var first := Connected(w, address, chainId, now);
    ConnectKeepsTableValid(w, address, chainId, now);
    var off := Disconnected(first);
    var k :| 0 <= k < |first.profiles| && first.profiles[k] == first.currentProfile.value;
    assert SameAddress(off.profiles[k].address, address);
    var j := FindByAddress(off.profiles, address).value;
    assert SameAddress(off.profiles[j].address, off.profiles[k].address);
    assert j == k;
  }

  /** `disconnect`: the current profile's entry (by id) is marked
      disconnected and every connection field cleared. */
  function Disconnected(w: WalletState): (r: WalletState)
    ensures !r.isConnected && r.address.None? && r.chainId.None? && r.currentProfile.None?
    ensures |r.profiles| == |w.profiles|
    ensures forall i :: 0 <= i < |w.profiles| ==>
      if w.currentProfile.Some? && w.profiles[i].id == w.currentProfile.value.id
      then r.profiles[i] == w.profiles[i].(isConnected := false)
      else r.profiles[i] == w.profiles[i]
  {
    var profiles := if w.currentProfile.Some? then MarkDisconnected(w.profiles, w.currentProfile.value.id) else w.profiles;
    WalletState(false, None, None, None, profiles)
  }

  lemma DisconnectKeepsTableValid(w: WalletState)
    requires Valid(w)
    ensures Valid(Disconnected(w))
  {
    SameKeysKeepTable(w, Disconnected(w).profiles, None);
  }

  /** `{ ...profile, ...updates }`. */
  function Merge(p: Profile, u: ProfileUpdate): (r: Profile)
    ensures r.id == p.id && r.address == p.address
    ensures u.username.Some? ==> r.username == u.username.value
    ensures u.username.None? ==> r.username == p.username
    ensures u.profilePicture.Some? ==> r.profilePicture == u.profilePicture
    ensures u.profilePicture.None? ==> r.profilePicture == p.profilePicture
    ensures u.ensName.Some? ==> r.ensName == u.ensName
    ensures u.ensName.None? ==> r.ensName == p.ensName
    ensures u.joinedAt.Some? ==> r.joinedAt == u.joinedAt.value
    ensures u.joinedAt.None? ==> r.joinedAt == p.joinedAt
    ensures u.lastLoginAt.Some? ==> r.lastLoginAt == u.lastLoginAt.value
    ensures u.lastLoginAt.None? ==> r.lastLoginAt == p.lastLoginAt
    ensures u.isConnected.Some? ==> r.isConnected == u.isConnected.value
    ensures u.isConnected.None? ==> r.isConnected == p.isConnected
  {
    Profile(p.id, p.address,
            u.username.GetOr(p.username),
            if u.profilePicture.Some? then u.profilePicture else p.profilePicture,
            if u.ensName.Some? then u.ensName else p.ensName,
            u.joinedAt.GetOr(p.joinedAt),
            u.lastLoginAt.GetOr(p.lastLoginAt),
            u.isConnected.GetOr(p.isConnected))
  }

  /** An empty update changes nothing, and applying an update twice is
      applying it once. */
  lemma MergeLaws(p: Profile, u: ProfileUpdate)
    ensures Merge(p, NoChange) == p
    ensures Merge(Merge(p, u), u) == Merge(p, u)
  {
  }

  /** `updateProfile`: nothing without a current profile; otherwise the
      merged profile becomes current and replaces the entries with its id. */
  function Updated(w: WalletState, u: ProfileUpdate): (r: WalletState)
    ensures w.currentProfile.None? ==> r == w
    ensures w.currentProfile.Some? ==>
      && r.currentProfile == Some(Merge(w.currentProfile.value, u))
      && r.isConnected == w.isConnected && r.address == w.address && r.chainId == w.chainId
      && |r.profiles| == |w.profiles|
      && forall i :: 0 <= i < |w.profiles| ==>
           r.profiles[i] == if w.profiles[i].id == w.currentProfile.value.id then r.currentProfile.value else w.profiles[i]
  {
    match w.currentProfile
    case None => w
    case Some(current) =>
      var merged := Merge(current, u);
      w.(currentProfile := Some(merged), profiles := ReplaceId(w.profiles, merged.id, merged))
  }

  lemma UpdateKeepsTableValid(w: WalletState, u: ProfileUpdate)
    requires Valid(w)
    ensures Valid(Updated(w, u))
  {
    if w.currentProfile.Some? {
      var r := Updated(w, u);
      var current := w.currentProfile.value;
      var k :| 0 <= k < |w.profiles| && w.profiles[k] == current;
      var merged := Merge(current, u);
      assert r.profiles == ReplaceId(w.profiles, current.id, merged);
      ReplaceOwnEntry(w.profiles, k, merged);
      SameKeysKeepTable(w, r.profiles, r.currentProfile);
    }
  }

  /** With distinct ids, replacing by id a profile with one of the same id
      and address keeps the table's keys and puts the new profile in. */
  lemma ReplaceOwnEntry(ps: seq<Profile>, k: nat, p: Profile)
    requires UniqueIds(ps) && k < |ps|
    requires p.id == ps[k].id && p.address == ps[k].address
    ensures SameKeys(ps, ReplaceId(ps, p.id, p))
    ensures p in ReplaceId(ps, p.id, p)
  {
    var r := ReplaceId(ps, p.id, p);
    forall i | 0 <= i < |ps|
      ensures r[i].id == ps[i].id && r[i].address == ps[i].address
    {
      if ps[i].id == p.id {
        assert i == k;
      }
    }
    assert r[k] == p;
  }

  /** Marking entries disconnected keeps ids and addresses. */
  lemma MarkKeepsKeys(ps: seq<Profile>, id: string)
    ensures SameKeys(ps, MarkDisconnected(ps, id))
    ensures UniqueIds(ps) ==> UniqueIds(MarkDisconnected(ps, id))
  {
  }

  /** `switchProfile`: an unknown address changes nothing. Otherwise the
      previous current profile's entry is marked disconnected, the found
      profile is marked connected with a new login time, becomes current
      and the store's address is the lower-cased one; the connected flag
      and the chain are left as they were. */
  function Switched(w: WalletState, address: string, now: nat): (r: WalletState)
    ensures FindByAddress(w.profiles, address).None? ==> r == w
    ensures FindByAddress(w.profiles, address).Some? ==>
      var target := w.profiles[FindByAddress(w.profiles, address).value];
      && r.isConnected == w.isConnected && r.chainId == w.chainId
      && r.address == Some(Lower(address))
      && r.currentProfile == Some(target.(isConnected := true, lastLoginAt := now))
      && |r.profiles| == |w.profiles|
      && forall i :: 0 <= i < |w.profiles| ==>
           r.profiles[i] ==
             if w.profiles[i].id == target.id then r.currentProfile.value
             else if w.currentProfile.Some? && w.profiles[i].id == w.currentProfile.value.id
             then w.profiles[i].(isConnected := false)
             else w.profiles[i]
  {
    match FindByAddress(w.profiles, address)
    case None => w
    case Some(k) =>
      var target := w.profiles[k];
      var marked := if w.currentProfile.Some? then MarkDisconnected(w.profiles, w.currentProfile.value.id) else w.profiles;
      var updated := target.(isConnected := true, lastLoginAt := now);
      w.(currentProfile := Some(updated), address := Some(Lower(address)),
         profiles := ReplaceId(marked, target.id, updated))
  }

  lemma SwitchKeepsTableValid(w: WalletState, address: string, now: nat)
    requires Valid(w)
    ensures Valid(Switched(w, address, now))
  {
    match FindByAddress(w.profiles, address)
    case None =>
    case Some(k) =>
      var r := Switched(w, address, now);
      var target := w.profiles[k];
      var marked := if w.currentProfile.Some? then MarkDisconnected(w.profiles, w.currentProfile.value.id) else w.profiles;
      var updated := target.(isConnected := true, lastLoginAt := now);
      if w.currentProfile.Some? {
        MarkKeepsKeys(w.profiles, w.currentProfile.value.id);
      }
      assert SameKeys(w.profiles, marked) && UniqueIds(marked);
      assert r.profiles == ReplaceId(marked, target.id, updated);
      ReplaceOwnEntry(marked, k, updated);
      assert SameKeys(w.profiles, r.profiles);
      SameKeysKeepTable(w, r.profiles, r.currentProfile);
  }

  /** `createProfile` appends without looking for an existing profile, so
      on its own it can enter an address twice: after a profile for
      `0xab`, creating one for `0xAB` gives two entries with the same
      address. Only `setConnection`'s lookup keeps the table unique. */
  lemma CreateAllowsDuplicates()
    ensures
      var w := Initial.(profiles := [Created("0xab", None, 1)]);
      !UniqueAddresses(w.(profiles := w.profiles + [Created("0xAB", None, 2)]).profiles)
  {
    var ps := [Created("0xab", None, 1)] + [Created("0xAB", None, 2)];
    assert Lower("0xab") == "0xab";
    assert Lower("0xAB") == "0xab";
    assert SameAddress(ps[0].address, ps[1].address);
    assert !UniqueAddresses(ps);
  }

  class WalletStore {
    var isConnected: bool
    var address: Option<string>
    var chainId: Option<int>
    var currentProfile: Option<Profile>
    var profiles: seq<Profile>

    function State(): WalletState
      reads this
    {
      WalletState(isConnected, address, chainId, currentProfile, profiles)
    }

    constructor ()
      ensures State() == Initial
    {
      isConnected, address, chainId := false, None, None;
      currentProfile, profiles := None, [];
    }

    method SetConnection(addr: string, chain: int, now: nat)
      modifies this
      ensures State() == Connected(old(State()), addr, chain, now)
    {
      var found := FindByAddress(profiles, addr);
      var profile;
      if found.None? {
        profile := CreateProfile(addr, None, now);
      } else {
        profile := profiles[found.value].(lastLoginAt := now, isConnected := true);
        profiles := ReplaceMatching(profiles, addr, profile);
      }
      isConnected, address, chainId, currentProfile := true, Some(Lower(addr)), Some(chain), Some(profile);
    }

    method Disconnect()
      modifies this
      ensures State() == Disconnected(old(State()))
    {
      if currentProfile.Some? {
        profiles := MarkDisconnected(profiles, currentProfile.value.id);
      }
      isConnected, address, chainId, currentProfile := false, None, None, None;
    }

    method CreateProfile(addr: string, ensName: Option<string>, now: nat) returns (p: Profile)
      modifies this
      ensures p == Created(addr, ensName, now)
      ensures State() == old(State()).(profiles := old(profiles) + [p])
    {
      p := Created(addr, ensName, now);
      profiles := profiles + [p];
    }

    method UpdateProfile(u: ProfileUpdate)
      modifies this
      ensures State() == Updated(old(State()), u)
    {
      if currentProfile.None? {
        return;
      }
      var merged := Merge(currentProfile.value, u);
      currentProfile := Some(merged);
      profiles := ReplaceId(profiles, merged.id, merged);
    }

    method SwitchProfile(addr: string, now: nat)
      modifies this
      ensures State() == Switched(old(State()), addr, now)
    {
      var found := FindByAddress(profiles, addr);
      if found.None? {
        return;
      }
      var target := profiles[found.value];
      if currentProfile.Some? {
        profiles := MarkDisconnected(profiles, currentProfile.value.id);
      }
      var updated := target.(isConnected := true, lastLoginAt := now);
      currentProfile, address := Some(updated), Some(Lower(addr));
      profiles := ReplaceId(profiles, target.id, updated);
    }

    method GetProfileByAddress(addr: string) returns (r: Option<Profile>)
      ensures r.Some? ==> r.value in profiles && SameAddress(r.value.address, addr)
      ensures r.None? <==> forall p :: p in profiles ==> !SameAddress(p.address, addr)
      ensures r.Some? ==>
        exists k :: 0 <= k < |profiles| && profiles[k] == r.value && forall i :: 0 <= i < k ==> !SameAddress(profiles[i].address, addr)
    {
      r := ProfileByAddress(profiles, addr);
    }
  }
}
