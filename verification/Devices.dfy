/** Handles and the machines that may post under them: claim, re-claim, link, revoke, check in. */
module Devices {
  import opened Options
  import opened DeltaKeys

  /** A claimed handle; `hash` mirrors an active device's secret so that an old server can authenticate. */
  datatype Claim = Claim(hash: string, claimedAt: int, uninstalledAt: Option<int>)

  /** A device row; its id is its position in the table. */
  datatype Device = Device(user: string, hash: string, name: Option<string>, addedAt: int,
                           version: Option<string>, arch: Option<string>, lastSeen: Option<int>,
                           revokedAt: Option<int>, barred: bool)

  datatype Registry = Registry(users: map<string, Claim>, devices: seq<Device>)

  const NO_USERS := Registry(map[], [])

  predicate Active(d: Device, user: string) {
    d.user == user && d.revokedAt.None?
  }

  predicate HasActive(devices: seq<Device>, user: string) {
    exists i :: 0 <= i < |devices| && Active(devices[i], user)
  }

  function LabelsOf(devices: seq<Device>, user: string): set<string> {
    set i | 0 <= i < |devices| && Active(devices[i], user) && devices[i].name.Some? :: devices[i].name.value
  }

  // ----- labels -----

  function Numbered(name: string, i: nat): string {
    name + "-" + NatText(i)
  }

  /** The label a device gets: its own if free, else the first free of label-2, label-3, and so on. */
  ghost predicate IsDeduped(taken: set<string>, name: Option<string>, r: Option<string>) {
    if name.None? || name.value == "" then r == None
    else if name.value !in taken then r == name
    else exists n: nat :: n >= 2 && r == Some(Numbered(name.value, n)) && FirstFree(taken, name.value, n)
  }

  ghost predicate FirstFree(taken: set<string>, name: string, n: nat) {
    Numbered(name, n) !in taken && forall i :: 2 <= i < n ==> Numbered(name, i) in taken
  }

  lemma NumberedDiffer(name: string, i: nat, j: nat)
    requires Numbered(name, i) == Numbered(name, j)
    ensures i == j
  {
    assert NatText(i) == Numbered(name, i)[|name| + 1..];
    assert NatText(j) == Numbered(name, j)[|name| + 1..];
    NatTextInjective(i, j);
  }

  /** The unbounded search ends: each candidate it rejects is another of the finitely many taken labels. */
  method DedupedLabel(taken: set<string>, name: Option<string>) returns (r: Option<string>)
    ensures IsDeduped(taken, name, r)
  {
    if name.None? || name.value == "" {
      return None;
    }
    if name.value !in taken {
      return name;
    }
    var i := 2;
    ghost var tried: set<string> := {};
    while true
      invariant i >= 2 && tried <= taken && |tried| == i - 2
      invariant forall x :: x in tried ==> exists j: nat :: 2 <= j < i && x == Numbered(name.value, j)
      invariant forall j: nat :: 2 <= j < i ==> Numbered(name.value, j) in taken
      decreases |taken - tried|
    {
      var candidate := Numbered(name.value, i);
      if candidate !in taken {
        assert FirstFree(taken, name.value, i);
        return Some(candidate);
      }
      forall j: nat | 2 <= j < i && Numbered(name.value, j) == candidate {
        NumberedDiffer(name.value, j, i);
      }
      assert candidate in taken - tried && taken - (tried + {candidate}) == (taken - tried) - {candidate};
      tried := tried + {candidate};
      i := i + 1;
    }
  }

  lemma DedupedIsFree(taken: set<string>, name: Option<string>, r: Option<string>)
    requires IsDeduped(taken, name, r)
    ensures r.Some? ==> r.value !in taken
  {
  }

  // ----- the operations on values -----

  /** `label` is the label chosen for the new row. */
  function WithDevice(r: Registry, user: string, hash: string, name: Option<string>, now: int): Registry {
    r.(devices := r.devices + [Device(user, hash, name, now, None, None, None, None, false)])
  }

  function Claimed(r: Registry, user: string, hash: string, name: Option<string>, now: int): Registry {
    if user in r.users then r
    else WithDevice(r.(users := r.users[user := Claim(hash, now, None)]), user, hash, name, now)
  }

  function RevokedRow(d: Device, user: string, now: int): Device {
    if Active(d, user) then d.(revokedAt := Some(now)) else d
  }

  function AllRevoked(devices: seq<Device>, user: string, now: int): seq<Device> {
    seq(|devices|, i requires 0 <= i < |devices| => RevokedRow(devices[i], user, now))
  }

  function Reclaimed(r: Registry, user: string, hash: string, name: Option<string>, now: int): Registry {
    var users := if user in r.users then r.users[user := Claim(hash, now, None)] else r.users;
    WithDevice(Registry(users, AllRevoked(r.devices, user, now)), user, hash, name, now)
  }

  /** The user's active device that was added first. */
  function OldestActive(devices: seq<Device>, user: string): (r: Option<nat>)
    ensures r.Some? ==> r.value < |devices| && Active(devices[r.value], user)
    ensures r.None? <==> !HasActive(devices, user)
    ensures r.Some? ==> forall j :: 0 <= j < |devices| && Active(devices[j], user) ==>
              devices[r.value].addedAt <= devices[j].addedAt
              && (devices[r.value].addedAt == devices[j].addedAt ==> r.value <= j)
  {
    if devices == [] then None
    else
      var n := |devices| - 1;
      var before := OldestActive(devices[..n], user);
      if !Active(devices[n], user) then before
      else if before.Some? && devices[before.value].addedAt <= devices[n].addedAt then before
      else Some(n)
  }

  predicate Revocable(r: Registry, user: string, id: int) {
    0 <= id < |r.devices| && Active(r.devices[id], user)
  }

  /** Revoking one device: the last one uninstalls the handle, otherwise the mirror moves off it. */
  function Revoked(r: Registry, user: string, id: int, now: int, barred: bool): Registry {
    if !Revocable(r, user, id) then r
    else
      var d := r.devices[id];
      var devices := r.devices[id := d.(revokedAt := Some(now), barred := d.barred || barred)];
      var heir := OldestActive(devices, user);
      if heir.None? then Registry(if user in r.users then r.users[user := r.users[user].(uninstalledAt := Some(now))]
                                  else r.users, devices)
      else if user in r.users && r.users[user].hash == d.hash then
        Registry(r.users[user := r.users[user].(hash := devices[heir.value].hash)], devices)
      else Registry(r.users, devices)
  }

  function AdminUninstalled(r: Registry, user: string, now: int): Registry {
    if user !in r.users then r
    else Registry(r.users[user := r.users[user].(uninstalledAt := Some(now))], AllRevoked(r.devices, user, now))
  }

  /** The device a presented secret belongs to. */
  function Authenticated(devices: seq<Device>, user: string, hash: string): (r: Option<nat>)
    ensures r.Some? ==> r.value < |devices| && Active(devices[r.value], user) && devices[r.value].hash == hash
    ensures r.None? ==> forall i :: 0 <= i < |devices| ==> !(Active(devices[i], user) && devices[i].hash == hash)
  {
    if devices == [] then None
    else
      var n := |devices| - 1;
      var before := Authenticated(devices[..n], user, hash);
      if !(Active(devices[n], user) && devices[n].hash == hash) then before
      else if before.Some? && devices[before.value].addedAt <= devices[n].addedAt then before
      else Some(n)
  }

  /** The uninstall endpoint: revokes the device whose secret is presented, if it is still active. */
  function Uninstalled(r: Registry, user: string, hash: string, now: int): Registry {
    var d := Authenticated(r.devices, user, hash);
    if d.Some? then Revoked(r, user, d.value, now, false) else r
  }

  /** A check-in stamps the row; a label is adopted only by an active device that has none. */
  function CheckedIn(r: Registry, user: string, id: nat, version: Option<string>, arch: Option<string>,
                     name: Option<string>, now: int): Registry
    requires id < |r.devices|
  {
    var d := r.devices[id].(lastSeen := Some(now),
                            version := if version.Some? then version else r.devices[id].version,
                            arch := if arch.Some? then arch else r.devices[id].arch);
    r.(devices := r.devices[id := if Active(d, user) && d.name.None? then d.(name := name) else d])
  }

  // ----- the registry as an object -----

  class DeviceStore {
    var users: map<string, Claim>
    var devices: seq<Device>

    function Now(): Registry
      reads this
    {
      Registry(users, devices)
    }

    constructor ()
      ensures Now() == NO_USERS
    {
      users, devices := map[], [];
    }

    method ActiveLabels(user: string) returns (taken: set<string>)
      ensures taken == LabelsOf(devices, user)
    {
      taken := {};
      for i := 0 to |devices|
        invariant taken == LabelsOf(devices[..i], user)
      {
        LabelsGrow(devices, i, user);
        if devices[i].user == user && devices[i].revokedAt.None? && devices[i].name.Some? {
          taken := taken + {devices[i].name.value};
        }
      }
      assert devices[..|devices|] == devices;
    }

    method InsertDevice(user: string, hash: string, name: Option<string>, now: int)
        returns (id: nat, chosen: Option<string>)
      modifies this`devices
      ensures IsDeduped(LabelsOf(old(devices), user), name, chosen) && id == |old(devices)|
      ensures Now() == WithDevice(old(Now()), user, hash, chosen, now)
    {
      var taken := ActiveLabels(user);
      chosen := DedupedLabel(taken, name);
      id := |devices|;
      devices := devices + [Device(user, hash, chosen, now, None, None, None, None, false)];
    }

    method ClaimUserSecret(user: string, hash: string, now: int, name: Option<string>)
        returns (id: Option<nat>, chosen: Option<string>)
      modifies this
      ensures id.Some? <==> user !in old(users)
      ensures id.Some? ==> IsDeduped(LabelsOf(old(devices), user), name, chosen)
      ensures Now() == Claimed(old(Now()), user, hash, chosen, now)
    {
      if user in users {
        return None, None;
      }
      users := users[user := Claim(hash, now, None)];
      var row;
      row, chosen := InsertDevice(user, hash, name, now);
      id := Some(row);
    }

    method RevokeAll(user: string, now: int)
      modifies this`devices
      ensures devices == AllRevoked(old(devices), user, now)
    {
      ghost var was := devices;
      for i := 0 to |devices|
        invariant |devices| == |was|
        invariant forall k :: 0 <= k < |devices| ==> devices[k] == if k < i then RevokedRow(was[k], user, now)
                  else was[k]
      {
        if devices[i].user == user && devices[i].revokedAt.None? {
          devices := devices[i := devices[i].(revokedAt := Some(now))];
        }
      }
    }

    method ReclaimUserSecret(user: string, hash: string, now: int, name: Option<string>)
        returns (id: nat, chosen: Option<string>)
      modifies this
      ensures IsDeduped(LabelsOf(AllRevoked(old(devices), user, now), user), name, chosen)
      ensures Now() == Reclaimed(old(Now()), user, hash, chosen, now)
    {
      if user in users {
        users := users[user := Claim(hash, now, None)];
      }
      RevokeAll(user, now);
      id, chosen := InsertDevice(user, hash, name, now);
    }

    /** The user's oldest remaining device, found in one pass. */
    method FindHeir(user: string) returns (heir: Option<nat>)
      ensures heir == OldestActive(devices, user)
    {
      heir := None;
      for i := 0 to |devices|
        invariant heir == OldestActive(devices[..i], user)
      {
        assert devices[..i + 1][..i] == devices[..i];
        if devices[i].user == user && devices[i].revokedAt.None?
          && (heir.None? || devices[i].addedAt < devices[heir.value].addedAt) {
          heir := Some(i);
        }
      }
      assert devices[..|devices|] == devices;
    }

    method RevokeRow(id: nat, now: int, barred: bool)
      requires id < |devices|
      modifies this`devices
      ensures var was := old(devices)[id];
              devices == old(devices)[id := was.(revokedAt := Some(now), barred := was.barred || barred)]
    {
      devices := devices[id := devices[id].(revokedAt := Some(now))];
      if barred {
        devices := devices[id := devices[id].(barred := true)];
      }
    }

    method RevokeUserDevice(user: string, id: int, now: int, barred: bool) returns (revoked: bool, uninstalled: bool)
      modifies this
      ensures Now() == Revoked(old(Now()), user, id, now, barred)
      ensures revoked == Revocable(old(Now()), user, id) && uninstalled == (revoked && !HasActive(devices, user))
    {
      if !(0 <= id < |devices| && devices[id].user == user && devices[id].revokedAt.None?) {
        return false, false;
      }
      var target := devices[id];
      RevokeRow(id, now, barred);
      var heir := FindHeir(user);
      if heir.None? {
        if user in users {
          users := users[user := users[user].(uninstalledAt := Some(now))];
        }
        return true, true;
      }
      if user in users && users[user].hash == target.hash {
        users := users[user := users[user].(hash := devices[heir.value].hash)];
      }
      return true, false;
    }

    method AdminMarkUninstalled(user: string, now: int) returns (known: bool)
      modifies this
      ensures Now() == AdminUninstalled(old(Now()), user, now) && known == (user in old(users))
    {
      if user !in users {
        return false;
      }
      RevokeAll(user, now);
      users := users[user := users[user].(uninstalledAt := Some(now))];
      return true;
    }

    /** Compares every row, so that timing does not tell which one matched. */
    method AuthenticateDevice(user: string, hash: string) returns (matched: Option<nat>)
      ensures matched == Authenticated(devices, user, hash)
    {
      matched := None;
      for i := 0 to |devices|
        invariant matched == Authenticated(devices[..i], user, hash)
      {
        assert devices[..i + 1][..i] == devices[..i];
        if devices[i].user == user && devices[i].revokedAt.None? && devices[i].hash == hash
           && (matched.None? || devices[i].addedAt < devices[matched.value].addedAt) {
          matched := Some(i);
        }
      }
      assert devices[..|devices|] == devices;
    }

    method MarkUserUninstalled(user: string, hash: string, now: int)
      modifies this
      ensures Now() == Uninstalled(old(Now()), user, hash, now)
    {
      var auth := AuthenticateDevice(user, hash);
      if auth.Some? {
        var _, _ := RevokeUserDevice(user, auth.value, now, false);
      }
    }

    method RecordDeviceCheckIn(user: string, id: nat, version: Option<string>, arch: Option<string>,
                               name: Option<string>, now: int)
      returns (chosen: Option<string>)
      requires id < |devices|
      modifies this
      ensures IsDeduped(LabelsOf(old(devices), user), name, chosen)
      ensures Now() == CheckedIn(old(Now()), user, id, version, arch, chosen, now)
    {
      ghost var labels := LabelsOf(devices, user);
      var d := devices[id].(lastSeen := Some(now));
      if version.Some? {
        d := d.(version := version);
      }
      if arch.Some? {
        d := d.(arch := arch);
      }
      StampKeepsLabels(devices, id, d, user);
      devices := devices[id := d];
      var taken := ActiveLabels(user);
      chosen := DedupedLabel(taken, name);
      if name.None? || name.value == "" {
        return;
      }
      if d.user == user && d.revokedAt.None? && d.name.None? {
        devices := devices[id := d.(name := chosen)];
      }
    }
  }

  lemma LabelsGrow(devices: seq<Device>, i: nat, user: string)
    requires i < |devices|
    ensures LabelsOf(devices[..i + 1], user)
         == LabelsOf(devices[..i], user)
            + if Active(devices[i], user) && devices[i].name.Some? then {devices[i].name.value} else {}
  {
    var before, after := devices[..i], devices[..i + 1];
    forall k | 0 <= k < i
      ensures after[k] == before[k]
    {
    }
    assert after[i] == devices[i];
  }

  lemma StampKeepsLabels(devices: seq<Device>, id: nat, d: Device, user: string)
    requires id < |devices| && d.user == devices[id].user && d.revokedAt == devices[id].revokedAt
             && d.name == devices[id].name
    ensures LabelsOf(devices[id := d], user) == LabelsOf(devices, user)
  {
    var after := devices[id := d];
    forall x
      ensures x in LabelsOf(after, user) <==> x in LabelsOf(devices, user)
    {
      if x in LabelsOf(devices, user) {
        var i :| 0 <= i < |devices| && Active(devices[i], user) && devices[i].name == Some(x);
        assert Active(after[i], user) && after[i].name == Some(x);
      }
      if x in LabelsOf(after, user) {
        var i :| 0 <= i < |after| && Active(after[i], user) && after[i].name == Some(x);
        assert Active(devices[i], user) && devices[i].name == Some(x);
      }
    }
  }
}
