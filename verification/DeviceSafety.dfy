/** What holds between handles and devices over every run of registry operations. */
module DeviceSafety {
  import opened Options
  import opened Devices

  datatype Op =
    | Claim(user: string, hash: string, name: Option<string>, at: int)
    | Reclaim(user: string, hash: string, name: Option<string>, at: int)
    | Link(user: string, hash: string, name: Option<string>, at: int)
    | Revoke(user: string, id: int, at: int, barred: bool)
    | AdminUninstall(user: string, at: int)
    | Uninstall(user: string, hash: string, at: int)
    | CheckIn(user: string, row: nat, version: Option<string>, arch: Option<string>, name: Option<string>, at: int)

  /** A label as the deduplication chooses it for some requested one. */
  ghost predicate Choosable(taken: set<string>, name: Option<string>) {
    exists wanted :: IsDeduped(taken, wanted, name)
  }

  /** Callers re-claim and link claimed handles only, and link only those not uninstalled. */
  ghost predicate Enabled(r: Registry, op: Op) {
    match op
    case Claim(user, _, name, _) => Choosable(LabelsOf(r.devices, user), name)
    case Reclaim(user, _, name, at) =>
      user in r.users && Choosable(LabelsOf(AllRevoked(r.devices, user, at), user), name)
    case Link(user, _, name, _) =>
      user in r.users && r.users[user].uninstalledAt.None? && Choosable(LabelsOf(r.devices, user), name)
    case CheckIn(user, id, _, _, name, _) => id < |r.devices| && Choosable(LabelsOf(r.devices, user), name)
    case _ => true
  }

  ghost function Apply(r: Registry, op: Op): Registry
    requires Enabled(r, op)
  {
    match op
    case Claim(user, hash, name, at) => Claimed(r, user, hash, name, at)
    case Reclaim(user, hash, name, at) => Reclaimed(r, user, hash, name, at)
    case Link(user, hash, name, at) => WithDevice(r, user, hash, name, at)
    case Revoke(user, id, at, barred) => Revoked(r, user, id, at, barred)
    case AdminUninstall(user, at) => AdminUninstalled(r, user, at)
    case Uninstall(user, hash, at) => Uninstalled(r, user, hash, at)
    case CheckIn(user, id, version, arch, name, at) => CheckedIn(r, user, id, version, arch, name, at)
  }

  ghost predicate Possible(r: Registry, ops: seq<Op>)
    decreases |ops|
  {
    ops == [] || (Enabled(r, ops[0]) && Possible(Apply(r, ops[0]), ops[1..]))
  }

  ghost function After(r: Registry, ops: seq<Op>): Registry
    requires Possible(r, ops)
    decreases |ops|
  {
    if ops == [] then r else After(Apply(r, ops[0]), ops[1..])
  }

  // ----- the invariant, handle by handle -----

  /** The mirrored secret of a handle belongs to an active device. */
  ghost predicate Mirrored(devices: seq<Device>, user: string, hash: string) {
    exists i :: 0 <= i < |devices| && Active(devices[i], user) && devices[i].hash == hash
  }

  ghost predicate DistinctLabels(devices: seq<Device>, user: string) {
    forall i, j :: 0 <= i < j < |devices| && Active(devices[i], user) && Active(devices[j], user)
      && devices[i].name.Some?
      ==> devices[i].name != devices[j].name
  }

  /** A handle has an active device exactly while it is claimed and not uninstalled. */
  ghost predicate UserInv(r: Registry, user: string) {
    && DistinctLabels(r.devices, user)
    && (HasActive(r.devices, user) <==> user in r.users && r.users[user].uninstalledAt.None?)
    && (user in r.users && r.users[user].uninstalledAt.None? ==> Mirrored(r.devices, user, r.users[user].hash))
  }

  ghost predicate Inv(r: Registry) {
    forall user :: UserInv(r, user)
  }

  // ----- one kind of change at a time -----

  lemma InsertKeeps(r: Registry, user: string, hash: string, name: Option<string>, now: int, u: string)
    requires UserInv(r, u)
    requires u == user ==>
               user in r.users && r.users[user].uninstalledAt.None? && Choosable(LabelsOf(r.devices, user), name)
    ensures UserInv(WithDevice(r, user, hash, name, now), u)
  {
    var d, n := WithDevice(r, user, hash, name, now).devices, |r.devices|;
    assert forall i :: 0 <= i < n ==> d[i] == r.devices[i];
    InsertShape(r.devices, d[n], u);
    if u == user {
      FreshLabel(r.devices, user, name);
    }
  }

  lemma InsertShape(devices: seq<Device>, d: Device, u: string)
    ensures HasActive(devices + [d], u) <==> HasActive(devices, u) || Active(d, u)
    ensures forall hash ::
              Mirrored(devices + [d], u, hash) <==> Mirrored(devices, u, hash) || (Active(d, u) && d.hash == hash)
  {
    var more := devices + [d];
    assert more[|devices|] == d;
    assert forall i :: 0 <= i < |devices| ==> more[i] == devices[i];
    forall hash
      ensures Mirrored(more, u, hash) <==> Mirrored(devices, u, hash) || (Active(d, u) && d.hash == hash)
    {
      if Mirrored(devices, u, hash) {
        var i :| 0 <= i < |devices| && Active(devices[i], u) && devices[i].hash == hash;
        assert Active(more[i], u);
      }
      if Active(d, u) && d.hash == hash {
        assert Active(more[|devices|], u);
      }
    }
    if HasActive(devices, u) {
      var i :| 0 <= i < |devices| && Active(devices[i], u);
      assert Active(more[i], u);
    }
  }

  /** A chosen label is none of the active ones. */
  lemma FreshLabel(devices: seq<Device>, user: string, name: Option<string>)
    requires Choosable(LabelsOf(devices, user), name)
    ensures name.Some? ==> forall i :: 0 <= i < |devices| && Active(devices[i], user) ==> devices[i].name != name
  {
    var wanted :| IsDeduped(LabelsOf(devices, user), wanted, name);
    DedupedIsFree(LabelsOf(devices, user), wanted, name);
    forall i | 0 <= i < |devices| && Active(devices[i], user) && name.Some?
      ensures devices[i].name != name
    {
      if devices[i].name.Some? {
        assert devices[i].name.value in LabelsOf(devices, user);
      }
    }
  }

  lemma RevokeAllShape(devices: seq<Device>, user: string, now: int, u: string)
    ensures var d := AllRevoked(devices, user, now);
            && |d| == |devices|
            && forall i :: 0 <= i < |d| ==>
                 (Active(d[i], u) <==> u != user && Active(devices[i], u)) && d[i].name == devices[i].name
                 && d[i].hash == devices[i].hash
  {
  }

  lemma NoneLeft(devices: seq<Device>, user: string, now: int)
    ensures !HasActive(AllRevoked(devices, user, now), user) && LabelsOf(AllRevoked(devices, user, now), user) == {}
  {
    RevokeAllShape(devices, user, now, user);
  }

  lemma OthersKept(devices: seq<Device>, user: string, now: int, u: string)
    requires u != user
    ensures var d := AllRevoked(devices, user, now);
            && (HasActive(d, u) <==> HasActive(devices, u)) && (DistinctLabels(devices, u) ==> DistinctLabels(d, u))
            && forall hash :: Mirrored(d, u, hash) <==> Mirrored(devices, u, hash)
  {
    RevokeAllShape(devices, user, now, u);
    var d := AllRevoked(devices, user, now);
    if HasActive(devices, u) {
      var i :| 0 <= i < |devices| && Active(devices[i], u);
      assert Active(d[i], u);
    }
    forall hash
      ensures Mirrored(d, u, hash) <==> Mirrored(devices, u, hash)
    {
      if Mirrored(devices, u, hash) {
        var i :| 0 <= i < |devices| && Active(devices[i], u) && devices[i].hash == hash;
        assert Active(d[i], u);
      }
    }
  }

  lemma ReclaimKeeps(r: Registry, user: string, hash: string, name: Option<string>, now: int, u: string)
    requires UserInv(r, u) && user in r.users
    ensures UserInv(Reclaimed(r, user, hash, name, now), u)
  {
    var bare := AllRevoked(r.devices, user, now);
    var d := Device(user, hash, name, now, None, None, None, None, false);
    InsertShape(bare, d, u);
    RevokeAllShape(r.devices, user, now, u);
    if u == user {
      NoneLeft(r.devices, user, now);
    } else {
      OthersKept(r.devices, user, now, u);
    }
  }

  lemma AdminKeeps(r: Registry, user: string, now: int, u: string)
    requires UserInv(r, u)
    ensures UserInv(AdminUninstalled(r, user, now), u)
  {
    if u == user {
      NoneLeft(r.devices, user, now);
    } else {
      OthersKept(r.devices, user, now, u);
    }
  }

  /** One row's device is no longer active, everything else stays. */
  lemma RevokeShape(devices: seq<Device>, id: nat, d: Device, user: string, u: string)
    requires id < |devices| && Active(devices[id], user) && d.user == user && d.revokedAt.Some?
    ensures var after := devices[id := d];
            && (DistinctLabels(devices, u) ==> DistinctLabels(after, u))
            && (u != user ==> (HasActive(after, u) <==> HasActive(devices, u)))
            && (forall hash :: Mirrored(devices, u, hash) && (u != user || hash != devices[id].hash) ==>
                Mirrored(after, u, hash))
  {
    var after := devices[id := d];
    forall hash | Mirrored(devices, u, hash) && (u != user || hash != devices[id].hash)
      ensures Mirrored(after, u, hash)
    {
      var i :| 0 <= i < |devices| && Active(devices[i], u) && devices[i].hash == hash;
      assert Active(after[i], u);
    }
    if u != user && HasActive(devices, u) {
      var i :| 0 <= i < |devices| && Active(devices[i], u);
      assert Active(after[i], u);
    }
  }

  lemma RevokeKeeps(r: Registry, user: string, id: int, now: int, barred: bool, u: string)
    requires UserInv(r, u) && UserInv(r, user)
    ensures UserInv(Revoked(r, user, id, now, barred), u)
  {
    if Revocable(r, user, id) {
      var d := r.devices[id].(revokedAt := Some(now), barred := r.devices[id].barred || barred);
      var devices := r.devices[id := d];
      RevokeShape(r.devices, id, d, user, u);
      assert HasActive(r.devices, user);
      var heir := OldestActive(devices, user);
      if heir.Some? {
        assert Mirrored(devices, user, devices[heir.value].hash);
      }
    }
  }

  lemma CheckInKeeps(r: Registry, user: string, id: nat, version: Option<string>, arch: Option<string>,
                     name: Option<string>, now: int, u: string)
    requires UserInv(r, u) && Enabled(r, CheckIn(user, id, version, arch, name, now))
    ensures UserInv(CheckedIn(r, user, id, version, arch, name, now), u)
  {
    var after := CheckedIn(r, user, id, version, arch, name, now).devices;
    assert forall i :: 0 <= i < |after| ==>
      (Active(after[i], u) <==> Active(r.devices[i], u)) && after[i].hash == r.devices[i].hash;
    assert forall i :: 0 <= i < |after| && i != id ==> after[i] == r.devices[i];
    SameActive(r.devices, after, u);
    if Active(r.devices[id], user) && u == user {
      FreshLabel(r.devices, user, name);
    }
  }

  lemma SameActive(devices: seq<Device>, after: seq<Device>, u: string)
    requires |after| == |devices|
    requires forall i :: 0 <= i < |after| ==>
               (Active(after[i], u) <==> Active(devices[i], u)) && after[i].hash == devices[i].hash
    ensures HasActive(after, u) <==> HasActive(devices, u)
    ensures forall hash :: Mirrored(after, u, hash) <==> Mirrored(devices, u, hash)
  {
    if HasActive(devices, u) {
      var i :| 0 <= i < |devices| && Active(devices[i], u);
      assert Active(after[i], u);
    }
    forall hash
      ensures Mirrored(after, u, hash) <==> Mirrored(devices, u, hash)
    {
      if Mirrored(devices, u, hash) {
        var i :| 0 <= i < |devices| && Active(devices[i], u) && devices[i].hash == hash;
        assert Active(after[i], u);
      }
    }
  }

  // ----- runs -----

  lemma ClaimKeeps(r: Registry, user: string, hash: string, name: Option<string>, now: int, u: string)
    requires UserInv(r, u)
    ensures UserInv(Claimed(r, user, hash, name, now), u)
  {
    if user !in r.users {
      var d := Device(user, hash, name, now, None, None, None, None, false);
      InsertShape(r.devices, d, u);
    }
  }

  lemma ApplyKeeps(r: Registry, op: Op)
    requires Inv(r) && Enabled(r, op)
    ensures Inv(Apply(r, op))
  {
    forall u
      ensures UserInv(Apply(r, op), u)
    {
      match op {
        case Claim(user, hash, name, at) => ClaimKeeps(r, user, hash, name, at, u);
        case Reclaim(user, hash, name, at) => ReclaimKeeps(r, user, hash, name, at, u);
        case Link(user, hash, name, at) => InsertKeeps(r, user, hash, name, at, u);
        case Revoke(user, id, at, barred) => RevokeKeeps(r, user, id, at, barred, u);
        case AdminUninstall(user, at) => AdminKeeps(r, user, at, u);
        case Uninstall(user, hash, at) =>
          var d := Authenticated(r.devices, user, hash);
          if d.Some? {
            RevokeKeeps(r, user, d.value, at, false, u);
          }
        case CheckIn(user, id, version, arch, name, at) => CheckInKeeps(r, user, id, version, arch, name, at, u);
      }
    }
  }

  lemma {:induction false} RunKeeps(r: Registry, ops: seq<Op>)
    requires Inv(r) && Possible(r, ops)
    ensures Inv(After(r, ops))
    decreases |ops|
  {
    if ops != [] {
      ApplyKeeps(r, ops[0]);
      RunKeeps(Apply(r, ops[0]), ops[1..]);
    }
  }

  /** Over any run of claims, re-claims, links, revokes, uninstalls and check-ins: a claimed handle has
      no active device exactly when it is marked uninstalled; the secret mirrored for a handle that is
      not uninstalled belongs to one of its active devices; active labels are pairwise distinct. */
  lemma HandlesStayConsistent(ops: seq<Op>, user: string)
    requires Possible(NO_USERS, ops)
    ensures var r := After(NO_USERS, ops);
            && (user in r.users ==> (!HasActive(r.devices, user) <==> r.users[user].uninstalledAt.Some?))
            && (user in r.users && r.users[user].uninstalledAt.None? ==> Mirrored(r.devices, user, r.users[user].hash))
            && DistinctLabels(r.devices, user)
  {
    RunKeeps(NO_USERS, ops);
    assert UserInv(After(NO_USERS, ops), user);
  }
}
