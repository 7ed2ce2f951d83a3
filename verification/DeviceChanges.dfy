/** What each registry operation changes, and how a device comes and goes over a run. */
module DeviceChanges {
  import opened Options
  import opened Devices
  import opened DeviceSafety

  /** The operation registers a device: the first claim of a handle, a re-claim, a link. */
  predicate Registers(r: Registry, op: Op) {
    (op.Claim? && op.user !in r.users) || op.Reclaim? || op.Link?
  }

  /** Row `i` is the user's and was not revoked. */
  predicate InUse(r: Registry, i: nat, user: string) {
    i < |r.devices| && r.devices[i].user == user && r.devices[i].revokedAt.None?
  }

  /** Row `i` is in use with this secret, and no row with it is older, or as old and before it. */
  ghost predicate Presents(r: Registry, i: nat, user: string, hash: string) {
    && InUse(r, i, user) && r.devices[i].hash == hash
    && forall j: nat :: InUse(r, j, user) && r.devices[j].hash == hash ==>
         r.devices[i].addedAt <= r.devices[j].addedAt && (r.devices[i].addedAt == r.devices[j].addedAt ==> i <= j)
  }

  /** The operation takes the device out of use. */
  ghost predicate Ends(r: Registry, op: Op, i: nat) {
    InUse(r, i, op.user) &&
    match op
    case Reclaim(_, _, _, _) => true
    case AdminUninstall(user, _) => user in r.users
    case Revoke(_, id, _, _) => id == i
    case Uninstall(user, hash, _) => Presents(r, i, user, hash)
    case _ => false
  }

  lemma {:induction false} AuthenticatedPresents(devices: seq<Device>, user: string, hash: string)
    ensures var r := Registry(map[], devices);
            forall i: nat :: Authenticated(devices, user, hash) == Some(i) <==> Presents(r, i, user, hash)
  {
    if devices != [] {
      var n := |devices| - 1;
      var init, all := Registry(map[], devices[..n]), Registry(map[], devices);
      AuthenticatedPresents(devices[..n], user, hash);
      assert forall i: nat :: i < n ==>
        (InUse(init, i, user) <==> InUse(all, i, user)) && init.devices[i] == all.devices[i];
      var before := Authenticated(devices[..n], user, hash);
      if before.Some? {
        assert Presents(init, before.value, user, hash);
      }
      forall i: nat
        ensures Authenticated(devices, user, hash) == Some(i) <==> Presents(all, i, user, hash)
      {
        if Presents(all, i, user, hash) && i < n {
          assert Presents(init, i, user, hash);
        }
      }
    }
  }

  lemma PresentsByRows(r: Registry, i: nat, user: string, hash: string)
    ensures Presents(r, i, user, hash) <==> Presents(Registry(map[], r.devices), i, user, hash)
  {
    assert forall j: nat :: InUse(r, j, user) <==> InUse(Registry(map[], r.devices), j, user);
  }

  /** What the operation makes of a row that is there. */
  ghost predicate RowChanges(r: Registry, op: Op, i: nat, d: Device)
    requires i < |r.devices|
  {
    var was := r.devices[i];
    && d.user == was.user && d.hash == was.hash && d.addedAt == was.addedAt
    && d.revokedAt == (if Ends(r, op, i) then Some(op.at) else was.revokedAt)
    && d.barred == (was.barred || (Ends(r, op, i) && op.Revoke? && op.barred))
    && if op.CheckIn? && op.row == i
       then && d.lastSeen == Some(op.at)
            && d.version == (if op.version.Some? then op.version else was.version)
            && d.arch == (if op.arch.Some? then op.arch else was.arch)
            && d.name == (if InUse(r, i, op.user) && was.name.None? then op.name else was.name)
       else d.lastSeen == was.lastSeen && d.version == was.version && d.arch == was.arch && d.name == was.name
  }

  /** What it makes of the handle it is about. */
  ghost predicate HandleChanges(r: Registry, op: Op, after: Registry) {
    && (forall u :: u != op.user ==>
        (u in after.users <==> u in r.users) && (u in r.users ==> after.users[u] == r.users[u]))
    && (op.user in after.users <==> op.user in r.users || op.Claim?)
    && (op.user !in r.users && op.Claim? ==> after.users[op.user] == Devices.Claim(op.hash, op.at, None))
    && (op.user in r.users ==>
          var was, now := r.users[op.user], after.users[op.user];
          if op.Reclaim? then now == Devices.Claim(op.hash, op.at, None)
          else
            && now.claimedAt == was.claimedAt
            && now.uninstalledAt == (if Uninstalls(r, op) then Some(op.at) else was.uninstalledAt)
            && if LosesMirror(r, op) then exists j: nat :: OldestLeft(r, op, j) && now.hash == r.devices[j].hash
               else now.hash == was.hash)
  }

  /** The device whose secret the handle mirrors goes, and others stay. */
  ghost predicate LosesMirror(r: Registry, op: Op)
    requires op.user in r.users
  {
    && (op.Revoke? || op.Uninstall?) && !Uninstalls(r, op)
    && exists i: nat :: Ends(r, op, i) && r.devices[i].hash == r.users[op.user].hash
  }

  /** Of the user's devices that stay, none was added before row `j`, or with it and comes first. */
  ghost predicate OldestLeft(r: Registry, op: Op, j: nat) {
    && InUse(r, j, op.user) && !Ends(r, op, j)
    && forall k: nat :: InUse(r, k, op.user) && !Ends(r, op, k) ==>
         r.devices[j].addedAt <= r.devices[k].addedAt && (r.devices[j].addedAt == r.devices[k].addedAt ==> j <= k)
  }

  /** The operation leaves the handle without a device in use: an admin's uninstall does, and the end of the
      last one. */
  ghost predicate Uninstalls(r: Registry, op: Op) {
    || op.AdminUninstall?
    || ((op.Revoke? || op.Uninstall?)
        && exists i: nat :: Ends(r, op, i) && forall j: nat :: j != i ==> !InUse(r, j, op.user))
  }

  lemma EndsIs(r: Registry, op: Op, i: nat)
    requires Enabled(r, op) && (op.Revoke? || op.Uninstall?)
    ensures Ends(r, op, i) <==>
            if op.Revoke? then op.id == i && Revocable(r, op.user, i)
            else Authenticated(r.devices, op.user, op.hash) == Some(i)
  {
    if op.Uninstall? {
      AuthenticatedPresents(r.devices, op.user, op.hash);
      PresentsByRows(r, i, op.user, op.hash);
    }
  }

  /** The row that a revocation ends, if it ends one. */
  ghost function Ended(r: Registry, op: Op): (id: Option<nat>)
    ensures id.Some? ==> Revocable(r, op.user, id.value)
  {
    if op.Revoke? then if Revocable(r, op.user, op.id) then Some(op.id) else None
    else if op.Uninstall? then Authenticated(r.devices, op.user, op.hash)
    else None
  }

  function RevokedNow(d: Device, now: int, barred: bool): Device {
    d.(revokedAt := Some(now), barred := d.barred || barred)
  }

  /** Who the revocation leaves the handle to. */
  function Left(claim: Claim, gone: Device, heir: Option<Device>, now: int): Claim {
    if heir.None? then claim.(uninstalledAt := Some(now))
    else if claim.hash == gone.hash then claim.(hash := heir.value.hash)
    else claim
  }

  lemma RevokedIs(r: Registry, user: string, id: nat, now: int, barred: bool)
    requires Revocable(r, user, id)
    ensures var after, d := Revoked(r, user, id, now, barred), r.devices[id];
            var heir := OldestActive(after.devices, user);
            && after.devices == r.devices[id := RevokedNow(d, now, barred)]
            && after.users == if user !in r.users then r.users
                              else r.users[user :=
                                           Left(r.users[user], d, if heir.Some? then Some(after.devices[heir.value])
                                                                          else None, now)]
  {
  }

  lemma RevocationIs(r: Registry, op: Op)
    requires Enabled(r, op) && (op.Revoke? || op.Uninstall?)
    ensures var id, after := Ended(r, op), Apply(r, op);
            if id.None? then after == r
            else
              var d, heir := r.devices[id.value], OldestActive(after.devices, op.user);
              && after.devices == r.devices[id.value := RevokedNow(d, op.at, op.Revoke? && op.barred)]
              && after.users == if op.user !in r.users then r.users
                                else r.users[op.user := Left(r.users[op.user], d,
                                                             if heir.Some? then Some(after.devices[heir.value])
                                                             else None,
                                                             op.at)]
  {
    if Ended(r, op).Some? {
      RevokedIs(r, op.user, Ended(r, op).value, op.at, op.Revoke? && op.barred);
    }
  }

  lemma RevocationRows(r: Registry, op: Op, i: nat)
    requires Enabled(r, op) && (op.Revoke? || op.Uninstall?) && i < |r.devices|
    ensures |Apply(r, op).devices| == |r.devices| && RowChanges(r, op, i, Apply(r, op).devices[i])
  {
    EndsIs(r, op, i);
    RevocationIs(r, op);
  }

  lemma RegistrationRows(r: Registry, op: Op)
    requires Enabled(r, op) && Registers(r, op)
    ensures var after := Apply(r, op).devices;
            && |after| == |r.devices| + 1 && (forall i :: 0 <= i < |r.devices| ==> RowChanges(r, op, i, after[i]))
            && after[|r.devices|] == Device(op.user, op.hash, op.name, op.at, None, None, None, None, false)
  {
  }

  lemma RowsChange(r: Registry, op: Op)
    requires Enabled(r, op)
    ensures var after := Apply(r, op);
            && |after.devices| == |r.devices| + (if Registers(r, op) then 1 else 0)
            && (forall i :: 0 <= i < |r.devices| ==> RowChanges(r, op, i, after.devices[i]))
            && (Registers(r, op) ==>
                  after.devices[|r.devices|] == Device(op.user, op.hash, op.name, op.at, None, None, None, None, false))
  {
    if Registers(r, op) {
      RegistrationRows(r, op);
    } else if op.Revoke? || op.Uninstall? {
      RevocationIs(r, op);
      forall i | 0 <= i < |r.devices| {
        RevocationRows(r, op, i);
      }
    }
  }

  lemma EndedIs(r: Registry, op: Op)
    requires Enabled(r, op) && (op.Revoke? || op.Uninstall?)
    ensures forall i: nat :: Ends(r, op, i) <==> Ended(r, op) == Some(i)
  {
    forall i: nat {
      EndsIs(r, op, i);
    }
  }

  lemma HandlesChange(r: Registry, op: Op)
    requires Enabled(r, op)
    ensures HandleChanges(r, op, Apply(r, op))
  {
    if op.Revoke? || op.Uninstall? {
      EndedIs(r, op);
      if Ended(r, op).Some? {
        RevocationChanges(r, op, Ended(r, op).value);
      }
    }
  }

  lemma RevocationChanges(r: Registry, op: Op, id: nat)
    requires Enabled(r, op) && (op.Revoke? || op.Uninstall?) && Ended(r, op) == Some(id)
    ensures HandleChanges(r, op, Apply(r, op))
  {
    EndedIs(r, op);
    RevocationIs(r, op);
    var d, devices := r.devices[id], Apply(r, op).devices;
    LastOneIff(r, op, id, devices);
    HeirIsOldest(r, op, id, devices);
    assert op.user in r.users && OldestActive(devices, op.user).Some? ==>
        (LosesMirror(r, op) <==> d.hash == r.users[op.user].hash);
  }

  lemma HeirIsOldest(r: Registry, op: Op, id: nat, devices: seq<Device>)
    requires Enabled(r, op) && (op.Revoke? || op.Uninstall?) && Ended(r, op) == Some(id)
    requires |devices| == |r.devices| && id < |devices| && devices[id].revokedAt.Some?
    requires forall j :: 0 <= j < |devices| && j != id ==> devices[j] == r.devices[j]
    ensures var heir := OldestActive(devices, op.user);
            heir.Some? ==> heir.value != id && OldestLeft(r, op, heir.value)
  {
    EndedIs(r, op);
    var heir := OldestActive(devices, op.user);
    if heir.Some? {
      forall k: nat | InUse(r, k, op.user) && k != id
        ensures r.devices[heir.value].addedAt <= r.devices[k].addedAt
        ensures r.devices[heir.value].addedAt == r.devices[k].addedAt ==> heir.value <= k
      {
        assert Active(devices[k], op.user);
      }
    }
  }

  lemma LastOneIff(r: Registry, op: Op, id: nat, devices: seq<Device>)
    requires Enabled(r, op) && (op.Revoke? || op.Uninstall?) && id < |r.devices| && Ends(r, op, id)
    requires |devices| == |r.devices| && devices[id].revokedAt.Some?
    requires forall j :: 0 <= j < |devices| && j != id ==> devices[j] == r.devices[j]
    ensures HasActive(devices, op.user) <==> !Uninstalls(r, op)
  {
    EndsIs(r, op, id);
    if j :| 0 <= j < |devices| && Active(devices[j], op.user) {
      assert InUse(r, j, op.user) && j != id;
      forall i: nat | Ends(r, op, i)
        ensures i == id
      {
        EndsIs(r, op, i);
      }
    } else {
      forall j: nat | j != id
        ensures !InUse(r, j, op.user)
      {
        assert j < |devices| ==> !Active(devices[j], op.user);
      }
    }
  }

  // ----- over a run -----

  /** When the run first takes row `i` out of use. */
  ghost function FirstEnd(r: Registry, ops: seq<Op>, i: nat): Option<int>
    requires Possible(r, ops)
    decreases |ops|
  {
    if ops == [] then None
    else if Ends(r, ops[0], i) then Some(ops[0].at)
    else FirstEnd(Apply(r, ops[0]), ops[1..], i)
  }

  lemma {:induction false} StaysEnded(r: Registry, ops: seq<Op>, i: nat)
    requires Possible(r, ops) && i < |r.devices| && r.devices[i].revokedAt.Some?
    ensures i < |After(r, ops).devices| && After(r, ops).devices[i].revokedAt == r.devices[i].revokedAt
    ensures FirstEnd(r, ops, i) == None
    decreases |ops|
  {
    if ops != [] {
      RowsChange(r, ops[0]);
      StaysEnded(Apply(r, ops[0]), ops[1..], i);
    }
  }

  /** Over any run a device keeps its handle, its secret and the time it was added, and is in use until the
      first operation that ends it; the row then keeps that time for good. */
  lemma {:induction false} DevicesLiveOnce(r: Registry, ops: seq<Op>, i: nat)
    requires Possible(r, ops) && i < |r.devices| && r.devices[i].revokedAt.None?
    ensures var d, was := After(r, ops).devices, r.devices[i];
            && i < |d| && d[i].user == was.user && d[i].hash == was.hash && d[i].addedAt == was.addedAt
            && d[i].revokedAt == FirstEnd(r, ops, i)
    decreases |ops|
  {
    if ops != [] {
      RowsChange(r, ops[0]);
      var next := Apply(r, ops[0]);
      if Ends(r, ops[0], i) {
        StaysEnded(next, ops[1..], i);
        RowsKept(next, ops[1..], i);
      } else {
        DevicesLiveOnce(next, ops[1..], i);
      }
    }
  }

  lemma {:induction false} RowsKept(r: Registry, ops: seq<Op>, i: nat)
    requires Possible(r, ops) && i < |r.devices|
    ensures var d, was := After(r, ops).devices, r.devices[i];
            i < |d| && d[i].user == was.user && d[i].hash == was.hash && d[i].addedAt == was.addedAt
    decreases |ops|
  {
    if ops != [] {
      RowsChange(r, ops[0]);
      RowsKept(Apply(r, ops[0]), ops[1..], i);
    }
  }
}
