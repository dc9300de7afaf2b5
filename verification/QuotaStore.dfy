/** The quota store as the scheduler keeps it: a version counter and the active snapshot. */
module QuotaStore {
  import opened Quotas

  datatype Answer = Version(v: nat) | Rejected(fault: Fault) | Stopped | Conflict

  class Store {
    const names: seq<string>
    var version: nat
    var active: Snapshot
    var stopped: bool

    ghost predicate Valid()
      reads this
    {
      Registered(names) && |active.quotas| == |names| && active.version == version
    }

    constructor (names: seq<string>, quotas: seq<nat>)
      requires Registered(names) && |quotas| == |names|
      ensures Valid() && this.names == names && active == Snapshot(0, 1, quotas) && !stopped
    {
      this.names := names;
      version, active, stopped := 0, Snapshot(0, 1, quotas), false;
    }

    method Publish(fallback: nat, quotas: seq<nat>) returns (v: nat)
      requires Valid() && |quotas| == |names|
      modifies this`version, this`active
      ensures Valid() && v == old(version) + 1 && active == Snapshot(v, fallback, quotas)
    {
      version := version + 1;
      active := Snapshot(version, fallback, quotas);
      v := version;
    }

    /** A version is handed out, and the policy becomes active, only if it is acceptable. */
    method UpdatePolicy(p: Policy) returns (a: Answer)
      requires Valid()
      modifies this`version, this`active
      ensures Valid()
      ensures a.Version? <==> Acceptable(names, p) && !stopped
      ensures a.Version? ==> a.v == old(version) + 1 && active == Snapshot(a.v, p.fallback, Filled(names, p))
      ensures !a.Version? ==> active == old(active)
      ensures a.Rejected? ==> HasFault(names, p, a.fault)
    {
      var b := BuildSnapshot(names, p);
      if b.Err? {
        return Rejected(b.fault);
      }
      if stopped {
        return Stopped;
      }
      var v := Publish(p.fallback, b.quotas);
      return Version(v);
    }

    /** As `UpdatePolicy`, and only while the expected version is still the active one. */
    method UpdatePolicyIfVersion(p: Policy, expected: nat) returns (a: Answer)
      requires Valid()
      modifies this`version, this`active
      ensures Valid()
      ensures a.Version? <==> Acceptable(names, p) && !stopped && expected == old(active.version)
      ensures a.Version? ==> a.v == expected + 1 && active == Snapshot(a.v, p.fallback, Filled(names, p))
      ensures !a.Version? ==> active == old(active)
      ensures a.Conflict? ==> expected != active.version
    {
      var b := BuildSnapshot(names, p);
      if b.Err? {
        return Rejected(b.fault);
      }
      if stopped {
        return Stopped;
      }
      if active.version != expected {
        return Conflict;
      }
      var v := Publish(p.fallback, b.quotas);
      return Version(v);
    }

    method CurrentView() returns (v: nat, fallback: nat, lanes: map<string, nat>)
      requires Valid()
      ensures v == version && fallback == active.fallback
      ensures lanes == Named(names, active.quotas, |names|)
    {
      lanes := map[];
      var i := 0;
      while i < |names|
        invariant 0 <= i <= |names| && lanes == Named(names, active.quotas, i)
      {
        lanes := lanes[names[i] := Word(active.quotas[i])];
        i := i + 1;
      }
      v, fallback := active.version, active.fallback;
    }

    /** With no one else at work, one lane changes and nothing else, if the others fit 32 bits. */
    method UpdateLaneQuotaIfVersion(lane: string, quota: nat, expected: nat) returns (a: Answer)
      requires Valid()
      modifies this`version, this`active
      ensures Valid()
      ensures a.Version? ==> OneLane(names, Cut(old(active)), active, lane, quota) && active.version == expected + 1
      ensures a.Version? ==> (OneLane(names, old(active), active, lane, quota) <==> FitsBut(names, old(active), lane))
      ensures !a.Version? ==> active == old(active)
      ensures a.Conflict? ==> expected != active.version
      ensures a.Version? <==>
        && !stopped && expected == old(active.version) && lane in names && Sized(quota) && Sized(old(active.fallback))
        && forall i :: 0 <= i < |names| && names[i] != lane ==> Sized(Word(old(active.quotas)[i]))
    {
      if lane == "" {
        return Rejected(EmptyLane);
      }
      var v, fallback, lanes := CurrentView();
      EditAccepted(names, active, lane, quota);
      EditTouchesOneLane(names, active, lane, quota, expected + 1);
      a := UpdatePolicyIfVersion(Policy(fallback, lanes[lane := quota]), expected);
    }

    method UpdateLaneQuota(lane: string, quota: nat) returns (a: Answer)
      requires Valid()
      modifies this`version, this`active
      ensures Valid()
      ensures a.Version? ==>
        OneLane(names, Cut(old(active)), active, lane, quota) && active.version == old(active.version) + 1
      ensures a.Version? ==> (OneLane(names, old(active), active, lane, quota) <==> FitsBut(names, old(active), lane))
      ensures !a.Version? ==> active == old(active) && !a.Conflict?
    {
      var v, fallback, lanes := CurrentView();
      a := UpdateLaneQuotaIfVersion(lane, quota, v);
    }
  }
}
