/** The controller's tick as the program runs it: evaluate, then apply the decisions one by one. */
module AdaptiveTick {
  import opened Adaptive
  import Q = Quotas
  import QuotaStore

  class Controller {
    const cfg: Config
    const lanes: seq<Lane>
    const startedAt: int
    const store: QuotaStore.Store
    var last: map<nat, int>

    ghost predicate Valid()
      reads this, store
    {
      store.Valid() && |lanes| == |store.names|
    }

    constructor (cfg: Config, lanes: seq<Lane>, startedAt: int, store: QuotaStore.Store)
      requires store.Valid() && |lanes| == |store.names|
      ensures Valid() && this.cfg == cfg && this.lanes == lanes && this.startedAt == startedAt
      ensures this.store == store && last == map[]
    {
      this.cfg, this.lanes, this.startedAt, this.store := cfg, lanes, startedAt, store;
      last := map[];
    }

    function InputAt(signals: seq<Signal>, pressure: real, now: int): Input
      reads this
    {
      Input(cfg, lanes, signals, pressure, startedAt, last, now)
    }

    /**
     * A tick that nobody interrupts publishes at most one of its decisions, because all of them
     * expect the version it started from: either nothing changes, or one lane that was asked to
     * move and was not cooling down, and only that lane's clock restarts.  The other lanes keep what
     * 32 bits hold of their quotas.
     */
    method Tick(signals: seq<Signal>, pressure: real, now: int) returns (changed: bool, lane: nat)
      requires Valid() && |signals| == |lanes|
      requires forall i :: 0 <= i < |signals| ==> signals[i].quota == store.active.quotas[i]
      modifies this`last, store
      ensures Valid()
      ensures !changed ==> store.active == old(store.active) && last == old(last)
      ensures changed ==>
        && lane < |lanes| && last == old(last)[lane := now] && !old(Cooling(InputAt(signals, pressure, now), lane))
        && exists a :: a != Hold && old(Wants(InputAt(signals, pressure, now), lane, a))
             && var q := Moved(cfg, lanes[lane], signals[lane].quota, a);
                && q >= 1 && Q.OneLane(store.names, Q.Cut(old(store.active)), store.active, store.names[lane], q)
                && (Q.OneLane(store.names, old(store.active), store.active, store.names[lane], q) <==>
                      Q.FitsBut(store.names, old(store.active), store.names[lane]))
                && store.active.version == old(store.active.version) + 1
    {
      ghost var x := InputAt(signals, pressure, now);
      var version := store.active.version;
      var ds := Evaluate(InputAt(signals, pressure, now));
      changed, lane := false, 0;
      var i := 0;
      while i < |ds|
        invariant 0 <= i <= |ds| && Valid()
        invariant !changed ==> store.active == old(store.active) && last == old(last)
        invariant changed ==> store.active.version == version + 1
        invariant changed ==> lane < |ds| && ds[lane].action != Hold && ds[lane].new_ >= 1
        invariant changed ==> last == old(last)[lane := now]
        invariant changed ==>
          Q.OneLane(store.names, Q.Cut(old(store.active)), store.active, store.names[lane], ds[lane].new_)
      {
        var d := ds[i];
        assert Justified(x, d, i);
        if d.action != Hold && d.new_ != d.old_ {
          var a := store.UpdateLaneQuotaIfVersion(store.names[i], d.new_, version);
          if a.Version? {
            last := last[i := now];
            changed, lane := true, i;
          }
        }
        i := i + 1;
      }
      if changed {
        assert Justified(x, ds[lane], lane);
        assert Wants(x, lane, ds[lane].action);
        Q.CutOneLane(store.names, old(store.active), store.active, store.names[lane], ds[lane].new_);
      }
    }
  }
}
