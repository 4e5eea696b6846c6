/** Stopping and starting again through the state file. */
module Restart {
  import opened Base
  import opened Records
  import opened Spec
  import opened Books
  import opened RegionBooks
  import opened Runs
  import opened Fencing
  import opened Guarantees
  import Persistence
  import StateFile

  /** A new engine that reads a state file when there is one; a file that does not load is ignored. */
  function Recovered(s: State, file: Option<seq<byte>>): State {
    if file.None? then s
    else
      var ps := StateFile.Load(file.value);
      if ps.Ok? then Import(s, ps.value) else s
  }

  /** What goes through the file and is then imported differs from a direct import only in what the file drops. */
  lemma ImportThroughFile(s: State, ps: Persisted)
    ensures var t, u := Import(s, Persistence.Durable(ps)), Import(s, ps);
      && t.pools == u.pools && t.ledger == u.ledger && t.devices.Keys == u.devices.Keys
      && t.regions.Keys == u.regions.Keys
      && (forall d | d in u.devices :: t.devices[d] == u.devices[d].(ports := [], switchAncestry := []))
      && (forall r | r in u.regions ::
            t.regions[r] == Persistence.DurableRegion(u.regions[r]).(state := RegionRevalidationRequired))
  {
    SamePools(s, ps);
    SameDevices(s, ps);
    SameRegions(s, ps);
  }

  lemma SameDevices(s: State, ps: Persisted)
    ensures var t, u := Import(s, Persistence.Durable(ps)).devices, Import(s, ps).devices;
      t.Keys == u.Keys && forall d | d in u :: t[d] == u[d].(ports := [], switchAncestry := [])
  {}

  lemma SameRegions(s: State, ps: Persisted)
    ensures var t, u := Import(s, Persistence.Durable(ps)).regions, Import(s, ps).regions;
      && t.Keys == u.Keys
      && forall r | r in u :: t[r] == Persistence.DurableRegion(u[r]).(state := RegionRevalidationRequired)
  {}

  lemma SamePools(s: State, ps: Persisted)
    ensures Import(s, Persistence.Durable(ps)).pools == Import(s, ps).pools
  {}

  lemma DurableFiled(s: State)
    requires Filed(s)
    ensures var ps := Persistence.Durable(Export(s)); FiledById(ps.devices, ps.regions, ps.pools)
  {}

  lemma DurableRegions(s: State)
    requires Filed(s)
    ensures RestorableRegions(Persistence.Durable(Export(s)))
  {
    DurableFiled(s);
  }

  lemma DurablePools(s: State)
    requires RestorablePools(Export(s))
    ensures RestorablePools(Persistence.Durable(Export(s)))
  {
    var ps := Persistence.Durable(Export(s));
    forall p | p in ps.pools ensures ps.pools[p].reserved + ps.pools[p].committed <= U64_MAX {
      assert p in Export(s).pools;
    }
  }

  /** Pools go on counting what they had in use. */
  ghost predicate PoolsCountAfterRestart(s: State, t: State) {
    forall p | p in s.pools ::
      p in t.pools && t.pools[p].reserved + t.pools[p].committed ==
        s.pools[p].reserved + s.pools[p].committed + Bytes(t.reservations, LiveIn(p))
  }

  /** Regions count only what was reserved since. */
  ghost predicate RegionsCountAfterRestart(s: State, t: State) {
    forall r | r in s.regions ::
      r in t.regions && t.regions[r].reserved + t.regions[r].committed == Bytes(t.reservations, LiveOn(r))
  }

  lemma DurablePoolCounts(s: State, t: State)
    requires PoolsCountOn(Persistence.Durable(Export(s)), t)
    ensures PoolsCountAfterRestart(s, t)
  {
    var ps := Persistence.Durable(Export(s));
    forall p | p in s.pools ensures p in ps.pools
      && ps.pools[p].reserved == s.pools[p].reserved && ps.pools[p].committed == s.pools[p].committed {}
  }

  lemma DurableRegionCounts(s: State, t: State)
    requires RegionsCountOn(Persistence.Durable(Export(s)), t)
    ensures RegionsCountAfterRestart(s, t)
  {
    var ps := Persistence.Durable(Export(s));
    forall r | r in s.regions ensures r in ps.regions
      && ps.regions[r].reserved == 0 && ps.regions[r].committed == 0 {}
  }

  lemma RecoveredIsImported(s: State, start: State)
    requires Persistence.Expressible(Export(s)) && Persistence.Readable(Export(s)) && StateFile.Save(Export(s)).Ok?
    ensures Recovered(start, Some(StateFile.Save(Export(s)).value)) == Import(start, Persistence.Durable(Export(s)))
  {
    StateFile.SaveThenLoad(Export(s));
  }

  lemma ImportKeepsBytes(s: State, start: State, ops: seq<Op>)
    requires Filed(s) && NoRestore(ops)
    requires RegionSensibleRun(Import(start, Persistence.Durable(Export(s))), ops)
    ensures RegionsCountAfterRestart(s, Run(Import(start, Persistence.Durable(Export(s))), ops))
    ensures RestorablePools(Export(s)) && AdmissibleRun(Import(start, Persistence.Durable(Export(s))), ops) ==>
      PoolsCountAfterRestart(s, Run(Import(start, Persistence.Durable(Export(s))), ops))
  {
    var ps := Persistence.Durable(Export(s));
    DurableRegions(s);
    ExportedBytesStay(start, ps, ops);
    DurableRegionCounts(s, Run(Import(start, ps), ops));
    if RestorablePools(Export(s)) && AdmissibleRun(Import(start, ps), ops) {
      DurablePools(s);
      DurablePoolCounts(s, Run(Import(start, ps), ops));
    }
  }

  /**
   * In every later state of an engine that was saved, stopped and started again from its file, the pools count every
   * byte they had in use on top of what is reserved afterwards. The region counters are not in the file, so a region
   * counts the new reservations only.
   */
  lemma RestartKeepsBytes(s: State, start: State, ops: seq<Op>)
    requires Filed(s) && NoRestore(ops)
    requires Persistence.Expressible(Export(s)) && Persistence.Readable(Export(s)) && StateFile.Save(Export(s)).Ok?
    requires RegionSensibleRun(Recovered(start, Some(StateFile.Save(Export(s)).value)), ops)
    ensures var u := Recovered(start, Some(StateFile.Save(Export(s)).value));
      && RegionsCountAfterRestart(s, Run(u, ops))
      && (RestorablePools(Export(s)) && AdmissibleRun(u, ops) ==> PoolsCountAfterRestart(s, Run(u, ops)))
  {
    RecoveredIsImported(s, start);
    ImportKeepsBytes(s, start, ops);
  }
}
