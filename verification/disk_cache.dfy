// The counters of the request-body cache.  Every counter is updated by its own
// atomic step, so the steps of several storages interleave freely.

module DiskCache {

  // How far the accounting of one storage has come.
  datatype Phase =
    | Fresh       // file or buffer filled, nothing counted yet
    | Counted
    | Live
    | Closing     // closed flag taken
    | Uncounted
    | Gone

  datatype Entry = Entry(size: nat, phase: Phase)

  datatype Accounts = Accounts(entries: seq<Entry>, count: int, bytes: int)

  const NoAccounts := Accounts([], 0, 0)

  datatype Action = Create(size: nat) | Advance(index: nat)

  // Disk counters are reset to zero when they would become negative; memory counters are not.
  function Lowered(counter: int, amount: int, clamps: bool): int {
    if clamps && counter - amount < 0 then 0 else counter - amount
  }

  function Step(a: Accounts, action: Action, clamps: bool): Accounts {
    match action
    case Create(size) => a.(entries := a.entries + [Entry(size, Fresh)])
    case Advance(i) =>
      if i >= |a.entries| then a
      else
        var e := a.entries[i];
        match e.phase
        case Fresh => Accounts(a.entries[i := e.(phase := Counted)], a.count + 1, a.bytes)
        case Counted => Accounts(a.entries[i := e.(phase := Live)], a.count, a.bytes + e.size)
        case Live => a.(entries := a.entries[i := e.(phase := Closing)])
        case Closing => Accounts(a.entries[i := e.(phase := Uncounted)], Lowered(a.count, 1, clamps), a.bytes)
        case Uncounted => Accounts(a.entries[i := e.(phase := Gone)], a.count, Lowered(a.bytes, e.size, clamps))
        case Gone => a
  }

  function Run(actions: seq<Action>, clamps: bool): Accounts {
    if actions == [] then NoAccounts else Step(Run(actions[..|actions| - 1], clamps), actions[|actions| - 1], clamps)
  }

  function CountShare(e: Entry): nat {
    if e.phase == Counted || e.phase == Live || e.phase == Closing then 1 else 0
  }

  function ByteShare(e: Entry): nat {
    if e.phase == Live || e.phase == Closing || e.phase == Uncounted then e.size else 0
  }

  function Total(entries: seq<Entry>, share: Entry -> nat): nat {
    if entries == [] then 0 else Total(entries[..|entries| - 1], share) + share(entries[|entries| - 1])
  }

  lemma {:induction false} TotalUpdate(entries: seq<Entry>, i: nat, e: Entry, share: Entry -> nat)
    requires i < |entries|
    ensures Total(entries[i := e], share) == Total(entries, share) - share(entries[i]) + share(e)
    ensures share(entries[i]) <= Total(entries, share)
  {
    var n := |entries| - 1;
    if i == n {
      assert entries[i := e][..n] == entries[..n];
    } else {
      assert entries[i := e][..n] == entries[..n][i := e];
      TotalUpdate(entries[..n], i, e, share);
    }
  }

  // The counters are exactly what the storages have put into them and not yet taken out.
  predicate Balanced(a: Accounts) {
    a.count == Total(a.entries, CountShare) && a.bytes == Total(a.entries, ByteShare)
  }

  lemma {:induction false} TotalAppend(entries: seq<Entry>, e: Entry, share: Entry -> nat)
    ensures Total(entries + [e], share) == Total(entries, share) + share(e)
  {
    assert (entries + [e])[..|entries|] == entries;
  }

  lemma StepKeepsBalance(a: Accounts, action: Action, clamps: bool)
    requires Balanced(a)
    ensures Balanced(Step(a, action, clamps))
    ensures Step(a, action, true) == Step(a, action, false)
  {
    hide Total;
    match action
    case Create(size) =>
      TotalAppend(a.entries, Entry(size, Fresh), CountShare);
      TotalAppend(a.entries, Entry(size, Fresh), ByteShare);
    case Advance(i) =>
      if i < |a.entries| {
        var e := a.entries[i];
        var next := match e.phase
                    case Fresh => Counted
                    case Counted => Live
                    case Live => Closing
                    case Closing => Uncounted
                    case _ => Gone;
        TotalUpdate(a.entries, i, e.(phase := next), CountShare);
        TotalUpdate(a.entries, i, e.(phase := next), ByteShare);
      }
  }

  // In every interleaving the counters balance and the reset to zero is never taken.
  lemma {:induction false} RunBalances(actions: seq<Action>, clamps: bool)
    ensures Balanced(Run(actions, clamps)) && Run(actions, true) == Run(actions, false)
  {
    if actions != [] {
      RunBalances(actions[..|actions| - 1], clamps);
      StepKeepsBalance(Run(actions[..|actions| - 1], clamps), actions[|actions| - 1], clamps);
    }
  }

  predicate Settled(a: Accounts) {
    forall i :: 0 <= i < |a.entries| ==> a.entries[i].phase in {Fresh, Live, Gone}
  }

  function Open(entries: seq<Entry>): seq<nat> {
    if entries == [] then []
    else
      var last := entries[|entries| - 1];
      Open(entries[..|entries| - 1]) + if last.phase == Live then [last.size] else []
  }

  function Sum(sizes: seq<nat>): nat {
    if sizes == [] then 0 else Sum(sizes[..|sizes| - 1]) + sizes[|sizes| - 1]
  }

  // Whenever no storage is in the middle of being opened or closed, the counters are the number
  // and the total size of the storages that are open.
  lemma SettledCountersAreExact(actions: seq<Action>, clamps: bool)
    requires Settled(Run(actions, clamps))
    ensures var a := Run(actions, clamps); a.count == |Open(a.entries)| && a.bytes == Sum(Open(a.entries))
  {
    RunBalances(actions, clamps);
    SettledTotals(Run(actions, clamps).entries);
  }

  lemma {:induction false} SettledTotals(entries: seq<Entry>)
    requires forall i :: 0 <= i < |entries| ==> entries[i].phase in {Fresh, Live, Gone}
    ensures Total(entries, CountShare) == |Open(entries)| && Total(entries, ByteShare) == Sum(Open(entries))
  {
    if entries != [] {
      var front, last := entries[..|entries| - 1], entries[|entries| - 1];
      SettledTotals(front);
      if last.phase == Live {
        assert Open(entries) == Open(front) + [last.size] && Open(entries)[..|Open(entries)| - 1] == Open(front);
      } else {
        assert Open(entries) == Open(front);
      }
    }
  }

  datatype Config = Config(enabled: bool, threshold: int, maximum: int)

  class CacheStats {
    var activeDiskFiles: int
    var diskUsage: int
    var activeMemoryBuffers: int
    var memoryUsage: int

    constructor ()
      ensures activeDiskFiles == 0 && diskUsage == 0 && activeMemoryBuffers == 0 && memoryUsage == 0
    {
      activeDiskFiles, diskUsage, activeMemoryBuffers, memoryUsage := 0, 0, 0, 0;
    }

    method IncrementDiskFiles(size: nat)
      modifies this`activeDiskFiles, this`diskUsage
      ensures activeDiskFiles == old(activeDiskFiles) + 1 && diskUsage == old(diskUsage) + size
    {
      activeDiskFiles := activeDiskFiles + 1;
      diskUsage := diskUsage + size;
    }

    method DecrementDiskFiles(size: nat)
      modifies this`activeDiskFiles, this`diskUsage
      ensures activeDiskFiles == Lowered(old(activeDiskFiles), 1, true) && diskUsage == Lowered(old(diskUsage), size, true)
    {
      activeDiskFiles := activeDiskFiles - 1;
      if activeDiskFiles < 0 {
        activeDiskFiles := 0;
      }
      diskUsage := diskUsage - size;
      if diskUsage < 0 {
        diskUsage := 0;
      }
    }

    method IncrementMemoryBuffers(size: nat)
      modifies this`activeMemoryBuffers, this`memoryUsage
      ensures activeMemoryBuffers == old(activeMemoryBuffers) + 1 && memoryUsage == old(memoryUsage) + size
    {
      activeMemoryBuffers := activeMemoryBuffers + 1;
      memoryUsage := memoryUsage + size;
    }

    method DecrementMemoryBuffers(size: nat)
      modifies this`activeMemoryBuffers, this`memoryUsage
      ensures activeMemoryBuffers == Lowered(old(activeMemoryBuffers), 1, false) && memoryUsage == Lowered(old(memoryUsage), size, false)
    {
      activeMemoryBuffers := activeMemoryBuffers - 1;
      memoryUsage := memoryUsage - size;
    }

    predicate IsDiskCacheAvailable(config: Config, requestSize: int)
      reads this
    {
      config.enabled && diskUsage + requestSize <= config.maximum
    }
  }
}
