// Request bodies kept in memory or in a cache file.  A caller must not be able to
// tell which; where one can is stated exactly.

module BodyStore {
  import opened DiskCache
  import opened Integers

  type Data = seq<int>

  datatype Whence = FromStart | FromCurrent | FromEnd

  datatype Response =
    | Got(bytes: Data)
    | EndOfFile
    | Position(pos: nat)
    | Opened
    | Done
    | StorageClosed
    | BadSeek
    | FileClosed

  // ----- one cursor -----

  // A reader over a buffer reports the end before it looks at the length asked for.
  function BufferRead(data: Data, pos: nat, n: nat): (Response, nat) {
    if pos >= |data| then (EndOfFile, pos)
    else
      var end := if pos + n < |data| then pos + n else |data|;
      (Got(data[pos..end]), end)
  }

  // A file reports the end only for a read that asked for something.
  function FileRead(data: Data, pos: nat, n: nat): (Response, nat) {
    if n == 0 then (Got([]), pos) else BufferRead(data, pos, n)
  }

  function SeekTarget(data: Data, pos: nat, offset: int, whence: Whence): int {
    match whence
    case FromStart => offset
    case FromCurrent => pos + offset
    case FromEnd => |data| + offset
  }

  function Sought(data: Data, pos: nat, offset: int, whence: Whence): (Response, nat) {
    var target := SeekTarget(data, pos, offset, whence);
    if target < 0 then (BadSeek, pos) else (Position(target), target)
  }

  // ----- a whole storage with the readers it handed out -----

  datatype Op =
    | Read(n: nat)
    | Seek(offset: int, whence: Whence)
    | GetBytes
    | NewReader
    | ReaderRead(reader: nat, n: nat)
    | ReaderClose(reader: nat)
    | Close

  // Closing a reader over memory does nothing.
  datatype MemoryState = MemoryState(data: Data, pos: nat, closed: bool, readers: seq<nat>)

  datatype Descriptor = Descriptor(pos: nat, closed: bool)

  datatype DiskState = DiskState(content: Data, pos: nat, size: nat, closed: bool, readers: seq<Descriptor>)

  function MemoryStep(m: MemoryState, op: Op): (MemoryState, Response) {
    match op
    case ReaderRead(i, n) =>
      if i >= |m.readers| then (m, Done)
      else var (r, pos) := BufferRead(m.data, m.readers[i], n); (m.(readers := m.readers[i := pos]), r)
    case ReaderClose(_) => (m, Done)
    case Close => (m.(closed := true), Done)
    case Read(n) =>
      if m.closed then (m, StorageClosed)
      else var (r, pos) := BufferRead(m.data, m.pos, n); (m.(pos := pos), r)
    case Seek(offset, whence) =>
      if m.closed then (m, StorageClosed)
      else var (r, pos) := Sought(m.data, m.pos, offset, whence); (m.(pos := pos), r)
    case GetBytes => (m, if m.closed then StorageClosed else Got(m.data))
    case NewReader => if m.closed then (m, StorageClosed) else (m.(readers := m.readers + [0]), Opened)
  }

  // Everything is read by seeking to the start, reading the recorded size and seeking back.
  function ReadWhole(d: DiskState): (DiskState, Response) {
    var (_, start) := Sought(d.content, d.pos, 0, FromStart);
    if start + d.size > |d.content| then (d.(pos := |d.content|), EndOfFile)
    else var (_, back) := Sought(d.content, start + d.size, d.pos, FromStart); (d.(pos := back), Got(d.content[start..start + d.size]))
  }

  function DiskStep(d: DiskState, op: Op): (DiskState, Response) {
    match op
    case ReaderRead(i, n) =>
      if i >= |d.readers| then (d, Done)
      else if d.readers[i].closed then (d, FileClosed)
      else var (r, pos) := FileRead(d.content, d.readers[i].pos, n); (d.(readers := d.readers[i := Descriptor(pos, false)]), r)
    case ReaderClose(i) =>
      if i >= |d.readers| then (d, Done)
      else if d.readers[i].closed then (d, FileClosed)
      else (d.(readers := d.readers[i := d.readers[i].(closed := true)]), Done)
    case Close => (d.(closed := true), Done)
    case Read(n) =>
      if d.closed then (d, StorageClosed)
      else var (r, pos) := FileRead(d.content, d.pos, n); (d.(pos := pos), r)
    case Seek(offset, whence) =>
      if d.closed then (d, StorageClosed)
      else var (r, pos) := Sought(d.content, d.pos, offset, whence); (d.(pos := pos), r)
    case GetBytes => if d.closed then (d, StorageClosed) else ReadWhole(d)
    case NewReader => if d.closed then (d, StorageClosed) else (d.(readers := d.readers + [Descriptor(0, false)]), Opened)
  }

  function MemoryAfter(data: Data, ops: seq<Op>): MemoryState {
    if ops == [] then MemoryState(data, 0, false, []) else MemoryStep(MemoryAfter(data, ops[..|ops| - 1]), ops[|ops| - 1]).0
  }

  function DiskAfter(data: Data, ops: seq<Op>): DiskState {
    if ops == [] then DiskState(data, 0, |data|, false, []) else DiskStep(DiskAfter(data, ops[..|ops| - 1]), ops[|ops| - 1]).0
  }

  // The two agree on everything but readers that were closed on disk.
  predicate Alike(m: MemoryState, d: DiskState) {
    && m.data == d.content && m.pos == d.pos && d.size == |d.content| && m.closed == d.closed
    && |m.readers| == |d.readers|
    && forall i :: 0 <= i < |d.readers| && !d.readers[i].closed ==> m.readers[i] == d.readers[i].pos
  }

  // An operation that shows the difference: an empty read at the end, or any use of a closed reader.
  predicate Telling(d: DiskState, op: Op) {
    match op
    case Read(n) => !d.closed && n == 0 && d.pos >= |d.content|
    case ReaderRead(i, n) => i < |d.readers| && (d.readers[i].closed || (n == 0 && d.readers[i].pos >= |d.content|))
    case ReaderClose(i) => i < |d.readers| && d.readers[i].closed
    case _ => false
  }

  lemma StepAlike(m: MemoryState, d: DiskState, op: Op)
    requires Alike(m, d)
    ensures Alike(MemoryStep(m, op).0, DiskStep(d, op).0)
    ensures MemoryStep(m, op).1 == DiskStep(d, op).1 <==> !Telling(d, op)
  {
    match op
    case GetBytes =>
      assert d.content[0..d.size] == m.data;
    case ReaderRead(i, n) =>
      if i < |d.readers| && d.readers[i].closed {
        assert MemoryStep(m, op).1 != FileClosed;
      }
    case _ =>
  }

  lemma {:induction false} RunsAlike(data: Data, ops: seq<Op>)
    ensures Alike(MemoryAfter(data, ops), DiskAfter(data, ops))
  {
    if ops != [] {
      RunsAlike(data, ops[..|ops| - 1]);
      StepAlike(MemoryAfter(data, ops[..|ops| - 1]), DiskAfter(data, ops[..|ops| - 1]), ops[|ops| - 1]);
    }
  }

  // After any sequence of operations both storages answer the next one alike, exactly unless it is a
  // read of nothing at the end or uses a reader after that reader was closed.
  lemma IndistinguishableIff(data: Data, ops: seq<Op>, op: Op)
    ensures MemoryStep(MemoryAfter(data, ops), op).1 == DiskStep(DiskAfter(data, ops), op).1 <==> !Telling(DiskAfter(data, ops), op)
  {
    RunsAlike(data, ops);
    StepAlike(MemoryAfter(data, ops), DiskAfter(data, ops), op);
  }

  predicate Touches(op: Op, reader: nat) {
    (op.ReaderRead? || op.ReaderClose?) && op.reader == reader
  }

  lemma StepLeavesReader(d: DiskState, op: Op, i: nat)
    requires i < |d.readers| && !Touches(op, i)
    ensures var d' := DiskStep(d, op).0; i < |d'.readers| && d'.readers[i] == d.readers[i] && d'.content == d.content
  {}

  lemma StepLeavesMemoryReader(m: MemoryState, op: Op, i: nat)
    requires i < |m.readers| && !Touches(op, i)
    ensures var m' := MemoryStep(m, op).0; i < |m'.readers| && m'.readers[i] == m.readers[i] && m'.data == m.data
  {}

  // A reader goes on where it was, whatever else happens, the closing of the storage included.
  lemma {:induction false} ReadersAreIndependent(data: Data, before: seq<Op>, others: seq<Op>, i: nat)
    requires i < |DiskAfter(data, before).readers| && forall op :: op in others ==> !Touches(op, i)
    ensures var d, d' := DiskAfter(data, before), DiskAfter(data, before + others);
            i < |d'.readers| && d'.readers[i] == d.readers[i] && d'.content == d.content == data
    ensures var m, m' := MemoryAfter(data, before), MemoryAfter(data, before + others);
            i < |m.readers| && i < |m'.readers| && m'.readers[i] == m.readers[i] && m'.data == m.data == data
    decreases |others|
  {
    hide DiskStep, MemoryStep;
    RunsKeepContent(data, before);
    RunsAlike(data, before);
    if others == [] {
      assert before + others == before;
    } else {
      var n := |others| - 1;
      assert (before + others)[..|before + others| - 1] == before + others[..n];
      assert others[n] in others;
      ReadersAreIndependent(data, before, others[..n], i);
      StepLeavesReader(DiskAfter(data, before + others[..n]), others[n], i);
      StepLeavesMemoryReader(MemoryAfter(data, before + others[..n]), others[n], i);
    }
  }

  lemma {:induction false} RunsKeepContent(data: Data, ops: seq<Op>)
    ensures DiskAfter(data, ops).content == data
  {
    if ops != [] {
      RunsKeepContent(data, ops[..|ops| - 1]);
    }
  }

  // Reading everything gives exactly the data and leaves no trace.
  lemma BytesLeaveNoTrace(data: Data, ops: seq<Op>)
    ensures var d := DiskAfter(data, ops); !d.closed ==> DiskStep(d, GetBytes) == (d, Got(data))
  {
    RunsAlike(data, ops);
    RunsKeepContent(data, ops);
    assert data[0..|data|] == data;
  }

  // ----- the classes -----

  class BufferReader {
    const data: Data
    var pos: nat

    constructor (data: Data)
      ensures this.data == data && pos == 0
    {
      this.data := data;
      pos := 0;
    }

    method Read(n: nat) returns (r: Response)
      modifies this
      ensures (r, pos) == BufferRead(data, old(pos), n)
    {
      if pos >= |data| { return EndOfFile; }
      var end := if pos + n < |data| then pos + n else |data|;
      r := Got(data[pos..end]);
      pos := end;
    }

    method Seek(offset: int, whence: Whence) returns (r: Response)
      modifies this
      ensures (r, pos) == Sought(data, old(pos), offset, whence)
      ensures var target := offset + if whence == FromStart then 0 else if whence == FromCurrent then old(pos) else |data|;
              if target < 0 then r == BadSeek && pos == old(pos) else r == Position(target) && pos == target
    {
      var target := SeekTarget(data, pos, offset, whence);
      if target < 0 { return BadSeek; }
      pos := target;
      r := Position(pos);
    }
  }

  // An open descriptor of a cache file; unlinking the file does not disturb it.
  class OpenFile {
    const content: Data
    var pos: nat
    var closed: bool

    constructor (content: Data)
      ensures this.content == content && pos == 0 && !closed
    {
      this.content := content;
      pos, closed := 0, false;
    }

    method Read(n: nat) returns (r: Response)
      modifies this
      ensures closed == old(closed)
      ensures if closed then r == FileClosed && pos == old(pos) else (r, pos) == FileRead(content, old(pos), n)
    {
      if closed { return FileClosed; }
      if n == 0 { return Got([]); }
      if pos >= |content| { return EndOfFile; }
      var end := if pos + n < |content| then pos + n else |content|;
      r := Got(content[pos..end]);
      pos := end;
    }

    method Seek(offset: int, whence: Whence) returns (r: Response)
      requires !closed
      modifies this
      ensures !closed && (r, pos) == Sought(content, old(pos), offset, whence)
      ensures var target := offset + if whence == FromStart then 0 else if whence == FromCurrent then old(pos) else |content|;
              if target < 0 then r == BadSeek && pos == old(pos) else r == Position(target) && pos == target
    {
      var target := SeekTarget(content, pos, offset, whence);
      if target < 0 { return BadSeek; }
      pos := target;
      r := Position(pos);
    }

    method Close() returns (r: Response)
      modifies this
      ensures closed && pos == old(pos) && r == if old(closed) then FileClosed else Done
    {
      r := if closed then FileClosed else Done;
      closed := true;
    }
  }

  class MemoryStorage {
    const data: Data
    const reader: BufferReader
    const size: nat
    const stats: CacheStats
    var closed: bool

    ghost predicate Valid()
      reads this, reader
    {
      reader.data == data && size == |data|
    }

    ghost function State(): MemoryState
      reads this, reader
    {
      MemoryState(data, reader.pos, closed, [])
    }

    constructor (data: Data, stats: CacheStats)
      modifies stats`activeMemoryBuffers, stats`memoryUsage
      ensures Valid() && fresh(reader) && this.stats == stats && State() == MemoryState(data, 0, false, [])
      ensures stats.activeMemoryBuffers == old(stats.activeMemoryBuffers) + 1 && stats.memoryUsage == old(stats.memoryUsage) + |data|
    {
      this.data := data;
      this.reader := new BufferReader(data);
      this.size := |data|;
      this.stats := stats;
      closed := false;
      new;
      stats.IncrementMemoryBuffers(|data|);
    }

    method Read(n: nat) returns (r: Response)
      requires Valid()
      modifies reader
      ensures Valid() && (State(), r) == MemoryStep(old(State()), Op.Read(n))
    {
      if closed { return StorageClosed; }
      r := reader.Read(n);
    }

    method Seek(offset: int, whence: Whence) returns (r: Response)
      requires Valid()
      modifies reader
      ensures Valid() && (State(), r) == MemoryStep(old(State()), Op.Seek(offset, whence))
    {
      if closed { return StorageClosed; }
      r := reader.Seek(offset, whence);
    }

    method Bytes() returns (r: Response)
      requires Valid()
      ensures (State(), r) == MemoryStep(State(), GetBytes)
    {
      if closed { return StorageClosed; }
      r := Got(data);
    }

    method NewReader() returns (r: Response, another: BufferReader?)
      requires Valid()
      ensures r == MemoryStep(State(), Op.NewReader).1
      ensures r == Opened <==> another != null
      ensures another != null ==> fresh(another) && another.data == data && another.pos == 0
    {
      if closed { return StorageClosed, null; }
      another := new BufferReader(data);
      r := Opened;
    }

    method Close()
      requires Valid()
      modifies this`closed, stats`activeMemoryBuffers, stats`memoryUsage
      ensures Valid() && (State(), Done) == MemoryStep(old(State()), Op.Close)
      ensures stats.activeMemoryBuffers == old(stats.activeMemoryBuffers) - if old(closed) then 0 else 1
      ensures stats.memoryUsage == old(stats.memoryUsage) - if old(closed) then 0 else size
    {
      if !closed {
        closed := true;
        stats.DecrementMemoryBuffers(size);
      }
    }
  }

  class DiskStorage {
    const file: OpenFile
    const size: nat
    const stats: CacheStats
    var closed: bool

    ghost predicate Valid()
      reads this, file
    {
      size == |file.content| && file.closed == closed
    }

    ghost function State(): DiskState
      reads this, file
    {
      DiskState(file.content, file.pos, size, closed, [])
    }

    constructor (data: Data, stats: CacheStats)
      modifies stats`activeDiskFiles, stats`diskUsage
      ensures Valid() && fresh(file) && this.stats == stats && State() == DiskState(data, 0, |data|, false, [])
      ensures stats.activeDiskFiles == old(stats.activeDiskFiles) + 1 && stats.diskUsage == old(stats.diskUsage) + |data|
    {
      this.file := new OpenFile(data);
      this.size := |data|;
      this.stats := stats;
      closed := false;
      new;
      stats.IncrementDiskFiles(|data|);
    }

    method Read(n: nat) returns (r: Response)
      requires Valid()
      modifies file
      ensures Valid() && (State(), r) == DiskStep(old(State()), Op.Read(n))
    {
      if closed { return StorageClosed; }
      r := file.Read(n);
    }

    method Seek(offset: int, whence: Whence) returns (r: Response)
      requires Valid()
      modifies file
      ensures Valid() && (State(), r) == DiskStep(old(State()), Op.Seek(offset, whence))
    {
      if closed { return StorageClosed; }
      r := file.Seek(offset, whence);
    }

    // Remember the cursor, read everything from the start, restore the cursor.
    method Bytes() returns (r: Response)
      requires Valid()
      modifies file
      ensures Valid() && (State(), r) == DiskStep(old(State()), GetBytes)
      ensures State() == old(State())
    {
      if closed { return StorageClosed; }
      var current := file.Seek(0, FromCurrent);
      var start := file.Seek(0, FromStart);
      r := file.Read(size);
      assert file.content[0..size] == file.content;
      var back := file.Seek(current.pos, FromStart);
    }

    method NewReader() returns (r: Response, another: OpenFile?)
      requires Valid()
      ensures r == DiskStep(State(), Op.NewReader).1
      ensures r == Opened <==> another != null
      ensures another != null ==> fresh(another) && another.content == file.content && another.pos == 0 && !another.closed
    {
      if closed { return StorageClosed, null; }
      another := new OpenFile(file.content);
      r := Opened;
    }

    method Close()
      requires Valid()
      modifies this`closed, file, stats`activeDiskFiles, stats`diskUsage
      ensures Valid() && (State(), Done) == DiskStep(old(State()), Op.Close)
      ensures stats.activeDiskFiles == if old(closed) then old(stats.activeDiskFiles) else Lowered(old(stats.activeDiskFiles), 1, true)
      ensures stats.diskUsage == if old(closed) then old(stats.diskUsage) else Lowered(old(stats.diskUsage), size, true)
    {
      if !closed {
        closed := true;
        var _ := file.Close();
        stats.DecrementDiskFiles(size);
      }
    }
  }

  datatype Storage = InMemory(memory: MemoryStorage) | OnDisk(disk: DiskStorage)

  datatype Creation = Created(storage: Storage) | TooLarge | DiskFailed

  // ----- creating from a stream -----

  function Wrapped(x: int): int {
    if x > MaxInt64 then x - 0x1_0000_0000_0000_0000 else x
  }

  // What a reader limited to one byte more than the maximum delivers.
  function Limited(stream: Data, maxBytes: int): Data {
    var limit := Wrapped(maxBytes + 1);
    if limit <= 0 then [] else if limit < |stream| then stream[..limit] else stream
  }

  datatype Delivery = Delivered(data: Data) | Refused

  function Deliver(stream: Data, maxBytes: int): Delivery {
    var data := Limited(stream, maxBytes);
    if |data| > maxBytes then Refused else Delivered(data)
  }

  // Exactly the stream's bytes when they fit and a refusal otherwise: for every maximum but the
  // largest integer, where adding one wraps around and any body is taken for empty.
  lemma DeliversWhatFitsIff(maxBytes: int)
    requires MinInt64 <= maxBytes <= MaxInt64
    ensures (forall stream: Data | |stream| <= MaxInt64 ::
               Deliver(stream, maxBytes) == if |stream| <= maxBytes then Delivered(stream) else Refused)
            <==> maxBytes < MaxInt64
  {
    if maxBytes == MaxInt64 {
      var stream: Data := [0];
      assert |stream| <= MaxInt64 && Deliver(stream, maxBytes) == Delivered([]);
    } else {
      forall stream: Data | |stream| <= MaxInt64
        ensures Deliver(stream, maxBytes) == if |stream| <= maxBytes then Delivered(stream) else Refused
      {}
    }
  }

  ghost predicate Holds(storage: Storage, data: Data)
    reads if storage.InMemory? then {storage.memory, storage.memory.reader} else {storage.disk, storage.disk.file}
  {
    match storage
    case InMemory(m) => m.Valid() && m.State() == MemoryState(data, 0, false, [])
    case OnDisk(d) => d.Valid() && d.State() == DiskState(data, 0, |data|, false, [])
  }

  // One more storage of its kind is counted, with its size, and nothing else.
  twostate predicate Counts(stats: CacheStats, onDisk: bool, size: nat)
    reads stats
  {
    var disk, memory := if onDisk then 1 else 0, if onDisk then 0 else 1;
    && stats.activeDiskFiles == old(stats.activeDiskFiles) + disk && stats.diskUsage == old(stats.diskUsage) + disk * size
    && stats.activeMemoryBuffers == old(stats.activeMemoryBuffers) + memory && stats.memoryUsage == old(stats.memoryUsage) + memory * size
  }

  method CreateBodyStorage(data: Data, config: Config, diskWorks: bool, stats: CacheStats) returns (storage: Storage)
    modifies stats
    ensures Holds(storage, data) && Counts(stats, storage.OnDisk?, |data|)
    ensures old(stats.diskUsage) <= config.maximum ==> stats.diskUsage <= config.maximum
    ensures storage.OnDisk? <==> diskWorks && config.enabled && |data| >= config.threshold && old(stats.diskUsage) + |data| <= config.maximum
  {
    if config.enabled && |data| >= config.threshold && stats.IsDiskCacheAvailable(config, |data|) {
      if !diskWorks {
        var memory := new MemoryStorage(data, stats);
        return InMemory(memory);
      }
      var disk := new DiskStorage(data, stats);
      return OnDisk(disk);
    }
    var memory := new MemoryStorage(data, stats);
    storage := InMemory(memory);
  }

  // Whichever way the body takes, what is stored is what the limited reader delivers; the disk stays within
  // its maximum unless a body is longer than announced.
  method CreateBodyStorageFromReader(stream: Data, contentLength: int, maxBytes: int, config: Config, diskWorks: bool, stats: CacheStats)
      returns (r: Creation)
    modifies stats
    ensures var announced := config.enabled && 0 < contentLength && config.threshold <= contentLength
                             && old(stats.diskUsage) + contentLength <= config.maximum;
            && (r.DiskFailed? <==> announced && !diskWorks)
            && (r.Created? ==>
                  var size := |Limited(stream, maxBytes)|;
                  r.storage.OnDisk? <==> announced || (diskWorks && config.enabled && size >= config.threshold
                                                       && old(stats.diskUsage) + size <= config.maximum))
    ensures !r.DiskFailed? ==> match Deliver(stream, maxBytes)
                               case Refused => r.TooLarge?
                               case Delivered(data) => r.Created? && Holds(r.storage, data) && Counts(stats, r.storage.OnDisk?, |data|)
    ensures !r.Created? ==> unchanged(stats)
    ensures old(stats.diskUsage) <= config.maximum && (contentLength <= 0 || |stream| <= contentLength) ==> stats.diskUsage <= config.maximum
  {
    if config.enabled && contentLength > 0 && contentLength >= config.threshold && stats.IsDiskCacheAvailable(config, contentLength) {
      if !diskWorks { return DiskFailed; }
      var written := Limited(stream, maxBytes);
      if |written| > maxBytes { return TooLarge; }
      var disk := new DiskStorage(written, stats);
      return Created(OnDisk(disk));
    }
    var data := Limited(stream, maxBytes);
    if |data| > maxBytes { return TooLarge; }
    var storage := CreateBodyStorage(data, config, diskWorks, stats);
    r := Created(storage);
  }
}
