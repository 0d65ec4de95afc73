/**
 * The data logger of components/data_logger: a fixed-capacity ring buffer
 * of log entries (head index, entry count, next id), overwritten
 * oldest-first when full, trimmed by age, and persisted oldest-first into
 * an abstract NVS snapshot.  The mutex is not modelled: every operation
 * runs as if the lock had been taken.
 */
module DataLogger {

  import opened Wrappers
  import opened Esp
  import opened Seqs

  datatype LogType = SensorData | Alarm | PumpAction | SystemEvent | UserAction | SystemEventLegacy
  datatype LogLevel = Debug | Info | Warning | Error

  /** A stored entry (the sensor readings it may carry are not modelled). */
  datatype LogEntry = LogEntry(id: nat, kind: LogType, level: LogLevel, timestamp: nat, message: string)

  /** A slot cleared with memset. */
  const EmptyEntry := LogEntry(0, SensorData, Debug, 0, "")

  const StorageVersion := 1
  const PersistIntervalSec := 300
  const DefaultCleanupDays := 7
  const SecondsPerDay := 86400
  const MessageMax := 127
  const Uint32 := 0x1_0000_0000

  /** What save_locked leaves in NVS: the header and, when not empty, the entries. */
  datatype Header = Header(version: nat, count: nat, nextId: nat)
  datatype Stored = Stored(header: Option<Header>, entries: Option<seq<LogEntry>>)

  // ---------------------------------------------------------------------
  // The ring, as a sequence
  // ---------------------------------------------------------------------

  /** get_storage_index: `(head + i) % capacity`, written without the wrap for head, i < capacity. */
  function Slot(h: nat, i: nat, m: nat): (k: nat)
    requires h < m && i < m
    ensures k == if h + i < m then h + i else h + i - m
    ensures k < m
  {
    if h + i < m then (h + i) % m
    else assert h + i == m + (h + i - m); (h + i) % m
  }

  /** The logical contents: entry i lives in slot (head + i) mod capacity. */
  function LogView(s: seq<LogEntry>, h: nat, c: nat): (r: seq<LogEntry>)
    requires h < |s| && c <= |s|
    ensures |r| == c
    ensures forall i :: 0 <= i < c ==> r[i] == s[Slot(h, i, |s|)]
  {
    seq(c, i requires 0 <= i < c => s[Slot(h, i, |s|)])
  }

  /** Appending into the free slot after the last entry. */
  lemma RingAppend(s: seq<LogEntry>, h: nat, c: nat, e: LogEntry)
    requires h < |s| && c < |s|
    ensures LogView(s[Slot(h, c, |s|) := e], h, c + 1) == LogView(s, h, c) + [e]
  {
    var a := LogView(s[Slot(h, c, |s|) := e], h, c + 1);
    var b := LogView(s, h, c) + [e];
    forall i | 0 <= i < c + 1
      ensures a[i] == b[i]
    {
    }
  }

  /** The source's `% capacity` for an advance by one, written without the modulus. */
  lemma AdvanceByOne(h: nat, m: nat)
    requires h < m
    ensures 1 % m == (if m == 1 then 0 else 1)
    ensures (h + 1) % m == (if h + 1 < m then h + 1 else 0)
  {
    if h + 1 == m {
      assert (h + 1) % m == 0;
    }
  }

  /** Overwriting the oldest entry of a full ring and advancing the head. */
  lemma RingOverwrite(s: seq<LogEntry>, h: nat, e: LogEntry)
    requires h < |s|
    ensures Slot(h, 1 % |s|, |s|) == (h + 1) % |s|
    ensures LogView(s[h := e], (h + 1) % |s|, |s|) == LogView(s, h, |s|)[1..] + [e]
  {
    var m := |s|;
    AdvanceByOne(h, m);
    var h' := if h + 1 < m then h + 1 else 0;
    var a := LogView(s[h := e], h', m);
    var b := LogView(s, h, m)[1..] + [e];
    forall i | 0 <= i < m
      ensures a[i] == b[i]
    {
      var k := Slot(h', i, m);
      if i < m - 1 {
        assert k == Slot(h, i + 1, m) && k != h;
        assert b[i] == s[k];
      } else {
        assert k == h;
      }
    }
  }

  /** Clearing the oldest slot and advancing the head drops the first entry. */
  lemma RingDrop(s: seq<LogEntry>, h: nat, c: nat, z: LogEntry)
    requires h < |s| && 0 < c <= |s|
    ensures Slot(h, 1 % |s|, |s|) == (h + 1) % |s|
    ensures LogView(s[h := z], (h + 1) % |s|, c - 1) == LogView(s, h, c)[1..]
  {
    var m := |s|;
    AdvanceByOne(h, m);
    var h' := if h + 1 < m then h + 1 else 0;
    var a := LogView(s[h := z], h', c - 1);
    var b := LogView(s, h, c)[1..];
    forall i | 0 <= i < c - 1
      ensures a[i] == b[i]
    {
      var k := Slot(h', i, m);
      assert k == Slot(h, i + 1, m) && k != h;
      assert b[i] == s[k];
    }
  }

  /** remove_old_entries_locked on the logical contents: drop from the oldest end while older than `t`. */
  function DropOlder(xs: seq<LogEntry>, t: int): (r: seq<LogEntry>)
    ensures |r| <= |xs| && r == xs[|xs| - |r|..]
    ensures r != [] ==> r[0].timestamp >= t
    ensures forall i :: 0 <= i < |xs| - |r| ==> xs[i].timestamp < t
  {
    if xs != [] && xs[0].timestamp < t then DropOlder(xs[1..], t) else xs
  }

  /** The cleanup rule of data_logger_process: enabled, non-empty and a positive age limit. */
  function Cleaned(xs: seq<LogEntry>, enabled: bool, days: nat, now: int): (r: seq<LogEntry>)
    ensures !enabled || days == 0 ==> r == xs
    ensures enabled && days > 0 ==> r == DropOlder(xs, now - days * SecondsPerDay)
  {
    if enabled && |xs| > 0 && days > 0 then DropOlder(xs, now - days * SecondsPerDay) else xs
  }

  /** Ids strictly increase from the oldest to the newest entry and stay below `next`. */
  predicate IdsOrdered(xs: seq<LogEntry>, next: nat)
  {
    (forall i, j :: 0 <= i < j < |xs| ==> xs[i].id < xs[j].id)
    && (forall i :: 0 <= i < |xs| ==> xs[i].id < next)
  }

  /** Logging with `id = next_id++` keeps the ids ordered. */
  lemma LogKeepsIdsOrdered(xs: seq<LogEntry>, e: LogEntry, cap: nat, next: nat)
    requires 0 < cap && |xs| <= cap && IdsOrdered(xs, next) && e.id == next
    ensures IdsOrdered(PushBounded(xs, e, cap), next + 1)
  {
    var r := PushBounded(xs, e, cap);
    var k := if |xs| < cap then 0 else 1;
    assert forall i :: 0 <= i < |r| - 1 ==> r[i] == xs[i + k];
  }

  /** Trimming by age keeps the ids ordered. */
  lemma {:induction false} DropKeepsIdsOrdered(xs: seq<LogEntry>, t: int, next: nat)
    requires IdsOrdered(xs, next)
    ensures IdsOrdered(DropOlder(xs, t), next)
  {
    if xs != [] && xs[0].timestamp < t {
      assert forall i :: 0 <= i < |xs| - 1 ==> xs[1..][i] == xs[i + 1];
      DropKeepsIdsOrdered(xs[1..], t, next);
    }
  }

  /** The entries load_locked restores: at most the capacity, oldest first. */
  function Restored(entries: seq<LogEntry>, cap: nat): (r: seq<LogEntry>)
    ensures |r| <= cap && |r| <= |entries| && r == entries[..|r|]
    ensures |entries| <= cap ==> r == entries
  {
    if |entries| <= cap then entries else entries[..cap]
  }

  /**
   * The two lengths of load_locked as written, in bytes: the buffer it
   * allocates holds the whole entries that fit the capacity, yet the second
   * nvs_get_blob is told the length of the whole blob.
   */
  function LoadLengthsAsWritten(blobBytes: nat, entryBytes: nat, cap: nat): (r: (nat, nat))
    requires entryBytes > 0
    ensures r.0 <= cap * entryBytes && r.0 <= blobBytes && r.1 == blobBytes
  {
    var stored := blobBytes / entryBytes;
    var kept := if stored > cap then cap else stored;
    assert kept * entryBytes <= blobBytes by {
      assert stored * entryBytes <= blobBytes;
      assert kept * entryBytes <= stored * entryBytes;
    }
    assert kept * entryBytes <= cap * entryBytes;
    (kept * entryBytes, blobBytes)
  }

  /** A blob holding more whole entries than the capacity asks for more bytes than the buffer holds. */
  lemma LoadReadOverrunsBuffer(blobBytes: nat, entryBytes: nat, cap: nat)
    requires entryBytes > 0 && blobBytes / entryBytes > cap
    ensures var r := LoadLengthsAsWritten(blobBytes, entryBytes, cap); r.1 > r.0
  {
    var q := blobBytes / entryBytes;
    assert LoadLengthsAsWritten(blobBytes, entryBytes, cap) == (cap * entryBytes, blobBytes);
    assert cap * entryBytes < q * entryBytes by { ScaleIsStrict(cap, q, entryBytes); }
    assert q * entryBytes <= blobBytes;
  }

  lemma ScaleIsStrict(a: nat, b: nat, k: nat)
    requires a < b && k > 0
    ensures a * k < b * k
  {
    assert b * k == a * k + (b - a) * k;
  }

  /** A blob shorter than one entry gets a buffer of no bytes, and the read still asks for the blob. */
  lemma LoadShortBlobGetsEmptyBuffer(blobBytes: nat, entryBytes: nat, cap: nat)
    requires 0 < blobBytes < entryBytes
    ensures LoadLengthsAsWritten(blobBytes, entryBytes, cap) == (0, blobBytes)
  {
  }

  class Logger {
    var initialized: bool      // g_log_entries != NULL
    var buffer: array<LogEntry>
    var count: nat
    var head: nat
    var nextId: nat
    var dirty: bool
    var lastPersist: int
    var autoCleanup: bool
    var autoCleanupDays: nat
    var nvs: Option<Stored>    // the abstract NVS namespace; None when it was never written

    predicate Valid()
      reads this
    {
      (initialized ==> 0 < buffer.Length && head < buffer.Length && count <= buffer.Length)
      && (!initialized ==> count == 0 && head == 0)
    }

    /** g_max_entries. */
    function Capacity(): nat
      reads this
    {
      if initialized then buffer.Length else 0
    }

    /** The entries oldest first. */
    function Contents(): (xs: seq<LogEntry>)
      reads this, buffer
      requires Valid()
      ensures |xs| == count && count <= Capacity()
    {
      if initialized then LogView(buffer[..], head, count) else []
    }

    /** The module state before data_logger_init. */
    constructor(storedLogs: Option<Stored>)
      ensures Valid() && !initialized && Contents() == []
      ensures nextId == 1 && !dirty && !autoCleanup && autoCleanupDays == DefaultCleanupDays
      ensures nvs == storedLogs
    {
      initialized := false;
      buffer := new LogEntry[0];
      count := 0;
      head := 0;
      nextId := 1;
      dirty := false;
      lastPersist := 0;
      autoCleanup := false;
      autoCleanupDays := DefaultCleanupDays;
      nvs := storedLogs;
    }

    /** data_logger_init: a second call is a no-op; capacity 0 is rejected. */
    method Init(maxEntries: nat, now: int) returns (err: Err)
      requires Valid()
      modifies this
      ensures Valid()
      ensures old(initialized) ==> err == Ok && unchanged(this)
      ensures !old(initialized) && maxEntries == 0 ==> err == ErrInvalidArg && unchanged(this)
      ensures !old(initialized) && maxEntries > 0 ==>
        err == Ok && initialized && fresh(buffer) && Capacity() == maxEntries && Contents() == []
        && head == 0 && nextId == 1 && !dirty && lastPersist == now
        && autoCleanup == old(autoCleanup) && autoCleanupDays == old(autoCleanupDays) && nvs == old(nvs)
    {
      if initialized {
        return Ok;
      }
      if maxEntries == 0 {
        return ErrInvalidArg;
      }
      buffer := new LogEntry[maxEntries](_ => EmptyEntry);
      initialized := true;
      count := 0;
      head := 0;
      nextId := 1;
      dirty := false;
      lastPersist := now;
      return Ok;
    }

    /** store_entry: into the slot after the newest, or over the oldest when full. */
    method StoreEntry(e: LogEntry)
      requires Valid() && initialized
      modifies this, buffer
      ensures Valid() && initialized && buffer == old(buffer)
      ensures Contents() == PushBounded(old(Contents()), e, Capacity())
      ensures old(count) < Capacity() ==> head == old(head) && count == old(count) + 1
      ensures old(count) == Capacity() ==> head == (old(head) + 1) % Capacity() && count == old(count)
      ensures dirty
      ensures nextId == old(nextId) && lastPersist == old(lastPersist) && nvs == old(nvs)
      ensures autoCleanup == old(autoCleanup) && autoCleanupDays == old(autoCleanupDays)
    {
      var m := buffer.Length;
      ghost var before := Contents();
      ghost var slots := buffer[..];
      if count < m {
        var k := Slot(head, count, m);
        RingAppend(slots, head, count, e);
        buffer[k] := e;
        assert buffer[..] == slots[k := e];
        count := count + 1;
        assert Contents() == before + [e];
      } else {
        var h := head;
        RingOverwrite(slots, h, e);
        AdvanceByOne(h, m);
        buffer[h] := e;
        assert buffer[..] == slots[h := e];
        head := if h + 1 < m then h + 1 else 0;
        assert Contents() == LogView(slots[h := e], (h + 1) % m, m);
      }
      dirty := true;
    }

    /** One step of the eviction loop: clear the oldest slot and advance the head. */
    method DropOldest()
      requires Valid() && initialized && count > 0
      modifies this, buffer
      ensures Valid() && initialized && buffer == old(buffer)
      ensures Contents() == old(Contents())[1..] && count == old(count) - 1
      ensures dirty
      ensures nextId == old(nextId) && lastPersist == old(lastPersist) && nvs == old(nvs)
      ensures autoCleanup == old(autoCleanup) && autoCleanupDays == old(autoCleanupDays)
    {
      var h := head;
      var m := buffer.Length;
      ghost var slots := buffer[..];
      RingDrop(slots, h, count, EmptyEntry);
      AdvanceByOne(h, m);
      buffer[h] := EmptyEntry;
      assert buffer[..] == slots[h := EmptyEntry];
      head := if h + 1 < m then h + 1 else 0;
      count := count - 1;
      dirty := true;
    }

    /** remove_old_entries_locked: drop the oldest entries while older than `threshold`. */
    method RemoveOldEntries(threshold: int)
      requires Valid() && initialized
      modifies this, buffer
      ensures Valid() && initialized && buffer == old(buffer)
      ensures Contents() == DropOlder(old(Contents()), threshold)
      ensures count == 0 ==> head == 0
      ensures dirty == (old(dirty) || count < old(count))
      ensures nextId == old(nextId) && lastPersist == old(lastPersist) && nvs == old(nvs)
      ensures autoCleanup == old(autoCleanup) && autoCleanupDays == old(autoCleanupDays)
    {
      while count > 0 && buffer[head].timestamp < threshold
        invariant Valid() && initialized && buffer == old(buffer)
        invariant DropOlder(Contents(), threshold) == DropOlder(old(Contents()), threshold)
        invariant count <= old(count)
        invariant dirty == (old(dirty) || count < old(count))
        invariant nextId == old(nextId) && lastPersist == old(lastPersist) && nvs == old(nvs)
        invariant autoCleanup == old(autoCleanup) && autoCleanupDays == old(autoCleanupDays)
        decreases count
      {
        assert Contents()[0] == buffer[head];
        DropOldest();
      }
      if count > 0 {
        assert Contents()[0] == buffer[head];
      }
      if count == 0 {
        head := 0;
      }
    }

    /** log_generic_entry: the entry gets `id = next_id++` and the current time, then is stored. */
    method Log(kind: LogType, level: LogLevel, message: string, now: nat) returns (err: Err)
      requires Valid()
      modifies this, buffer
      ensures Valid() && buffer == old(buffer)
      ensures !old(initialized) ==> err == ErrInvalidState && unchanged(this) && unchanged(buffer)
      ensures old(initialized) ==>
        err == Ok && initialized && nextId == old(nextId) + 1 && dirty
        && Contents() == PushBounded(old(Contents()), LogEntry(old(nextId), kind, level, now % Uint32, TruncateTo(message, MessageMax)), Capacity())
        && lastPersist == old(lastPersist) && nvs == old(nvs)
        && autoCleanup == old(autoCleanup) && autoCleanupDays == old(autoCleanupDays)
      ensures IdsOrdered(old(Contents()), old(nextId)) ==> IdsOrdered(Contents(), nextId)
    {
      if !initialized {
        return ErrInvalidState;
      }
      var e := LogEntry(nextId, kind, level, now % Uint32, TruncateTo(message, MessageMax));
      if IdsOrdered(Contents(), nextId) {
        LogKeepsIdsOrdered(Contents(), e, buffer.Length, nextId);
      }
      nextId := nextId + 1;
      StoreEntry(e);
      return Ok;
    }

    /** data_logger_clear: every slot zeroed, count and head 0, marked dirty. */
    method Clear() returns (err: Err)
      requires Valid()
      modifies this, buffer
      ensures Valid() && buffer == old(buffer)
      ensures !old(initialized) ==> err == ErrInvalidState && unchanged(this) && unchanged(buffer)
      ensures old(initialized) ==>
        err == Ok && initialized && count == 0 && head == 0 && dirty && Contents() == []
        && forall i :: 0 <= i < buffer.Length ==> buffer[i] == EmptyEntry
      ensures nextId == old(nextId) && lastPersist == old(lastPersist) && nvs == old(nvs)
      ensures autoCleanup == old(autoCleanup) && autoCleanupDays == old(autoCleanupDays)
    {
      if !initialized {
        return ErrInvalidState;
      }
      var a := buffer;
      for i := 0 to a.Length
        modifies a
        invariant forall j :: 0 <= j < i ==> a[j] == EmptyEntry
      {
        a[i] := EmptyEntry;
      }
      count := 0;
      head := 0;
      dirty := true;
      return Ok;
    }

    /** The copy loop of save_locked: `buffer[i] = g_log_entries[get_storage_index(i)]`. */
    method OldestFirst() returns (xs: seq<LogEntry>)
      requires Valid() && initialized
      ensures xs == Contents()
    {
      xs := [];
      for i := 0 to count
        invariant xs == Contents()[..i]
      {
        xs := xs + [buffer[Slot(head, i, buffer.Length)]];
      }
    }

    /**
     * save_locked.  `result` is what the NVS calls report; on success the
     * header and the entries (oldest first; erased when there are none)
     * are committed, the buffer is clean and the persistence time is now.
     */
    method Save(result: Err, now: int) returns (err: Err)
      requires Valid() && initialized
      modifies this
      ensures Valid() && err == result
      ensures result != Ok ==> unchanged(this)
      ensures result == Ok ==>
        nvs == Some(Stored(Some(Header(StorageVersion, old(count), old(nextId))),
                           if old(count) > 0 then Some(old(Contents())) else None))
        && !dirty && lastPersist == now
      ensures initialized && buffer == old(buffer) && count == old(count) && head == old(head)
      ensures nextId == old(nextId) && autoCleanup == old(autoCleanup) && autoCleanupDays == old(autoCleanupDays)
    {
      if result != Ok {
        return result;
      }
      var xs := OldestFirst();
      nvs := Some(Stored(Some(Header(StorageVersion, count, nextId)), if count > 0 then Some(xs) else None));
      dirty := false;
      lastPersist := now;
      return Ok;
    }

    /**
     * load_locked on the stored snapshot.  A missing or foreign header
     * changes nothing; a missing entry blob empties the buffer but keeps the
     * dirty flag; otherwise at most the capacity is restored from slot 0.
     */
    method Load() returns (err: Err)
      requires Valid()
      modifies this, buffer
      ensures Valid() && buffer == old(buffer)
      ensures !old(initialized) ==> err == ErrInvalidState && unchanged(this) && unchanged(buffer)
      ensures old(initialized) ==> err == Ok && initialized
      ensures old(initialized) && (nvs.None? || nvs.value.header.None? || nvs.value.header.value.version != StorageVersion) ==>
        count == old(count) && head == old(head) && nextId == old(nextId) && dirty == old(dirty)
        && Contents() == old(Contents())
      ensures old(initialized) && nvs.Some? && nvs.value.header.Some? && nvs.value.header.value.version == StorageVersion ==>
        nextId == nvs.value.header.value.nextId && head == 0
        && (if nvs.value.entries.None? || nvs.value.entries.value == []
            then Contents() == [] && dirty == old(dirty)
            else Contents() == Restored(nvs.value.entries.value, Capacity()) && !dirty)
      ensures nvs == old(nvs) && lastPersist == old(lastPersist)
      ensures autoCleanup == old(autoCleanup) && autoCleanupDays == old(autoCleanupDays)
    {
      if !initialized {
        return ErrInvalidState;
      }
      if nvs.None? || nvs.value.header.None? || nvs.value.header.value.version != StorageVersion {
        return Ok;
      }
      var header := nvs.value.header.value;
      if nvs.value.entries.None? || nvs.value.entries.value == [] {
        count := 0;
        head := 0;
        nextId := header.nextId;
        return Ok;
      }
      var stored := Restored(nvs.value.entries.value, buffer.Length);
      var a := buffer;
      for i := 0 to a.Length
        modifies a
        invariant forall j :: 0 <= j < i ==> a[j] == (if j < |stored| then stored[j] else EmptyEntry)
      {
        a[i] := if i < |stored| then stored[i] else EmptyEntry;
      }
      count := |stored|;
      head := 0;
      nextId := header.nextId;
      dirty := false;
      return Ok;
    }

    /** data_logger_set_auto_cleanup: 0 days falls back to the default of 7. */
    method SetAutoCleanup(enabled: bool, days: nat)
      modifies this
      ensures autoCleanup == enabled
      ensures autoCleanupDays == if days == 0 then DefaultCleanupDays else days
      ensures autoCleanupDays > 0
      ensures initialized == old(initialized) && buffer == old(buffer) && count == old(count) && head == old(head)
      ensures nextId == old(nextId) && dirty == old(dirty) && lastPersist == old(lastPersist) && nvs == old(nvs)
    {
      autoCleanup := enabled;
      autoCleanupDays := if days == 0 then DefaultCleanupDays else days;
    }

    /** The cleanup step of data_logger_process. */
    method AutoCleanup(now: int)
      requires Valid() && initialized
      modifies this, buffer
      ensures Valid() && initialized && buffer == old(buffer)
      ensures Contents() == Cleaned(old(Contents()), old(autoCleanup), old(autoCleanupDays), now)
      ensures dirty == (old(dirty) || count < old(count))
      ensures nextId == old(nextId) && lastPersist == old(lastPersist) && nvs == old(nvs)
      ensures autoCleanup == old(autoCleanup) && autoCleanupDays == old(autoCleanupDays)
    {
      if autoCleanup && count > 0 && autoCleanupDays > 0 {
        var threshold := now - autoCleanupDays * SecondsPerDay;
        RemoveOldEntries(threshold);
      }
    }

    /**
     * data_logger_process: age-based cleanup when enabled, then a save when
     * the buffer is dirty and the last save is at least 300 s old.
     * `saveResult` is what the NVS calls of that save report.
     */
    method Process(now: int, saveResult: Err) returns (err: Err, saveAttempted: bool)
      requires Valid()
      modifies this, buffer
      ensures Valid() && buffer == old(buffer)
      ensures !old(initialized) ==> err == ErrInvalidState && !saveAttempted && unchanged(this) && unchanged(buffer)
      ensures old(initialized) ==> err == Ok && initialized
      ensures old(initialized) ==>
        Contents() == Cleaned(old(Contents()), old(autoCleanup), old(autoCleanupDays), now)
      ensures old(initialized) ==>
        saveAttempted == ((old(dirty) || count < old(count)) && now - old(lastPersist) >= PersistIntervalSec)
      ensures saveAttempted && saveResult == Ok ==>
        !dirty && lastPersist == now
        && nvs == Some(Stored(Some(Header(StorageVersion, count, old(nextId))), if count > 0 then Some(Contents()) else None))
      ensures old(initialized) && (!saveAttempted || saveResult != Ok) ==>
        dirty == (old(dirty) || count < old(count)) && lastPersist == old(lastPersist) && nvs == old(nvs)
      ensures nextId == old(nextId) && autoCleanup == old(autoCleanup) && autoCleanupDays == old(autoCleanupDays)
    {
      if !initialized {
        return ErrInvalidState, false;
      }
      AutoCleanup(now);
      saveAttempted := dirty && now - lastPersist >= PersistIntervalSec;
      if saveAttempted {
        var _ := Save(saveResult, now);
      }
      return Ok, saveAttempted;
    }
  }
}
