/**
 * The notification list of components/notification_system: a bounded array
 * of notifications in creation order, the oldest shifted out when full, a
 * 30-second debounce of repeated messages, acknowledgement by id, and the
 * restore of saved critical notifications.
 */
module NotificationSystem {

  import opened Wrappers
  import opened Esp
  import opened Seqs

  datatype NotifType = Info | Warning | Error | Critical
  datatype NotifPriority = Low | Normal | High | Urgent
  datatype NotifSource = Sensor | Pump | Relay | System

  datatype Notification = Notification(
    id: nat, kind: NotifType, priority: NotifPriority, source: NotifSource,
    message: string, timestamp: nat, acknowledged: bool)

  /** A slot cleared with memset. */
  const EmptyNotification := Notification(0, Info, Low, Sensor, "", 0, false)

  const DebounceMs := 30000
  const MessageMax := 127
  const Uint32 := 0x1_0000_0000

  /** The number of unacknowledged notifications. */
  function Unread(xs: seq<Notification>): (n: nat)
    ensures n <= |xs|
    ensures n == 0 <==> forall i :: 0 <= i < |xs| ==> xs[i].acknowledged
  {
    if xs == [] then 0
    else Unread(xs[..|xs| - 1]) + (if xs[|xs| - 1].acknowledged then 0 else 1)
  }

  /** Some critical notification is still unacknowledged. */
  predicate HasUnackedCritical(xs: seq<Notification>)
  {
    exists i :: 0 <= i < |xs| && xs[i].kind == Critical && !xs[i].acknowledged
  }

  /** Every unacknowledged critical notification is unread, so it counts towards the unread total. */
  lemma {:induction false} CriticalIsUnread(xs: seq<Notification>)
    requires HasUnackedCritical(xs)
    ensures Unread(xs) > 0
  {
    var i :| 0 <= i < |xs| && xs[i].kind == Critical && !xs[i].acknowledged;
    assert !(forall j :: 0 <= j < |xs| ==> xs[j].acknowledged) by {
      assert !xs[i].acknowledged;
    }
  }

  /** Acknowledging entry k lowers the unread count by one when it was unread, else keeps it. */
  lemma {:induction false} AcknowledgeUnread(xs: seq<Notification>, k: nat)
    requires k < |xs|
    ensures Unread(xs[k := xs[k].(acknowledged := true)])
         == Unread(xs) - (if xs[k].acknowledged then 0 else 1)
  {
    var ys := xs[k := xs[k].(acknowledged := true)];
    if k < |xs| - 1 {
      assert ys[..|ys| - 1] == xs[..|xs| - 1][k := xs[k].(acknowledged := true)];
      AcknowledgeUnread(xs[..|xs| - 1], k);
    } else {
      assert ys[..|ys| - 1] == xs[..|xs| - 1];
    }
  }

  /** Ids strictly increase in creation order and stay below the next id. */
  predicate IdsOrdered(xs: seq<Notification>, next: nat)
  {
    (forall i, j :: 0 <= i < j < |xs| ==> xs[i].id < xs[j].id)
    && (forall i :: 0 <= i < |xs| ==> 0 < xs[i].id < next)
  }

  lemma CreateKeepsIdsOrdered(xs: seq<Notification>, n: Notification, cap: nat, next: nat)
    requires 0 < cap && |xs| <= cap && IdsOrdered(xs, next) && n.id == next && next > 0
    ensures IdsOrdered(PushBounded(xs, n, cap), next + 1)
  {
    var r := PushBounded(xs, n, cap);
    var k := if |xs| < cap then 0 else 1;
    assert forall i :: 0 <= i < |r| - 1 ==> r[i] == xs[i + k];
  }

  /** With ordered ids, at most one notification carries a given id. */
  lemma OrderedIdsAreUnique(xs: seq<Notification>, next: nat, i: nat, j: nat)
    requires IdsOrdered(xs, next) && i < |xs| && j < |xs| && xs[i].id == xs[j].id
    ensures i == j
  {
  }

  /** The first index whose id matches, as the scan of notification_acknowledge finds it. */
  function FirstWithId(xs: seq<Notification>, id: nat): (r: Option<nat>)
    ensures r.Some? ==> r.value < |xs| && xs[r.value].id == id
    ensures r.Some? ==> forall j :: 0 <= j < r.value ==> xs[j].id != id
    ensures r.None? ==> forall j :: 0 <= j < |xs| ==> xs[j].id != id
  {
    if xs == [] then None
    else if xs[0].id == id then Some(0)
    else match FirstWithId(xs[1..], id)
      case Some(k) => Some(k + 1)
      case None => None
  }

  /** The restore loop of notification_load_critical_from_nvs: append while there is room. */
  function RestoreInto(xs: seq<Notification>, saved: seq<Notification>, cap: nat): (r: seq<Notification>)
    requires |xs| <= cap
    ensures |r| == if |xs| + |saved| <= cap then |xs| + |saved| else cap
    ensures |r| <= cap
    ensures r == xs + saved[..|r| - |xs|]
  {
    if |xs| + |saved| <= cap then xs + saved else xs + saved[..cap - |xs|]
  }

  /** The wrapped count arithmetic of notification_create, as written, on 32-bit counters. */
  function CreateSlotAsWritten(count: nat, max: nat): (slot: nat)
  {
    if count >= max then (count + Uint32 - 1) % Uint32 else count
  }

  /**
   * notification_system_init accepts a capacity of 0.  The first
   * notification_create then finds the list full, decrements the 32-bit
   * count from 0 to 0xFFFFFFFF and writes the new entry at that index,
   * where a full list of five writes its last slot.
   */
  lemma ZeroCapacityCreateWritesOutOfBounds()
    ensures CreateSlotAsWritten(0, 0) == 0xFFFF_FFFF
    ensures CreateSlotAsWritten(5, 5) == 4
  {
  }

  class Notifications {
    var initialized: bool      // g_notifications != NULL
    var buffer: array<Notification>
    var count: nat
    var nextId: nat
    var lastMessage: string
    var lastMessageTime: int

    predicate Valid()
      reads this
    {
      (initialized ==> 0 < buffer.Length && count <= buffer.Length)
      && (!initialized ==> count == 0)
      && nextId > 0
    }

    function Capacity(): nat
      reads this
    {
      if initialized then buffer.Length else 0
    }

    /** The notifications, oldest first. */
    function Contents(): (xs: seq<Notification>)
      reads this, buffer
      requires Valid()
      ensures |xs| == count && count <= Capacity()
    {
      if initialized then buffer[..count] else []
    }

    constructor()
      ensures Valid() && !initialized && nextId == 1 && lastMessage == [] && lastMessageTime == 0
    {
      initialized := false;
      buffer := new Notification[0];
      count := 0;
      nextId := 1;
      lastMessage := [];
      lastMessageTime := 0;
    }

    /**
     * notification_system_init.  A second call is a no-op.  Capacity 0 is
     * rejected here (the source accepts it; see ZeroCapacityCreateWritesOutOfBounds).
     */
    method Init(maxNotifications: nat) returns (err: Err)
      requires Valid()
      modifies this
      ensures Valid()
      ensures old(initialized) ==> err == Ok && unchanged(this)
      ensures !old(initialized) && maxNotifications == 0 ==> err == ErrInvalidArg && unchanged(this)
      ensures !old(initialized) && maxNotifications > 0 ==>
        err == Ok && initialized && fresh(buffer) && Capacity() == maxNotifications
        && Contents() == [] && nextId == 1
        && lastMessage == old(lastMessage) && lastMessageTime == old(lastMessageTime)
    {
      if initialized {
        return Ok;
      }
      if maxNotifications == 0 {
        return ErrInvalidArg;
      }
      buffer := new Notification[maxNotifications](_ => EmptyNotification);
      initialized := true;
      count := 0;
      nextId := 1;
      return Ok;
    }

    /** The memmove of a full list: every entry moves one slot towards the front. */
    method ShiftOut()
      requires Valid() && initialized && count == buffer.Length
      modifies this, buffer
      ensures Valid() && initialized && buffer == old(buffer)
      ensures Contents() == old(Contents())[1..] && count == old(count) - 1
      ensures nextId == old(nextId) && lastMessage == old(lastMessage) && lastMessageTime == old(lastMessageTime)
    {
      var a := buffer;
      for i := 0 to a.Length - 1
        modifies a
        invariant forall j :: 0 <= j < i ==> a[j] == old(a[j + 1])
        invariant forall j :: i <= j < a.Length ==> a[j] == old(a[j])
      {
        a[i] := a[i + 1];
      }
      count := count - 1;
    }

    /**
     * notification_create.  Returns 0 and changes nothing when the system
     * is not initialised, the message is NULL, or the same text was
     * created less than 30 s ago (by the millisecond clock `nowMs`).
     * `wallTime` is the time(NULL) stamp of the entry.
     */
    method Create(kind: NotifType, priority: NotifPriority, source: NotifSource,
                  message: Option<string>, nowMs: int, wallTime: nat) returns (id: nat)
      requires Valid()
      modifies this, buffer
      ensures Valid() && buffer == old(buffer)
      ensures !old(initialized) || message.None?
              || (old(lastMessageTime) > 0 && nowMs - old(lastMessageTime) < DebounceMs
                  && old(lastMessage) == message.value)
              ==> id == 0 && unchanged(this) && unchanged(buffer)
      ensures id != 0 ==>
        initialized && old(initialized) && id == old(nextId) && nextId == old(nextId) + 1
        && Contents() == PushBounded(old(Contents()),
             Notification(id, kind, priority, source, TruncateTo(message.value, MessageMax), wallTime % Uint32, false),
             Capacity())
        && lastMessage == TruncateTo(message.value, MessageMax) && lastMessageTime == nowMs
      ensures id == 0 <==> (!old(initialized) || message.None?
              || (old(lastMessageTime) > 0 && nowMs - old(lastMessageTime) < DebounceMs
                  && old(lastMessage) == message.value))
    {
      if !initialized || message.None? {
        return 0;
      }
      if lastMessageTime > 0 && nowMs - lastMessageTime < DebounceMs && lastMessage == message.value {
        return 0;
      }
      ghost var before := Contents();
      if count >= buffer.Length {
        ShiftOut();
      }
      var n := Notification(nextId, kind, priority, source, TruncateTo(message.value, MessageMax), wallTime % Uint32, false);
      buffer[count] := n;
      count := count + 1;
      assert Contents() == PushBounded(before, n, buffer.Length);
      id := nextId;
      nextId := nextId + 1;
      lastMessage := TruncateTo(message.value, MessageMax);
      lastMessageTime := nowMs;
    }

    /** notification_acknowledge: the first entry with that id is marked; NOT_FOUND changes nothing. */
    method Acknowledge(id: nat) returns (err: Err)
      requires Valid()
      modifies buffer
      ensures Valid()
      ensures !initialized ==> err == ErrInvalidState && unchanged(buffer)
      ensures initialized && FirstWithId(old(Contents()), id).None? ==> err == ErrNotFound && unchanged(buffer)
      ensures initialized && FirstWithId(old(Contents()), id).Some? ==>
        var k := FirstWithId(old(Contents()), id).value;
        err == Ok && Contents() == old(Contents())[k := old(Contents())[k].(acknowledged := true)]
      ensures forall j :: count <= j < buffer.Length ==> buffer[j] == old(buffer[j])
    {
      if !initialized {
        return ErrInvalidState;
      }
      for i := 0 to count
        invariant forall j :: 0 <= j < i ==> buffer[j].id != id
      {
        if buffer[i].id == id {
          ghost var xs := Contents();
          assert FirstWithId(xs, id) == Some(i) by {
            FirstWithIdIs(xs, id, i);
          }
          buffer[i] := buffer[i].(acknowledged := true);
          assert Contents() == xs[i := xs[i].(acknowledged := true)];
          return Ok;
        }
      }
      FirstWithIdNone(Contents(), id);
      return ErrNotFound;
    }

    /** notification_get_unread_count. */
    method UnreadCount() returns (n: nat)
      requires Valid()
      ensures n == Unread(Contents())
    {
      if !initialized {
        return 0;
      }
      n := 0;
      for i := 0 to count
        invariant n == Unread(buffer[..i])
      {
        assert buffer[..i + 1][..i] == buffer[..i];
        if !buffer[i].acknowledged {
          n := n + 1;
        }
      }
      assert buffer[..count] == Contents();
    }

    /** notification_has_critical. */
    method HasCritical() returns (has: bool)
      requires Valid()
      ensures has <==> HasUnackedCritical(Contents())
    {
      if !initialized {
        return false;
      }
      has := false;
      var i := 0;
      while i < count
        invariant 0 <= i <= count
        invariant forall j :: 0 <= j < i ==> !(buffer[j].kind == Critical && !buffer[j].acknowledged)
      {
        if buffer[i].kind == Critical && !buffer[i].acknowledged {
          assert Contents()[i] == buffer[i];
          return true;
        }
        i := i + 1;
      }
      assert forall j :: 0 <= j < count ==> Contents()[j] == buffer[j];
    }

    /** notification_clear_all: the list is emptied and every slot cleared. */
    method ClearAll() returns (err: Err)
      requires Valid()
      modifies this, buffer
      ensures Valid() && buffer == old(buffer) && initialized == old(initialized)
      ensures !old(initialized) ==> err == ErrInvalidState && unchanged(this) && unchanged(buffer)
      ensures old(initialized) ==>
        (err == Ok && Contents() == [] && forall j :: 0 <= j < buffer.Length ==> buffer[j] == EmptyNotification)
      ensures nextId == old(nextId) && lastMessage == old(lastMessage) && lastMessageTime == old(lastMessageTime)
    {
      if !initialized {
        return ErrInvalidState;
      }
      count := 0;
      var a := buffer;
      for i := 0 to a.Length
        modifies a
        invariant forall j :: 0 <= j < i ==> a[j] == EmptyNotification
      {
        a[i] := EmptyNotification;
      }
      return Ok;
    }

    /**
     * notification_sensor_warning: a WARNING of HIGH priority when the
     * value is below the low or above the high alarm limit, else nothing.
     * `lowText` and `highText` are the two formatted messages.
     */
    method SensorWarning(source: NotifSource, value: real, alarmLow: real, alarmHigh: real,
                         lowText: string, highText: string, nowMs: int, wallTime: nat) returns (id: nat)
      requires Valid()
      modifies this, buffer
      ensures Valid() && buffer == old(buffer)
      ensures alarmLow <= value <= alarmHigh ==> id == 0 && unchanged(this) && unchanged(buffer)
      ensures id != 0 ==>
        ((value < alarmLow || value > alarmHigh)
         && Contents() != [] && Contents()[|Contents()| - 1].kind == Warning
         && Contents()[|Contents()| - 1].priority == High
         && Contents()[|Contents()| - 1].message
            == TruncateTo(if value < alarmLow then lowText else highText, MessageMax))
    {
      if value < alarmLow {
        id := Create(Warning, High, source, Some(lowText), nowMs, wallTime);
      } else if value > alarmHigh {
        id := Create(Warning, High, source, Some(highText), nowMs, wallTime);
      } else {
        id := 0;
      }
    }

    /**
     * The restore of notification_load_critical_from_nvs: the saved
     * entries are appended in order until the list is full.
     */
    method RestoreCritical(saved: seq<Notification>) returns (restored: nat)
      requires Valid()
      modifies this, buffer
      ensures Valid() && buffer == old(buffer)
      ensures !old(initialized) ==> restored == 0 && unchanged(this) && unchanged(buffer)
      ensures old(initialized) ==> initialized && Contents() == RestoreInto(old(Contents()), saved, Capacity())
      ensures restored == count - old(count)
      ensures nextId == old(nextId) && lastMessage == old(lastMessage) && lastMessageTime == old(lastMessageTime)
    {
      if !initialized {
        return 0;
      }
      var a := buffer;
      var c := count;
      var i := 0;
      while i < |saved| && c < a.Length
        modifies a
        invariant 0 <= i <= |saved| && c == old(count) + i && c <= a.Length
        invariant a[..c] == old(a[..count]) + saved[..i]
      {
        a[c] := saved[i];
        assert saved[..i + 1] == saved[..i] + [saved[i]];
        c := c + 1;
        i := i + 1;
      }
      count := c;
      restored := i;
    }
  }

  lemma {:induction false} FirstWithIdIs(xs: seq<Notification>, id: nat, i: nat)
    requires i < |xs| && xs[i].id == id
    requires forall j :: 0 <= j < i ==> xs[j].id != id
    ensures FirstWithId(xs, id) == Some(i)
  {
    if i > 0 {
      FirstWithIdIs(xs[1..], id, i - 1);
    }
  }

  lemma FirstWithIdNone(xs: seq<Notification>, id: nat)
    requires forall j :: 0 <= j < |xs| ==> xs[j].id != id
    ensures FirstWithId(xs, id).None?
  {
  }
}
