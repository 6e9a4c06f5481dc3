/** The alarm queue as the code keeps it: fields of alarm records, and one doubly linked list. */
module OSAlarm {
  import opened Lists
  import opened Links
  import opened Alarms

  /** There is one queue. */
  datatype Name = Pending

  class AlarmQueue {
    const link: Queues<Name>
    var handler: map<nat, int>
    var fire: map<nat, int>
    var period: map<nat, int>
    var start: map<nat, int>
    var systemTime: int
    ghost var stamp: map<nat, nat>
    ghost var count: nat

    ghost function Abs(): State
      reads this, link
    {
      State(At(link.q, Pending, []), handler, fire, period, start, systemTime, stamp, count)
    }

    ghost predicate Valid()
      reads this, link
    {
      this as object != link && link.Valid()
    }

    constructor ()
      ensures Valid() && Abs() == Init() && fresh(link)
    {
      link := new Queues();
      handler, fire, period, start, stamp := map[], map[], map[], map[], map[];
      systemTime, count := 0, 0;
    }

    lemma FreeWhenAbsent(a: nat)
      requires Valid() && a !in Abs().queue
      ensures Free(link.q, a)
    {
      forall k: Name ensures a !in At(link.q, k, []) { assert k == Pending; }
    }

    method CreateAlarm(a: nat)
      requires Valid()
      modifies `handler
      ensures Valid() && Abs() == Create(old(Abs()), a)
    {
      handler := handler[a := 0];
    }

    /** A periodic alarm fires at its own time, whatever the caller asked for. */
    method FireTime(a: nat, fireAt: int) returns (f: int)
      ensures f == if At(period, a, 0) > 0 then NextFire(At(start, a, 0), At(period, a, 0), systemTime) else fireAt
    {
      f := fireAt;
      if 0 < At(period, a, 0) {
        var time, first, length := systemTime, At(start, a, 0), At(period, a, 0);
        f := first;
        if first < time { f := f + length * ((time - first) / length + 1); }
      }
    }

    /** Links the alarm in behind all that fire no later. */
    method InsertAlarm(a: nat, fireAt: int, h: int)
      requires Valid() && a != 0 && a !in Abs().queue
      modifies this, link
      ensures Valid() && Abs() == Put(old(Abs()), a, fireAt, h)
    {
      var f := FireTime(a, fireAt);
      FreeWhenAbsent(a);
      hide AllLinked, Insert, NextFire;
      handler := handler[a := h];
      fire := fire[a := f];
      stamp := stamp[a := count];
      count := count + 1;
      link.AddPrio(Pending, a, fire);
    }

    method SetAlarm(a: nat, tick: int)
      requires Valid() && a != 0 && a !in Abs().queue
      modifies this, link
      ensures Valid() && Abs() == Alarms.SetAlarm(old(Abs()), a, tick)
    {
      period := period[a := 0];
      InsertAlarm(a, systemTime + tick, 1);
    }

    method SetPeriodicAlarm(a: nat, first: int, length: int)
      requires Valid() && a != 0 && a !in Abs().queue
      modifies this, link
      ensures Valid() && Abs() == SetPeriodic(old(Abs()), a, first, length)
    {
      period := period[a := length];
      start := start[a := first];
      InsertAlarm(a, 0, 1);
    }

    method CancelAlarm(a: nat)
      requires Valid() && (At(handler, a, 0) != 0 ==> a in Abs().queue)
      modifies `handler, link
      ensures Valid() && Abs() == Cancel(old(Abs()), a)
    {
      if At(handler, a, 0) == 0 { return; }
      link.Remove(Pending, a);
      handler := handler[a := 0];
    }

    /** Takes the head alarm off the list if it is due, and puts a periodic one back. */
    method FireHead() returns (alarm: nat)
      requires Valid()
      modifies this, link
      ensures Valid() && (alarm, Abs()) == Fire(old(Abs()))
    {
      alarm := link.Head(Pending);
      if alarm == 0 || systemTime < At(fire, alarm, 0) { return 0; }
      ghost var s := Abs();
      alarm := link.RemoveHead(Pending);
      var h := At(handler, alarm, 0);
      handler := handler[alarm := 0];
      assert Abs() == s.(queue := s.queue[1..], handler := s.handler[alarm := 0]);
      if 0 < At(period, alarm, 0) { InsertAlarm(alarm, 0, h); }
    }
  }
}
