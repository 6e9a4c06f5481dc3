/** When alarms fire: what each call does to the firing times, for the caller. */
module AlarmTimes {
  import opened Lists
  import opened Alarms

  /** Nothing but the time has passed. */
  function Later(s: State, time: int): State { s.(now := time) }

  /** Alarm `a` is due at `time`, if nothing is called before. */
  ghost predicate DueAt(s: State, a: nat, time: int) { a in Due(Later(s, time)) }

  /** Every alarm but `a` fires when it did, with the period and the start it had, and is pending or not as it was. */
  ghost predicate OthersSame(s: State, s': State, a: nat) {
    && s'.now == s.now
    && forall b :: b != a ==>
        && s'.Fires(b) == s.Fires(b) && s'.Start(b) == s.Start(b) && At(s'.period, b, 0) == At(s.period, b, 0)
        && (b in s'.queue <==> b in s.queue)
  }

  lemma DueFrom(s: State, a: nat, time: int)
    requires Good(s) && a in s.queue
    ensures DueAt(s, a, time) <==> s.Fires(a) <= time
  {
    var q, k := s.queue, InsertPos(s.queue, s.fire, time);
    OrderSorted(s, q);
    SplitAt(q, s.fire, time);
    var i :| 0 <= i < |q| && q[i] == a;
    hide InsertPos;
    if s.Fires(a) <= time {
      assert i < k && q[..k][i] == a;
    } else {
      forall j | 0 <= j < k ensures q[..k][j] != a {}
    }
  }

  // ----- one-shot alarms

  lemma SetFields(s: State, a: nat, tick: int)
    ensures var s' := SetAlarm(s, a, tick);
      && !s'.Periodic(a) && s'.Fires(a) == s.now + tick && s'.now == s.now && s'.start == s.start
      && forall b :: b != a ==> s'.Fires(b) == s.Fires(b) && At(s'.period, b, 0) == At(s.period, b, 0)
  {
  }

  /** An alarm set with `tick` is pending, fires once, `tick` after now, and no other alarm is affected. */
  lemma SetFires(s: State, a: nat, tick: int)
    requires Good(s) && a != 0 && a !in s.queue
    ensures var s' := SetAlarm(s, a, tick);
      && a in s'.queue && !s'.Periodic(a) && s'.Fires(a) == s.now + tick && OthersSame(s, s', a)
      && forall time :: DueAt(s', a, time) <==> s.now + tick <= time
  {
    var s' := SetAlarm(s, a, tick);
    SetFields(s, a, tick);
    SetGood(s, a, tick);
    hide SetAlarm, Good, Due, DueAt;
    forall time ensures DueAt(s', a, time) <==> s.now + tick <= time { DueFrom(s', a, time); }
  }

  /** Set in an empty queue, it is what firing returns from its time on, and before that firing returns nothing. */
  lemma AloneFires(s: State, a: nat, tick: int, time: int)
    requires Good(s) && a != 0 && s.queue == []
    ensures Fire(Later(SetAlarm(s, a, tick), time)).0 == if time < s.now + tick then 0 else a
  {
    var s' := SetAlarm(s, a, tick);
    SetFields(s, a, tick);
    SetGood(s, a, tick);
    OneOnly(s', a);
    hide SetAlarm, Good;
  }

  lemma OneOnly(s: State, a: nat)
    requires Good(s) && forall b :: b in s.queue <==> b == a
    ensures s.queue == [a]
  {
    QueueUnique(s, s.queue, [a]);
  }

  // ----- periodic alarms

  /** `f` is the start, if that has not passed, and else the first whole number of periods behind it that has not come
      yet. */
  ghost predicate NextFrom(f: int, start: int, period: int, now: int) {
    if start >= now then f == start
    else f > now && f - period <= now && exists k: nat :: f == start + period * k
  }

  lemma NextIsFrom(start: int, period: int, now: int)
    requires period > 0
    ensures NextFrom(NextFire(start, period, now), start, period, now)
  {
    NextFireIsFirst(start, period, now, 0);
    var f := NextFire(start, period, now);
    if start < now {
      var k: nat := (now - start) / period + 1;
      assert f == start + period * k;
    }
  }

  lemma PeriodicFields(s: State, a: nat, start: int, period: int)
    ensures var s' := SetPeriodic(s, a, start, period);
      && At(s'.period, a, 0) == period && s'.Start(a) == start && s'.now == s.now
      && s'.Fires(a) == (if period > 0 then NextFire(start, period, s.now) else 0)
      && forall b :: b != a ==>
        s'.Fires(b) == s.Fires(b) && s'.Start(b) == s.Start(b) && At(s'.period, b, 0) == At(s.period, b, 0)
  {
    hide NextFire;
  }

  lemma PeriodicGood(s: State, a: nat, start: int, period: int)
    requires Good(s) && a != 0 && a !in s.queue
    ensures var s' := SetPeriodic(s, a, start, period);
      Good(s') && forall b :: b in s'.queue <==> b in s.queue || b == a
  {
    var t := s.(period := s.period[a := period], start := s.start[a := start]);
    SettingsGood(s, a, t.period, t.start);
    assert SetPeriodic(s, a, start, period) == Put(t, a, 0, 1) && t.queue == s.queue;
    hide *;
    PutGood(t, a, 0, 1);
  }

  /** A periodic alarm is pending and first fires at its start, or at the first whole period behind it that has not come
      yet; no other alarm is affected. A period that is not positive makes it a one-shot alarm for time 0. */
  lemma PeriodicFires(s: State, a: nat, start: int, period: int)
    requires Good(s) && a != 0 && a !in s.queue
    ensures var s' := SetPeriodic(s, a, start, period);
      && a in s'.queue && s'.Start(a) == start && OthersSame(s, s', a)
      && (s'.Periodic(a) <==> period > 0)
      && (if period > 0 then NextFrom(s'.Fires(a), start, period, s.now) else s'.Fires(a) == 0)
      && forall time :: DueAt(s', a, time) <==> s'.Fires(a) <= time
  {
    var s' := SetPeriodic(s, a, start, period);
    PeriodicFields(s, a, start, period);
    PeriodicGood(s, a, start, period);
    if period > 0 { NextIsFrom(start, period, s.now); }
    hide SetPeriodic, Good, Due, DueAt, NextFire, NextFrom;
    forall time ensures DueAt(s', a, time) <==> s'.Fires(a) <= time { DueFrom(s', a, time); }
  }

  // ----- cancelling and firing

  /** A cancelled alarm is no longer pending, and no other alarm is affected: they keep their order too. */
  lemma CancelOnly(s: State, a: nat)
    requires Good(s)
    ensures var s' := Cancel(s, a);
      && Good(s') && a !in s'.queue && OthersSame(s, s', a) && s'.Fires(a) == s.Fires(a)
      && forall b, c :: b != a && c != a ==> (Earlier(s', b, c) <==> Earlier(s, b, c))
  {
    if At(s.handler, a, 0) != 0 {
      CancelPending(s, a);
      DropGood(s, a);
      OrderSorted(s, s.queue);
      WithoutMembers(s.queue, a);
    }
    hide Good, Without;
  }

  lemma FireFields(s: State)
    requires s.queue != [] && s.Fires(s.queue[0]) <= s.now
    ensures var (a, s') := Fire(s);
      && a == s.queue[0] && s'.now == s.now && s'.start == s.start && s'.period == s.period
      && s'.Fires(a) == (if s.Periodic(a) then NextFire(s.Start(a), At(s.period, a, 0), s.now) else s.Fires(a))
      && forall b :: b != a ==> s'.Fires(b) == s.Fires(b)
  {
    hide NextFire, Insert;
  }

  /** A one-shot alarm that fires is done with; a periodic one is pending again, for the first whole period behind its
      start that has not come yet; no other alarm is affected. */
  lemma FireAgain(s: State)
    requires Good(s) && Fire(s).0 != 0
    ensures var (a, s') := Fire(s);
      && DueAt(s, a, s.now) && OthersSame(s, s', a) && (a in s'.queue <==> s.Periodic(a))
      && (s.Periodic(a) ==> NextFrom(s'.Fires(a), s.Start(a), At(s.period, a, 0), s.now))
  {
    FiresFirstDue(s);
    var (a, s') := Fire(s);
    assert a in s.queue && Later(s, s.now) == s;
    FireFields(s);
    if s.Periodic(a) { NextIsFrom(s.Start(a), At(s.period, a, 0), s.now); }
    hide Fire, Good, NextFire, NextFrom, Due;
    DueNow(s, a);
  }

  lemma DueNow(s: State, a: nat)
    requires Good(s) && a in s.queue && s.Fires(a) <= s.now
    ensures DueAt(s, a, s.now)
  {
    DueFrom(s, a, s.now);
  }
}
