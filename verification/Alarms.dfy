/** The alarm queue, by what each call does to the list of pending alarms. */
module Alarms {
  import opened Lists

  /** `stamp` numbers the insertions: history, kept to tell which of two alarms was set first. */
  datatype State = State(queue: seq<nat>, handler: map<nat, int>, fire: map<nat, int>, period: map<nat, int>,
                         start: map<nat, int>, now: int, stamp: map<nat, nat>, count: nat)
  {
    function Fires(a: nat): int { At(fire, a, 0) }
    predicate Periodic(a: nat) { At(period, a, 0) > 0 }
    function Start(a: nat): int { At(start, a, 0) }
  }

  // ----- when a periodic alarm fires next

  function NextFire(start: int, period: int, now: int): int
    requires period > 0
  {
    if start < now then start + period * ((now - start) / period + 1) else start
  }

  lemma Quotient(a: int, b: int)
    requires b > 0
    ensures b * (a / b) <= a < b * (a / b) + b
  {
  }

  lemma Monotone(p: int, j: int, k: int)
    requires p > 0
    ensures j <= k ==> p * j <= p * k
  {
    assert p * k == p * j + p * (k - j);
    if j <= k { assert p * (k - j) >= 0; }
  }

  lemma Cross(p: int, j: int, k: int)
    requires p > 0 && p * j < p * k
    ensures j + 1 <= k && p * (j + 1) <= p * k
  {
    Monotone(p, k, j);
    Monotone(p, j + 1, k);
  }

  /** The start itself if it has not passed; else the first instant strictly after now that is a whole number of
      periods after the start. */
  lemma NextFireIsFirst(start: int, period: int, now: int, k: nat)
    requires period > 0
    ensures var f := NextFire(start, period, now);
      && (start >= now ==> f == start)
      && (start < now ==> now < f <= now + period && (start + period * k > now ==> f <= start + period * k))
      && f - start == period * (if start < now then (now - start) / period + 1 else 0)
  {
    if start < now {
      var j := (now - start) / period;
      Quotient(now - start, period);
      assert period * (j + 1) == period * j + period;
      if period * k > now - start { Cross(period, j, k); }
    } else {
      assert period * 0 == 0;
    }
  }

  const MAX_TICK: int := 0x7FFF_FFFF_FFFF_FFFF

  lemma AddOne(p: int, q: int)
    requires p > 0 && q >= 0
    ensures p * (q + 1) == p * q + p && p * q >= q
  {
    assert p * q == (p - 1) * q + q;
    assert (p - 1) * q >= 0;
  }

  /** With times that are not negative and a period of room above now, no step of the formula leaves 64 bits. */
  lemma NextFireFits(start: int, period: int, now: int)
    requires 0 <= start < now && 0 < period && now + period <= MAX_TICK
    ensures var q := (now - start) / period;
      0 <= q + 1 <= MAX_TICK && 0 <= period * (q + 1) <= MAX_TICK && 0 <= NextFire(start, period, now) <= MAX_TICK
  {
    var q := (now - start) / period;
    var m := period * (q + 1);
    assert NextFire(start, period, now) == start + m;
    Quotient(now - start, period);
    hide NextFire;
    AddOne(period, q);
  }

  /** `a` fires at its start or a whole number of periods after it. */
  ghost predicate OnGrid(s: State, a: nat) {
    s.Periodic(a) ==> exists k: nat :: s.Fires(a) == s.Start(a) + At(s.period, a, 0) * k
  }

  // ----- calls

  function Create(s: State, a: nat): State {
    s.(handler := s.handler[a := 0])
  }

  /** `InsertAlarm`: behind every alarm that fires no later. */
  function Put(s: State, a: nat, fire: int, handler: int): State {
    var f := if s.Periodic(a) then NextFire(s.Start(a), At(s.period, a, 0), s.now) else fire;
    var fires := s.fire[a := f];
    s.(queue := Insert(s.queue, a, fires), handler := s.handler[a := handler], fire := fires,
       stamp := s.stamp[a := s.count], count := s.count + 1)
  }

  function SetAlarm(s: State, a: nat, tick: int): State {
    Put(s.(period := s.period[a := 0]), a, s.now + tick, 1)
  }

  function SetPeriodic(s: State, a: nat, start: int, period: int): State {
    Put(s.(period := s.period[a := period], start := s.start[a := start]), a, 0, 1)
  }

  function Cancel(s: State, a: nat): State {
    if At(s.handler, a, 0) == 0 then s else s.(queue := Without(s.queue, a), handler := s.handler[a := 0])
  }

  /** Takes the head alarm if it is due; a periodic one goes back in. */
  function Fire(s: State): (nat, State) {
    if s.queue == [] || s.now < s.Fires(s.queue[0]) then (0, s) else
    var a := s.queue[0];
    var t := s.(queue := s.queue[1..], handler := s.handler[a := 0]);
    (a, if s.Periodic(a) then Put(t, a, 0, At(s.handler, a, 0)) else t)
  }

  // ----- the invariant

  /** `a` comes before `b`: it fires sooner or, at the same instant, was put in earlier. */
  ghost predicate Earlier(s: State, a: nat, b: nat) {
    s.Fires(a) < s.Fires(b) || (s.Fires(a) == s.Fires(b) && At(s.stamp, a, 0) < At(s.stamp, b, 0))
  }

  ghost predicate InOrder(s: State, q: seq<nat>) {
    forall i, j :: 0 <= i < j < |q| ==> Earlier(s, q[i], q[j])
  }

  ghost predicate Entry(s: State, a: nat) {
    a != 0 && At(s.stamp, a, 0) < s.count && OnGrid(s, a)
  }

  ghost predicate Good(s: State) {
    && InOrder(s, s.queue)
    && (forall a :: a in s.queue ==> Entry(s, a))
    && (forall a :: a in s.queue <==> At(s.handler, a, 0) != 0)
  }

  lemma OrderSorted(s: State, q: seq<nat>)
    requires InOrder(s, q)
    ensures NoDup(q) && Sorted(q, s.fire)
  {
    forall i, j | 0 <= i < j < |q| ensures q[i] != q[j] && s.Fires(q[i]) <= s.Fires(q[j]) {
      assert Earlier(s, q[i], q[j]);
    }
  }

  lemma TailMembers(q: seq<nat>)
    requires q != [] && NoDup(q)
    ensures forall a :: a in q[1..] <==> a in q && a != q[0]
  {
    assert q == [q[0]] + q[1..];
  }

  lemma HeadIn(q: seq<nat>)
    ensures q != [] ==> q[0] in q
  {
  }

  lemma FirstIsLeast(s: State, q: seq<nat>)
    requires InOrder(s, q) && q != []
    ensures forall b :: b in q ==> b == q[0] || Earlier(s, q[0], b)
  {
  }

  /** The order is fixed by the firing times and the order of insertion: a set of alarms has one queue. */
  lemma {:induction false} QueueUnique(s: State, p: seq<nat>, q: seq<nat>)
    requires InOrder(s, p) && InOrder(s, q) && forall a :: a in p <==> a in q
    ensures p == q
    decreases |p|
  {
    HeadIn(p);
    HeadIn(q);
    if p != [] && q != [] {
      FirstIsLeast(s, p);
      FirstIsLeast(s, q);
      OrderSorted(s, p);
      OrderSorted(s, q);
      TailMembers(p);
      TailMembers(q);
      QueueUnique(s, p[1..], q[1..]);
    }
  }

  // ----- every call keeps it

  lemma EarlierFrame(s: State, s': State, a: nat, b: nat)
    requires Earlier(s, a, b)
    requires s'.Fires(a) == s.Fires(a) && s'.Fires(b) == s.Fires(b)
    requires At(s'.stamp, a, 0) == At(s.stamp, a, 0) && At(s'.stamp, b, 0) == At(s.stamp, b, 0)
    ensures Earlier(s', a, b)
  {
  }

  lemma SpliceOrder(s: State, q: seq<nat>, i: nat, a: nat)
    requires InOrder(s, q) && i <= |q|
    requires forall j :: 0 <= j < i ==> Earlier(s, q[j], a)
    requires forall j :: i <= j < |q| ==> Earlier(s, a, q[j])
    ensures InOrder(s, q[..i] + [a] + q[i..])
  {
    var r := q[..i] + [a] + q[i..];
    hide Earlier;
    forall j, k | 0 <= j < k < |r| ensures Earlier(s, r[j], r[k]) {
      if j != i && k != i { assert Earlier(s, q[if j < i then j else j - 1], q[if k < i then k else k - 1]); }
    }
  }

  /** What insertion writes. */
  lemma PutFields(s: State, a: nat, fire: int, handler: int)
    ensures var s' := Put(s, a, fire, handler);
      && s'.queue == Insert(s.queue, a, s'.fire) && s'.handler == s.handler[a := handler]
      && At(s'.stamp, a, 0) == s.count && s'.count == s.count + 1
      && s'.now == s.now && s'.start == s.start && s'.period == s.period
      && forall b :: b != a ==> s'.Fires(b) == s.Fires(b) && At(s'.stamp, b, 0) == At(s.stamp, b, 0)
  {
  }

  lemma OrderFrame(s: State, s': State, q: seq<nat>)
    requires InOrder(s, q) && forall b :: b in q ==>
      s'.Fires(b) == s.Fires(b) && At(s'.stamp, b, 0) == At(s.stamp, b, 0)
    ensures InOrder(s', q)
  {
    forall j, k | 0 <= j < k < |q| ensures Earlier(s', q[j], q[k]) {
      assert q[j] in q && q[k] in q;
      EarlierFrame(s, s', q[j], q[k]);
    }
  }

  lemma PutOrder(s: State, a: nat, fire: int, handler: int)
    requires InOrder(s, s.queue) && a !in s.queue && forall b :: b in s.queue ==> At(s.stamp, b, 0) < s.count
    ensures InOrder(Put(s, a, fire, handler), Put(s, a, fire, handler).queue)
  {
    var s', q := Put(s, a, fire, handler), s.queue;
    PutFields(s, a, fire, handler);
    hide Put;
    var i := InsertPos(q, s'.fire, s'.Fires(a));
    assert s'.queue == q[..i] + [a] + q[i..];
    hide Insert;
    OrderFrame(s, s', q);
    OrderSorted(s', q);
    SplitAt(q, s'.fire, s'.Fires(a));
    hide InsertPos, InOrder, Sorted;
    forall j | 0 <= j < |q| ensures if j < i then Earlier(s', q[j], a) else Earlier(s', a, q[j]) { assert q[j] in q; }
    SpliceOrder(s', q, i, a);
  }

  /** In a sorted queue the insertion point splits the keys at the bound. */
  lemma SplitAt(q: seq<nat>, key: map<nat, int>, bound: int)
    requires Sorted(q, key)
    ensures forall i :: 0 <= i < |q| ==> (i < InsertPos(q, key, bound) <==> At(key, q[i], 0) <= bound)
  {
    InsertPosBetween(q, key, bound);
    var k := InsertPos(q, key, bound);
    hide InsertPos;
    forall i | 0 <= i < |q| ensures i < k <==> At(key, q[i], 0) <= bound {
      if k < i { assert At(key, q[k], 0) <= At(key, q[i], 0); }
    }
  }

  lemma PutGrid(s: State, a: nat, fire: int, handler: int)
    ensures OnGrid(Put(s, a, fire, handler), a)
  {
    var s' := Put(s, a, fire, handler);
    if s.Periodic(a) {
      var p := At(s.period, a, 0);
      NextFireIsFirst(s.Start(a), p, s.now, 0);
      var k: nat := if s.Start(a) < s.now then (s.now - s.Start(a)) / p + 1 else 0;
      assert s'.Fires(a) == s'.Start(a) + At(s'.period, a, 0) * k;
    }
  }

  lemma EntryFrame(s: State, s': State, a: nat)
    requires Entry(s, a) && s.count <= s'.count && At(s'.stamp, a, 0) == At(s.stamp, a, 0)
    requires s'.Fires(a) == s.Fires(a) && s'.Start(a) == s.Start(a) && At(s'.period, a, 0) == At(s.period, a, 0)
    ensures Entry(s', a)
  {
    if s.Periodic(a) {
      var k: nat :| s.Fires(a) == s.Start(a) + At(s.period, a, 0) * k;
      assert s'.Fires(a) == s'.Start(a) + At(s'.period, a, 0) * k;
    }
  }

  lemma PutMembers(s: State, a: nat, fire: int, handler: int)
    requires NoDup(s.queue) && a !in s.queue
    ensures var q := Put(s, a, fire, handler).queue;
      (forall b :: b in q <==> b in s.queue || b == a) && Without(q, a) == s.queue
  {
    var fires := Put(s, a, fire, handler).fire;
    var r, i := Insert(s.queue, a, fires), InsertPos(s.queue, fires, At(fires, a, 0));
    InsertMembers(s.queue, a, fires);
    hide InsertPos;
    assert r == s.queue[..i] + [a] + s.queue[i..] && r[i] == a;
    WithoutAt(r, i);
  }

  /** Insertion keeps the queue in order, and the new alarm joins it. */
  lemma PutGood(s: State, a: nat, fire: int, handler: int)
    requires Good(s) && a != 0 && a !in s.queue && handler != 0
    ensures var s' := Put(s, a, fire, handler);
      Good(s') && (forall b :: b in s'.queue <==> b in s.queue || b == a) && Without(s'.queue, a) == s.queue
  {
    var s' := Put(s, a, fire, handler);
    OrderSorted(s, s.queue);
    PutOrder(s, a, fire, handler);
    PutGrid(s, a, fire, handler);
    PutMembers(s, a, fire, handler);
    assert s'.handler == s.handler[a := handler] && s'.count == s.count + 1 && At(s'.stamp, a, 0) == s.count;
    forall b | b in s.queue ensures Entry(s', b) { EntryFrame(s, s', b); }
    hide Put, InOrder, Without, OnGrid;
  }

  /** Writing the period and the start of an alarm that is not pending. */
  lemma SettingsGood(s: State, a: nat, period: map<nat, int>, start: map<nat, int>)
    requires Good(s) && a !in s.queue
    requires forall b :: b != a ==> At(period, b, 0) == At(s.period, b, 0) && At(start, b, 0) == At(s.start, b, 0)
    ensures Good(s.(period := period, start := start))
  {
    var s' := s.(period := period, start := start);
    forall b | b in s'.queue ensures Entry(s', b) { EntryFrame(s, s', b); }
    OrderFrame(s, s', s.queue);
  }

  lemma DropOrder(s: State, q: seq<nat>, a: nat)
    requires InOrder(s, q)
    ensures InOrder(s, Without(q, a))
  {
    OrderSorted(s, q);
    if a in q {
      var i :| 0 <= i < |q| && q[i] == a;
      WithoutAt(q, i);
      forall j, k | 0 <= j < k < |q| - 1 ensures Earlier(s, Without(q, a)[j], Without(q, a)[k]) {
        assert Earlier(s, q[if j < i then j else j + 1], q[if k < i then k else k + 1]);
      }
    } else {
      WithoutAbsent(q, a);
    }
  }

  /** Taking an alarm out. */
  lemma DropGood(s: State, a: nat)
    requires Good(s)
    ensures Good(s.(queue := Without(s.queue, a), handler := s.handler[a := 0])) && a !in Without(s.queue, a)
  {
    var s' := s.(queue := Without(s.queue, a), handler := s.handler[a := 0]);
    OrderSorted(s, s.queue);
    WithoutMembers(s.queue, a);
    DropOrder(s, s.queue, a);
    forall b | b in s.queue ensures Entry(s', b) { EntryFrame(s, s', b); }
    OrderFrame(s, s', s'.queue);
    hide Without, InOrder, Entry;
  }

  lemma CancelPending(s: State, a: nat)
    requires At(s.handler, a, 0) != 0
    ensures Cancel(s, a) == s.(queue := Without(s.queue, a), handler := s.handler[a := 0])
  {
  }

  lemma SetGood(s: State, a: nat, tick: int)
    requires Good(s) && a != 0 && a !in s.queue
    ensures var s' := SetAlarm(s, a, tick);
      Good(s') && (forall b :: b in s'.queue <==> b in s.queue || b == a) && Without(s'.queue, a) == s.queue
  {
    var t := s.(period := s.period[a := 0]);
    assert SetAlarm(s, a, tick) == Put(t, a, s.now + tick, 1) && t.queue == s.queue;
    SettingsGood(s, a, t.period, t.start);
    hide *;
    PutGood(t, a, s.now + tick, 1);
  }

  /** Cancelling an alarm just set restores the queue. */
  lemma CancelUndoes(s: State, a: nat, tick: int)
    requires Good(s) && a != 0 && a !in s.queue
    ensures Cancel(SetAlarm(s, a, tick), a).queue == s.queue && Good(Cancel(SetAlarm(s, a, tick), a))
  {
    SetGood(s, a, tick);
    var t := SetAlarm(s, a, tick);
    assert At(t.handler, a, 0) != 0;
    CancelPending(t, a);
    DropGood(t, a);
    hide *;
  }

  // ----- runs

  datatype Call =
    | CreateCall(a: nat)
    | SetCall(a: nat, tick: int)
    | PeriodicCall(a: nat, start: int, period: int)
    | CancelCall(a: nat)
    | FireCall
    | PassTime(now: int)

  /** What a caller must see to: an alarm is not set, nor set up afresh, while it is pending. */
  ghost predicate Enabled(s: State, c: Call) {
    match c
    case CreateCall(a) => a !in s.queue
    case SetCall(a, _) => a != 0 && a !in s.queue
    case PeriodicCall(a, _, _) => a != 0 && a !in s.queue
    case _ => true
  }

  function Step(s: State, c: Call): State {
    match c
    case CreateCall(a) => Create(s, a)
    case SetCall(a, tick) => SetAlarm(s, a, tick)
    case PeriodicCall(a, start, period) => SetPeriodic(s, a, start, period)
    case CancelCall(a) => Cancel(s, a)
    case FireCall => Fire(s).1
    case PassTime(now) => s.(now := now)
  }

  lemma FireGood(s: State)
    requires Good(s)
    ensures Good(Fire(s).1)
  {
    if !(s.queue == [] || s.now < s.Fires(s.queue[0])) {
      var a := s.queue[0];
      var t := s.(queue := s.queue[1..], handler := s.handler[a := 0]);
      assert Without(s.queue, a) == s.queue[1..];
      DropGood(s, a);
      if s.Periodic(a) { PutGood(t, a, 0, At(s.handler, a, 0)); }
    }
  }

  lemma StepGood(s: State, c: Call)
    requires Good(s) && Enabled(s, c)
    ensures Good(Step(s, c))
  {
    hide Put, Good, Fire;
    match c
    case CreateCall(a) =>
      DropGood(s, a);
      WithoutAbsent(s.queue, a);
    case SetCall(a, tick) => SetGood(s, a, tick);
    case PeriodicCall(a, start, period) =>
      SettingsGood(s, a, s.period[a := period], s.start[a := start]);
      PutGood(s.(period := s.period[a := period], start := s.start[a := start]), a, 0, 1);
    case CancelCall(a) => DropGood(s, a);
    case FireCall => FireGood(s);
    case PassTime(now) => NowGood(s, now);
  }

  lemma NowGood(s: State, now: int)
    requires Good(s)
    ensures Good(s.(now := now))
  {
    var s' := s.(now := now);
    forall b | b in s'.queue ensures Entry(s', b) { EntryFrame(s, s', b); }
    OrderFrame(s, s', s.queue);
  }

  ghost predicate Allowed(s: State, calls: seq<Call>)
    decreases |calls|
  {
    calls != [] ==> Enabled(s, calls[0]) && Allowed(Step(s, calls[0]), calls[1..])
  }

  function Run(s: State, calls: seq<Call>): State
    decreases |calls|
  {
    if calls == [] then s else Run(Step(s, calls[0]), calls[1..])
  }

  /** After every run: the queue is in order of firing time, and of insertion within one instant; an alarm has a handler
      just while it is pending; and a pending periodic alarm has not drifted from its start by a broken period. */
  lemma {:induction false} RunGood(s: State, calls: seq<Call>)
    requires Good(s) && Allowed(s, calls)
    ensures Good(Run(s, calls))
    decreases |calls|
  {
    if calls != [] {
      StepGood(s, calls[0]);
      RunGood(Step(s, calls[0]), calls[1..]);
    }
  }

  function Init(): State { State([], map[], map[], map[], map[], 0, map[], 0) }

  // ----- firing

  /** The pending alarms whose time has come, in queue order. */
  function Due(s: State): seq<nat> {
    s.queue[..InsertPos(s.queue, s.fire, s.now)]
  }

  /** Firing returns nothing just when nothing is due, and then changes nothing; else the first due alarm. */
  lemma FiresFirstDue(s: State)
    requires Good(s)
    ensures var (a, s') := Fire(s);
      && (a == 0 <==> Due(s) == []) && (a == 0 ==> s' == s)
      && (a != 0 ==> a == Due(s)[0] && forall b :: b in s.queue && b != a ==> Earlier(s, a, b))
      && (a != 0 ==> forall b :: b in s'.queue <==> b in s.queue && (b != a || s.Periodic(a)))
  {
    if s.queue != [] { assert Entry(s, s.queue[0]); }
    if s.queue != [] && s.Fires(s.queue[0]) <= s.now {
      var a := s.queue[0];
      assert Due(s)[0] == a;
      var t := s.(queue := s.queue[1..], handler := s.handler[a := 0]);
      forall b | b in s.queue && b != a ensures Earlier(s, a, b) {
        var i :| 0 <= i < |s.queue| && s.queue[i] == b;
      }
      OrderSorted(s, s.queue);
      DropGood(s, a);
      assert Without(s.queue, a) == s.queue[1..];
      WithoutMembers(s.queue, a);
      if s.Periodic(a) { PutGood(t, a, 0, At(s.handler, a, 0)); }
    }
  }

  /** A periodic alarm that starts at this very instant. */
  predicate Endless(s: State, a: nat) {
    s.Periodic(a) && s.Start(a) == s.now
  }

  lemma {:induction false} InsertPosFrame(q: seq<nat>, key: map<nat, int>, key': map<nat, int>, k: int)
    requires forall a :: a in q ==> At(key', a, 0) == At(key, a, 0)
    ensures InsertPos(q, key', k) == InsertPos(q, key, k)
  {
    InsertPosBetween(q, key, k);
    var i := InsertPos(q, key, k);
    assert forall j :: 0 <= j < |q| ==> q[j] in q;
    hide InsertPos;
    InsertPosUnique(q, key', k, i);
  }

  /** What stands at or below a bound, after an insertion at or above it. */
  lemma SplicePrefix(q: seq<nat>, a: nat, key: map<nat, int>, bound: int)
    requires Sorted(q, key) && At(key, a, 0) >= bound
    ensures var r := Insert(q, a, key);
      r[..InsertPos(r, key, bound)] == q[..InsertPos(q, key, bound)] + (if At(key, a, 0) == bound then [a] else [])
  {
    var i, k, r := InsertPos(q, key, At(key, a, 0)), InsertPos(q, key, bound), Insert(q, a, key);
    SplitAt(q, key, At(key, a, 0));
    SplitAt(q, key, bound);
    assert r == q[..i] + [a] + q[i..];
    hide InsertPos, Insert, Sorted;
    assert k < i ==> At(key, a, 0) > bound;
    if At(key, a, 0) == bound {
      assert i == k;
      InsertPosUnique(r, key, bound, k + 1);
    } else {
      assert k <= i;
      InsertPosUnique(r, key, bound, k);
    }
  }

  lemma DueAfterPut(t: State, a: nat, handler: int)
    requires InOrder(t, t.queue) && a !in t.queue && t.Periodic(a)
    ensures Due(Put(t, a, 0, handler)) == if t.Start(a) == t.now then Due(t) + [a] else Due(t)
  {
    var s' := Put(t, a, 0, handler);
    NextFireIsFirst(t.Start(a), At(t.period, a, 0), t.now, 0);
    OrderSorted(t, t.queue);
    SortedFrame(t.queue, t.fire, s'.fire);
    InsertPosFrame(t.queue, t.fire, s'.fire, t.now);
    assert s'.queue == Insert(t.queue, a, s'.fire) && s'.now == t.now;
    hide InsertPos, Insert;
    SplicePrefix(t.queue, a, s'.fire, t.now);
  }

  ghost predicate SameClock(s: State, s': State) {
    s'.now == s.now && s'.start == s.start && s'.period == s.period
  }

  /** One firing takes the first due alarm off the list of those due, unless it starts at this very instant: then it is
      due again at once, behind all the others. */
  lemma FireStep(s: State)
    requires Good(s) && Due(s) != []
    ensures var (a, s') := Fire(s);
      && a == Due(s)[0] && Due(s') == Due(s)[1..] + (if Endless(s, a) then [a] else [])
      && SameClock(s, s')
  {
    var a := s.queue[0];
    var t := s.(queue := s.queue[1..], handler := s.handler[a := 0]);
    OrderSorted(s, s.queue);
    DropGood(s, a);
    assert Without(s.queue, a) == t.queue;
    assert Due(t) == Due(s)[1..];
    if s.Periodic(a) { DueAfterPut(t, a, At(s.handler, a, 0)); }
  }

  /** The state after `n` firings at one instant, and what they returned. */
  function FireTimes(s: State, n: nat): State
    decreases n
  {
    if n == 0 then s else FireTimes(Fire(s).1, n - 1)
  }

  function Fired(s: State, n: nat): seq<nat>
    decreases n
  {
    if n == 0 then [] else [Fire(s).0] + Fired(Fire(s).1, n - 1)
  }

  function EndlessOnly(s: State, q: seq<nat>): seq<nat> {
    if q == [] then [] else (if Endless(s, q[0]) then [q[0]] else []) + EndlessOnly(s, q[1..])
  }

  lemma {:induction false} EndlessFrame(s: State, s': State, q: seq<nat>)
    requires SameClock(s, s')
    ensures EndlessOnly(s', q) == EndlessOnly(s, q)
  {
    if q != [] { EndlessFrame(s, s', q[1..]); }
  }

  lemma {:induction false} EndlessMembers(s: State, q: seq<nat>)
    ensures forall a :: a in EndlessOnly(s, q) <==> a in q && Endless(s, a)
  {
    if q != [] {
      EndlessMembers(s, q[1..]);
      assert q == [q[0]] + q[1..];
    }
  }

  lemma FirstEndless(s: State, q: seq<nat>)
    requires q != []
    ensures EndlessOnly(s, q) == (if Endless(s, q[0]) then [q[0]] else []) + EndlessOnly(s, q[1..])
  {
  }

  lemma RoundStep(d: seq<nat>, e: seq<nat>, more: seq<nat>, n: nat, x: seq<nat>)
    requires 0 < n <= |d| && e == d[1..] + more
    ensures e[..n - 1] == d[..n][1..] && d[..n] == [d[0]] + e[..n - 1] && d[..n][0] == d[0]
    ensures e[n - 1..] + x == d[n..] + (more + x)
  {
    assert e[n - 1..] == d[n..] + more;
  }

  lemma FireTimesStep(s: State, n: nat)
    ensures FireTimes(s, 0) == s && Fired(s, 0) == []
    ensures n > 0 ==>
      FireTimes(s, n) == FireTimes(Fire(s).1, n - 1) && Fired(s, n) == [Fire(s).0] + Fired(Fire(s).1, n - 1)
  {
    hide Fire;
  }

  lemma SameClockTrans(s: State, s1: State, s2: State)
    requires SameClock(s, s1) && SameClock(s1, s2)
    ensures SameClock(s, s2)
  {
  }

  lemma NothingFired(s: State)
    ensures Due(s)[..0] == [] && Due(s)[0..] + EndlessOnly(s, Due(s)[..0]) == Due(s) && SameClock(s, s)
  {
    hide Due;
    assert Due(s)[..0] == [];
  }

  /** The first firings take the due alarms in order; those that start at this instant queue up again. */
  lemma {:induction false} FireRound(s: State, n: nat)
    requires Good(s) && n <= |Due(s)|
    ensures Fired(s, n) == Due(s)[..n] && Due(FireTimes(s, n)) == Due(s)[n..] + EndlessOnly(s, Due(s)[..n])
    ensures Good(FireTimes(s, n)) && SameClock(s, FireTimes(s, n))
    decreases n
  {
    hide *;
    FireTimesStep(s, n);
    if n > 0 {
      var d, a, s1 := Due(s), Fire(s).0, Fire(s).1;
      FireStep(s);
      FireGood(s);
      FireRound(s1, n - 1);
      SameClockTrans(s, s1, FireTimes(s1, n - 1));
      EndlessFrame(s, s1, d[..n][1..]);
      FirstEndless(s, d[..n]);
      RoundStep(d, Due(s1), if Endless(s, a) then [a] else [], n, EndlessOnly(s, d[..n][1..]));
    } else {
      NothingFired(s);
    }
  }

  lemma DueStays(s: State, s': State, a: nat, d: seq<nat>, e: seq<nat>, more: seq<nat>)
    requires d != [] && e == d[1..] + more && a in d && (a == d[0] ==> a in more)
    requires SameClock(s, s') && Endless(s, a)
    ensures a in e && Endless(s', a)
  {
    assert d == [d[0]] + d[1..];
  }

  lemma {:induction false} StaysDue(s: State, a: nat, n: nat)
    requires Good(s) && a in Due(s) && Endless(s, a)
    ensures a in Due(FireTimes(s, n))
    decreases n
  {
    hide *;
    FireTimesStep(s, n);
    if n > 0 {
      var d, b, s1 := Due(s), Fire(s).0, Fire(s).1;
      FireStep(s);
      FireGood(s);
      DueStays(s, s1, a, d, Due(s1), if Endless(s, b) then [b] else []);
      StaysDue(s1, a, n - 1);
    }
  }

  /** Firing at one instant until nothing is due comes to an end just when no due alarm is periodic with its start at
      that instant; it then takes one firing for each alarm due, in queue order. */
  lemma DrainsIff(s: State)
    requires Good(s)
    ensures (exists n: nat :: Due(FireTimes(s, n)) == []) <==> (forall a :: a in Due(s) ==> !Endless(s, a))
    ensures (forall a :: a in Due(s) ==> !Endless(s, a)) ==>
      Fired(s, |Due(s)|) == Due(s) && Due(FireTimes(s, |Due(s)|)) == []
      && forall n: nat :: n < |Due(s)| ==> Due(FireTimes(s, n)) != []
  {
    var d := Due(s);
    if exists a :: a in d && Endless(s, a) {
      var a :| a in d && Endless(s, a);
      forall n: nat ensures Due(FireTimes(s, n)) != [] { StaysDue(s, a, n); }
    } else {
      FireRound(s, |d|);
      EndlessMembers(s, d);
      assert d[..|d|] == d;
      HeadIn(EndlessOnly(s, d));
      forall n: nat | n < |d| ensures Due(FireTimes(s, n)) != [] { FireRound(s, n); }
    }
  }
}
