/** Message queues: a bounded deque under modular indices, with no lost wake-up. */
module SchedMessage {
  import opened Lists
  import opened Sched
  import opened SchedInv
  import opened SchedChain
  import opened SchedCalls
  import opened SchedKeep
  import opened SchedGood
  import opened SchedMutex

  // ----- the deque

  /** Where message number `i` is stored. */
  function Slot(u: MsgQueue, i: int): int
    requires u.count != 0
  {
    (u.first + i) % u.count
  }

  lemma SlotAt(u: MsgQueue, i: int)
    requires 0 <= u.first < u.count && 0 <= i <= u.count
    ensures Slot(u, i) == if u.first + i < u.count then u.first + i else u.first + i - u.count
  {
  }

  /** The messages held, first to last. */
  function Contents(u: MsgQueue): (r: seq<int>)
    requires MqOk(u)
    ensures |r| == u.used
  {
    if u.used == 0 then [] else seq(u.used, i requires 0 <= i < u.used => u.slot[Slot(u, i)])
  }

  lemma AppendContents(u: MsgQueue, msg: int)
    requires MqOk(u) && u.used < u.count
    ensures MqOk(Append(u, msg)) && Contents(Append(u, msg)) == Contents(u) + [msg]
  {
    var u' := Append(u, msg);
    SlotAt(u, u.used);
    assert u'.slot == u.slot[Slot(u, u.used) := msg];
    forall i | 0 <= i < u'.used ensures Contents(u')[i] == (Contents(u) + [msg])[i] {
      SlotAt(u, i);
      assert Slot(u', i) == Slot(u, i);
    }
  }

  /** Moving the first index one slot forward renumbers the messages by one. */
  lemma SlotShift(u: MsgQueue, v: MsgQueue, i: int)
    requires 0 <= u.first < u.count == v.count && v.first == Slot(u, 1) && 1 <= i <= u.count
    ensures Slot(v, i - 1) == Slot(u, i) && 0 <= Slot(u, i) < u.count
    ensures i < u.count ==> Slot(u, i) != u.first
    ensures 0 <= v.first < v.count && Slot(u, 0) == u.first && Slot(u, u.count) == u.first
  {
    hide Slot;
    SlotAt(u, 0);
    SlotAt(u, 1);
    SlotAt(u, i);
    SlotAt(u, u.count);
    SlotAt(v, i - 1);
  }

  lemma StepBack(u: MsgQueue)
    requires 0 <= u.first < u.count
    ensures var f := Rem(u.first + u.count - 1, u.count); 0 <= f < u.count && Slot(u.(first := f), 1) == u.first
  {
    SlotAt(u, u.count - 1);
    var f := Slot(u, u.count - 1);
    SlotAt(u.(first := f), 1);
  }

  lemma PrependContents(u: MsgQueue, msg: int)
    requires MqOk(u) && u.used < u.count
    ensures MqOk(Prepend(u, msg)) && Contents(Prepend(u, msg)) == [msg] + Contents(u)
  {
    var u' := Prepend(u, msg);
    StepBack(u);
    SlotShift(u', u, 1);
    forall i | 0 <= i < u'.used ensures Contents(u')[i] == ([msg] + Contents(u))[i] {
      if i > 0 { SlotShift(u', u, i); }
    }
  }

  lemma DropContents(u: MsgQueue)
    requires MqOk(u) && u.used > 0
    ensures MqOk(Drop(u)) && Contents(u) == [Message(u)] + Contents(Drop(u))
  {
    var u' := Drop(u);
    SlotShift(u, u', 1);
    forall i | 0 <= i < u.used ensures Contents(u)[i] == ([Message(u)] + Contents(u'))[i] {
      if i > 0 { SlotShift(u, u', i); }
    }
  }

  // ----- the calls

  lemma MqSane(s: State, k: nat, u: MsgQueue, j: Qid)
    requires Good(s) && MqOk(u) && j in {SendQ(k), RecvQ(k)}
    requires j == RecvQ(k) ==> s.Mq(k).used < s.Mq(k).count
    requires j == SendQ(k) ==> s.Mq(k).used > 0
    ensures SaneBut(PutMq(s, k, u), {j}) && HintOk(PutMq(s, k, u))
  {
    var s' := PutMq(s, k, u);
    forall q, t ensures Located(s', {}, q, t) { assert Located(s, {}, q, t); }
    forall q ensures QueueOk(s', q) { assert QueueOk(s, q); }
    forall t ensures ThreadOk(s', {}, t) { assert ThreadOk(s, {}, t); }
    forall m ensures MutexOk(s', {}, m) { assert MutexOk(s, {}, m); }
    forall t ensures WaitOk(s', t, {j}) { assert WaitOk(s, t, {}); }
    forall v ensures Inherits(s', v) {
      forall w ensures SameClaim(s, s', w, v) {}
      InheritsBy(s, s', v);
    }
    forall i ensures MqOk(At(s'.a.mq, i, MsgQueue(0, 0, 0, []))) { assert MqOk(At(s.a.mq, i, MsgQueue(0, 0, 0, []))); }
    SameDispatch(s, s');
  }

  ghost predicate MayBlock(s: State) {
    s.d.cur != 0 && s.a.resched <= 0 && s.Mutex(s.d.cur) == 0
  }

  /** Sending to the back or the front: the deque takes the message exactly when there is room,
      and a full queue blocks the sender or leaves everything as it was. */
  lemma SendGood(s: State, k: nat, msg: int, block: bool, front: bool)
    requires Good(s) && (block && s.Mq(k).used >= s.Mq(k).count ==> MayBlock(s))
    ensures MqOk(s.Mq(k))
    ensures var (s', ok) := Send(s, k, msg, block, front);
      && Good(s') && (s.a.resched <= 0 && Dispatched(s) ==> Dispatched(s'))
      && (ok <==> |Contents(s.Mq(k))| < s.Mq(k).count)
      && MqOk(s'.Mq(k))
      && Contents(s'.Mq(k)) == if !ok then Contents(s.Mq(k))
                               else if front then [msg] + Contents(s.Mq(k)) else Contents(s.Mq(k)) + [msg]
  {
    var u := s.Mq(k);
    assert MqOk(u);
    if u.count <= u.used {
      if block { SleepGood(s, SendQ(k)); }
    } else {
      AppendContents(u, msg);
      PrependContents(u, msg);
      var u' := if front then Prepend(u, msg) else Append(u, msg);
      MqSane(s, k, u', RecvQ(k));
      WakeupSettles(PutMq(s, k, u'), RecvQ(k));
    }
  }

  /** Receiving takes the first message, exactly when there is one. */
  lemma ReceiveGood(s: State, k: nat, block: bool)
    requires Good(s) && (block && s.Mq(k).used == 0 ==> MayBlock(s))
    ensures MqOk(s.Mq(k))
    ensures var (s', msg, ok) := Receive(s, k, block);
      && Good(s') && (s.a.resched <= 0 && Dispatched(s) ==> Dispatched(s'))
      && MqOk(s'.Mq(k))
      && (ok <==> Contents(s.Mq(k)) != [])
      && Contents(s.Mq(k)) == (if ok then [msg] else []) + Contents(s'.Mq(k))
  {
    var u := s.Mq(k);
    assert MqOk(u);
    if u.used == 0 {
      if block { SleepGood(s, RecvQ(k)); }
    } else {
      DropContents(u);
      MqSane(s, k, Drop(u), SendQ(k));
      WakeupSettles(PutMq(s, k, Drop(u)), SendQ(k));
    }
  }

  /** Setting up a queue nobody is parked on. */
  lemma InitQueueGood(s: State, k: nat, n: int)
    requires Good(s) && s.Q(SendQ(k)) == [] && s.Q(RecvQ(k)) == [] && n <= 16
    ensures Good(InitQueue(s, k, n)) && (Dispatched(s) ==> Dispatched(InitQueue(s, k, n)))
  {
    var s' := InitQueue(s, k, n);
    assert forall q :: s'.Q(q) == s.Q(q);
    forall q, t ensures Located(s', {}, q, t) { assert Located(s, {}, q, t); }
    forall q ensures QueueOk(s', q) { assert QueueOk(s, q); }
    forall t ensures ThreadOk(s', {}, t) { assert ThreadOk(s, {}, t); }
    forall m ensures MutexOk(s', {}, m) { assert MutexOk(s, {}, m); }
    forall t ensures WaitOk(s', t, {}) {
      assert WaitOk(s, t, {}) && Located(s, {}, SendQ(k), t) && Located(s, {}, RecvQ(k), t);
    }
    forall v ensures Inherits(s', v) {
      forall w ensures SameClaim(s, s', w, v) {}
      InheritsBy(s, s', v);
    }
    forall i ensures MqOk(At(s'.a.mq, i, MsgQueue(0, 0, 0, []))) { assert MqOk(At(s.a.mq, i, MsgQueue(0, 0, 0, []))); }
    SameDispatch(s, s');
  }

  /** No thread is parked on receive while a message is held, and none on send while a slot is free. */
  lemma NoLostWakeup(s: State, k: nat)
    requires Good(s)
    ensures MqOk(s.Mq(k))
    ensures s.Q(RecvQ(k)) != [] ==> Contents(s.Mq(k)) == []
    ensures s.Q(SendQ(k)) != [] ==> |Contents(s.Mq(k))| >= s.Mq(k).count
  {
    assert MqOk(s.Mq(k));
    EmptyOrMember(s.Q(RecvQ(k)));
    EmptyOrMember(s.Q(SendQ(k)));
    forall t
      ensures (t in s.Q(RecvQ(k)) ==> s.Mq(k).used == 0) && (t in s.Q(SendQ(k)) ==> s.Mq(k).used >= s.Mq(k).count)
    {
      assert Located(s, {}, RecvQ(k), t) && Located(s, {}, SendQ(k), t) && WaitOk(s, t, {}) && ThreadOk(s, {}, t);
    }
  }
}
