/**
 Who gets what from the hub, read off the operations alone (apps/api/internal/realtime/hub.go): in every run a client
 is subscribed, registered, closed and addressed exactly as the operations before say, and of what it is addressed it
 misses exactly what came while it was closed or its queue was full.
 */
module HubDelivery {
  import opened Sequences
  import opened HubMachine

  lemma {:induction false} OneMoreOp<C>(s: Machine<C>, ops: seq<Op<C>>, op: Op<C>)
    ensures IsRun(s, ops + [op]) <==> IsRun(s, ops) && Enabled(After(s, ops), op)
    ensures IsRun(s, ops + [op]) ==> After(s, ops + [op]) == Step(After(s, ops), op)
    decreases ops
  {
    if ops != [] {
      assert (ops + [op])[1..] == ops[1..] + [op];
      if Enabled(s, ops[0]) {
        OneMoreOp(Step(s, ops[0]), ops[1..], op);
      }
    } else {
      assert ([] + [op])[1..] == [];
    }
  }

  lemma LastOp<C>(s: Machine<C>, ops: seq<Op<C>>)
    requires ops != [] && IsRun(s, ops)
    ensures var before, op := ops[..|ops| - 1], ops[|ops| - 1];
            IsRun(s, before) && Enabled(After(s, before), op) && After(s, ops) == Step(After(s, before), op)
  {
    var before, op := ops[..|ops| - 1], ops[|ops| - 1];
    assert before + [op] == ops;
    OneMoreOp(s, before, op);
  }

  // ----- what the operations say

  // The last operation about the client and the channel decides; leaving the hub leaves every channel.
  predicate Subscribed<C(==)>(ops: seq<Op<C>>, c: C, ch: Channel) {
    ops != []
    && match ops[|ops| - 1]
       case Subscribe(d, other) => (d == c && other == ch) || Subscribed(ops[..|ops| - 1], c, ch)
       case Unsubscribe(d, other) => !(d == c && other == ch) && Subscribed(ops[..|ops| - 1], c, ch)
       case Unregister(d) => d != c && Subscribed(ops[..|ops| - 1], c, ch)
       case _ => Subscribed(ops[..|ops| - 1], c, ch)
  }

  predicate Registered<C(==)>(ops: seq<Op<C>>, c: C) {
    ops != []
    && match ops[|ops| - 1]
       case Register(d) => d == c || Registered(ops[..|ops| - 1], c)
       case Unregister(d) => d != c && Registered(ops[..|ops| - 1], c)
       case _ => Registered(ops[..|ops| - 1], c)
  }

  predicate WasClosed<C(==)>(ops: seq<Op<C>>, c: C) {
    Op.Close(c) in ops || Op.Unregister(c) in ops
  }

  // The events of its channels, and those for everybody while it was registered.
  function Addressed<C(==)>(ops: seq<Op<C>>, c: C): seq<Message> {
    if ops == [] then []
    else
      var before := Addressed(ops[..|ops| - 1], c);
      match ops[|ops| - 1]
      case Broadcast(ch, event) =>
        if Subscribed(ops[..|ops| - 1], c, ch) then before + [Change(ch, event)] else before
      case BroadcastAll(event) => if Registered(ops[..|ops| - 1], c) then before + [Change("", event)] else before
      case _ => before
  }

  // ----- is what happens

  ghost predicate AsTheOpsSay<C(!new)>(s: Machine<C>, ops: seq<Op<C>>, c: C) {
    && c in s.conns && (c in s.clients <==> Registered(ops, c))
    && (forall ch :: ch in ChannelsOf(s.conns[c]) <==> Subscribed(ops, c, ch))
    && (s.conns[c].closed <==> WasClosed(ops, c))
    && s.conns[c].addressed == Addressed(ops, c)
  }

  lemma {:induction false} UnheardOf<C(!new)>(ops: seq<Op<C>>, c: C)
    requires IsRun(Start<C>(), ops) && c !in After(Start<C>(), ops).conns
    ensures !Registered(ops, c) && Addressed(ops, c) == [] && !WasClosed(ops, c)
    ensures forall ch :: !Subscribed(ops, c, ch)
    decreases ops
  {
    if ops != [] {
      LastOp(Start<C>(), ops);
      UnheardOf(ops[..|ops| - 1], c);
      ClosedOnceMore(ops, c);
    }
  }

  lemma ClosedOnceMore<C(!new)>(ops: seq<Op<C>>, c: C)
    requires ops != []
    ensures WasClosed(ops, c) <==>
              (WasClosed(ops[..|ops| - 1], c) || ops[|ops| - 1] == Op.Close(c) || ops[|ops| - 1] == Op.Unregister(c))
  {
    var before := ops[..|ops| - 1];
    assert ops == before + [ops[|ops| - 1]];
  }

  lemma ClosedAsSaid<C(!new)>(s: Machine<C>, ops: seq<Op<C>>, c: C)
    requires ops != [] && Enabled(s, ops[|ops| - 1]) && c in s.conns
    requires s.conns[c].closed <==> WasClosed(ops[..|ops| - 1], c)
    ensures c in Step(s, ops[|ops| - 1]).conns && (Step(s, ops[|ops| - 1]).conns[c].closed <==> WasClosed(ops, c))
  {
    ClosedOnceMore(ops, c);
  }

  // Whether the client has the channel after one operation.
  predicate HasAfter<C(==)>(op: Op<C>, c: C, ch: Channel, before: bool) {
    match op
    case Subscribe(d, other) => (d == c && other == ch) || before
    case Unsubscribe(d, other) => !(d == c && other == ch) && before
    case Unregister(d) => d != c && before
    case _ => before
  }

  lemma StepChannels<C(!new)>(s: Machine<C>, op: Op<C>, c: C, ch: Channel)
    requires Enabled(s, op) && c in s.conns
    ensures c in Step(s, op).conns
    ensures ch in ChannelsOf(Step(s, op).conns[c]) <==> HasAfter(op, c, ch, ch in ChannelsOf(s.conns[c]))
  {
    if !TouchesIndex(op) {
      OtherStepsKeepChannels(s, op);
    }
  }

  lemma ChannelsAsSaid<C(!new)>(s: Machine<C>, ops: seq<Op<C>>, c: C)
    requires ops != [] && Enabled(s, ops[|ops| - 1]) && c in s.conns
    requires forall ch :: ch in ChannelsOf(s.conns[c]) <==> Subscribed(ops[..|ops| - 1], c, ch)
    ensures c in Step(s, ops[|ops| - 1]).conns
    ensures forall ch :: ch in ChannelsOf(Step(s, ops[|ops| - 1]).conns[c]) <==> Subscribed(ops, c, ch)
  {
    forall ch
      ensures ch in ChannelsOf(Step(s, ops[|ops| - 1]).conns[c]) <==> Subscribed(ops, c, ch)
    {
      StepChannels(s, ops[|ops| - 1], c, ch);
    }
  }

  // What one operation addresses to the client.
  function For<C(==)>(op: Op<C>, c: C, channels: set<Channel>, registered: bool): seq<Message> {
    match op
    case Broadcast(ch, event) => if ch in channels then [Change(ch, event)] else []
    case BroadcastAll(event) => if registered then [Change("", event)] else []
    case _ => []
  }

  lemma BeginningAddresses<C(!new)>(s: Machine<C>, m: Message, targets: set<C>, c: C)
    requires c in s.conns
    ensures c in BeginVisit(s, m, targets).conns
    ensures BeginVisit(s, m, targets).conns[c].addressed == s.conns[c].addressed + if c in targets then [m] else []
  {
  }

  lemma StepAddresses<C(!new)>(s: Machine<C>, op: Op<C>, c: C)
    requires Inv(s) && Enabled(s, op) && c in s.conns
    ensures c in Step(s, op).conns
    ensures Step(s, op).conns[c].addressed
            == s.conns[c].addressed + For(op, c, ChannelsOf(s.conns[c]), c in s.clients)
  {
    match op
    case Broadcast(ch, event) =>
      assert (ch in s.channels && c in s.channels[ch]) <==> ch in ChannelsOf(s.conns[c]);
      BeginningAddresses(s, Change(ch, event), if ch in s.channels then s.channels[ch] else {}, c);
    case BroadcastAll(event) => BeginningAddresses(s, Change("", event), s.clients, c);
    case _ => OtherStepsAddressNothing(s, op, c);
  }

  lemma OtherStepsAddressNothing<C(!new)>(s: Machine<C>, op: Op<C>, c: C)
    requires Inv(s) && Enabled(s, op) && c in s.conns && !op.Broadcast? && !op.BroadcastAll?
    ensures c in Step(s, op).conns && Step(s, op).conns[c].addressed == s.conns[c].addressed
  {
    if op.VisitNext? {
      TrySendDelivers(s.conns[op.c], s.visiting.value.message);
    } else if op.Reply? {
      TrySendDelivers(s.conns[op.c], Pong);
    }
  }

  lemma AddressedAsSaid<C(!new)>(s: Machine<C>, ops: seq<Op<C>>, c: C)
    requires ops != [] && Inv(s) && Enabled(s, ops[|ops| - 1]) && AsTheOpsSay(s, ops[..|ops| - 1], c)
    ensures c in Step(s, ops[|ops| - 1]).conns && Step(s, ops[|ops| - 1]).conns[c].addressed == Addressed(ops, c)
  {
    StepAddresses(s, ops[|ops| - 1], c);
  }

  lemma StepAsSaid<C(!new)>(s: Machine<C>, ops: seq<Op<C>>, c: C)
    requires ops != [] && Inv(s) && Enabled(s, ops[|ops| - 1]) && AsTheOpsSay(s, ops[..|ops| - 1], c)
    ensures AsTheOpsSay(Step(s, ops[|ops| - 1]), ops, c)
  {
    ClosedAsSaid(s, ops, c);
    ChannelsAsSaid(s, ops, c);
    AddressedAsSaid(s, ops, c);
  }

  /** In every run, what the hub has of a client is what the operations say: its registration, its channels, whether
      it is closed, and exactly which events were for it. */
  lemma {:induction false} HubDoesAsTold<C(!new)>(ops: seq<Op<C>>, c: C)
    requires IsRun(Start<C>(), ops) && c in After(Start<C>(), ops).conns
    ensures AsTheOpsSay(After(Start<C>(), ops), ops, c)
    decreases ops
  {
    if ops != [] {
      var before := ops[..|ops| - 1];
      LastOp(Start<C>(), ops);
      RunKeepsInv(Start<C>(), before);
      if c in After(Start<C>(), before).conns {
        HubDoesAsTold(before, c);
        StepAsSaid(After(Start<C>(), before), ops, c);
      } else {
        UnheardOf(before, c);
        ClosedOnceMore(ops, c);
      }
    }
  }

  // ----- and what gets through

  // Visits that found the client closed or its queue full.
  ghost function Missed<C(!new)>(ops: seq<Op<C>>, c: C): nat
    requires IsRun(Start<C>(), ops)
    decreases ops
  {
    if ops == [] then 0
    else
      LastOp(Start<C>(), ops);
      var before, op := ops[..|ops| - 1], ops[|ops| - 1];
      var s := After(Start<C>(), before);
      Missed(before, c) + if op == VisitNext(c) && (s.conns[c].closed || |s.conns[c].queue| >= 16) then 1 else 0
  }

  function Waiting(awaiting: Option<Message>): nat {
    if awaiting.Some? then 1 else 0
  }

  lemma VisitMissesOrQueues(c: Conn, m: Message)
    requires ChannelSound(c) && IsChange(m)
    ensures |Changes(Delivered(TrySend(c, m)))| == |Changes(Delivered(c))| + if Accepts(c) then 1 else 0
  {
    TrySendQueues(c, m);
    if Accepts(c) {
      assert c.taken + (c.queue + [m]) == c.taken + c.queue + [m];
    }
    ChangesOfAppend(Delivered(c), m);
  }

  lemma PongIsNoChange(c: Conn)
    requires ChannelSound(c)
    ensures Changes(Delivered(TrySend(c, Pong))) == Changes(Delivered(c))
  {
    TrySendQueues(c, Pong);
    if Accepts(c) {
      assert c.taken + (c.queue + [Pong]) == c.taken + c.queue + [Pong];
    }
    ChangesOfAppend(Delivered(c), Pong);
  }

  ghost predicate Balanced<C(!new)>(s: Machine<C>, c: C, missed: nat) {
    c in s.conns
    && |s.conns[c].addressed| == |Changes(Delivered(s.conns[c]))| + missed + Waiting(Awaiting(s, c))
  }

  lemma VisitKeepsBalance<C(!new)>(s: Machine<C>, c: C, missed: nat)
    requires Inv(s) && Enabled(s, VisitNext(c)) && Balanced(s, c, missed)
    ensures Balanced(Step(s, VisitNext(c)), c, missed + if Accepts(s.conns[c]) then 0 else 1)
  {
    VisitMissesOrQueues(s.conns[c], s.visiting.value.message);
    TrySendDelivers(s.conns[c], s.visiting.value.message);
    assert Awaiting(s, c).Some? && Awaiting(Step(s, VisitNext(c)), c).None?;
  }

  lemma OtherStepsKeepBalance<C(!new)>(s: Machine<C>, op: Op<C>, c: C, missed: nat)
    requires Inv(s) && Enabled(s, op) && op != VisitNext(c) && !op.Broadcast? && !op.BroadcastAll?
    requires Balanced(s, c, missed)
    ensures Balanced(Step(s, op), c, missed)
  {
    var s' := Step(s, op);
    if op == Reply(c) {
      PongIsNoChange(s.conns[c]);
      TrySendDelivers(s.conns[c], Pong);
    } else if op == TakeNext(c) {
      TakeDeliversTheSame(s.conns[c]);
    }
    assert s'.conns[c].addressed == s.conns[c].addressed && Awaiting(s', c) == Awaiting(s, c);
    assert Changes(Delivered(s'.conns[c])) == Changes(Delivered(s.conns[c]));
  }

  lemma BeginningKeepsBalance<C(!new)>(s: Machine<C>, m: Message, targets: set<C>, c: C, missed: nat)
    requires Inv(s) && s.visiting.None? && Balanced(s, c, missed)
    ensures Balanced(BeginVisit(s, m, targets), c, missed)
  {
  }

  lemma StepKeepsBalance<C(!new)>(s: Machine<C>, op: Op<C>, c: C, missed: nat)
    requires Inv(s) && Enabled(s, op) && Balanced(s, c, missed)
    ensures Balanced(Step(s, op), c, missed + if op == VisitNext(c) && !Accepts(s.conns[c]) then 1 else 0)
  {
    if op == VisitNext(c) {
      VisitKeepsBalance(s, c, missed);
    } else if op.Broadcast? {
      var targets := if op.ch in s.channels then s.channels[op.ch] else {};
      BeginningKeepsBalance(s, Change(op.ch, op.event), targets, c, missed);
    } else if op.BroadcastAll? {
      BeginningKeepsBalance(s, Change("", op.event), s.clients, c, missed);
    } else {
      OtherStepsKeepBalance(s, op, c, missed);
    }
  }

  lemma {:induction false} MissedIsTheRest<C(!new)>(ops: seq<Op<C>>, c: C)
    requires IsRun(Start<C>(), ops) && c in After(Start<C>(), ops).conns
    ensures Balanced(After(Start<C>(), ops), c, Missed(ops, c))
    decreases ops
  {
    if ops != [] {
      var before := ops[..|ops| - 1];
      LastOp(Start<C>(), ops);
      RunKeepsInv(Start<C>(), before);
      if c in After(Start<C>(), before).conns {
        MissedIsTheRest(before, c);
        StepKeepsBalance(After(Start<C>(), before), ops[|ops| - 1], c, Missed(before, c));
      } else {
        NothingMissedYet(before, c);
      }
    }
  }

  lemma {:induction false} NothingMissedYet<C(!new)>(ops: seq<Op<C>>, c: C)
    requires IsRun(Start<C>(), ops) && c !in After(Start<C>(), ops).conns
    ensures Missed(ops, c) == 0
    decreases ops
  {
    if ops != [] {
      LastOp(Start<C>(), ops);
      NothingMissedYet(ops[..|ops| - 1], c);
    }
  }

  lemma {:induction false} SubsequenceIsShorter<T>(a: seq<T>, b: seq<T>)
    requires IsSubsequence(a, b)
    ensures |a| <= |b| && (|a| == |b| ==> a == b)
    decreases b
  {
    if a != [] {
      var shorter := b[..|b| - 1];
      if a[|a| - 1] == b[|b| - 1] && IsSubsequence(a[..|a| - 1], shorter) {
        SubsequenceIsShorter(a[..|a| - 1], shorter);
        assert a == a[..|a| - 1] + [a[|a| - 1]] && b == shorter + [b[|b| - 1]];
      } else {
        SubsequenceIsShorter(a, shorter);
      }
    }
  }

  /** In every run, once no visit is outstanding, a client has got or will get the events addressed to it in order, all
      but as many as visits found it closed or full; so all of them exactly when none did. */
  lemma EverythingArrivesIff<C(!new)>(ops: seq<Op<C>>, c: C)
    requires IsRun(Start<C>(), ops) && c in After(Start<C>(), ops).conns && Awaiting(After(Start<C>(), ops), c).None?
    ensures var got := Changes(Delivered(After(Start<C>(), ops).conns[c]));
            && IsSubsequence(got, Addressed(ops, c)) && |got| == |Addressed(ops, c)| - Missed(ops, c)
            && (got == Addressed(ops, c) <==> Missed(ops, c) == 0)
  {
    RunKeepsInv(Start<C>(), ops);
    HubDoesAsTold(ops, c);
    MissedIsTheRest(ops, c);
    SubsequenceIsShorter(Changes(Delivered(After(Start<C>(), ops).conns[c])), Addressed(ops, c));
  }
}
