/**
 When concurrent calls amount to the calls one after another: not whenever their windows do, because what a call
 does after its commit runs without the lock.
 */
module PlayerCalls {
  import opened Sequences
  import opened PlayerClock

  // ----- one call after another

  // A call that committed: how its check went, if it got that far, and how each statement of its settlement did.
  datatype Call = Call(w: Window, checked: Option<bool>, settled: seq<bool>)

  function SettleAll<S, R, M>(sim: Sim<S, R, M>, memory: M, rows: S, failures: seq<bool>): (M, S)
    decreases failures
  {
    if failures == [] then (memory, rows)
    else
      var (m, r) := SettleAll(sim, memory, rows, failures[..|failures| - 1]);
      var (m', r', last) := sim.settle(m, r, failures[|failures| - 1]);
      (m', r')
  }

  // One call with nobody else about, up to where it got.
  function Alone<S, R, M>(sim: Sim<S, R, M>, book: Book<S>, call: Call): Book<S> {
    if call.w.to <= book.clock then book
    else
      var w := Window(book.clock, call.w.to);
      var flown := sim.install(book.rows, sim.routes(book.rows, w) + sim.rent(book.rows, w), book.rows, w);
      Book(w.to,
           if call.checked.None? then flown
           else SettleAll(sim, sim.begin(w), sim.check(w, flown, call.checked.value), call.settled).1)
  }

  function Serial<S, R, M>(sim: Sim<S, R, M>, book: Book<S>, calls: seq<Call>): Book<S>
    decreases calls
  {
    if calls == [] then book
    else Alone(sim, Serial(sim, book, calls[..|calls| - 1]), calls[|calls| - 1])
  }

  // The calls behind the effects, in the order of their commits.
  function Calls(log: seq<Effect>): seq<Call> {
    if log == [] then []
    else
      var calls := Calls(log[..|log| - 1]);
      match log[|log| - 1]
      case Posted(w, _, _) => calls + [Call(w, None, [])]
      case Checked(w, failed) =>
        seq(|calls|, i requires 0 <= i < |calls| =>
          if calls[i].w == w then calls[i].(checked := Some(failed)) else calls[i])
      case Settled(w, failed) =>
        seq(|calls|, i requires 0 <= i < |calls| =>
          if calls[i].w == w then calls[i].(settled := calls[i].settled + [failed]) else calls[i])
  }

  // The effects of one call run alone, after `at` others.
  function Block(from: int, at: nat, call: Call): seq<Effect> {
    var w := Window(from, call.w.to);
    [Posted(w, at, at)] + if call.checked.None? then [] else [Checked(w, call.checked.value)] + Settles(w, call.settled)
  }

  function Settles(w: Window, failures: seq<bool>): seq<Effect> {
    seq(|failures|, i requires 0 <= i < |failures| => Settled(w, failures[i]))
  }

  function SerialLog(clock: int, calls: seq<Call>): seq<Effect> {
    if calls == [] then []
    else
      var before := SerialLog(clock, calls[..|calls| - 1]);
      before + Block(EndOf(clock, before), |before|, calls[|calls| - 1])
  }

  // A window is read with nothing happening between its reads and its commit, and what a call settles it settles
  // before anybody commits the next window.
  ghost predicate InTurn(clock: int, log: seq<Effect>, e: Effect) {
    if e.Posted? then e.seen == |log| && e.rented == |log| else e.w.to == EndOf(clock, log)
  }

  ghost predicate Orderly(clock: int, log: seq<Effect>) {
    log == [] || (Orderly(clock, log[..|log| - 1]) && InTurn(clock, log[..|log| - 1], log[|log| - 1]))
  }

  ghost predicate Increasing(clock: int, calls: seq<Call>) {
    && (forall i :: 0 <= i < |calls| ==> clock < calls[i].w.to)
    && (forall i, j :: 0 <= i < j < |calls| ==> calls[i].w.to < calls[j].w.to)
  }

  // In order, the last ending where the windows do.
  ghost predicate EndAt(clock: int, end: int, calls: seq<Call>) {
    && Increasing(clock, calls)
    && (forall i :: 0 <= i < |calls| ==> calls[i].w.to <= end)
    && end == if calls == [] then clock else calls[|calls| - 1].w.to
  }

  lemma LaterCallEndsAt(clock: int, end: int, calls: seq<Call>, c: Call)
    requires EndAt(clock, end, calls) && end < c.w.to
    ensures EndAt(clock, c.w.to, calls + [c])
  {
  }

  lemma {:induction false} CallsIncrease(clock: int, log: seq<Effect>)
    requires WellFormed(clock, log)
    ensures EndAt(clock, EndOf(clock, log), Calls(log))
    decreases log
  {
    if log != [] {
      var before, e := log[..|log| - 1], log[|log| - 1];
      CallsIncrease(clock, before);
      if e.Posted? {
        LaterCallEndsAt(clock, EndOf(clock, before), Calls(before), Call(e.w, None, []));
      }
    }
  }

  // The calls say what the effects do.
  ghost predicate Tells(log: seq<Effect>, calls: seq<Call>) {
    && (forall w :: HasWindow(log, w) ==> exists i :: 0 <= i < |calls| && calls[i].w == w)
    && (forall i :: 0 <= i < |calls| ==>
          HasWindow(log, calls[i].w) && (calls[i].checked.Some? <==> WasChecked(log, calls[i].w)))
    && (forall i :: 0 <= i < |calls| && calls[i].checked.None? ==> calls[i].settled == [])
  }

  lemma NewCallTells(clock: int, log: seq<Effect>, e: Effect, calls: seq<Call>)
    requires WellFormed(clock, log) && Tells(log, calls) && e.Posted? && Follows(clock, log, e)
    ensures Tells(log + [e], calls + [Call(e.w, None, [])])
  {
    NothingCheckedAhead(clock, log, e.w);
    var longer := calls + [Call(e.w, None, [])];
    forall w
      ensures HasWindow(log + [e], w) <==> HasWindow(log, w) || e.w == w
      ensures WasChecked(log + [e], w) <==> WasChecked(log, w)
    {
      StillThere(log, e, w);
    }
    forall w | HasWindow(log + [e], w)
      ensures exists i :: 0 <= i < |longer| && longer[i].w == w
    {
      if HasWindow(log, w) {
        var i :| 0 <= i < |calls| && calls[i].w == w;
        assert longer[i].w == w;
      } else {
        assert longer[|calls|].w == w;
      }
    }
  }

  lemma SameCallsTell(log: seq<Effect>, e: Effect, calls: seq<Call>, calls': seq<Call>)
    requires Tells(log, calls) && !e.Posted? && (e.Settled? ==> WasChecked(log, e.w))
    requires |calls'| == |calls|
    requires forall i :: 0 <= i < |calls| ==>
               calls'[i] == if calls[i].w != e.w then calls[i]
                            else if e.Checked? then calls[i].(checked := Some(e.failed))
                            else calls[i].(settled := calls[i].settled + [e.failed])
    ensures Tells(log + [e], calls')
  {
    forall w
      ensures HasWindow(log + [e], w) <==> HasWindow(log, w)
      ensures WasChecked(log + [e], w) <==> WasChecked(log, w) || (e.Checked? && e.w == w)
    {
      StillThere(log, e, w);
    }
    forall w | HasWindow(log, w)
      ensures exists i :: 0 <= i < |calls'| && calls'[i].w == w
    {
      var i :| 0 <= i < |calls| && calls[i].w == w;
      assert calls'[i].w == w;
    }
    forall i | 0 <= i < |calls'|
      ensures HasWindow(log + [e], calls'[i].w) && (calls'[i].checked.Some? <==> WasChecked(log + [e], calls'[i].w))
      ensures calls'[i].checked.None? ==> calls'[i].settled == []
    {
      assert calls'[i].w == calls[i].w && HasWindow(log, calls[i].w);
    }
  }

  lemma {:induction false} CallsTell(clock: int, log: seq<Effect>)
    requires WellFormed(clock, log)
    ensures Tells(log, Calls(log))
    decreases log
  {
    if log != [] {
      var n := |log| - 1;
      CallsTell(clock, log[..n]);
      assert log[..n] + [log[n]] == log;
      if log[n].Posted? {
        NewCallTells(clock, log[..n], log[n], Calls(log[..n]));
      } else {
        SameCallsTell(log[..n], log[n], Calls(log[..n]), Calls(log));
      }
    }
  }

  // ----- orderly effects are those of the calls one after another

  lemma LastCallIs(clock: int, log: seq<Effect>, w: Window)
    requires WellFormed(clock, log) && HasWindow(log, w) && w.to == EndOf(clock, log)
    ensures Calls(log) != [] && Calls(log)[|Calls(log)| - 1].w == w
    ensures forall i :: 0 <= i < |Calls(log)| - 1 ==> Calls(log)[i].w != w
  {
    CallsIncrease(clock, log);
    CallsTell(clock, log);
  }

  lemma BlockGrows(from: int, at: nat, c: Call, e: Effect)
    requires e.w == c.w == Window(from, c.w.to) && !e.Posted?
    requires if e.Checked? then c.checked.None? && c.settled == [] else c.checked.Some?
    ensures Block(from, at, WithEffect(c, e)) == Block(from, at, c) + [e]
  {
    if e.Checked? {
      assert Settles(c.w, []) == [];
    } else {
      assert Settles(c.w, c.settled + [e.failed]) == Settles(c.w, c.settled) + [e];
    }
  }

  // The last call's window starts where the ones before it ended.
  ghost predicate StartsInTurn(clock: int, calls: seq<Call>) {
    calls != [] ==> calls[|calls| - 1].w.from == EndOf(clock, SerialLog(clock, calls[..|calls| - 1]))
  }

  function WithEffect(c: Call, e: Effect): Call
    requires !e.Posted?
  {
    if e.Checked? then c.(checked := Some(e.failed)) else c.(settled := c.settled + [e.failed])
  }

  lemma LastCallChanges(clock: int, log: seq<Effect>, e: Effect)
    requires WellFormed(clock, log) && !e.Posted? && Follows(clock, log, e) && InTurn(clock, log, e)
    ensures Calls(log) != []
    ensures var m := |Calls(log)| - 1;
            var c := Calls(log)[m];
            && Calls(log + [e]) == Calls(log)[..m] + [WithEffect(c, e)] && c.w == e.w
            && if e.Checked? then c.checked.None? && c.settled == [] else c.checked.Some?
  {
    assert (log + [e])[..|log|] == log;
    LastCallIs(clock, log, e.w);
    CallsTell(clock, log);
  }

  lemma SettlementStaysSerial(clock: int, log: seq<Effect>, e: Effect)
    requires WellFormed(clock, log) && SerialLog(clock, Calls(log)) == log && StartsInTurn(clock, Calls(log))
    requires !e.Posted? && Follows(clock, log, e) && InTurn(clock, log, e)
    ensures SerialLog(clock, Calls(log + [e])) == log + [e] && StartsInTurn(clock, Calls(log + [e]))
  {
    LastCallChanges(clock, log, e);
    var m := |Calls(log)| - 1;
    var before, c := Calls(log)[..m], Calls(log)[m];
    var calls' := before + [WithEffect(c, e)];
    assert calls'[..m] == before;
    BlockGrows(e.w.from, |SerialLog(clock, before)|, c, e);
  }

  lemma WindowStaysSerial(clock: int, log: seq<Effect>, e: Effect)
    requires SerialLog(clock, Calls(log)) == log && e.Posted? && Follows(clock, log, e) && InTurn(clock, log, e)
    ensures SerialLog(clock, Calls(log + [e])) == log + [e] && StartsInTurn(clock, Calls(log + [e]))
  {
    assert (log + [e])[..|log|] == log;
    assert Calls(log + [e])[..|Calls(log)|] == Calls(log);
  }

  lemma NothingIsSerial(clock: int)
    ensures IsSerial(clock, [])
  {
    SerialMeans(clock, []);
  }

  // The effects are those of their calls one after another.
  ghost predicate IsSerial(clock: int, log: seq<Effect>) {
    forall calls :: calls == Calls(log) ==> SerialLog(clock, calls) == log && StartsInTurn(clock, calls)
  }

  lemma SerialMeans(clock: int, log: seq<Effect>)
    ensures IsSerial(clock, log) <==> SerialLog(clock, Calls(log)) == log && StartsInTurn(clock, Calls(log))
  {
  }

  lemma OneMoreStaysSerial(clock: int, log: seq<Effect>, e: Effect)
    requires WellFormed(clock, log) && IsSerial(clock, log) && Follows(clock, log, e) && InTurn(clock, log, e)
    ensures IsSerial(clock, log + [e])
  {
    SerialMeans(clock, log);
    SerialMeans(clock, log + [e]);
    if e.Posted? {
      WindowStaysSerial(clock, log, e);
    } else {
      SettlementStaysSerial(clock, log, e);
    }
  }

  lemma SameIsSerial(clock: int, log: seq<Effect>, log': seq<Effect>)
    requires IsSerial(clock, log) && log == log'
    ensures IsSerial(clock, log')
  {
  }

  lemma {:induction false} OrderlyIsSerial(clock: int, log: seq<Effect>)
    requires WellFormed(clock, log) && Orderly(clock, log)
    ensures IsSerial(clock, log)
    decreases log
  {
    if log == [] {
      NothingIsSerial(clock);
    } else {
      var before, e := log[..|log| - 1], log[|log| - 1];
      OrderlyIsSerial(clock, before);
      OneMoreStaysSerial(clock, before, e);
      SameIsSerial(clock, before + [e], log);
    }
  }

  lemma OneMoreInTurn(clock: int, log: seq<Effect>, e: Effect)
    requires Orderly(clock, log) && InTurn(clock, log, e)
    ensures Orderly(clock, log + [e]) && EndOf(clock, log + [e]) == e.w.to
  {
    assert (log + [e])[..|log|] == log;
  }

  lemma {:induction false} OrderlyBlock(clock: int, before: seq<Effect>, w: Window, failures: seq<bool>, checked: bool)
    requires Orderly(clock, before)
    ensures var longer := before + [Posted(w, |before|, |before|), Checked(w, checked)] + Settles(w, failures);
            Orderly(clock, longer) && EndOf(clock, longer) == w.to
    decreases failures
  {
    var posted := before + [Posted(w, |before|, |before|)];
    var begun := posted + [Checked(w, checked)];
    assert begun == before + [Posted(w, |before|, |before|), Checked(w, checked)];
    if failures == [] {
      OneMoreInTurn(clock, before, Posted(w, |before|, |before|));
      OneMoreInTurn(clock, posted, Checked(w, checked));
      assert begun + Settles(w, failures) == begun;
    } else {
      var n := |failures| - 1;
      OrderlyBlock(clock, before, w, failures[..n], checked);
      OneMoreInTurn(clock, begun + Settles(w, failures[..n]), Settled(w, failures[n]));
      assert begun + Settles(w, failures) == begun + Settles(w, failures[..n]) + [Settled(w, failures[n])];
    }
  }

  lemma {:induction false} SerialIsOrderly(clock: int, calls: seq<Call>)
    ensures Orderly(clock, SerialLog(clock, calls))
    ensures EndOf(clock, SerialLog(clock, calls)) == if calls == [] then clock else calls[|calls| - 1].w.to
    decreases calls
  {
    if calls != [] {
      var c := calls[|calls| - 1];
      var before := SerialLog(clock, calls[..|calls| - 1]);
      var w := Window(EndOf(clock, before), c.w.to);
      SerialIsOrderly(clock, calls[..|calls| - 1]);
      if c.checked.Some? {
        OrderlyBlock(clock, before, w, c.settled, c.checked.value);
        assert SerialLog(clock, calls)
            == before + [Posted(w, |before|, |before|), Checked(w, c.checked.value)] + Settles(w, c.settled);
      } else {
        assert SerialLog(clock, calls)[..|before|] == before;
      }
    }
  }

  // ----- and they leave what the calls leave alone

  lemma {:induction false} SettlingIsReplayed<S, R, M>(sim: Sim<S, R, M>, start: Book<S>,
                                                       log: seq<Effect>, w: Window, failures: seq<bool>)
    requires w.to in Replay(sim, start, log).memory
    ensures var p, q := Replay(sim, start, log), Replay(sim, start, log + Settles(w, failures));
            && w.to in q.memory && q.book.clock == p.book.clock
            && (q.memory[w.to], q.book.rows) == SettleAll(sim, p.memory[w.to], p.book.rows, failures)
    decreases failures
  {
    if failures == [] {
      assert log + Settles(w, failures) == log;
    } else {
      var n := |failures| - 1;
      SettlingIsReplayed(sim, start, log, w, failures[..n]);
      var shorter := log + Settles(w, failures[..n]);
      var longer := log + Settles(w, failures);
      assert longer == shorter + [Settled(w, failures[n])];
      assert longer[..|shorter|] == shorter;
    }
  }

  lemma WindowIsReplayedAlone<S, R, M>(sim: Sim<S, R, M>, start: Book<S>, before: seq<Effect>, w: Window)
    ensures var rows := Replay(sim, start, before).book.rows;
            Replay(sim, start, before + [Posted(w, |before|, |before|)])
            == Flown(sim, Replay(sim, start, before), w, rows, rows)
  {
    var posted := before + [Posted(w, |before|, |before|)];
    assert posted[..|before|] == before;
  }

  lemma CheckIsReplayed<S, R, M>(sim: Sim<S, R, M>, start: Book<S>, posted: seq<Effect>, w: Window, failed: bool)
    ensures var p := Replay(sim, start, posted);
            Replay(sim, start, posted + [Checked(w, failed)])
            == p.(book := Book(p.book.clock, sim.check(w, p.book.rows, failed)))
  {
    assert (posted + [Checked(w, failed)])[..|posted|] == posted;
  }

  lemma BlockIsReplayed<S, R, M>(sim: Sim<S, R, M>, start: Book<S>, before: seq<Effect>, c: Call)
    requires Replay(sim, start, before).book.clock == EndOf(start.clock, before) < c.w.to
    ensures Replay(sim, start, before + Block(EndOf(start.clock, before), |before|, c)).book
            == Alone(sim, Replay(sim, start, before).book, c)
  {
    var w := Window(EndOf(start.clock, before), c.w.to);
    var posted := before + [Posted(w, |before|, |before|)];
    WindowIsReplayedAlone(sim, start, before, w);
    if c.checked.None? {
      assert before + Block(w.from, |before|, c) == posted;
    } else {
      var checked := posted + [Checked(w, c.checked.value)];
      CheckIsReplayed(sim, start, posted, w, c.checked.value);
      SettlingIsReplayed(sim, start, checked, w, c.settled);
      assert before + Block(w.from, |before|, c) == checked + Settles(w, c.settled);
    }
  }

  lemma {:induction false} SerialIsReplayed<S, R, M>(sim: Sim<S, R, M>, start: Book<S>, calls: seq<Call>)
    requires Increasing(start.clock, calls)
    ensures Replay(sim, start, SerialLog(start.clock, calls)).book == Serial(sim, start, calls)
    ensures Serial(sim, start, calls).clock == EndOf(start.clock, SerialLog(start.clock, calls))
    decreases calls
  {
    SerialIsOrderly(start.clock, calls);
    if calls != [] {
      var shorter := calls[..|calls| - 1];
      SerialIsReplayed(sim, start, shorter);
      SerialIsOrderly(start.clock, shorter);
      BlockIsReplayed(sim, start, SerialLog(start.clock, shorter), calls[|calls| - 1]);
    }
  }

  /** Whatever windows and settlements do: if nobody reads or commits a window between another call's commit and the
      end of its settlement, the rows and the clock are those of the calls run one after another, each alone. */
  lemma OrderlyCallsAreSerial<S, R, M>(sim: Sim<S, R, M>, start: Book<S>, log: seq<Effect>)
    requires WellFormed(start.clock, log) && Orderly(start.clock, log)
    ensures Replay(sim, start, log).book == Serial(sim, start, Calls(log))
  {
    OrderlyIsSerial(start.clock, log);
    SerialMeans(start.clock, log);
    CallsIncrease(start.clock, log);
    SerialIsReplayed(sim, start, Calls(log));
  }

  // ----- and only orderly effects do, whatever the windows and settlements are

  function Record(seen: seq<Effect>, posted: seq<int>, rows: seq<Effect>, w: Window): seq<Effect> {
    if |posted| == 2 && posted[0] >= 0 && posted[1] >= 0 then rows + [Posted(w, posted[0], posted[1])] else rows
  }

  // The simulation whose rows are the effects themselves.
  function Recorder(): Sim<seq<Effect>, int, Window> {
    Sim((rows: seq<Effect>, w: Window) => [|rows|], (rows: seq<Effect>, w: Window) => [|rows|], Record,
        (w: Window, rows: seq<Effect>, failed: bool) => rows + [Checked(w, failed)], (w: Window) => w,
        (w: Window, rows: seq<Effect>, failed: bool) => (w, rows + [Settled(w, failed)], false))
  }

  ghost predicate Recorded(clock: int, log: seq<Effect>, p: Progress<seq<Effect>, Window>) {
    && p.book.rows == log
    && forall w :: HasWindow(log, w) ==> w.to in p.memory && p.memory[w.to] == w
  }

  lemma WindowIsRecorded(clock: int, log: seq<Effect>, e: Effect)
    requires WellFormed(clock, log) && Follows(clock, log, e) && e.Posted?
    requires Recorded(clock, log, Replay(Recorder(), Book(clock, []), log))
    requires |Replay(Recorder(), Book(clock, []), log[..e.seen]).book.rows| == e.seen
    requires |Replay(Recorder(), Book(clock, []), log[..e.rented]).book.rows| == e.rented
    ensures Recorded(clock, log + [e], Replay(Recorder(), Book(clock, []), log + [e]))
  {
    var longer := log + [e];
    assert longer[..|log|] == log && longer[..e.seen] == log[..e.seen] && longer[..e.rented] == log[..e.rented];
    assert log[..|log|] == log;
    forall w | HasWindow(longer, w)
      ensures HasWindow(log, w) || w == e.w
      ensures w != e.w ==> w.to < e.w.to
    {
      StillThere(log, e, w);
      WindowsArePast(clock, log, w);
    }
  }

  lemma SettlementIsRecorded(clock: int, log: seq<Effect>, e: Effect)
    requires WellFormed(clock, log) && Follows(clock, log, e) && !e.Posted?
    requires Recorded(clock, log, Replay(Recorder(), Book(clock, []), log))
    ensures Recorded(clock, log + [e], Replay(Recorder(), Book(clock, []), log + [e]))
  {
    assert (log + [e])[..|log|] == log;
    forall w | HasWindow(log + [e], w)
      ensures HasWindow(log, w)
    {
      StillThere(log, e, w);
    }
  }

  lemma {:induction false} RecorderRecords(clock: int, log: seq<Effect>)
    requires WellFormed(clock, log)
    ensures Recorded(clock, log, Replay(Recorder(), Book(clock, []), log))
    decreases |log|
  {
    if log != [] {
      var n := |log| - 1;
      var before, e := log[..n], log[n];
      assert before + [e] == log;
      RecorderRecords(clock, before);
      if e.Posted? {
        PrefixIsWellFormed(clock, before, e.seen);
        PrefixIsWellFormed(clock, before, e.rented);
        RecorderRecords(clock, before[..e.seen]);
        RecorderRecords(clock, before[..e.rented]);
        WindowIsRecorded(clock, before, e);
      } else {
        SettlementIsRecorded(clock, before, e);
      }
    }
  }

  lemma {:induction false} RecorderSettles(w: Window, rows: seq<Effect>, failures: seq<bool>)
    ensures SettleAll(Recorder(), w, rows, failures) == (w, rows + Settles(w, failures))
    decreases failures
  {
    if failures != [] {
      var n := |failures| - 1;
      RecorderSettles(w, rows, failures[..n]);
      assert rows + Settles(w, failures) == rows + Settles(w, failures[..n]) + [Settled(w, failures[n])];
    } else {
      assert rows + Settles(w, failures) == rows;
    }
  }

  lemma RecorderAlone(end: int, before: seq<Effect>, c: Call)
    requires end < c.w.to
    ensures Alone(Recorder(), Book(end, before), c).rows == before + Block(end, |before|, c)
  {
    var w := Window(end, c.w.to);
    var posted := [Posted(w, |before|, |before|)];
    assert [|before|] + [|before|] == [|before|, |before|];
    if c.checked.Some? {
      RecorderSettles(w, before + posted + [Checked(w, c.checked.value)], c.settled);
      assert before + Block(end, |before|, c)
          == before + posted + [Checked(w, c.checked.value)] + Settles(w, c.settled);
    }
  }

  lemma {:induction false} RecorderIsSerial(clock: int, calls: seq<Call>)
    requires Increasing(clock, calls)
    ensures Serial(Recorder(), Book(clock, []), calls).rows == SerialLog(clock, calls)
    decreases calls
  {
    if calls != [] {
      var shorter, c := calls[..|calls| - 1], calls[|calls| - 1];
      RecorderIsSerial(clock, shorter);
      SerialIsReplayed(Recorder(), Book(clock, []), shorter);
      SerialIsOrderly(clock, shorter);
      var before := SerialLog(clock, shorter);
      RecorderAlone(EndOf(clock, before), before, c);
      assert Serial(Recorder(), Book(clock, []), shorter) == Book(EndOf(clock, before), before);
    }
  }

  // For every simulation on these rows, the effects leave what the calls leave one after another.
  ghost predicate AlwaysSerial(clock: int, log: seq<Effect>) {
    forall sim: Sim<seq<Effect>, int, Window>, rows: seq<Effect> ::
      Replay(sim, Book(clock, rows), log).book == Serial(sim, Book(clock, rows), Calls(log))
  }

  /** That condition is exact: effects that are not in turn are not what the calls leave one after another, for some
      windows and settlements. */
  lemma SerialExactlyWhenOrderly(clock: int, log: seq<Effect>)
    requires WellFormed(clock, log)
    ensures AlwaysSerial(clock, log) <==> Orderly(clock, log)
  {
    if Orderly(clock, log) {
      forall sim: Sim<seq<Effect>, int, Window>, rows: seq<Effect>
        ensures Replay(sim, Book(clock, rows), log).book == Serial(sim, Book(clock, rows), Calls(log))
      {
        OrderlyCallsAreSerial(sim, Book(clock, rows), log);
      }
    }
    if AlwaysSerial(clock, log) {
      CallsIncrease(clock, log);
      RecorderRecords(clock, log);
      RecorderIsSerial(clock, Calls(log));
      assert Replay(Recorder(), Book(clock, []), log).book == Serial(Recorder(), Book(clock, []), Calls(log));
      SerialIsOrderly(clock, Calls(log));
    }
  }

  /** So in every run in which each call settles before the next window is read, clock and rows are those of the
      committed calls run one after another. */
  lemma CallsAreSerial<S, R, M>(sim: Sim<S, R, M>, start: Book<S>, events: seq<Event>)
    requires IsRun(sim, Start(start), events, true)
    requires Orderly(start.clock, After(sim, Start(start), events, true).log)
    ensures var s := After(sim, Start(start), events, true);
            s.book == Serial(sim, start, Calls(s.log)) && Increasing(start.clock, Calls(s.log))
  {
    RunKeepsInv(sim, start, events);
    var s := After(sim, Start(start), events, true);
    OrderlyCallsAreSerial(sim, start, s.log);
    CallsIncrease(start.clock, s.log);
  }

  // ----- settlements no window reads

  // A check or a statement of a settlement leaves alone what `view` shows of the rows.
  ghost predicate LeavesAlone<S, R, M, V>(sim: Sim<S, R, M>, view: S -> V, p: Progress<S, M>, e: Effect) {
    match e
    case Posted(_, _, _) => true
    case Checked(w, failed) => view(sim.check(w, p.book.rows, failed)) == view(p.book.rows)
    case Settled(w, failed) =>
      w.to in p.memory ==> view(sim.settle(p.memory[w.to], p.book.rows, failed).1) == view(p.book.rows)
  }

  // Each does, where it comes.
  ghost predicate Unseen<S, R, M, V>(sim: Sim<S, R, M>, view: S -> V, start: Book<S>, log: seq<Effect>)
    decreases log
  {
    log == []
    || (Unseen(sim, view, start, log[..|log| - 1])
        && LeavesAlone(sim, view, Replay(sim, start, log[..|log| - 1]), log[|log| - 1]))
  }

  lemma {:induction false} PrefixIsUnseen<S, R, M, V>(sim: Sim<S, R, M>, view: S -> V, start: Book<S>,
                                                      log: seq<Effect>, n: nat)
    requires Unseen(sim, view, start, log) && n <= |log|
    ensures Unseen(sim, view, start, log[..n])
    decreases |log| - n
  {
    if n < |log| {
      PrefixIsUnseen(sim, view, start, log, n + 1);
      assert log[..n + 1][..n] == log[..n];
    } else {
      assert log[..n] == log;
    }
  }

  // It is all that windows read.
  ghost predicate ReadsOnly<S(!new), R, M, V>(sim: Sim<S, R, M>, view: S -> V) {
    forall a, b, w :: view(a) == view(b) ==> sim.routes(a, w) == sim.routes(b, w) && sim.rent(a, w) == sim.rent(b, w)
  }

  // And windows change it by what they read of it.
  ghost predicate ChangesBy<S(!new), R(!new), M, V>(sim: Sim<S, R, M>, view: S -> V) {
    forall a, a', b, b', rows, w :: view(a) == view(b) && view(a') == view(b') ==>
      view(sim.install(a, rows, a', w)) == view(sim.install(b, rows, b', w))
  }

  // The rows after the windows alone, and what each of them posts.
  function Windows<S, R, M>(sim: Sim<S, R, M>, rows: S, windows: seq<Window>): S
    decreases windows
  {
    if windows == [] then rows
    else
      var before, w := Windows(sim, rows, windows[..|windows| - 1]), windows[|windows| - 1];
      sim.install(before, sim.routes(before, w) + sim.rent(before, w), before, w)
  }

  function WindowRows<S, R, M>(sim: Sim<S, R, M>, rows: S, windows: seq<Window>): seq<seq<R>>
    decreases windows
  {
    if windows == [] then []
    else
      var before, w := Windows(sim, rows, windows[..|windows| - 1]), windows[|windows| - 1];
      WindowRows(sim, rows, windows[..|windows| - 1]) + [sim.routes(before, w) + sim.rent(before, w)]
  }

  // What the windows among the effects posted.
  function PostedRows<S, R, M>(sim: Sim<S, R, M>, start: Book<S>, log: seq<Effect>): seq<seq<R>>
    decreases log
  {
    if log == [] then []
    else
      var n := |log| - 1;
      var before := PostedRows(sim, start, log[..n]);
      match log[n]
      case Posted(w, seen, rented) =>
        if seen <= n && rented <= n
        then before + [sim.routes(Replay(sim, start, log[..seen]).book.rows, w)
                       + sim.rent(Replay(sim, start, log[..rented]).book.rows, w)]
        else before
      case _ => before
  }

  lemma {:induction false} NoWindowNoChange(log: seq<Effect>, at: nat)
    requires NoWindowSince(log, at)
    ensures WindowsOf(log[..at]) == WindowsOf(log)
    decreases log
  {
    if at < |log| {
      NoWindowNoChange(log[..|log| - 1], at);
      assert log[..|log| - 1][..at] == log[..at];
    } else {
      assert log[..at] == log;
    }
  }

  lemma OneWindowMore<S, R, M>(sim: Sim<S, R, M>, rows: S, windows: seq<Window>, w: Window)
    ensures var before := Windows(sim, rows, windows);
            && Windows(sim, rows, windows + [w])
               == sim.install(before, sim.routes(before, w) + sim.rent(before, w), before, w)
            && WindowRows(sim, rows, windows + [w])
               == WindowRows(sim, rows, windows) + [sim.routes(before, w) + sim.rent(before, w)]
  {
    assert (windows + [w])[..|windows|] == windows;
  }

  lemma ReadsTheSame<S(!new), R, M, V>(sim: Sim<S, R, M>, view: S -> V, seen: S, rented: S, alone: S, w: Window)
    requires ReadsOnly(sim, view) && view(seen) == view(alone) && view(rented) == view(alone)
    ensures sim.routes(seen, w) + sim.rent(rented, w) == sim.routes(alone, w) + sim.rent(alone, w)
  {
  }

  lemma InstallsAlike<S(!new), R(!new), M, V>(sim: Sim<S, R, M>, view: S -> V, seen: S, rows: S, alone: S,
                                              posted: seq<R>, w: Window)
    requires ChangesBy(sim, view) && view(seen) == view(alone) && view(rows) == view(alone)
    ensures view(sim.install(seen, posted, rows, w)) == view(sim.install(alone, posted, alone, w))
  {
  }

  lemma WindowIsReplayed<S, R, M>(sim: Sim<S, R, M>, start: Book<S>, log: seq<Effect>, e: Effect)
    requires e.Posted? && e.seen <= |log| && e.rented <= |log|
    ensures var seen := Replay(sim, start, log[..e.seen]).book.rows;
            var rented := Replay(sim, start, log[..e.rented]).book.rows;
            var posted := sim.routes(seen, e.w) + sim.rent(rented, e.w);
            && Replay(sim, start, log + [e]).book.rows
               == sim.install(seen, posted, Replay(sim, start, log).book.rows, e.w)
            && PostedRows(sim, start, log + [e]) == PostedRows(sim, start, log) + [posted]
    ensures WindowsOf(log + [e]) == WindowsOf(log) + [e.w]
  {
    var longer := log + [e];
    assert longer[..|log|] == log && longer[..e.seen] == log[..e.seen] && longer[..e.rented] == log[..e.rented];
    assert log[..|log|] == log;
  }

  lemma SettlementIsReplayed<S, R, M>(sim: Sim<S, R, M>, start: Book<S>, log: seq<Effect>, e: Effect)
    requires !e.Posted?
    ensures var p := Replay(sim, start, log);
            Replay(sim, start, log + [e]).book.rows
            == if e.Checked? then sim.check(e.w, p.book.rows, e.failed)
               else if e.w.to in p.memory then sim.settle(p.memory[e.w.to], p.book.rows, e.failed).1
               else p.book.rows
    ensures PostedRows(sim, start, log + [e]) == PostedRows(sim, start, log) && WindowsOf(log + [e]) == WindowsOf(log)
  {
    assert (log + [e])[..|log|] == log;
  }

  // What was read since the last window looks like what the windows alone have left.
  lemma ReadsAlike<S(!new), R(!new), M, V>(sim: Sim<S, R, M>, view: S -> V, start: Book<S>, log: seq<Effect>, at: nat)
    requires ReadsOnly(sim, view) && ChangesBy(sim, view) && Unseen(sim, view, start, log)
    requires WellFormed(start.clock, log) && NoWindowSince(log, at)
    ensures view(Replay(sim, start, log[..at]).book.rows) == view(Windows(sim, start.rows, WindowsOf(log)))
    decreases |log|, 1
  {
    PrefixIsWellFormed(start.clock, log, at);
    PrefixIsUnseen(sim, view, start, log, at);
    NoWindowNoChange(log, at);
    WindowsPostTheSame(sim, view, start, log[..at]);
  }

  /** If, as things went, no check or settlement touched what windows read, then whenever they came every window posted
      what it posts when only windows run. */
  lemma {:induction false} WindowsPostTheSame<S(!new), R(!new), M, V>(sim: Sim<S, R, M>, view: S -> V,
                                                                      start: Book<S>, log: seq<Effect>)
    requires ReadsOnly(sim, view) && ChangesBy(sim, view) && Unseen(sim, view, start, log)
    requires WellFormed(start.clock, log)
    ensures PostedRows(sim, start, log) == WindowRows(sim, start.rows, WindowsOf(log))
    ensures view(Replay(sim, start, log).book.rows) == view(Windows(sim, start.rows, WindowsOf(log)))
    decreases |log|, 0
  {
    if log != [] {
      var before, e := log[..|log| - 1], log[|log| - 1];
      assert before + [e] == log;
      WindowsPostTheSame(sim, view, start, before);
      if e.Posted? {
        ReadsAlike(sim, view, start, before, e.seen);
        ReadsAlike(sim, view, start, before, e.rented);
        WindowIsReplayed(sim, start, before, e);
        OneWindowMore(sim, start.rows, WindowsOf(before), e.w);
        var seen := Replay(sim, start, before[..e.seen]).book.rows;
        var rented := Replay(sim, start, before[..e.rented]).book.rows;
        var alone := Windows(sim, start.rows, WindowsOf(before));
        ReadsTheSame(sim, view, seen, rented, alone, e.w);
        InstallsAlike(sim, view, seen, Replay(sim, start, before).book.rows, alone,
                      sim.routes(alone, e.w) + sim.rent(alone, e.w), e.w);
      } else {
        SettlementIsReplayed(sim, start, before, e);
      }
    }
  }
}
