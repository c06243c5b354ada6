/**
 Fixed-window attempt limiter (apps/api/internal/middleware/limiter.go).

 The limiter drops expired keys when its map grows past a soft cap. The module proves that dropping them
 is invisible, bounds what one key can be admitted, and states what the reported waiting time is worth.
 Instants and durations are integers (nanoseconds); the injected clock is the `now` argument.
 */
module WindowLimiter {

  type Key = string

  datatype Window = Window(count: nat, resetAt: int)

  type Hits = map<Key, Window>

  // The two constructor arguments; `maxKeys` after the default has been applied.
  datatype Config = Config(window: int, maxKeys: int)

  datatype Op =
    | Allow(key: Key, max: int)
    | Clear(key: Key)
    | RetryAfter(key: Key)

  datatype Event = Event(at: int, op: Op)

  datatype Answer =
    | Admitted(ok: bool)
    | Wait(duration: int)
    | Done

  predicate Expired(w: Window, now: int) {
    now > w.resetAt
  }

  // What a sweep keeps.
  function Live(hits: Hits, now: int): (kept: Hits) {
    map k | k in hits && !Expired(hits[k], now) :: hits[k]
  }

  predicate OpensWindow(hits: Hits, key: Key, now: int) {
    key !in hits || Expired(hits[key], now)
  }

  // The window an attempt is counted in, before it is counted.
  function CurrentWindow(window: int, hits: Hits, key: Key, now: int): Window {
    if OpensWindow(hits, key, now) then Window(0, now + window) else hits[key]
  }

  function Counted(window: int, hits: Hits, key: Key, now: int): (w: Window) {
    var w := CurrentWindow(window, hits, key, now);
    w.(count := w.count + 1)
  }

  function SweptFor(config: Config, hits: Hits, key: Key, now: int): Hits {
    if key !in hits && |hits| >= config.maxKeys then Live(hits, now) else hits
  }

  function WaitFor(hits: Hits, key: Key, now: int): int {
    if OpensWindow(hits, key, now) then 0 else hits[key].resetAt - now
  }

  // One call on the sweeping limiter.
  function Step(config: Config, hits: Hits, e: Event): (r: (Hits, Answer)) {
    match e.op
    case Allow(key, max) =>
      var w := Counted(config.window, hits, key, e.at);
      (SweptFor(config, hits, key, e.at)[key := w], Admitted(w.count <= max))
    case Clear(key) => (hits - {key}, Done)
    case RetryAfter(key) => (hits, Wait(WaitFor(hits, key, e.at)))
  }

  // The same call on a limiter that deletes a key only when it is told to.
  function PatientStep(window: int, hits: Hits, e: Event): (r: (Hits, Answer)) {
    match e.op
    case Allow(key, max) =>
      var w := Counted(window, hits, key, e.at);
      (hits[key := w], Admitted(w.count <= max))
    case Clear(key) => (hits - {key}, Done)
    case RetryAfter(key) => (hits, Wait(WaitFor(hits, key, e.at)))
  }

  function Answers(config: Config, hits: Hits, es: seq<Event>): seq<Answer>
    decreases es
  {
    if es == [] then [] else
      var (next, a) := Step(config, hits, es[0]);
      [a] + Answers(config, next, es[1..])
  }

  function PatientAnswers(window: int, hits: Hits, es: seq<Event>): seq<Answer>
    decreases es
  {
    if es == [] then [] else
      var (next, a) := PatientStep(window, hits, es[0]);
      [a] + PatientAnswers(window, next, es[1..])
  }

  ghost predicate Monotone(es: seq<Event>) {
    forall i, j :: 0 <= i < j < |es| ==> es[i].at <= es[j].at
  }

  // ----- sweeping is invisible

  // `swept` lacks only keys whose window had ended by `now`.
  ghost predicate ForgetsOnlyExpired(swept: Hits, full: Hits, now: int) {
    && (forall k :: k in swept ==> k in full && swept[k] == full[k])
    && (forall k :: k in full && k !in swept ==> Expired(full[k], now))
  }

  lemma {:induction false} SweepingIsInvisibleFrom(config: Config, swept: Hits, full: Hits, es: seq<Event>, now: int)
    requires Monotone(es)
    requires es != [] ==> now <= es[0].at
    requires ForgetsOnlyExpired(swept, full, now)
    ensures Answers(config, swept, es) == PatientAnswers(config.window, full, es)
    decreases es
  {
    if es != [] {
      SweepingIsInvisibleFrom(config, Step(config, swept, es[0]).0, PatientStep(config.window, full, es[0]).0,
                              es[1..], es[0].at);
    }
  }

  /** With a clock that never runs backwards, no sequence of calls can tell the sweeping limiter from one
      that never sweeps. */
  lemma SweepingIsInvisible(config: Config, es: seq<Event>)
    requires Monotone(es)
    ensures Answers(config, map[], es) == PatientAnswers(config.window, map[], es)
  {
    if es != [] {
      SweepingIsInvisibleFrom(config, map[], map[], es, es[0].at);
    }
  }

  /** The clock has to be monotone: after a sweep at 11, an attempt stamped 5 opens a fresh window where
      the limiter that never sweeps still counts it in the old one. */
  lemma SweepingIsVisibleIfTheClockRunsBack()
    ensures var config := Config(10, 1);
            var es := [Event(0, Allow("a", 1)), Event(11, Allow("b", 1)), Event(5, Allow("a", 1))];
            Answers(config, map[], es) != PatientAnswers(config.window, map[], es)
  {
    var config := Config(10, 1);
    var es := [Event(0, Allow("a", 1)), Event(11, Allow("b", 1)), Event(5, Allow("a", 1))];
    var h1 := map["a" := Window(1, 10)];
    assert Step(config, map[], es[0]).0 == h1;
    assert Live(h1, 11) == map[];
    var h2 := map["b" := Window(1, 21)];
    assert Step(config, h1, es[1]).0 == h2;
    assert Step(config, h2, es[2]).1 == Admitted(true);
    var p2 := h1["b" := Window(1, 21)];
    assert PatientStep(10, h1, es[1]).0 == p2;
    assert PatientStep(10, p2, es[2]).1 == Admitted(false);
    assert es[1..][1..] == es[2..];
    assert Answers(config, map[], es)[2] == Answers(config, h1, es[1..])[1] == Answers(config, h2, es[2..])[0];
    assert PatientAnswers(10, map[], es)[2] == PatientAnswers(10, h1, es[1..])[1] == PatientAnswers(10, p2, es[2..])[0];
  }

  // ----- what one key can be admitted

  // Every attempt of `key` uses the same limit and nothing resets its counter.
  ghost predicate SameLimitNoClear(es: seq<Event>, key: Key, max: nat) {
    forall e :: e in es && e.op.key == key ==> !e.op.Clear? && (e.op.Allow? ==> e.op.max == max)
  }

  // Admitted attempts of `key` stamped within [from, to].
  function AdmittedBetween(config: Config, hits: Hits, es: seq<Event>, key: Key, from: int, to: int): nat
    decreases es
  {
    if es == [] then 0 else
      var (next, a) := Step(config, hits, es[0]);
      (if es[0].op.key == key && from <= es[0].at <= to && a == Admitted(true) then 1 else 0)
      + AdmittedBetween(config, next, es[1..], key, from, to)
  }

  // Admissions still possible up to `to`: the rest of the current window, and one more window if the
  // current one ends before `to`.
  function Budget(hits: Hits, key: Key, to: int, max: nat): nat {
    (if key in hits && hits[key].count < max then max - hits[key].count else 0)
    + (if key in hits && hits[key].resetAt >= to then 0 else max)
  }

  lemma {:induction false} AdmissionsWithinBudget(config: Config, hits: Hits, es: seq<Event>, key: Key, from: int,
                                                  to: int, max: nat)
    requires Monotone(es) && SameLimitNoClear(es, key, max)
    requires to - from <= config.window
    requires es != [] ==> from <= es[0].at
    ensures AdmittedBetween(config, hits, es, key, from, to) <= Budget(hits, key, to, max)
    decreases es
  {
    if es != [] {
      var next := Step(config, hits, es[0]).0;
      AdmissionsWithinBudget(config, next, es[1..], key, from, to, max);
      if es[0].at > to {
        NothingAfter(config, next, es[1..], key, from, to);
      }
    }
  }

  lemma {:induction false} NothingAfter(config: Config, hits: Hits, es: seq<Event>, key: Key, from: int, to: int)
    requires Monotone(es)
    requires es != [] ==> es[0].at > to
    ensures AdmittedBetween(config, hits, es, key, from, to) == 0
    decreases es
  {
    if es != [] {
      NothingAfter(config, Step(config, hits, es[0]).0, es[1..], key, from, to);
    }
  }

  /** No interval as long as the window admits more than twice the limit, whatever the other keys do and
      whatever state the limiter starts from. */
  lemma {:induction false} AtMostTwiceTheLimit(config: Config, hits: Hits, es: seq<Event>, key: Key, from: int,
                                               to: int, max: nat)
    requires Monotone(es) && SameLimitNoClear(es, key, max)
    requires to - from <= config.window
    ensures AdmittedBetween(config, hits, es, key, from, to) <= 2 * max
    decreases es
  {
    if es != [] {
      if es[0].at < from {
        AtMostTwiceTheLimit(config, Step(config, hits, es[0]).0, es[1..], key, from, to, max);
      } else {
        AdmissionsWithinBudget(config, hits, es, key, from, to, max);
      }
    }
  }

  // ----- waiting

  function After(config: Config, hits: Hits, es: seq<Event>): Hits
    decreases es
  {
    if es == [] then hits else After(config, Step(config, hits, es[0]).0, es[1..])
  }

  ghost predicate LeavesAlone(es: seq<Event>, key: Key) {
    forall e :: e in es ==> e.op.key != key
  }

  lemma {:induction false} OthersKeepTheWindow(config: Config, hits: Hits, es: seq<Event>, key: Key)
    requires LeavesAlone(es, key)
    ensures key !in hits ==> key !in After(config, hits, es)
    ensures key in hits && key in After(config, hits, es) ==> After(config, hits, es)[key] == hits[key]
    decreases es
  {
    if es != [] {
      OthersKeepTheWindow(config, Step(config, hits, es[0]).0, es[1..], key);
    }
  }

  lemma {:induction false} OthersKeepALiveWindow(config: Config, hits: Hits, es: seq<Event>, key: Key)
    requires LeavesAlone(es, key) && key in hits
    requires forall e :: e in es ==> !Expired(hits[key], e.at)
    ensures key in After(config, hits, es)
    decreases es
  {
    if es != [] {
      var next := Step(config, hits, es[0]).0;
      assert key in next && next[key] == hits[key];
      OthersKeepALiveWindow(config, next, es[1..], key);
    }
  }

  /** Any wait strictly longer than the reported one is rewarded, whatever other keys do meanwhile. */
  lemma WaitingLongerIsAdmitted(config: Config, hits: Hits, key: Key, asked: int, es: seq<Event>, now: int, max: int)
    requires LeavesAlone(es, key)
    requires now > asked + WaitFor(hits, key, asked)
    requires max >= 1
    ensures Step(config, After(config, hits, es), Event(now, Allow(key, max))).1 == Admitted(true)
  {
    OthersKeepTheWindow(config, hits, es, key);
  }

  /** Waiting exactly the reported time is not enough in general: with a window still running it is rewarded
      precisely when the window has an attempt left. */
  lemma WaitingExactlyIsAdmittedIff(config: Config, hits: Hits, key: Key, asked: int, es: seq<Event>, max: int)
    requires LeavesAlone(es, key)
    requires !OpensWindow(hits, key, asked)
    requires forall e :: e in es ==> e.at <= hits[key].resetAt
    ensures var now := asked + WaitFor(hits, key, asked);
            Step(config, After(config, hits, es), Event(now, Allow(key, max))).1 == Admitted(hits[key].count < max)
  {
    OthersKeepTheWindow(config, hits, es, key);
    OthersKeepALiveWindow(config, hits, es, key);
  }

  /** A cleared key starts afresh, whatever other keys do next, and no other key is affected. */
  lemma ClearingStartsAfresh(config: Config, hits: Hits, key: Key, at: int, es: seq<Event>, now: int, max: int)
    requires LeavesAlone(es, key)
    ensures var cleared := Step(config, hits, Event(at, Clear(key))).0;
            && (forall k :: k != key ==> (k in cleared <==> k in hits) && (k in hits ==> cleared[k] == hits[k]))
            && Step(config, After(config, cleared, es), Event(now, RetryAfter(key))).1 == Wait(0)
            && Step(config, After(config, cleared, es), Event(now, Op.Allow(key, max))).1 == Admitted(1 <= max)
  {
    OthersKeepTheWindow(config, Step(config, hits, Event(at, Clear(key))).0, es, key);
  }

  // ----- inside one window

  function Attempts(es: seq<Event>, key: Key): nat {
    if es == [] then 0
    else
      var op := es[|es| - 1].op;
      Attempts(es[..|es| - 1], key) + if op.Allow? && op.key == key then 1 else 0
  }

  lemma {:induction false} OneMoreCall(config: Config, hits: Hits, es: seq<Event>, e: Event)
    ensures After(config, hits, es + [e]) == Step(config, After(config, hits, es), e).0
    decreases es
  {
    if es != [] {
      assert (es + [e])[1..] == es[1..] + [e];
      OneMoreCall(config, Step(config, hits, es[0]).0, es[1..], e);
    } else {
      assert ([] + [e])[1..] == [];
    }
  }

  // A window opened by the first call, and everything after it while it runs.
  ghost predicate InOneWindow(config: Config, hits: Hits, es: seq<Event>, key: Key, max: nat) {
    && es != [] && es[0].op == Op.Allow(key, max) && OpensWindow(hits, key, es[0].at)
    && SameLimitNoClear(es, key, max)
    && forall e :: e in es ==> es[0].at <= e.at <= es[0].at + config.window
  }

  lemma {:induction false} CountsInTheWindow(config: Config, hits: Hits, es: seq<Event>, key: Key, max: nat, n: nat)
    requires InOneWindow(config, hits, es, key, max) && 0 < n <= |es|
    ensures key in After(config, hits, es[..n])
    ensures After(config, hits, es[..n])[key] == Window(Attempts(es[..n], key), es[0].at + config.window)
    decreases n
  {
    assert es[..n] == es[..n - 1] + [es[n - 1]];
    OneMoreCall(config, hits, es[..n - 1], es[n - 1]);
    if n == 1 {
      assert es[..0] == [];
    } else {
      CountsInTheWindow(config, hits, es, key, max, n - 1);
      assert es[n - 1] in es;
    }
  }

  /** Whatever other keys do, as long as the window lasts that its first attempt opened, a key's attempts are admitted
      up to the limit and refused beyond it, and the wait reported is what is left of the window. */
  lemma AdmittedUpToTheLimit(config: Config, hits: Hits, es: seq<Event>, key: Key, max: nat, n: nat)
    requires InOneWindow(config, hits, es, key, max) && n < |es| && es[n].op.key == key
    ensures Step(config, After(config, hits, es[..n]), es[n]).1
            == if es[n].op.Allow? then Admitted(Attempts(es[..n + 1], key) <= max)
               else Wait(es[0].at + config.window - es[n].at)
  {
    assert es[n] in es && es[..n + 1] == es[..n] + [es[n]];
    if n == 0 {
      assert es[..0] == [];
    } else {
      CountsInTheWindow(config, hits, es, key, max, n);
    }
  }

  // ----- the limiter itself

  class WindowLimiter {
    const window: int
    const maxKeys: int
    var hits: Hits

    function Settings(): Config {
      Config(window, maxKeys)
    }

    constructor (window: int, maxKeys: int)
      ensures Settings() == Config(window, if maxKeys <= 0 then 8192 else maxKeys)
      ensures hits == map[]
    {
      this.window := window;
      this.maxKeys := if maxKeys <= 0 then 8192 else maxKeys;
      hits := map[];
    }

    method Allow(key: Key, max: int, now: int) returns (ok: bool)
      modifies this
      ensures (hits, Admitted(ok)) == Step(Settings(), old(hits), Event(now, Op.Allow(key, max)))
    {
      var known := key in hits;
      if !known || now > hits[key].resetAt {
        if !known && |hits| >= maxKeys {
          Sweep(now);
        }
        hits := hits[key := Window(0, now + window)];
      }
      var w := hits[key];
      hits := hits[key := w.(count := w.count + 1)];
      ok := w.count + 1 <= max;
      assert hits == SweptFor(Settings(), old(hits), key, now)[key := Counted(window, old(hits), key, now)];
    }

    method ClearKey(key: Key, now: int)
      modifies this
      ensures hits == Step(Settings(), old(hits), Event(now, Clear(key))).0
    {
      hits := hits - {key};
    }

    method RetryAfterKey(key: Key, now: int) returns (d: int)
      ensures (hits, Wait(d)) == Step(Settings(), hits, Event(now, RetryAfter(key)))
    {
      if key !in hits {
        return 0;
      }
      if now > hits[key].resetAt {
        return 0;
      }
      return hits[key].resetAt - now;
    }

    method Sweep(now: int)
      modifies this
      ensures hits == Live(old(hits), now)
    {
      var todo := hits.Keys;
      while todo != {}
        invariant todo <= hits.Keys
        invariant forall k :: k in hits ==> k in old(hits) && hits[k] == old(hits)[k]
        invariant forall k :: k in old(hits) ==> (k in hits <==> k in todo || !Expired(old(hits)[k], now))
        decreases todo
      {
        var k :| k in todo;
        if now > hits[k].resetAt {
          hits := hits - {k};
        }
        todo := todo - {k};
      }
    }
  }
}
