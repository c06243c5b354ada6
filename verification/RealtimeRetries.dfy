/** When the realtime client tries again, and after how long, over any run (realtime-client.ts:215-277). */
module RealtimeRetries {
  import opened Sequences
  import opened HubServer
  import opened RealtimeWorld
  import opened RealtimeProofs

  // The current attempt has come to nothing: no ticket could be fetched, no socket constructed, or the socket is gone.
  predicate Fails(w: World, a: Action) {
    match a
    case TicketResolved(g, result) =>
      g == w.generation && !w.intentional && (result.FetchFailed? || (result.Ticket? && !result.constructed))
    case SocketErrs(g) => w.socket == Some(g)
    case SocketCloses(g) => w.socket == Some(g)
    case _ => false
  }

  // The first message of the current attempt.
  predicate Succeeds(w: World, a: Action) {
    a.SocketReceives? && a.g == w.generation && !w.healthy
  }

  // Failures in a row, n of them before.
  ghost function Failures(w: World, actions: seq<Action>, n: nat): nat
    requires Inv(w) && IsRun(w, actions)
    decreases actions
  {
    if actions == [] then n
    else
      StepKeepsInv(w, actions[0]);
      Failures(Step(w, actions[0]), actions[1..],
               if Fails(w, actions[0]) then n + 1 else if Succeeds(w, actions[0]) then 0 else n)
  }

  /** The delay starts at two seconds, doubles with every failure up to the limit, and falls back after thirty. */
  lemma BackoffDoubles(attempts: nat, limit: int)
    requires 2000 <= limit && attempts <= 30
    ensures Backoff(0, limit) == 2000
    ensures attempts < 29 ==>
              Backoff(attempts + 1, limit) == if 2 * Backoff(attempts, limit) < limit then 2 * Backoff(attempts, limit)
                                              else limit
    ensures attempts == 30 ==> Backoff(attempts, limit) == 2000
  {
    BackoffValue(0, limit);
    BackoffValue(attempts, limit);
    if attempts < 29 {
      BackoffValue(attempts + 1, limit);
      Pow2Grows(0, attempts);
    }
  }

  // The socket of the current attempt is gone only with a retry arranged for it.
  ghost predicate Arranged(w: World) {
    w.generation in w.links && w.socket.None? && !w.intentional ==> w.scheduledFor == w.generation
  }

  ghost predicate Counts(w: World, n: nat) {
    && Arranged(w) && (w.intentional ==> w.generation !in w.links)
    && w.attempts == if n < 30 then n else 30
  }

  ghost predicate Retries(w: World, n: nat) {
    Inv(w) && Counts(w, n)
  }

  // A timer for the delay that so many failures call for, and no socket.
  ghost predicate Armed(w: World, attempts: nat) {
    w.socket.None? && exists t :: w.timers == map[t := Backoff(attempts, w.limit)]
  }

  lemma ArmsOnce(w: World)
    requires w.reconnectTimer.None? && w.timers == map[]
    ensures ArmReconnect(w).timers == map[w.handles := Backoff(w.attempts, w.limit)]
  {
  }

  lemma NoTimers(w: World)
    requires HandlesInv(w) && (w.socket.Some? || w.reconnectTimer.None?)
    ensures w.timers == map[] && w.reconnectTimer.None?
  {
    assert forall t :: t in w.timers ==> w.reconnectTimer == Some(t);
  }

  lemma FailureArms(w: World, a: Action, n: nat)
    requires Retries(w, n) && Enabled(w, a) && Fails(w, a)
    ensures Armed(Step(w, a), if n < 30 then n else 30)
    ensures Step(w, a).attempts == if n < 30 then n + 1 else 30
  {
    NoTimers(w);
    if a.TicketResolved? {
      var w1 := w.(fetching := w.fetching - {a.g});
      ArmsOnce(if a.result.FetchFailed? then w1 else Teardown(w1));
    } else {
      var w1 := SetLink(w, a.g, w.links[a.g].(opening := false, closed := w.links[a.g].closed || a.SocketCloses?));
      ArmsOnce(Teardown(w1).(scheduledFor := a.g));
    }
  }

  function Next(w: World, a: Action, n: nat): nat {
    if Fails(w, a) then n + 1 else if Succeeds(w, a) then 0 else n
  }

  lemma TicketKeepsRetries(w: World, a: Action, n: nat)
    requires Retries(w, n) && Enabled(w, a) && a.TicketResolved?
    ensures Counts(Step(w, a), Next(w, a, n))
  {
    if Fails(w, a) {
      FailureArms(w, a, n);
    }
  }

  lemma DropKeepsRetries(w: World, a: Action, n: nat)
    requires Retries(w, n) && Enabled(w, a) && (a.SocketErrs? || a.SocketCloses?)
    ensures Counts(Step(w, a), Next(w, a, n))
  {
    if Fails(w, a) {
      FailureArms(w, a, n);
    }
  }

  lemma CallKeepsRetries(w: World, a: Action, n: nat)
    requires Retries(w, n) && Enabled(w, a)
    requires a.ConnectCalled? || a.DisconnectCalled? || a.TimerFires?
    ensures Counts(Step(w, a), Next(w, a, n))
  {
  }

  lemma ChannelsKeepRetries(w: World, a: Action, n: nat)
    requires Retries(w, n) && Enabled(w, a) && (a.SubscribeCalled? || a.UnsubscribeCalled? || a.IntervalFires?)
    ensures Counts(Step(w, a), Next(w, a, n))
  {
  }

  lemma LinksKeepRetries(w: World, a: Action, n: nat)
    requires Retries(w, n) && Enabled(w, a)
    requires a.SocketOpens? || a.SocketReceives? || a.HubReads? || a.HubDrops?
    ensures Counts(Step(w, a), Next(w, a, n))
  {
  }

  lemma StepKeepsRetries(w: World, a: Action, n: nat)
    requires Retries(w, n) && Enabled(w, a)
    ensures Retries(Step(w, a), Next(w, a, n))
  {
    StepKeepsInv(w, a);
    match a
    case TicketResolved(_, _) => TicketKeepsRetries(w, a, n);
    case SocketErrs(_) => DropKeepsRetries(w, a, n);
    case SocketCloses(_) => DropKeepsRetries(w, a, n);
    case ConnectCalled => CallKeepsRetries(w, a, n);
    case DisconnectCalled => CallKeepsRetries(w, a, n);
    case TimerFires(_) => CallKeepsRetries(w, a, n);
    case SubscribeCalled(_) => ChannelsKeepRetries(w, a, n);
    case UnsubscribeCalled(_) => ChannelsKeepRetries(w, a, n);
    case IntervalFires => ChannelsKeepRetries(w, a, n);
    case _ => LinksKeepRetries(w, a, n);
  }

  lemma {:induction false} RunKeepsRetries(w: World, actions: seq<Action>, n: nat)
    requires Retries(w, n) && IsRun(w, actions)
    ensures Retries(After(w, actions), Failures(w, actions, n))
    decreases actions
  {
    if actions != [] {
      StepKeepsInv(w, actions[0]);
      StepKeepsRetries(w, actions[0], n);
      RunKeepsRetries(Step(w, actions[0]), actions[1..], Next(w, actions[0], n));
    }
  }

  /** In every run, an attempt that fails is followed by another: the failure leaves no socket and one timer, for the
      delay that the failures in a row since the last message call for. */
  lemma EveryFailureIsRetried(limit: int, actions: seq<Action>, w: World, a: Action)
    requires Reaches(limit, actions, w) && Enabled(w, a) && Fails(w, a)
    ensures var n := Failures(Start(limit), actions, 0);
            Step(w, a).limit == limit && Armed(Step(w, a), if n < 30 then n else 30)
  {
    LimitIsFixed(Start(limit), actions);
    RunKeepsRetries(Start(limit), actions, 0);
    FailureArms(w, a, Failures(Start(limit), actions, 0));
    StepKeepsLimit(w, a);
  }

  // Nothing new to wait for, and no word that there is no session.
  ghost predicate NothingArmed(w: World, w': World) {
    (forall t :: t in w'.timers ==> t in w.timers) && w'.noSessionAt == w.noSessionAt
  }

  lemma OtherTickets(w: World, g: nat, result: TicketResult)
    requires Inv(w) && g in w.fetching && !Fails(w, TicketResolved(g, result))
    ensures var w' := Step(w, TicketResolved(g, result));
            if g == w.generation && result.NoSession? && !w.intentional
            then w'.timers == w.timers && w'.noSessionAt == g && w'.socket.None?
            else NothingArmed(w, w')
  {
  }

  lemma OtherDrops(w: World, a: Action)
    requires Counts(w, w.attempts) && Inv(w) && Enabled(w, a) && (a.SocketErrs? || a.SocketCloses?) && !Fails(w, a)
    ensures NothingArmed(w, Step(w, a))
  {
  }

  lemma OtherActions(w: World, a: Action)
    requires Inv(w) && Enabled(w, a) && !a.TicketResolved? && !a.SocketErrs? && !a.SocketCloses?
    ensures NothingArmed(w, Step(w, a))
  {
  }

  lemma TimerConnects(w: World, t: nat)
    requires Inv(w) && t in w.timers
    ensures var w' := Step(w, TimerFires(t));
            !w.intentional && w'.generation == w.generation + 1 && w'.generation in w'.fetching
  {
  }

  /** And nothing else is: a timer appears only with a failure, only the current attempt's ticket can say that there is
      no session, which ends the attempts, and a timer that fires begins a new one. */
  lemma OnlyFailuresAreRetried(limit: int, actions: seq<Action>, w: World, a: Action)
    requires Reaches(limit, actions, w) && Enabled(w, a) && !Fails(w, a)
    ensures var w' := Step(w, a);
            if a.TicketResolved? && a.g == w.generation && a.result.NoSession? && !w.intentional
            then w'.timers == w.timers && w'.noSessionAt == a.g && w'.socket.None?
            else NothingArmed(w, w')
    ensures a.TimerFires? ==>
              Step(w, a).generation == w.generation + 1 && w.generation + 1 in Step(w, a).fetching
  {
    RunKeepsRetries(Start(limit), actions, 0);
    if a.TicketResolved? {
      OtherTickets(w, a.g, a.result);
    } else if a.SocketErrs? || a.SocketCloses? {
      CountIsAttempts(w, Failures(Start(limit), actions, 0));
      OtherDrops(w, a);
    } else {
      OtherActions(w, a);
      if a.TimerFires? {
        TimerConnects(w, a.t);
      }
    }
  }

  lemma CountIsAttempts(w: World, n: nat)
    requires Counts(w, n)
    ensures Counts(w, w.attempts)
  {
  }

  /** A ticket for the current attempt opens a socket, and a socket that opens asks for every channel held, if any. */
  lemma OpeningAsksForTheHeld(w: World, g: nat, order: seq<Channel>)
    requires Inv(w)
    ensures g in w.fetching && g == w.generation && !w.intentional ==>
              var w' := Step(w, TicketResolved(g, Ticket(true)));
              w'.socket == Some(g) && g in w'.links && w'.links[g] == NEW_LINK && !w'.open
    ensures w.socket == Some(g) && Enabled(w, SocketOpens(g, order)) ==>
              var w' := Step(w, SocketOpens(g, order));
              && w'.open && w'.socket == Some(g) && g in w'.links && w'.refs == w.refs
              && w'.links[g].wire
                 == w.links[g].wire + if w.refs == map[] then [] else [Request.Subscribe(order)]
  {
    if w.socket == Some(g) && Enabled(w, SocketOpens(g, order)) {
      assert order == [] <==> w.refs == map[] by {
        assert w.refs == map[] <==> w.refs.Keys == {};
        assert order != [] ==> order[0] in Elements(order);
      }
    }
  }

  /** Every ping interval, a client with an open socket puts a ping on the wire. */
  lemma PingsGoOut(w: World)
    requires Inv(w) && w.open
    ensures var g := w.socket.value;
            g in Step(w, IntervalFires).links
            && Step(w, IntervalFires).links[g].wire == w.links[g].wire + [Ping]
  {
  }
}
