/**
 The objects of apps/web/src/lib/core/realtime: the client shared by every store and one store's subscription.
 Each method is proved to be one step of `RealtimeWorld` (or of the system in `RealtimeProofs`).
 */
module RealtimeClient {
  import opened Sequences
  import opened HubServer
  import W = RealtimeWorld
  import P = RealtimeProofs

  type Channel = string

  class RealtimeClient {
    const maxReconnectDelayMs: int
    var socket: Option<nat>
    var channelRefs: W.Refs
    var pingTimer: Option<nat>
    var reconnectTimer: Option<nat>
    var reconnectAttempts: nat
    var intentionalDisconnect: bool
    var generation: nat
    var reconnectScheduledForGeneration: int
    var connectionHealthy: bool
    var socketOpen: bool

    // The browser around it.
    var fetching: set<nat>
    var links: map<nat, W.Link>
    var timers: map<nat, int>
    var intervals: set<nat>
    var handles: nat
    ghost var noSessionAt: int

    ghost function View(): W.World
      reads this
    {
      W.World(socket, channelRefs, pingTimer, reconnectTimer, reconnectAttempts, intentionalDisconnect, generation,
              reconnectScheduledForGeneration, connectionHealthy, socketOpen, maxReconnectDelayMs,
              fetching, links, timers, intervals, handles, noSessionAt)
    }

    ghost predicate Valid()
      reads this
    {
      W.SocketExists(View())
    }

    constructor (limit: int)
      ensures View() == W.Start(limit)
    {
      maxReconnectDelayMs := limit;
      socket, channelRefs, pingTimer, reconnectTimer, reconnectAttempts := None, map[], None, None, 0;
      intentionalDisconnect, generation, reconnectScheduledForGeneration := false, 0, -1;
      connectionHealthy, socketOpen := false, false;
      fetching, links, timers, intervals, handles, noSessionAt := {}, map[], map[], {}, 0, -1;
    }

    // ----- the browser's calls

    method SetTimeout(ms: int) returns (handle: nat)
      modifies this`timers, this`handles
      ensures handle == old(handles) && handles == handle + 1 && timers == old(timers)[handle := ms]
    {
      handle := handles;
      timers, handles := timers[handle := ms], handles + 1;
    }

    method CloseSocket()
      modifies this`links
      ensures links == W.CloseLink(old(links), socket)
    {
      if socket.Some? && socket.value in links {
        links := links[socket.value := links[socket.value].(closed := true)];
      }
    }

    method SendOnSocket(r: Request)
      requires Valid() && socket.Some?
      modifies this`links
      ensures View() == W.Send(old(View()), r) && Valid()
    {
      var l := links[socket.value];
      links := links[socket.value := l.(wire := l.wire + [r])];
    }

    // ----- private methods

    method ClearPing()
      modifies this`pingTimer, this`intervals
      ensures View() == W.ClearPing(old(View()))
    {
      if pingTimer.Some? {
        intervals := intervals - {pingTimer.value};
        pingTimer := None;
      }
    }

    method ClearReconnect()
      modifies this`reconnectTimer, this`timers
      ensures View() == W.ClearReconnect(old(View()))
    {
      if reconnectTimer.Some? {
        timers := timers - {reconnectTimer.value};
        reconnectTimer := None;
      }
    }

    method Teardown()
      modifies this`pingTimer, this`intervals, this`links, this`socket, this`socketOpen
      ensures View() == W.Teardown(old(View())) && Valid()
    {
      ClearPing();
      CloseSocket();
      socket := None;
      socketOpen := false;
    }

    method ScheduleReconnect(forGeneration: Option<nat>)
      modifies this`reconnectScheduledForGeneration, this`timers, this`reconnectAttempts, this`reconnectTimer,
          this`handles
      ensures View() == W.ScheduleReconnect(old(View()), forGeneration)
    {
      if intentionalDisconnect {
        return;
      }
      if forGeneration.Some? {
        if reconnectScheduledForGeneration == forGeneration.value {
          return;
        }
        reconnectScheduledForGeneration := forGeneration.value;
      }
      if reconnectTimer.Some? {
        timers := timers - {reconnectTimer.value};
      }
      var delay := W.Backoff(reconnectAttempts, maxReconnectDelayMs);
      if reconnectAttempts < W.MAX_ATTEMPTS {
        reconnectAttempts := reconnectAttempts + 1;
      }
      var handle := SetTimeout(delay);
      reconnectTimer := Some(handle);
    }

    method SendChannels(r: Request)
      requires Valid() && !r.Ping?
      modifies this`links
      ensures View() == W.SendChannels(old(View()), r) && Valid()
    {
      if !socketOpen || socket.None? || r.channels == [] {
        return;
      }
      SendOnSocket(r);
    }

    // ----- what the page calls

    // Up to the point where the ticket request is awaited.
    method Connect()
      requires Valid()
      modifies this
      ensures View() == W.Connect(old(View())) && Valid()
    {
      if socket.Some? {
        return;
      }
      intentionalDisconnect := false;
      ClearReconnect();
      generation := generation + 1;
      fetching := fetching + {generation};
    }

    // The rest of connect, once the request of generation g has settled.
    method TicketResolved(g: nat, result: W.TicketResult)
      requires Valid()
      modifies this
      ensures View() == W.Fetched(old(View()), g, result) && Valid()
    {
      fetching := fetching - {g};
      if result.FetchFailed? {
        if g == generation {
          ScheduleReconnect(None);
        }
        return;
      }
      if g != generation || intentionalDisconnect {
        return;
      }
      if result.NoSession? {
        noSessionAt := g;
        return;
      }
      if !result.constructed {
        Teardown();
        ScheduleReconnect(None);
        return;
      }
      Adopt(g);
    }

    // The interval that keeps the connection alive.
    method StartPing()
      requires Valid()
      modifies this`pingTimer, this`intervals, this`handles
      ensures Valid()
      ensures View() == old(View()).(pingTimer := Some(old(handles)), intervals := old(intervals) + {old(handles)},
                                     handles := old(handles) + 1)
    {
      pingTimer := Some(handles);
      intervals := intervals + {handles};
      handles := handles + 1;
    }

    method Adopt(g: nat)
      modifies this
      ensures View() == W.Adopt(old(View()), g) && Valid()
    {
      links := links[g := W.NEW_LINK];
      socket := Some(g);
      connectionHealthy := false;
      socketOpen := false;
      reconnectScheduledForGeneration := -1;
      StartPing();
    }

    method Subscribe(channels: seq<Channel>)
      requires Valid()
      modifies this`channelRefs, this`links
      ensures View() == W.Hold(old(View()), channels) && Valid()
    {
      var added: seq<Channel> := [];
      for i := 0 to |channels|
        invariant unchanged(this`links)
        invariant channelRefs == W.AddRefs(old(channelRefs), channels[..i])
        invariant added == W.Fresh(old(channelRefs), channels[..i])
      {
        assert channels[..i + 1][..i] == channels[..i];
        var n := (if channels[i] in channelRefs then channelRefs[channels[i]] else 0) + 1;
        channelRefs := channelRefs[channels[i] := n];
        if n == 1 {
          added := added + [channels[i]];
        }
      }
      assert channels[..|channels|] == channels;
      SendChannels(Request.Subscribe(added));
    }

    method Unsubscribe(channels: seq<Channel>)
      requires Valid()
      modifies this`channelRefs, this`links
      ensures View() == W.Release(old(View()), channels) && Valid()
    {
      var gone: seq<Channel> := [];
      for i := 0 to |channels|
        invariant unchanged(this`links)
        invariant channelRefs == W.DropRefs(old(channelRefs), channels[..i])
        invariant gone == W.Gone(old(channelRefs), channels[..i])
      {
        assert channels[..i + 1][..i] == channels[..i];
        var held: int := if channels[i] in channelRefs then channelRefs[channels[i]] else 1;
        var n := held - 1;
        if n <= 0 {
          channelRefs := channelRefs - {channels[i]};
          gone := gone + [channels[i]];
        } else {
          channelRefs := channelRefs[channels[i] := n];
        }
      }
      assert channels[..|channels|] == channels;
      SendChannels(Request.Unsubscribe(gone));
    }

    method Disconnect()
      requires Valid()
      modifies this
      ensures View() == W.Disconnect(old(View())) && Valid()
    {
      intentionalDisconnect := true;
      generation := generation + 1;
      ClearReconnect();
      Teardown();
      connectionHealthy := false;
    }

    // ----- callbacks

    method OnOpen(g: nat, order: seq<Channel>)
      requires Valid() && Elements(order) == channelRefs.Keys
      modifies this`socketOpen, this`links
      ensures View() == W.OnOpen(old(View()), g, order) && Valid()
    {
      if g != generation {
        return;
      }
      socketOpen := true;
      assert order != [] ==> order[0] in Elements(order);
      if |channelRefs| > 0 {
        SendChannels(Request.Subscribe(order));
      }
    }

    method OnMessage(g: nat)
      modifies this`connectionHealthy, this`reconnectAttempts
      ensures View() == W.OnMessage(old(View()), g)
    {
      if g != generation {
        return;
      }
      if !connectionHealthy {
        connectionHealthy := true;
        reconnectAttempts := 0;
      }
    }

    method OnErrorOrDone(g: nat)
      requires Valid()
      modifies this
      ensures View() == W.OnDrop(old(View()), g) && Valid()
    {
      if g != generation {
        return;
      }
      Teardown();
      ScheduleReconnect(Some(g));
    }

    method OnReconnectTimer(t: nat)
      requires Valid() && t in timers
      modifies this
      ensures View() == W.Step(old(View()), W.TimerFires(t)) && Valid()
    {
      timers := timers - {t};
      if !intentionalDisconnect {
        Connect();
      }
    }

    method Ping()
      requires Valid()
      modifies this`links
      ensures View() == W.SendPing(old(View())) && Valid()
    {
      if !socketOpen {
        return;
      }
      if socket.Some? {
        SendOnSocket(Request.Ping);
      }
    }
  }

  class RealtimeSubscription {
    const client: RealtimeClient
    var channels: seq<Channel>
    var disposed: bool

    function Current(): P.Sub
      reads this
    {
      P.Sub(channels, disposed)
    }

    constructor (client: RealtimeClient)
      ensures this.client == client && Current() == P.Sub([], false)
    {
      this.client, channels, disposed := client, [], false;
    }

    method Subscribe(requested: seq<Channel>)
      requires client.Valid()
      modifies this, client
      ensures client.Valid()
      ensures forall id, subs: map<nat, P.Sub> :: id in subs && subs[id] == old(Current()) ==>
                P.SystemStep(P.System(old(client.View()), subs), P.Subscribed(id, requested))
                == P.System(client.View(), subs[id := Current()])
    {
      if disposed {
        assert forall id, subs: map<nat, P.Sub> :: id in subs && subs[id] == Current() ==>
              subs[id := Current()] == subs;
        return;
      }
      var desired := P.Dedup(requested);
      var toAdd := P.Minus(desired, channels);
      var toRemove := P.Minus(channels, desired);
      channels := desired;
      client.Connect();
      if |toAdd| > 0 {
        client.Subscribe(toAdd);
      }
      if |toRemove| > 0 {
        client.Unsubscribe(toRemove);
      }
    }

    method Dispose()
      requires client.Valid()
      modifies this, client
      ensures client.Valid()
      ensures forall id, subs: map<nat, P.Sub> :: id in subs && subs[id] == old(Current()) ==>
                P.SystemStep(P.System(old(client.View()), subs), P.Disposed(id))
                == P.System(client.View(), subs[id := Current()])
    {
      if disposed {
        assert forall id, subs: map<nat, P.Sub> :: id in subs && subs[id] == Current() ==>
              subs[id := Current()] == subs;
        return;
      }
      disposed := true;
      if |channels| > 0 {
        client.Unsubscribe(channels);
        channels := [];
      }
    }
  }
}
