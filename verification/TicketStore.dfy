/**
 Single-use tickets for the WebSocket handshake (apps/api/internal/realtime/ticket.go).

 `Issue` sweeps expired tickets before adding one; `Redeem` spends whatever it is shown. The module
 characterises exactly which redemptions are granted, and proves the sweeping store indistinguishable from
 one that never forgets. Tokens come from a random source and are assumed fresh and non-empty.
 */
module TicketStore {

  type Token = string
  type UserId = string

  datatype Ticket = Ticket(user: UserId, expires: int)

  datatype State = State(tickets: map<Token, Ticket>, ttl: int)

  const DEFAULT_TTL: int := 30_000_000_000

  datatype Op =
    | Issue(user: UserId, token: Token, sweptAt: int)  // the sweep reads the clock before the ticket does
    | Redeem(token: Token)
    | SetTTL(ttl: int)

  datatype Event = Event(at: int, op: Op)

  datatype Answer = Issued(token: Token) | Granted(user: UserId) | Refused | Done

  function Live(tickets: map<Token, Ticket>, now: int): map<Token, Ticket> {
    map t | t in tickets && !(now > tickets[t].expires) :: tickets[t]
  }

  function Step(s: State, e: Event): (State, Answer) {
    match e.op
    case Issue(user, token, sweptAt) =>
      (s.(tickets := Live(s.tickets, sweptAt)[token := Ticket(user, e.at + s.ttl)]), Issued(token))
    case SetTTL(ttl) => (s.(ttl := ttl), Done)
    case Redeem(token) => RedeemStep(s, token, e.at)
  }

  function RedeemStep(s: State, token: Token, now: int): (State, Answer) {
    if token == "" || token !in s.tickets then (s, Refused)
    else (s.(tickets := s.tickets - {token}),
          if now > s.tickets[token].expires then Refused else Granted(s.tickets[token].user))
  }

  // A store that never sweeps.
  function PatientStep(s: State, e: Event): (State, Answer) {
    match e.op
    case Issue(user, token, _) => (s.(tickets := s.tickets[token := Ticket(user, e.at + s.ttl)]), Issued(token))
    case SetTTL(ttl) => (s.(ttl := ttl), Done)
    case Redeem(token) => RedeemStep(s, token, e.at)
  }

  // State after a history, and the answer to its n-th call.
  function After(ttl: int, es: seq<Event>): State {
    if es == [] then State(map[], ttl) else Step(After(ttl, es[..|es| - 1]), es[|es| - 1]).0
  }

  function PatientAfter(ttl: int, es: seq<Event>): State {
    if es == [] then State(map[], ttl) else PatientStep(PatientAfter(ttl, es[..|es| - 1]), es[|es| - 1]).0
  }

  function AnswerAt(ttl: int, es: seq<Event>, n: nat): Answer
    requires n < |es|
  {
    Step(After(ttl, es[..n]), es[n]).1
  }

  function PatientAnswerAt(ttl: int, es: seq<Event>, n: nat): Answer
    requires n < |es|
  {
    PatientStep(PatientAfter(ttl, es[..n]), es[n]).1
  }

  // Clock readings never run backwards, the sweep's own reading included.
  ghost predicate Monotone(es: seq<Event>) {
    && (forall i, j :: 0 <= i < j < |es| ==> es[i].at <= es[j].at)
    && (forall i :: 0 <= i < |es| && es[i].op.Issue? ==> es[i].op.sweptAt <= es[i].at)
    && (forall i, j :: 0 <= i < j < |es| && es[j].op.Issue? ==> es[i].at <= es[j].op.sweptAt)
  }

  predicate Issues(e: Event, token: Token) {
    e.op.Issue? && e.op.token == token
  }

  ghost predicate FreshTokens(es: seq<Event>) {
    && (forall i :: 0 <= i < |es| ==> !Issues(es[i], ""))
    && (forall i, j :: 0 <= i < j < |es| && es[i].op.Issue? ==> !Issues(es[j], es[i].op.token))
  }

  // ----- the sweeping store gives the same answers

  ghost predicate ForgetsOnlyExpired(swept: State, full: State, now: int) {
    && swept.ttl == full.ttl
    && (forall t :: t in swept.tickets ==> t in full.tickets && swept.tickets[t] == full.tickets[t])
    && (forall t :: t in full.tickets && t !in swept.tickets ==> now > full.tickets[t].expires)
  }

  lemma {:induction false} SweepingLosesNothing(ttl: int, es: seq<Event>, now: int)
    requires Monotone(es)
    requires forall i :: 0 <= i < |es| ==> es[i].at <= now
    ensures ForgetsOnlyExpired(After(ttl, es), PatientAfter(ttl, es), now)
  {
    if es != [] {
      var last := es[|es| - 1];
      SweepingLosesNothing(ttl, es[..|es| - 1], if last.op.Issue? then last.op.sweptAt else last.at);
    }
  }

  lemma SweepingIsInvisible(ttl: int, es: seq<Event>, n: nat)
    requires Monotone(es) && n < |es|
    ensures AnswerAt(ttl, es, n) == PatientAnswerAt(ttl, es, n)
  {
    SweepingLosesNothing(ttl, es[..n], es[n].at);
  }

  // ----- exactly which redemptions are granted

  // The time to live in force after a history.
  function TtlAfter(ttl: int, es: seq<Event>): int {
    if es == [] then ttl
    else if es[|es| - 1].op.SetTTL? then es[|es| - 1].op.ttl
    else TtlAfter(ttl, es[..|es| - 1])
  }

  // Call i issued `token` and nothing has tried to redeem it since.
  ghost predicate Unspent(es: seq<Event>, i: nat, token: Token) {
    && i < |es|
    && Issues(es[i], token)
    && (forall k :: i < k < |es| ==> es[k].op != Redeem(token))
  }

  function TicketOf(ttl: int, es: seq<Event>, i: nat): Ticket
    requires i < |es| && es[i].op.Issue?
  {
    Ticket(es[i].op.user, es[i].at + TtlAfter(ttl, es[..i]))
  }

  lemma {:induction false} StoreHoldsTheUnspent(ttl: int, es: seq<Event>)
    requires FreshTokens(es)
    ensures PatientAfter(ttl, es).ttl == TtlAfter(ttl, es)
    ensures forall t :: t in PatientAfter(ttl, es).tickets ==> exists i: nat :: Unspent(es, i, t)
    ensures forall t, i: nat :: Unspent(es, i, t) ==>
              t in PatientAfter(ttl, es).tickets && PatientAfter(ttl, es).tickets[t] == TicketOf(ttl, es, i)
  {
    if es != [] {
      var before, last := es[..|es| - 1], es[|es| - 1];
      StoreHoldsTheUnspent(ttl, before);
      forall t | t in PatientAfter(ttl, es).tickets
        ensures exists i: nat :: Unspent(es, i, t)
      {
        if Issues(last, t) {
          assert Unspent(es, |es| - 1, t);
        } else {
          var i: nat :| Unspent(before, i, t);
          assert t != "";
          assert Unspent(es, i, t);
        }
      }
      forall t, i: nat | Unspent(es, i, t)
        ensures t in PatientAfter(ttl, es).tickets && PatientAfter(ttl, es).tickets[t] == TicketOf(ttl, es, i)
      {
        if i < |es| - 1 {
          assert Unspent(before, i, t);
          assert es[..i] == before[..i];
        } else {
          assert es[..i] == before;
        }
      }
    }
  }

  /** A redemption is granted, to `user`, exactly when some earlier call issued that token to `user`, nobody
      has shown it since, and the time to live in force when it was issued has not run out. */
  lemma GrantedIff(ttl: int, es: seq<Event>, n: nat, token: Token, user: UserId)
    requires Monotone(es) && FreshTokens(es)
    requires n < |es| && es[n].op == Redeem(token)
    ensures AnswerAt(ttl, es, n) == Granted(user) <==>
            exists i: nat :: Unspent(es[..n], i, token) && TicketOf(ttl, es[..n], i).user == user
                        && es[n].at <= TicketOf(ttl, es[..n], i).expires
  {
    SweepingIsInvisible(ttl, es, n);
    StoreHoldsTheUnspent(ttl, es[..n]);
  }

  /** No ticket is granted twice, whoever asks and whatever happens in between. */
  lemma RedeemsAtMostOnce(ttl: int, es: seq<Event>, m: nat, n: nat, token: Token)
    requires Monotone(es) && FreshTokens(es)
    requires m < n < |es| && es[m].op == Redeem(token) && es[n].op == Redeem(token)
    requires AnswerAt(ttl, es, m).Granted?
    ensures AnswerAt(ttl, es, n) == Refused
  {
    GrantedIff(ttl, es, m, token, AnswerAt(ttl, es, m).user);
    var i: nat :| Unspent(es[..m], i, token);
    forall j: nat
      ensures !Unspent(es[..n], j, token)
    {
      if j < m {
        assert es[..n][m].op == Redeem(token);
      } else if j < n {
        assert es[i].op.token == token && i < j;
        assert !Issues(es[j], token);
      }
    }
    forall user {
      GrantedIff(ttl, es, n, token, user);
    }
    assert AnswerAt(ttl, es, n) != Granted(AnswerAt(ttl, es, m).user);
  }

  // ----- the store itself

  class TicketStore {
    var tickets: map<Token, Ticket>
    var ttl: int

    function Current(): State
      reads this
    {
      State(tickets, ttl)
    }

    constructor ()
      ensures Current() == After(DEFAULT_TTL, [])
    {
      tickets := map[];
      ttl := DEFAULT_TTL;
    }

    method ChangeTTL(d: int)
      modifies this
      ensures Current() == Step(old(Current()), Event(0, SetTTL(d))).0
    {
      ttl := d;
    }

    // `token` is what the random source produced; the clock is read for the sweep and again for the ticket.
    method IssueTicket(user: UserId, token: Token, sweptAt: int, now: int) returns (issued: Token)
      modifies this
      ensures (Current(), Issued(issued)) == Step(old(Current()), Event(now, Issue(user, token, sweptAt)))
    {
      Sweep(sweptAt);
      tickets := tickets[token := Ticket(user, now + ttl)];
      issued := token;
    }

    method RedeemTicket(token: Token, now: int) returns (user: UserId, ok: bool)
      modifies this
      ensures (Current(), if ok then Granted(user) else Refused) == Step(old(Current()), Event(now, Redeem(token)))
    {
      if token == "" {
        return "", false;
      }
      if token !in tickets {
        return "", false;
      }
      var t := tickets[token];
      tickets := tickets - {token};
      if now > t.expires {
        return "", false;
      }
      return t.user, true;
    }

    method Sweep(now: int)
      modifies this
      ensures tickets == Live(old(tickets), now) && ttl == old(ttl)
    {
      var todo := tickets.Keys;
      while todo != {}
        invariant todo <= tickets.Keys
        invariant ttl == old(ttl)
        invariant forall t :: t in tickets ==> t in old(tickets) && tickets[t] == old(tickets)[t]
        invariant forall t :: t in old(tickets) ==> (t in tickets <==> t in todo || !(now > old(tickets)[t].expires))
        decreases todo
      {
        var t :| t in todo;
        if now > tickets[t].expires {
          tickets := tickets - {t};
        }
        todo := todo - {t};
      }
    }
  }
}
