/** The fleet commands (apps/api/internal/engine/fleet.go). */
module Fleet {
  import opened Sequences
  import opened Money
  import opened Airline

  // Premium seats cost more slots: business two, first three.
  predicate SeatsFit(economy: int, business: int, first: int, capacity: int) {
    var slots := economy + business * 2 + first * 3;
    0 <= economy && 0 <= business && 0 <= first && 0 < slots <= capacity
  }

  // Credit tiers rank Standard 1, Silver 2, Gold 3, Platinum 4; bots are exempt.
  predicate TierAllows(isPlayer: bool, tier: int, minTier: int) {
    minTier <= 1 || !isPlayer || tier >= minTier
  }

  datatype Order = Order(model: Model, isPlayer: bool, tier: int, economy: Option<int>, business: int, first: int)

  predicate OrderAllowed(o: Order) {
    && TierAllows(o.isPlayer, o.tier, o.model.minTier)
    && SeatsFit(if o.economy.Some? then o.economy.value else o.model.capacity, o.business, o.first, o.model.capacity)
  }

  function Delivered(m: Model, acquisition: Acquisition): Aircraft {
    Aircraft(m, acquisition, 100.0, InService, None, true)
  }

  function WithAircraft(a: Airline, aircraft: Aircraft): Airline {
    a.(fleet := a.fleet + [aircraft])
  }

  function SetAircraft(a: Airline, id: nat, aircraft: Aircraft): Airline
    requires id < |a.fleet|
  {
    a.(fleet := a.fleet[id := aircraft])
  }

  predicate Owns(a: Airline, id: nat) {
    id < |a.fleet| && a.fleet[id].present
  }

  // A movement of cash followed by one write; either failing takes both back.
  function PaidThen(a: Airline, paid: Option<Airline>, written: Airline, writeFails: bool, failure: Outcome): Body {
    if paid.None? then Body(a, Rollback(failure))
    else if writeFails then Body(paid.value, Rollback(failure))
    else Body(written, Commit)
  }

  function Purchase(a: Airline, o: Order, f: Faults): (Airline, Outcome) {
    var price := o.model.price as real;
    if !OrderAllowed(o) || LessThan(a.account.balance as real, price) then (a, Refused)
    else
      var paid := DebitTx(a, price, "investing", "aircraft_purchase", f.ledger);
      var written := if paid.Some? then WithAircraft(paid.value, Delivered(o.model, Bought)) else a;
      WithTx(a, PaidThen(a, paid, written, f.write, Refused), f, Refused)
  }

  function Lease(a: Airline, o: Order, basePct: real, f: Faults): (Airline, Outcome) {
    var deposit := LeaseDeposit(o.model.price, o.model.leasePrice, basePct);
    if !OrderAllowed(o) || LessThan(a.account.balance as real, deposit) then (a, Refused)
    else
      var paid := DebitTx(a, deposit, "investing", "aircraft_lease_deposit", f.ledger);
      var written := if paid.Some? then WithAircraft(paid.value, Delivered(o.model, Leased)) else a;
      WithTx(a, PaidThen(a, paid, written, f.write, Refused), f, Refused)
  }

  function Sell(a: Airline, id: nat, f: Faults): (Airline, Outcome) {
    if !Owns(a, id) || !a.fleet[id].acquisition.Bought? || id in a.onRoute then (a, Refused)
    else
      var craft := a.fleet[id];
      var value := SaleValue(craft.condition, craft.model.price, craft.acquired, a.gameTime);
      var paid := CreditTx(a, value, "investing", "aircraft_sale", f.ledger);
      var written := if paid.Some? then SetAircraft(paid.value, id, craft.(present := false)) else a;
      WithTx(a, PaidThen(a, paid, written, f.write, Refused), f, Refused)
  }

  function TerminateLease(a: Airline, id: nat, f: Faults): (Airline, Outcome) {
    if !Owns(a, id) || !a.fleet[id].acquisition.Leased? || id in a.onRoute then (a, Refused)
    else
      var fee := LeaseExitFee(a.fleet[id].model.leasePrice);
      if LessThan(a.account.balance as real, fee) then (a, Refused)
      else
        var paid := DebitTx(a, fee, "opex", "lease_termination", f.ledger);
        var written := if paid.Some? then SetAircraft(paid.value, id, a.fleet[id].(present := false)) else a;
        WithTx(a, PaidThen(a, paid, written, f.write, Refused), f, Refused)
  }

  // A pristine aircraft is reported as a success and changes nothing.
  function Repair(a: Airline, id: nat, f: Faults): (Airline, Outcome) {
    WithTx(a, RepairBody(a, id, f), f, Refused)
  }

  function RepairBody(a: Airline, id: nat, f: Faults): Body {
    if !Owns(a, id) then Body(a, Rollback(Refused))
    else if a.fleet[id].condition >= 100.0 then Body(a, Rollback(Accepted))
    else
      var cost := RepairCost(a.fleet[id].condition, a.fleet[id].model.price);
      if LessThan(a.account.balance as real, cost) then Body(a, Rollback(Refused))
      else
        var paid := DebitTx(a, cost, "cogs", "maintenance", f.ledger);
        var written := if paid.Some?
                       then SetAircraft(paid.value, id, a.fleet[id].(condition := 100.0, status := InService))
                       else a;
        PaidThen(a, paid, written, f.write, Refused)
  }
}
