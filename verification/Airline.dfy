/**
 One player's rows: account, ledger, loans and fleet, and the ledger's single way of moving cash
 (apps/api/internal/engine/engine.go, apps/api/internal/engine/withtx.go).

 Rows keep their position as identity: loans are in the order they were taken, and an aircraft that was sold
 or handed back stays in the sequence with `present` false.
 */
module Airline {
  import opened Sequences
  import opened Money

  datatype Kind = Debit | Credit

  // `amount` is signed as stored: negative for a debit.
  datatype Row = Row(kind: Kind, category: string, subcategory: string, amount: int, balanceAfter: int)

  datatype LoanType = Unsecured | Secured | CreditLine | AircraftFinancing

  datatype LoanStatus = Active | PaidOff | Defaulted | Repossessed

  // Interest rates come from the tier policy and are never negative.
  type Rate = r: real | r >= 0.0

  // fleet_aircraft_condition_check
  type Condition = c: real | 0.0 <= c <= 100.0

  datatype Loan = Loan(
    loanType: LoanType, principal: int, rate: Rate, remaining: int, weekly: int, monthly: Option<int>,
    status: LoanStatus, missed: nat, collateral: Option<nat>)

  datatype Model = Model(price: nat, leasePrice: nat, capacity: int, minTier: int)

  datatype Acquisition = Bought | Leased | Financed

  datatype AircraftStatus = Grounded | InService

  datatype Aircraft = Aircraft(
    model: Model, acquisition: Acquisition, condition: Condition, status: AircraftStatus,
    acquired: Option<real>, present: bool)

  // `onRoute` are the aircraft some route refers to.
  datatype Airline = Airline(
    account: Account, loans: seq<Loan>, fleet: seq<Aircraft>, onRoute: set<nat>, gameTime: Option<real>,
    negativeDays: nat, bankrupt: bool)

  // `opening` is what the account held before its first ledger row.
  datatype Account = Account(opening: int, balance: int, ledger: seq<Row>)

  // ----- the ledger

  function Posted(account: Account, kind: Kind, category: string, subcategory: string, cents: int): Account {
    var signed := if kind == Credit then cents else -cents;
    account.(balance := account.balance + signed,
             ledger := account.ledger + [Row(kind, category, subcategory, signed, account.balance + signed)])
  }

  // Rounds on the way in, refuses negative amounts, and records nothing for an amount that rounds to zero.
  function ApplyTx(a: Airline, amount: real, kind: Kind, allowNegative: bool,
                   category: string, subcategory: string, fails: bool): Option<Airline>
  {
    var cents := Round(amount);
    if cents < 0 || fails then None
    else if cents == 0 then Some(a)
    else if kind == Debit && !allowNegative && a.account.balance < cents then None
    else Some(a.(account := Posted(a.account, kind, category, subcategory, cents)))
  }

  function DebitTx(a: Airline, amount: real, category: string, subcategory: string, fails: bool): Option<Airline> {
    ApplyTx(a, amount, Debit, false, category, subcategory, fails)
  }

  function CreditTx(a: Airline, amount: real, category: string, subcategory: string, fails: bool): Option<Airline> {
    ApplyTx(a, amount, Credit, false, category, subcategory, fails)
  }

  function Total<T>(value: T -> int, s: seq<T>): int {
    if s == [] then 0 else Total(value, s[..|s| - 1]) + value(s[|s| - 1])
  }

  lemma {:induction false} TotalOfAppend<T>(value: T -> int, s: seq<T>, x: T)
    ensures Total(value, s + [x]) == Total(value, s) + value(x)
  {
  }

  lemma {:induction false} TotalOfUpdate<T>(value: T -> int, s: seq<T>, i: nat, x: T)
    requires i < |s|
    ensures Total(value, s[i := x]) == Total(value, s) - value(s[i]) + value(x)
    decreases s
  {
    var n := |s| - 1;
    if i < n {
      TotalOfUpdate(value, s[..n], i, x);
      assert s[i := x][..n] == s[..n][i := x];
    } else {
      assert s[i := x][..n] == s[..n];
    }
  }

  function AmountOf(row: Row): int {
    row.amount
  }

  function LedgerSum(ledger: seq<Row>): int {
    Total(AmountOf, ledger)
  }

  // The balance is the opening balance plus the ledger, and each row records the balance it left behind.
  ghost predicate Reconciled(account: Account) {
    && account.balance == account.opening + LedgerSum(account.ledger)
    && (forall i :: 0 <= i < |account.ledger| ==>
          account.ledger[i].balanceAfter == account.opening + LedgerSum(account.ledger[..i + 1]))
    && (forall row :: row in account.ledger ==> if row.kind == Credit then row.amount > 0 else row.amount < 0)
  }

  lemma PostingReconciles(account: Account, kind: Kind, category: string, subcategory: string, cents: int)
    requires Reconciled(account) && cents > 0
    ensures Reconciled(Posted(account, kind, category, subcategory, cents))
  {
    var longer := Posted(account, kind, category, subcategory, cents).ledger;
    TotalOfAppend(AmountOf, account.ledger, longer[|account.ledger|]);
    forall i | 0 <= i < |longer|
      ensures longer[i].balanceAfter == account.opening + LedgerSum(longer[..i + 1])
    {
      if i < |account.ledger| {
        assert longer[..i + 1] == account.ledger[..i + 1];
      } else {
        assert longer[..i + 1] == longer;
      }
    }
  }

  /** The comparison every command makes first agrees with the guard inside the ledger for every amount worth
      at least a cent. For an amount that rounds to nothing the guard always lets it through, so the two
      differ exactly on an overdrawn account; an amount that rounds below zero is always refused. */
  lemma AtLeastAgreesWithGuardIff(a: Airline, amount: real, category: string, subcategory: string)
    ensures (AtLeast(a.account.balance as real, amount) <==> DebitTx(a, amount, category, subcategory, false).Some?)
            <==> (Round(amount) > 0 || (Round(amount) == 0 && a.account.balance >= 0)
                  || (Round(amount) < 0 && a.account.balance < Round(amount)))
  {
  }

  // ----- transactions

  // Which statement of a command fails.
  datatype Faults = Faults(begin: bool, ledger: bool, write: bool, commit: bool)

  const NO_FAULTS := Faults(false, false, false, false)

  // Accepted, refused with a message for the player, or failed as an error.
  datatype Outcome = Accepted | Refused | Broken

  datatype Verdict = Commit | Rollback(outcome: Outcome)

  // What the body of a transaction leaves in its private copy, and whether it wants it kept.
  datatype Body = Body(work: Airline, verdict: Verdict)

  // `failure` is what the caller makes of a begin or commit that fails.
  function WithTx(a: Airline, body: Body, f: Faults, failure: Outcome): (Airline, Outcome) {
    if f.begin then (a, failure)
    else if body.verdict.Rollback? then (a, body.verdict.outcome)
    else if f.commit then (a, failure)
    else (body.work, Accepted)
  }
}
