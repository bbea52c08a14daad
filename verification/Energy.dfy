/**
 Energy accounts: `EnergyLedger` and its transactions. The functions are the specification
 the rest of the world is built on; the class is the component itself.
 */
module Energy {
  import opened Wrappers

  datatype Flow =
    | Harvested | Consumed | Vented | Dissipated | Actuation | Fabrication | Offspring | Transferred

  /** The fields of the ledger, by kind. */
  datatype Income = Income(harvested: real, consumed: real, vented: real)

  datatype Outlay = Outlay(dissipated: real, actuation: real, transferred: real)

  datatype Investment = Investment(fabrication: real, offspring: real)

  datatype Ledger = Ledger(income: Income, outlay: Outlay, invested: Investment)

  const BLANK := Ledger(Income(0.0, 0.0, 0.0), Outlay(0.0, 0.0, 0.0), Investment(0.0, 0.0))

  /** The stored energy of a node together with its books. */
  datatype Account = Account(energy: real, ledger: Ledger)

  predicate IsCredit(flow: Flow) {
    flow.Harvested? || flow.Consumed? || flow.Vented?
  }

  function Max(a: real, b: real): (m: real)
    ensures m >= a && m >= b && (m == a || m == b)
  {
    if a >= b then a else b
  }

  function Min(a: real, b: real): (m: real)
    ensures m <= a && m <= b && (m == a || m == b)
  {
    if a <= b then a else b
  }

  function ValidAmount(amount: Float): (valid: real)
    ensures valid >= 0.0
    ensures amount.Finite? && amount.value >= 0.0 ==> valid == amount.value
    ensures !amount.Finite? || amount.value <= 0.0 ==> valid == 0.0
  {
    if amount.Finite? then Max(amount.value, 0.0) else 0.0
  }

  function Noted(l: Ledger, flow: Flow, amount: real): Ledger {
    match flow
    case Harvested => l.(income := l.income.(harvested := l.income.harvested + amount))
    case Consumed => l.(income := l.income.(consumed := l.income.consumed + amount))
    case Vented => l.(income := l.income.(vented := l.income.vented + amount))
    case Dissipated => l.(outlay := l.outlay.(dissipated := l.outlay.dissipated + amount))
    case Actuation => l.(outlay := l.outlay.(actuation := l.outlay.actuation + amount))
    case Transferred => l.(outlay := l.outlay.(transferred := l.outlay.transferred + amount))
    case Fabrication => l.(invested := l.invested.(fabrication := l.invested.fabrication + amount))
    case Offspring => l.(invested := l.invested.(offspring := l.invested.offspring + amount))
  }

  /** What the books say a node has gained since its birth. */
  function Net(l: Ledger): real {
    l.income.harvested + l.income.consumed + l.income.vented
    - l.outlay.dissipated - l.outlay.actuation - l.invested.fabrication - l.invested.offspring - l.outlay.transferred
  }

  /** The one posting behind every transaction: `amount` flows in or out, and is noted. */
  function Posted(a: Account, flow: Flow, amount: real): (after: Account)
    ensures after.energy - Net(after.ledger) == a.energy - Net(a.ledger)
  {
    Account(if IsCredit(flow) then a.energy + amount else a.energy - amount, Noted(a.ledger, flow, amount))
  }

  /** The entry of one flow. */
  function Entry(l: Ledger, flow: Flow): real {
    match flow
    case Harvested => l.income.harvested
    case Consumed => l.income.consumed
    case Vented => l.income.vented
    case Dissipated => l.outlay.dissipated
    case Actuation => l.outlay.actuation
    case Transferred => l.outlay.transferred
    case Fabrication => l.invested.fabrication
    case Offspring => l.invested.offspring
  }

  /** That much has come in, or gone out, and is in the books under its own flow and no other. */
  predicate Booked(a: Account, b: Account, flow: Flow, amount: real) {
    && b.energy == (if flow.Harvested? || flow.Consumed? || flow.Vented? then a.energy + amount else a.energy - amount)
    && (forall f :: Entry(b.ledger, f) == Entry(a.ledger, f) + if f == flow then amount else 0.0)
  }

  lemma PostedIs(a: Account, flow: Flow, amount: real)
    ensures Booked(a, Posted(a, flow, amount), flow, amount)
  {
  }

  /** Books that agree on every flow are the same books. */
  lemma SameEntries(l: Ledger, m: Ledger)
    requires forall f :: Entry(l, f) == Entry(m, f)
    ensures l == m
  {
    assert Entry(l, Harvested) == Entry(m, Harvested) && Entry(l, Consumed) == Entry(m, Consumed);
    assert Entry(l, Vented) == Entry(m, Vented) && Entry(l, Dissipated) == Entry(m, Dissipated);
    assert Entry(l, Actuation) == Entry(m, Actuation) && Entry(l, Transferred) == Entry(m, Transferred);
    assert Entry(l, Fabrication) == Entry(m, Fabrication) && Entry(l, Offspring) == Entry(m, Offspring);
  }

  function CreditAmount(flow: Flow, amount: Float): real {
    if IsCredit(flow) then ValidAmount(amount) else 0.0
  }

  function Credited(a: Account, flow: Flow, amount: Float): Account {
    if IsCredit(flow) then Posted(a, flow, ValidAmount(amount)) else a
  }

  predicate Affordable(a: Account, flow: Flow, amount: Float) {
    !IsCredit(flow) && a.energy >= ValidAmount(amount)
  }

  function DebitedExact(a: Account, flow: Flow, amount: Float): Account {
    if Affordable(a, flow, amount) then Posted(a, flow, ValidAmount(amount)) else a
  }

  function AvailableAmount(a: Account, flow: Flow, amount: Float): real {
    if IsCredit(flow) then 0.0 else Min(ValidAmount(amount), Max(a.energy, 0.0))
  }

  function DebitedAvailable(a: Account, flow: Flow, amount: Float): Account {
    if IsCredit(flow) then a else Posted(a, flow, AvailableAmount(a, flow, amount))
  }

  function DrainedBy(a: Account, amount: Float): Account {
    Posted(a, Dissipated, ValidAmount(amount))
  }

  // ---------------------------------------------------------------- what a transaction moves

  /** A debit in full goes through if and only if the reserve covers it, and is then booked; or nothing happens. */
  lemma DebitExactly(a: Account, flow: Flow, amount: Float)
    requires !flow.Harvested? && !flow.Consumed? && !flow.Vented?
    ensures var due, b := ValidAmount(amount), DebitedExact(a, flow, amount);
            if a.energy >= due then Booked(a, b, flow, due) else b == a
  {
    PostedIs(a, flow, ValidAmount(amount));
  }

  /** A debit of what there is takes all that is due, or else all there is. */
  lemma DebitAtMost(a: Account, flow: Flow, amount: Float)
    requires !flow.Harvested? && !flow.Consumed? && !flow.Vented?
    ensures var due, paid := ValidAmount(amount), AvailableAmount(a, flow, amount);
            && Booked(a, DebitedAvailable(a, flow, amount), flow, paid)
            && (if a.energy >= due then paid == due else if a.energy > 0.0 then paid == a.energy else paid == 0.0)
  {
    PostedIs(a, flow, AvailableAmount(a, flow, amount));
  }

  /** An income is credited in full; a flow that is none is not credited at all. */
  lemma CreditExactly(a: Account, flow: Flow, amount: Float)
    ensures if flow.Harvested? || flow.Consumed? || flow.Vented?
            then Booked(a, Credited(a, flow, amount), flow, ValidAmount(amount)) else Credited(a, flow, amount) == a
  {
    PostedIs(a, flow, ValidAmount(amount));
  }

  /** What the environment drains is dissipated, whatever is left. */
  lemma DrainedExactly(a: Account, amount: Float)
    ensures Booked(a, DrainedBy(a, amount), Dissipated, ValidAmount(amount))
  {
    PostedIs(a, Dissipated, ValidAmount(amount));
  }

  // ---------------------------------------------------------------- any history of transactions

  datatype Transaction =
    | Crediting(flow: Flow, amount: Float)
    | DebitingExact(flow: Flow, amount: Float)
    | DebitingAvailable(flow: Flow, amount: Float)
    | Draining(amount: Float)

  function Apply(a: Account, t: Transaction): Account {
    match t
    case Crediting(flow, amount) => Credited(a, flow, amount)
    case DebitingExact(flow, amount) => DebitedExact(a, flow, amount)
    case DebitingAvailable(flow, amount) => DebitedAvailable(a, flow, amount)
    case Draining(amount) => DrainedBy(a, amount)
  }

  function AfterAll(a: Account, ts: seq<Transaction>): Account {
    if ts == [] then a else Apply(AfterAll(a, ts[..|ts| - 1]), ts[|ts| - 1])
  }

  /** No entry is ever taken back. */
  predicate Accrued(l: Ledger, m: Ledger) {
    && m.income.harvested >= l.income.harvested && m.income.consumed >= l.income.consumed
    && m.income.vented >= l.income.vented && m.outlay.dissipated >= l.outlay.dissipated
    && m.outlay.actuation >= l.outlay.actuation && m.outlay.transferred >= l.outlay.transferred
    && m.invested.fabrication >= l.invested.fabrication && m.invested.offspring >= l.invested.offspring
  }

  lemma ApplyAccrues(a: Account, t: Transaction)
    ensures var b := Apply(a, t);
            && b.energy - Net(b.ledger) == a.energy - Net(a.ledger) && Accrued(a.ledger, b.ledger)
            && (a.energy >= 0.0 && b.energy < 0.0 ==> t.Draining?)
  {
    match t
    case Crediting(flow, amount) => NotedAccrues(a.ledger, flow, ValidAmount(amount));
    case DebitingExact(flow, amount) => NotedAccrues(a.ledger, flow, ValidAmount(amount));
    case DebitingAvailable(flow, amount) =>
      if !IsCredit(flow) { NotedAccrues(a.ledger, flow, AvailableAmount(a, flow, amount)); }
    case Draining(amount) => NotedAccrues(a.ledger, Dissipated, ValidAmount(amount));
  }

  lemma NotedAccrues(l: Ledger, flow: Flow, amount: real)
    requires amount >= 0.0
    ensures Accrued(l, Noted(l, flow, amount))
  {
  }

  /**
   However an account is used, with whatever flows and amounts, NaN and infinities included:
   the ledger explains the whole change of the reserve, no entry shrinks, and a reserve that
   was not negative stays so unless the environment drains it.
   */
  lemma {:induction false} BooksOverHistories(a: Account, ts: seq<Transaction>)
    ensures var b := AfterAll(a, ts);
            && b.energy - a.energy == Net(b.ledger) - Net(a.ledger) && Accrued(a.ledger, b.ledger)
            && (a.energy >= 0.0 && b.energy < 0.0 ==> exists i :: 0 <= i < |ts| && ts[i].Draining?)
  {
    if ts != [] {
      var front := ts[..|ts| - 1];
      BooksOverHistories(a, front);
      ApplyAccrues(AfterAll(a, front), ts[|ts| - 1]);
      if a.energy >= 0.0 && AfterAll(a, front).energy < 0.0 {
        var i :| 0 <= i < |front| && front[i].Draining?;
        assert ts[i].Draining?;
      }
    }
  }

  class Physical {
    var mass: real
    var structure: real
    var energy: real

    constructor (mass: real, structure: real, energy: real)
      ensures this.mass == mass && this.structure == structure && this.energy == energy
    {
      this.mass, this.structure, this.energy := mass, structure, energy;
    }
  }

  class EnergyLedger {
    var harvested: real
    var consumedFromOthers: real
    var vented: real
    var dissipated: real
    var spentOnActuation: real
    var investedInFabrication: real
    var investedInOffspring: real
    var transferredOut: real

    constructor ()
      ensures Entries() == BLANK
    {
      harvested, consumedFromOthers, vented, dissipated := 0.0, 0.0, 0.0, 0.0;
      spentOnActuation, investedInFabrication, investedInOffspring, transferredOut := 0.0, 0.0, 0.0, 0.0;
    }

    ghost function Entries(): Ledger
      reads this
    {
      Ledger(Income(harvested, consumedFromOthers, vented),
             Outlay(dissipated, spentOnActuation, transferredOut),
             Investment(investedInFabrication, investedInOffspring))
    }

    ghost function AccountOf(physical: Physical): Account
      reads this, physical
    {
      Account(physical.energy, Entries())
    }

    method Record(flow: Flow, amount: real)
      modifies this
      ensures harvested == old(harvested) + if flow.Harvested? then amount else 0.0
      ensures consumedFromOthers == old(consumedFromOthers) + if flow.Consumed? then amount else 0.0
      ensures vented == old(vented) + if flow.Vented? then amount else 0.0
      ensures dissipated == old(dissipated) + if flow.Dissipated? then amount else 0.0
      ensures spentOnActuation == old(spentOnActuation) + if flow.Actuation? then amount else 0.0
      ensures investedInFabrication == old(investedInFabrication) + if flow.Fabrication? then amount else 0.0
      ensures investedInOffspring == old(investedInOffspring) + if flow.Offspring? then amount else 0.0
      ensures transferredOut == old(transferredOut) + if flow.Transferred? then amount else 0.0
      ensures Entries() == Noted(old(Entries()), flow, amount)
    {
      match flow
      case Harvested => harvested := harvested + amount;
      case Consumed => consumedFromOthers := consumedFromOthers + amount;
      case Vented => vented := vented + amount;
      case Dissipated => dissipated := dissipated + amount;
      case Actuation => spentOnActuation := spentOnActuation + amount;
      case Fabrication => investedInFabrication := investedInFabrication + amount;
      case Offspring => investedInOffspring := investedInOffspring + amount;
      case Transferred => transferredOut := transferredOut + amount;
    }

    method Credit(physical: Physical, flow: Flow, amount: Float) returns (credited: real)
      modifies this, physical`energy
      ensures AccountOf(physical) == Credited(old(AccountOf(physical)), flow, amount)
      ensures credited == CreditAmount(flow, amount) == physical.energy - old(physical.energy)
    {
      if !IsCredit(flow) { return 0.0; }
      credited := ValidAmount(amount);
      physical.energy := physical.energy + credited;
      Record(flow, credited);
    }

    method DebitExact(physical: Physical, flow: Flow, amount: Float) returns (funded: bool)
      modifies this, physical`energy
      ensures AccountOf(physical) == DebitedExact(old(AccountOf(physical)), flow, amount)
      ensures funded == Affordable(old(AccountOf(physical)), flow, amount)
    {
      var valid := ValidAmount(amount);
      if IsCredit(flow) || physical.energy < valid { return false; }
      physical.energy := physical.energy - valid;
      Record(flow, valid);
      funded := true;
    }

    method DebitAvailable(physical: Physical, flow: Flow, amount: Float) returns (debited: real)
      modifies this, physical`energy
      ensures AccountOf(physical) == DebitedAvailable(old(AccountOf(physical)), flow, amount)
      ensures debited == AvailableAmount(old(AccountOf(physical)), flow, amount) ==
              old(physical.energy) - physical.energy
    {
      if IsCredit(flow) { return 0.0; }
      debited := Min(ValidAmount(amount), Max(physical.energy, 0.0));
      physical.energy := physical.energy - debited;
      Record(flow, debited);
    }

    method Drain(physical: Physical, amount: Float) returns (drained: real)
      modifies this, physical`energy
      ensures AccountOf(physical) == DrainedBy(old(AccountOf(physical)), amount)
      ensures drained == ValidAmount(amount) == old(physical.energy) - physical.energy
    {
      drained := ValidAmount(amount);
      physical.energy := physical.energy - drained;
      Record(Dissipated, drained);
    }
  }
}
