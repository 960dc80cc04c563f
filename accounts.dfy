/**
 * One client's account and the state machine that applies one record to
 * it (src/account/mod.rs). `Step` is the transition function over values;
 * the `Account` and `AccountAdmin` classes update their fields in place
 * and are proved to follow it.
 */
module Accounts {
  import opened Wrappers
  import opened Transactions

  /** A copy of an account's fields (`Account::clone`), as reported. */
  datatype Snapshot = Snapshot(clientId: u16, available: real, held: real, locked: bool) {
    function Total(): real {
      available + held
    }
  }

  /** The account error kinds; `Handle` carries the terminal snapshot. */
  datatype HandleError =
    | FundsExceeded
    | DepositTooLow
    | OperationNotSupported
    | TxNotFound
    | AccountLocked
    | TxNotDisputed
    | TxAlreadyDisputed
    | Handle(snapshot: Snapshot)

  /** The `Result<()>` of the balance updates. */
  datatype Outcome = Pass | Fail(error: HandleError)

  /** The `Result<&Account>` of `handle`. */
  datatype Reply = Ok(account: Snapshot) | Err(error: HandleError) {
    predicate IsTerminal() {
      Err? && error.Handle?
    }
  }

  /** An account together with its private transaction history. */
  datatype Ledger = Ledger(account: Snapshot, history: map<u32, Transaction>)

  /** A deposit or a withdrawal: the kinds `handle` stores in history. */
  predicate MovesFunds(t: Transaction) {
    t.ttype == Deposit || t.ttype == Withdrawal
  }

  /**
   * What `handle` relies on when it unwraps a record's amount; it unwraps
   * only after the lock check, so a locked account needs no amount.
   */
  predicate Admissible(rec: Option<Transaction>) {
    rec.Some? && MovesFunds(rec.value) ==> rec.value.amount.Some?
  }

  /** Every stored entry is a deposit or withdrawal carrying an amount. */
  predicate HistoryWellFormed(history: map<u32, Transaction>) {
    forall id :: id in history ==> MovesFunds(history[id]) && history[id].amount.Some?
  }

  predicate AmountNonNegative(t: Transaction) {
    t.amount.Some? ==> t.amount.value >= 0.0
  }

  /** Both balances and every stored amount are non-negative. */
  predicate NonNegative(l: Ledger) {
    && l.account.available >= 0.0
    && l.account.held >= 0.0
    && forall id :: id in l.history ==> AmountNonNegative(l.history[id])
  }

  /** The ledger of a fresh `AccountAdmin`. */
  function NewLedger(clientId: u16): (l: Ledger)
    ensures HistoryWellFormed(l.history) && NonNegative(l)
  {
    Ledger(Snapshot(clientId, 0.0, 0.0, false), map[])
  }

  /** The amount of a stored entry. */
  function EntryAmount(history: map<u32, Transaction>, id: u32): real
    requires HistoryWellFormed(history) && id in history
  {
    history[id].amount.value
  }

  /**
   * `AccountAdmin::handle` applied to the next queue item: `None` when the
   * queue is closed, otherwise the record. Returns the new ledger and the
   * reply. Lookup and flag checks of dispute, resolve and chargeback come
   * before the lock check.
   */
  function Step(l: Ledger, rec: Option<Transaction>): (r: (Ledger, Reply))
    requires HistoryWellFormed(l.history) && (l.account.locked || Admissible(rec))
    ensures HistoryWellFormed(r.0.history)
    ensures r.0.account.clientId == l.account.clientId
    ensures l.history.Keys <= r.0.history.Keys
    ensures NonNegative(l) && (rec.Some? ==> AmountNonNegative(rec.value)) ==> NonNegative(r.0)
    // the lock is absorbing, and a locked account changes no more
    ensures l.account.locked ==> r.0 == l && r.1.Err?
    // a closed queue, or a record reaching the lock check of a locked account
    ensures rec.None? ==> r.1.IsTerminal()
    ensures r.1.IsTerminal() ==> r.0 == l && r.1.error.snapshot == l.account && (rec.Some? ==> l.account.locked)
    // no balance changes on error; only a withdrawal is stored regardless
    ensures r.1.Err? ==> r.0.account == l.account
    ensures r.1.Err? && !(rec.Some? && rec.value.ttype == Withdrawal) ==> r.0.history == l.history
    ensures r.1.Ok? ==> r.1.account == r.0.account
    // only a successful chargeback locks the account
    ensures r.0.account.locked && !l.account.locked ==> rec.Some? && rec.value.ttype == Chargeback && r.1.Ok?
  {
    match rec
    case None => (l, Err(Handle(l.account)))
    case Some(tx) =>
      var acc, id := l.account, tx.txId;
      match tx.ttype
      case Deposit =>
        if acc.locked then (l, Err(Handle(acc)))
        else
          var acc' := acc.(available := acc.available + tx.amount.value);
          (Ledger(acc', l.history[id := tx]), Ok(acc'))
      case Withdrawal =>
        if acc.locked then (l, Err(Handle(acc)))
        else
          var history' := l.history[id := tx];
          if acc.available < tx.amount.value then (Ledger(acc, history'), Err(DepositTooLow))
          else
            var acc' := acc.(available := acc.available - tx.amount.value);
            (Ledger(acc', history'), Ok(acc'))
      case Dispute =>
        if id !in l.history then (l, Err(TxNotFound))
        else if !l.history[id].IsEmptyFlags() then (l, Err(TxAlreadyDisputed))
        else if acc.locked then (l, Err(Handle(acc)))
        else
          var amount := EntryAmount(l.history, id);
          if acc.available < amount then (l, Err(DepositTooLow))
          else
            var acc' := acc.(available := acc.available - amount, held := acc.held + amount);
            (Ledger(acc', l.history[id := l.history[id].MarkDisputed()]), Ok(acc'))
      case Resolve =>
        if id !in l.history then (l, Err(TxNotFound))
        else if l.history[id].IsEmptyFlags() then (l, Err(TxNotDisputed))
        else if acc.locked then (l, Err(Handle(acc)))
        else
          var amount := EntryAmount(l.history, id);
          if acc.held < amount then (l, Err(DepositTooLow))
          else
            var acc' := acc.(held := acc.held - amount, available := acc.available + amount);
            (Ledger(acc', l.history[id := l.history[id].MarkResolved()]), Ok(acc'))
      case Chargeback =>
        if id !in l.history then (l, Err(TxNotFound))
        else if l.history[id].IsEmptyFlags() then (l, Err(TxNotDisputed))
        else if acc.locked then (l, Err(Handle(acc)))
        else
          var amount := EntryAmount(l.history, id);
          if acc.held < amount then (l, Err(DepositTooLow))
          else
            var acc' := acc.(held := acc.held - amount, locked := true);
            (Ledger(acc', l.history[id := l.history[id].MarkChargedBack()]), Ok(acc'))
      case Unknown => (l, Err(OperationNotSupported))
  }

  // ---------------------------------------------------------------------
  // The transitions, one kind of record at a time.

  /** An unlocked deposit is stored (replacing any entry) and credited. */
  lemma DepositCredits(l: Ledger, tx: Transaction)
    requires HistoryWellFormed(l.history) && !l.account.locked
    requires tx.ttype == Deposit && tx.amount.Some?
    ensures var (l', reply) := Step(l, Some(tx));
      && reply.Ok?
      && l'.history == l.history[tx.txId := tx]
      && l'.account.available == l.account.available + tx.amount.value
      && l'.account.held == l.account.held && !l'.account.locked
      && l'.account.Total() == l.account.Total() + tx.amount.value
  {
  }

  /**
   * An unlocked withdrawal is stored before the funds check; it debits
   * exactly when the available funds cover it.
   */
  lemma WithdrawalStoredFirst(l: Ledger, tx: Transaction)
    requires HistoryWellFormed(l.history) && !l.account.locked
    requires tx.ttype == Withdrawal && tx.amount.Some?
    ensures var (l', reply) := Step(l, Some(tx));
      && l'.history == l.history[tx.txId := tx]
      && (l.account.available < tx.amount.value ==> reply == Err(DepositTooLow) && l'.account == l.account)
      && (tx.amount.value <= l.account.available ==>
            reply.Ok? && l'.account == l.account.(available := l.account.available - tx.amount.value))
  {
  }

  /**
   * Disputing a flag-free entry moves its amount from available to held,
   * keeps the total and sets only `disputed`; without the funds nothing
   * changes.
   */
  lemma DisputeHoldsFunds(l: Ledger, id: u32, tx: Transaction)
    requires HistoryWellFormed(l.history) && !l.account.locked
    requires tx.ttype == Dispute && tx.txId == id && id in l.history && l.history[id].IsEmptyFlags()
    ensures var (l', reply) := Step(l, Some(tx)); var amount := EntryAmount(l.history, id);
      && (l.account.available < amount ==> l' == l && reply == Err(DepositTooLow))
      && (amount <= l.account.available ==>
            && reply.Ok?
            && l'.account.available == l.account.available - amount
            && l'.account.held == l.account.held + amount
            && l'.account.Total() == l.account.Total()
            && id in l'.history && l'.history[id].SameRecord(l.history[id])
            && l'.history[id].AtMostOneFlag() && l'.history[id].Flag() == Disputed
            && l'.history == l.history[id := l'.history[id]])
  {
  }

  /**
   * Resolving an entry with any flag set moves its amount from held back
   * to available, keeps the total and marks it resolved; when held does
   * not cover it nothing changes.
   */
  lemma ResolveReleasesFunds(l: Ledger, id: u32, tx: Transaction)
    requires HistoryWellFormed(l.history) && !l.account.locked
    requires tx.ttype == Resolve && tx.txId == id && id in l.history && !l.history[id].IsEmptyFlags()
    ensures var (l', reply) := Step(l, Some(tx)); var amount := EntryAmount(l.history, id);
      && (l.account.held < amount ==> l' == l && reply == Err(DepositTooLow))
      && (amount <= l.account.held ==>
            && reply.Ok?
            && l'.account.held == l.account.held - amount
            && l'.account.available == l.account.available + amount
            && l'.account.Total() == l.account.Total()
            && !l'.account.locked
            && id in l'.history && l'.history[id].SameRecord(l.history[id])
            && l'.history[id].AtMostOneFlag() && l'.history[id].Flag() == Resolved
            && l'.history == l.history[id := l'.history[id]])
  {
  }

  /**
   * Charging back an entry with any flag set removes its amount from held,
   * lowers the total by it, locks the account and marks the entry; when
   * held does not cover it nothing changes and the account stays unlocked.
   */
  lemma ChargebackLocks(l: Ledger, id: u32, tx: Transaction)
    requires HistoryWellFormed(l.history) && !l.account.locked
    requires tx.ttype == Chargeback && tx.txId == id && id in l.history && !l.history[id].IsEmptyFlags()
    ensures var (l', reply) := Step(l, Some(tx)); var amount := EntryAmount(l.history, id);
      && (l.account.held < amount ==> l' == l && reply == Err(DepositTooLow))
      && (amount <= l.account.held ==>
            && reply.Ok?
            && l'.account.held == l.account.held - amount
            && l'.account.available == l.account.available
            && l'.account.Total() == l.account.Total() - amount
            && l'.account.locked
            && id in l'.history && l'.history[id].SameRecord(l.history[id])
            && l'.history[id].AtMostOneFlag() && l'.history[id].Flag() == ChargedBack
            && l'.history == l.history[id := l'.history[id]])
  {
  }

  /**
   * Lookup and flag failures come before the lock check: they change
   * nothing and are not terminal, even on a locked account.
   */
  lemma LookupFailuresAreNotTerminal(l: Ledger, tx: Transaction)
    requires HistoryWellFormed(l.history)
    requires tx.ttype == Dispute || tx.ttype == Resolve || tx.ttype == Chargeback
    ensures var (l', reply) := Step(l, Some(tx));
      && (tx.txId !in l.history ==> l' == l && reply == Err(TxNotFound))
      && (tx.txId in l.history && tx.ttype == Dispute && !l.history[tx.txId].IsEmptyFlags() ==>
            l' == l && reply == Err(TxAlreadyDisputed))
      && (tx.txId in l.history && tx.ttype != Dispute && l.history[tx.txId].IsEmptyFlags() ==>
            l' == l && reply == Err(TxNotDisputed))
  {
  }

  /**
   * On a locked account a deposit, a withdrawal, any record that passes
   * its lookup and flag checks, and a closed queue all end the worker with
   * the current snapshot.
   */
  lemma LockedAccountTerminates(l: Ledger, rec: Option<Transaction>)
    requires HistoryWellFormed(l.history) && l.account.locked
    requires rec.Some? ==> rec.value.ttype != Unknown
    requires rec.Some? && !MovesFunds(rec.value) ==>
      && rec.value.txId in l.history
      && (rec.value.ttype == Dispute <==> l.history[rec.value.txId].IsEmptyFlags())
    ensures Step(l, rec) == (l, Err(Handle(l.account)))
  {
  }

  /** The scenario of the source's resolve test: a second resolve fails on held. */
  lemma ResolveTwiceFailsOnHeld()
    ensures var l0 := Ledger(Snapshot(1, 0.0, 2.0, false),
                             map[0 := NewWithAmount(Deposit, 1, 0, 2.0).MarkDisputed()]);
      var resolve := New(Resolve, 1, 0);
      var (l1, reply1) := Step(l0, Some(resolve));
      var (l2, reply2) := Step(l1, Some(resolve));
      && reply1.Ok? && l1.account == Snapshot(1, 2.0, 0.0, false)
      && l1.history[0].Flag() == Resolved
      && reply2 == Err(DepositTooLow) && l2 == l1
  {
  }

  /** The scenario of the source's chargeback test: a second chargeback hits the lock. */
  lemma ChargebackTwiceTerminates()
    ensures var l0 := Ledger(Snapshot(1, 0.0, 2.0, false),
                             map[0 := NewWithAmount(Deposit, 1, 0, 2.0).MarkDisputed()]);
      var chargeback := New(Chargeback, 1, 0);
      var (l1, reply1) := Step(l0, Some(chargeback));
      var (l2, reply2) := Step(l1, Some(chargeback));
      && reply1.Ok? && l1.account == Snapshot(1, 0.0, 0.0, true)
      && l1.history[0].Flag() == ChargedBack
      && reply2 == Err(Handle(Snapshot(1, 0.0, 0.0, true))) && l2 == l1
  {
  }

  // ---------------------------------------------------------------------
  // The objects.

  /** `Account`: balances updated in place by its guarded methods. */
  class Account {
    var clientId: u16
    var available: real
    var held: real
    var locked: bool

    /** `Account::new`. */
    constructor (clientId: u16, available: real, held: real, locked: bool)
      ensures Clone() == Snapshot(clientId, available, held, locked)
    {
      this.clientId := clientId;
      this.available := available;
      this.held := held;
      this.locked := locked;
    }

    /** `Account::new_unlocked`. */
    constructor Unlocked(clientId: u16, available: real, held: real)
      ensures Clone() == Snapshot(clientId, available, held, false)
    {
      this.clientId := clientId;
      this.available := available;
      this.held := held;
      this.locked := false;
    }

    /** `Account::clone`: a copy of the four fields, whose total is the account's. */
    function Clone(): (c: Snapshot)
      reads this
      ensures c.clientId == clientId && c.available == available && c.held == held && c.locked == locked
      ensures c.Total() == available + held
    {
      Snapshot(clientId, available, held, locked)
    }

    function Total(): (t: real)
      reads this
      ensures t == Clone().Total()
    {
      available + held
    }

    method AddAvailable(amount: real) returns (r: Outcome)
      modifies this
      ensures r == Pass
      ensures Clone() == old(Clone()).(available := old(available) + amount)
    {
      available := available + amount;
      r := Pass;
    }

    method SubAvailable(amount: real) returns (r: Outcome)
      modifies this
      ensures old(available) < amount ==> r == Fail(DepositTooLow) && Clone() == old(Clone())
      ensures amount <= old(available) ==>
        r == Pass && Clone() == old(Clone()).(available := old(available) - amount) && available >= 0.0
    {
      if available < amount {
        return Fail(DepositTooLow);
      }
      available := available - amount;
      r := Pass;
    }

    method AddHeld(amount: real) returns (r: Outcome)
      modifies this
      ensures r == Pass
      ensures Clone() == old(Clone()).(held := old(held) + amount)
    {
      held := held + amount;
      r := Pass;
    }

    method SubHeld(amount: real) returns (r: Outcome)
      modifies this
      ensures old(held) < amount ==> r == Fail(DepositTooLow) && Clone() == old(Clone())
      ensures amount <= old(held) ==>
        r == Pass && Clone() == old(Clone()).(held := old(held) - amount) && held >= 0.0
    {
      if held < amount {
        return Fail(DepositTooLow);
      }
      held := held - amount;
      r := Pass;
    }

    method SetLocked(locked: bool)
      modifies this
      ensures Clone() == old(Clone()).(locked := locked)
    {
      this.locked := locked;
    }
  }

  /**
   * `AccountAdmin`: one client's account and transaction history, owned
   * by that client's worker. The queue it reads from is replaced by the
   * item passed to `Handle`.
   */
  class AccountAdmin {
    const account: Account
    var txHistory: map<u32, Transaction>

    ghost predicate Valid()
      reads this
    {
      HistoryWellFormed(txHistory)
    }

    /** The account and history as one value. */
    function State(): Ledger
      reads this, account
    {
      Ledger(account.Clone(), txHistory)
    }

    /** `AccountAdmin::new`: zero balances, unlocked, empty history. */
    constructor (id: u16)
      ensures Valid() && fresh(account)
      ensures State() == NewLedger(id)
    {
      account := new Account.Unlocked(id, 0.0, 0.0);
      txHistory := map[];
    }

    function Id(): (id: u16)
      reads this, account
      ensures id == State().account.clientId
    {
      account.clientId
    }

    /** `AccountAdmin::handle`, proved to perform `Step`. */
    method Handle(rec: Option<Transaction>) returns (r: Reply)
      requires Valid() && (account.locked || Admissible(rec))
      modifies this, account
      ensures Valid()
      ensures (State(), r) == Step(old(State()), rec)
    {
      if rec.None? {
        return Err(HandleError.Handle(account.Clone()));
      }
      var tx := rec.value;
      var id := tx.txId;
      var o: Outcome;
      match tx.ttype {
        case Deposit =>
          if account.locked {
            return Err(HandleError.Handle(account.Clone()));
          }
          var amount := tx.amount.value;
          txHistory := txHistory[id := tx];
          o := account.AddAvailable(amount);
          return Ok(account.Clone());
        case Withdrawal =>
          if account.locked {
            return Err(HandleError.Handle(account.Clone()));
          }
          var amount := tx.amount.value;
          txHistory := txHistory[id := tx];
          o := account.SubAvailable(amount);
          if o.Fail? {
            return Err(o.error);
          }
          return Ok(account.Clone());
        case Dispute =>
          if id !in txHistory {
            return Err(TxNotFound);
          }
          var entry := txHistory[id];
          if !entry.IsEmptyFlags() {
            return Err(TxAlreadyDisputed);
          }
          if account.locked {
            return Err(HandleError.Handle(account.Clone()));
          }
          var amount := entry.amount.value;
          o := account.SubAvailable(amount);
          if o.Fail? {
            return Err(o.error);
          }
          txHistory := txHistory[id := entry.MarkDisputed()];
          o := account.AddHeld(amount);
          return Ok(account.Clone());
        case Resolve =>
          if id !in txHistory {
            return Err(TxNotFound);
          }
          var entry := txHistory[id];
          if entry.IsEmptyFlags() {
            return Err(TxNotDisputed);
          }
          if account.locked {
            return Err(HandleError.Handle(account.Clone()));
          }
          var amount := entry.amount.value;
          o := account.SubHeld(amount);
          if o.Fail? {
            return Err(o.error);
          }
          txHistory := txHistory[id := entry.MarkResolved()];
          o := account.AddAvailable(amount);
          return Ok(account.Clone());
        case Chargeback =>
          if id !in txHistory {
            return Err(TxNotFound);
          }
          var entry := txHistory[id];
          if entry.IsEmptyFlags() {
            return Err(TxNotDisputed);
          }
          if account.locked {
            return Err(HandleError.Handle(account.Clone()));
          }
          var amount := entry.amount.value;
          o := account.SubHeld(amount);
          if o.Fail? {
            return Err(o.error);
          }
          account.SetLocked(true);
          txHistory := txHistory[id := entry.MarkChargedBack()];
          return Ok(account.Clone());
        case Unknown =>
          return Err(OperationNotSupported);
      }
    }
  }
}
