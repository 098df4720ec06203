/** The ledger of one client as a value, and the effect of one transaction on
    it (src/account.rs). The class `Accounts.Account` updates its fields in
    place and is proved to follow the functions here. */
module AccountSpec {
  import opened Transactions

  /** A stored deposit or withdrawal and whether it is currently disputed. */
  datatype DisputableTransaction = DisputableTransaction(transaction: Transaction, disputed: bool)

  /** Everything an account holds: its client id, the three balances, the
      lock and the history of stored transactions keyed by transaction id. */
  datatype AccountState = AccountState(
    id: ClientId,
    available: Amount,
    held: Amount,
    total: Amount,
    locked: bool,
    history: map<TransactionId, DisputableTransaction>)

  /** The bookkeeping identity every transition keeps. */
  predicate Balanced(s: AccountState) {
    s.total == s.available + s.held
  }

  /** What the history always satisfies: only deposits and withdrawals are
      stored, each under its own transaction id. The `unreachable!()` arm on
      the stored kind (src/account.rs:146) relies on the first half; the arms
      on the action rely instead on `apply` passing only the dispute kinds.
      No proof relies on the second half, which
      records what `save_tx` keeps (an entry's key is its own `tx`) and is shown
      to survive every transaction. */
  predicate Valid(s: AccountState) {
    forall id :: id in s.history ==>
      s.history[id].transaction.kind.IsStorable() && s.history[id].transaction.tx == id
  }

  /** A change to the three balances. */
  datatype Delta = Delta(available: int, held: int, total: int)

  /** The balance effect of a dispute, resolve or chargeback on a stored
      transaction of the given kind and amount, as a table. Disputing a deposit
      moves its amount from available to held; disputing a withdrawal
      reinstates it as held money in the total; a resolve undoes the dispute;
      a chargeback releases the held money, out of the account for a deposit
      and back into available for a withdrawal. */
  function Effect(stored: TransactionType, action: TransactionType, amount: Amount): (e: Delta)
    requires stored.IsStorable() && action.IsDisputeKind()
    ensures e.total == e.available + e.held
    ensures action.Dispute? ==> e.held == amount
    ensures !action.Dispute? ==> e.held == -amount
  {
    match (stored, action)
    case (Deposit, Dispute) => Delta(-amount, amount, 0)
    case (Deposit, Resolve) => Delta(amount, -amount, 0)
    case (Deposit, Chargeback) => Delta(0, -amount, -amount)
    case (Withdrawal, Dispute) => Delta(0, amount, amount)
    case (Withdrawal, Resolve) => Delta(0, -amount, -amount)
    case (Withdrawal, Chargeback) => Delta(amount, -amount, 0)
  }

  /** `Account::save_tx`: record `t` under its id as not disputed, replacing
      any entry with the same id; nothing else changes. */
  function SaveTx(s: AccountState, t: Transaction): (r: AccountState)
    ensures r.history.Keys == s.history.Keys + {t.tx}
    ensures r.history[t.tx] == DisputableTransaction(t, false)
    ensures forall id :: id in s.history && id != t.tx ==> r.history[id] == s.history[id]
    ensures r.(history := s.history) == s
    ensures Valid(s) && t.kind.IsStorable() ==> Valid(r)
  {
    s.(history := s.history[t.tx := DisputableTransaction(t, false)])
  }

  /** Whether the `(disputed, kind)` gate turns a dispute step into a no-op:
      disputing a disputed entry, or resolving or charging back an undisputed one. */
  predicate Rejected(disputed: bool, action: TransactionType) {
    if disputed then action.Dispute? else action.Resolve? || action.Chargeback?
  }

  /** `Account::handle_disputes`: a dispute, resolve or chargeback referring to
      transaction `t.tx`. Unknown ids and steps the gate rejects change
      nothing; otherwise the balances move by `Effect`, a chargeback locks the
      account, and a dispute or resolve sets or clears the entry's flag. */
  function HandleDisputes(s: AccountState, t: Transaction): (r: AccountState)
    requires Valid(s) && t.kind.IsDisputeKind()
    ensures Valid(r)
    ensures Balanced(s) ==> Balanced(r)
    ensures r.id == s.id && r.history.Keys == s.history.Keys
    ensures forall id :: id in s.history && id != t.tx ==> r.history[id] == s.history[id]
    ensures t.tx !in s.history ==> r == s
    ensures t.tx in s.history && Rejected(s.history[t.tx].disputed, t.kind) ==> r == s
    ensures r.locked <==> s.locked || (t.kind.Chargeback? && t.tx in s.history && s.history[t.tx].disputed)
  {
    if t.tx !in s.history then s
    else
      var entry := s.history[t.tx];
      if Rejected(entry.disputed, t.kind) then s
      else
        var e := Effect(entry.transaction.kind, t.kind, entry.transaction.amount);
        s.(available := s.available + e.available,
           held := s.held + e.held,
           total := s.total + e.total,
           locked := s.locked || t.kind.Chargeback?,
           history := if t.kind.Chargeback? then s.history
                      else s.history[t.tx := entry.(disputed := t.kind.Dispute?)])
  }

  /** `Account::apply`: a locked account ignores everything; a deposit credits
      available and total; a withdrawal debits them when available covers it
      and is otherwise ignored; the dispute kinds go to `HandleDisputes`. */
  function Apply(s: AccountState, t: Transaction): (r: AccountState)
    requires Valid(s)
    ensures Valid(r)
    ensures Balanced(s) ==> Balanced(r)
    ensures r.id == s.id
    ensures s.locked ==> r == s
    ensures r.locked <==> s.locked || (t.kind.Chargeback? && t.tx in s.history && s.history[t.tx].disputed)
  {
    if s.locked then s
    else
      match t.kind
      case Deposit =>
        SaveTx(s.(available := s.available + t.amount, total := s.total + t.amount), t)
      case Withdrawal =>
        if s.available >= t.amount then
          SaveTx(s.(available := s.available - t.amount, total := s.total - t.amount), t)
        else s
      case _ => HandleDisputes(s, t)
  }

  /** The account after applying `txs` one after another. */
  ghost function Run(s: AccountState, txs: seq<Transaction>): AccountState
    requires Valid(s)
    decreases |txs|
  {
    if txs == [] then s else Run(Apply(s, txs[0]), txs[1..])
  }
}
