/** Properties of one account's transaction handling, stated on the
    specification in `AccountSpec`. */
module AccountLemmas {
  import opened Transactions
  import opened AccountSpec

  /** A locked account ignores every transaction: balances, lock and
      history all stay as they are. */
  lemma LockedIgnoresAll(s: AccountState, t: Transaction)
    requires Valid(s) && s.locked
    ensures Apply(s, t) == s
  {
  }

  /** Once locked, an account ignores every later sequence of transactions. */
  lemma {:induction false} LockedIsTerminal(s: AccountState, txs: seq<Transaction>)
    requires Valid(s) && s.locked
    ensures Run(s, txs) == s
    decreases |txs|
  {
    if txs != [] {
      LockedIsTerminal(Apply(s, txs[0]), txs[1..]);
    }
  }

  /** Any sequence of transactions keeps the history well formed, keeps
      total equal to available plus held, keeps the client id and never
      unlocks the account. */
  lemma {:induction false} RunPreservesInvariants(s: AccountState, txs: seq<Transaction>)
    requires Valid(s) && Balanced(s)
    ensures Valid(Run(s, txs)) && Balanced(Run(s, txs))
    ensures Run(s, txs).id == s.id
    ensures s.locked ==> Run(s, txs).locked
    decreases |txs|
  {
    if txs != [] {
      RunPreservesInvariants(Apply(s, txs[0]), txs[1..]);
    }
  }

  /** A chargeback on a disputed entry locks the account for good: from then
      on no sequence of transactions changes anything. */
  lemma ChargebackLocksForGood(s: AccountState, t: Transaction, txs: seq<Transaction>)
    requires Valid(s) && !s.locked
    requires t.kind.Chargeback? && t.tx in s.history && s.history[t.tx].disputed
    ensures Apply(s, t).locked
    ensures Run(Apply(s, t), txs) == Apply(s, t)
  {
    LockedIsTerminal(Apply(s, t), txs);
  }

  /** A deposit on an unlocked account credits available and total by its
      amount, leaves held alone and records the deposit as undisputed under
      its id. */
  lemma DepositEffect(s: AccountState, t: Transaction)
    requires Valid(s) && !s.locked && t.kind.Deposit?
    ensures var r := Apply(s, t);
      && r.available == s.available + t.amount
      && r.total == s.total + t.amount
      && r.held == s.held
      && !r.locked
      && r.history == s.history[t.tx := DisputableTransaction(t, false)]
  {
  }

  /** A withdrawal on an unlocked account takes effect exactly when available
      covers the amount: then available and total drop by the amount and the
      withdrawal is recorded; otherwise nothing changes. */
  lemma WithdrawalEffect(s: AccountState, t: Transaction)
    requires Valid(s) && !s.locked && t.kind.Withdrawal?
    ensures var r := Apply(s, t);
      if s.available >= t.amount then
        && r.available == s.available - t.amount
        && r.total == s.total - t.amount
        && r.held == s.held
        && !r.locked
        && r.history == s.history[t.tx := DisputableTransaction(t, false)]
      else r == s
  {
  }

  /** Dispute, resolve and chargeback leave the account unchanged when the id
      is not in the history, when disputing a disputed entry, and when
      resolving or charging back an undisputed entry. */
  lemma DisputeStepsIgnored(s: AccountState, t: Transaction)
    requires Valid(s) && t.kind.IsDisputeKind()
    requires || t.tx !in s.history
             || (s.history[t.tx].disputed && t.kind.Dispute?)
             || (!s.history[t.tx].disputed && !t.kind.Dispute?)
    ensures Apply(s, t) == s
  {
  }

  /** Disputing an undisputed entry flags it and moves its amount into held:
      out of available for a deposit, into total for a withdrawal. */
  lemma DisputeEffect(s: AccountState, t: Transaction)
    requires Valid(s) && !s.locked && t.kind.Dispute?
    requires t.tx in s.history && !s.history[t.tx].disputed
    ensures var r := Apply(s, t); var stored := s.history[t.tx].transaction;
      && r.held == s.held + stored.amount
      && (stored.kind.Deposit? ==> r.available == s.available - stored.amount && r.total == s.total)
      && (stored.kind.Withdrawal? ==> r.available == s.available && r.total == s.total + stored.amount)
      && r.history == s.history[t.tx := DisputableTransaction(stored, true)]
      && !r.locked
  {
  }

  /** Resolving a disputed entry clears its flag and releases its amount from
      held: back into available for a deposit, out of total for a withdrawal. */
  lemma ResolveEffect(s: AccountState, t: Transaction)
    requires Valid(s) && !s.locked && t.kind.Resolve?
    requires t.tx in s.history && s.history[t.tx].disputed
    ensures var r := Apply(s, t); var stored := s.history[t.tx].transaction;
      && r.held == s.held - stored.amount
      && (stored.kind.Deposit? ==> r.available == s.available + stored.amount && r.total == s.total)
      && (stored.kind.Withdrawal? ==> r.available == s.available && r.total == s.total - stored.amount)
      && r.history == s.history[t.tx := DisputableTransaction(stored, false)]
      && !r.locked
  {
  }

  /** Charging back a disputed entry locks the account and releases its
      amount from held: out of total for a deposit, into available for a
      withdrawal. The entry itself stays as it was, still disputed. */
  lemma ChargebackEffect(s: AccountState, t: Transaction)
    requires Valid(s) && !s.locked && t.kind.Chargeback?
    requires t.tx in s.history && s.history[t.tx].disputed
    ensures var r := Apply(s, t); var stored := s.history[t.tx].transaction;
      && r.held == s.held - stored.amount
      && (stored.kind.Deposit? ==> r.available == s.available && r.total == s.total - stored.amount)
      && (stored.kind.Withdrawal? ==> r.available == s.available + stored.amount && r.total == s.total)
      && r.history == s.history
      && r.locked
  {
  }

  /** In the table of effects, a resolve is the exact opposite of a dispute. */
  lemma ResolveUndoesDispute(stored: TransactionType, amount: Amount)
    requires stored.IsStorable()
    ensures var d := Effect(stored, Dispute, amount); var u := Effect(stored, Resolve, amount);
      u == Delta(-d.available, -d.held, -d.total)
  {
  }

  /** Disputing an undisputed stored transaction and then resolving it gives
      back exactly the account before the dispute: balances, lock and the
      entry's flag. */
  lemma DisputeThenResolveRestores(s: AccountState, d: Transaction, u: Transaction)
    requires Valid(s) && !s.locked
    requires d.kind.Dispute? && u.kind.Resolve? && d.tx == u.tx
    requires d.tx in s.history && !s.history[d.tx].disputed
    ensures Apply(Apply(s, d), u) == s
  {
    var entry := s.history[d.tx];
    ResolveUndoesDispute(entry.transaction.kind, entry.transaction.amount);
    assert s.history[d.tx := entry.(disputed := true)][d.tx := entry] == s.history;
  }
}
