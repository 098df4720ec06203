/** The account of one client, updated in place (src/account.rs). Every
    method is proved to move the fields exactly as the specification in
    `AccountSpec` says. */
module Accounts {
  import opened Transactions
  import opened AccountSpec

  class Account {
    var id: ClientId
    var available: Amount
    var held: Amount
    var total: Amount
    var locked: bool
    var txHistory: map<TransactionId, DisputableTransaction>

    /** The fields as one value. */
    function State(): AccountState
      reads this
    {
      AccountState(id, available, held, total, locked, txHistory)
    }

    /** The history holds only deposits and withdrawals, each under its own id. */
    ghost predicate Valid()
      reads this
    {
      AccountSpec.Valid(State())
    }

    /** Total equals available plus held. */
    ghost predicate Balanced()
      reads this
    {
      AccountSpec.Balanced(State())
    }

    /** `Account::default`: client 0, zero balances, unlocked, empty history. */
    constructor Default()
      ensures id == 0 && available == 0 && held == 0 && total == 0
      ensures !locked && txHistory == map[]
      ensures Valid() && Balanced()
    {
      id := 0;
      available := 0;
      total := 0;
      held := 0;
      locked := false;
      txHistory := map[];
    }

    /** `Account::new`: like the default account, for the given client. */
    constructor New(clientId: ClientId)
      ensures id == clientId && available == 0 && held == 0 && total == 0
      ensures !locked && txHistory == map[]
      ensures Valid() && Balanced()
    {
      id := clientId;
      available := 0;
      total := 0;
      held := 0;
      locked := false;
      txHistory := map[];
    }

    /** `Account::id`. */
    function Id(): (r: ClientId)
      reads this
    {
      id
    }

    /** `Account::save_tx`: record `tx` as undisputed under its id, replacing
        any earlier entry with that id. */
    method SaveTx(tx: Transaction)
      modifies this
      ensures State() == AccountSpec.SaveTx(old(State()), tx)
      ensures old(Valid()) && tx.kind.IsStorable() ==> Valid()
    {
      txHistory := txHistory[tx.tx := DisputableTransaction(tx, false)];
    }

    /** `Account::apply`: one transaction of any kind. */
    method Apply(tx: Transaction)
      requires Valid()
      modifies this
      ensures Valid()
      ensures State() == AccountSpec.Apply(old(State()), tx)
      ensures old(Balanced()) ==> Balanced()
      ensures old(locked) ==> State() == old(State())
    {
      if locked {
        return;
      }
      match tx.kind {
        case Deposit =>
          available := available + tx.amount;
          total := total + tx.amount;
          SaveTx(tx);
        case Withdrawal =>
          if available >= tx.amount {
            available := available - tx.amount;
            total := total - tx.amount;
            SaveTx(tx);
          }
        case _ =>
          HandleDisputes(tx);
      }
    }

    /** `Account::handle_disputes`: a dispute, resolve or chargeback of the
        stored transaction `currentTx.tx`. The source's `unreachable!()` arms are
        absent: `Valid()` rules out a stored kind other than deposit or
        withdrawal, and the requires on `currentTx.kind` (what `apply`
        dispatches here) rules out an action other than the dispute kinds. */
    method HandleDisputes(currentTx: Transaction)
      requires Valid() && currentTx.kind.IsDisputeKind()
      modifies this
      ensures Valid()
      ensures State() == AccountSpec.HandleDisputes(old(State()), currentTx)
    {
      if currentTx.tx !in txHistory {
        return;
      }
      var disputable := txHistory[currentTx.tx];
      match (disputable.disputed, currentTx.kind) {
        case (true, Dispute) => return;
        case (false, Resolve) => return;
        case (false, Chargeback) => return;
        case _ =>
      }
      var amount := disputable.transaction.amount;
      match disputable.transaction.kind {
        case Deposit =>
          match currentTx.kind {
            case Dispute =>
              available := available - amount;
              held := held + amount;
              txHistory := txHistory[currentTx.tx := disputable.(disputed := true)];
            case Resolve =>
              available := available + amount;
              held := held - amount;
              txHistory := txHistory[currentTx.tx := disputable.(disputed := false)];
            case Chargeback =>
              total := total - amount;
              held := held - amount;
              locked := true;
          }
        case Withdrawal =>
          match currentTx.kind {
            case Dispute =>
              total := total + amount;
              held := held + amount;
              txHistory := txHistory[currentTx.tx := disputable.(disputed := true)];
            case Resolve =>
              total := total - amount;
              held := held - amount;
              txHistory := txHistory[currentTx.tx := disputable.(disputed := false)];
            case Chargeback =>
              available := available + amount;
              held := held - amount;
              locked := true;
          }
      }
    }
  }
}
