/**
 * `POST /` of the transaction routes: look the user up, debit the wallet for a
 * withdrawal that the balance covers, and record the transaction as completed.
 * The two collections are a map from user id to wallet balance and the sequence
 * of saved transactions.
 */
module TransactionRoutes {
  import opened Wrappers

  /** A saved transaction; its id and date come from the database and the clock and are not modelled. */
  datatype Transaction = Transaction(
    userId: string,
    amount: real,
    txType: string,
    status: string,
    description: Option<string>)

  /** 201 with the saved transaction, 404, 400 (insufficient balance), or 500 when the save fails. */
  datatype TxReply = Created(tx: Transaction) | UserNotFound | InsufficientBalance | ServerError

  /** The transaction types the schema accepts; any other type fails validation when saved. */
  predicate KnownType(t: string)
  {
    t == "withdraw" || t == "deposit" || t == "daily_credit" || t == "unlock"
  }

  /** The withdrawal rule: refused when the balance is below the amount, otherwise the amount is subtracted. */
  function Debit(balance: real, amount: real): (r: Option<real>)
    ensures r.None? <==> balance < amount
    ensures r.Some? ==> r.value + amount == balance
  {
    if balance < amount then None else Some(balance - amount)
  }

  /** The record built for a request: always `completed`, with the request's own fields. */
  function Record(userId: string, amount: real, txType: string, description: Option<string>): (tx: Transaction)
    ensures tx.status == "completed"
  {
    Transaction(userId, amount, txType, "completed", description)
  }

  /** The wallets and the transaction collection. */
  class Ledger {
    var balances: map<string, real>
    var transactions: seq<Transaction>

    constructor (balances0: map<string, real>)
      ensures balances == balances0 && transactions == []
    {
      balances := balances0;
      transactions := [];
    }

    /** Every wallet balance is non-negative. */
    predicate Valid()
      reads this
    {
      forall u :: u in balances ==> balances[u] >= 0.0
    }

    /** The handler: 404 for an unknown user, 400 for an uncovered withdrawal, else debit and record. */
    method Post(userId: string, amount: real, txType: string, description: Option<string>) returns (reply: TxReply)
      modifies this
      ensures userId !in old(balances) ==>
        reply == UserNotFound && balances == old(balances) && transactions == old(transactions)
      ensures userId in old(balances) && txType == "withdraw" && old(balances)[userId] < amount ==>
        reply == InsufficientBalance && balances == old(balances) && transactions == old(transactions)
      ensures userId in old(balances) && txType == "withdraw" && old(balances)[userId] >= amount ==>
        balances == old(balances)[userId := old(balances)[userId] - amount]
      ensures userId in old(balances) && txType != "withdraw" ==> balances == old(balances)
      ensures userId in old(balances) && !(txType == "withdraw" && old(balances)[userId] < amount) ==>
        if KnownType(txType)
        then reply == Created(Record(userId, amount, txType, description))
             && transactions == old(transactions) + [reply.tx]
        else reply == ServerError && transactions == old(transactions)
      ensures old(Valid()) ==> Valid()
    {
      if userId !in balances {
        return UserNotFound;
      }
      if txType == "withdraw" {
        var balance := balances[userId];
        if balance < amount {
          return InsufficientBalance;
        }
        balances := balances[userId := balance - amount];
      }
      if !KnownType(txType) {
        // schema validation rejects the document; the debit above, if any, has been saved already
        return ServerError;
      }
      var tx := Record(userId, amount, txType, description);
      transactions := transactions + [tx];
      reply := Created(tx);
    }
  }

  // ---------------------------------------------------------------------------
  // Properties

  /** A debit that goes through never leaves the wallet negative, whatever the sign of the amount. */
  lemma DebitNeverNegative(balance: real, amount: real)
    requires Debit(balance, amount).Some?
    ensures Debit(balance, amount).value >= 0.0
  {
  }

  /** A non-negative withdrawal never raises the balance. */
  lemma DebitNeverRaises(balance: real, amount: real)
    requires amount >= 0.0 && Debit(balance, amount).Some?
    ensures Debit(balance, amount).value <= balance
  {
  }

  /** The check has no lower bound on the amount: withdrawing a negative amount credits the wallet. */
  lemma NegativeWithdrawalCredits(balance: real, amount: real)
    requires amount < 0.0 && balance >= 0.0
    ensures Debit(balance, amount) == Some(balance + -amount)
    ensures Debit(balance, amount).value > balance
  {
  }

  /** Withdrawing the whole balance empties the wallet; one unit more is refused. */
  lemma DebitExactBalance(balance: real)
    ensures Debit(balance, balance) == Some(0.0)
    ensures Debit(balance, balance + 1.0) == None
  {
  }
}
