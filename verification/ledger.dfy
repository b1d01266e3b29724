/**
  The tables that both spending paths read and write: `user_credits` (one nullable
  `credits_balance` per user), `credit_transactions` and `ai_generations`, together
  with the ordered log of every side-effecting call that reaches an outside service.

  `State` is the value of all of it at one instant; `Backend` is the same state as an
  object whose methods are the individual writes, each of which may fail.
*/
module Ledger {
  import opened Wrappers

  type UserId = string

  /** A row of `credit_transactions`: one recorded spend. */
  datatype TransactionRow = TransactionRow(userId: UserId, creditsSpent: int, featureUsed: string)

  /** A row of `ai_generations`: the audit record of one generated image. */
  datatype GenerationRow = GenerationRow(userId: UserId, prompt: string, kind: string, resultUrl: string)

  /** A call with side effects, recorded in the order it was issued (whether or not it failed). */
  datatype Effect =
    | TextToImage(prompt: string)
    | InsertGeneration(generation: GenerationRow)
    | DeductCredits(user: UserId, amount: int)
    | UpdateCredits(user: UserId, balance: int)
    | InsertTransaction(transaction: TransactionRow)

  datatype State = State(
    balances: map<UserId, Option<int>>,
    transactions: seq<TransactionRow>,
    generations: seq<GenerationRow>,
    effects: seq<Effect>)
  {
    /** The image generator is asked for an image; no table changes. */
    function WithImageRequest(prompt: string): State {
      this.(effects := effects + [TextToImage(prompt)])
    }

    /** Insert into `ai_generations`; the row is added only when the insert succeeds. */
    function WithGeneration(row: GenerationRow, ok: bool): State {
      this.(generations := if ok then generations + [row] else generations,
            effects := effects + [InsertGeneration(row)])
    }

    /**
      The `deduct_credits` stored procedure. Its body is not part of this model: it is
      taken to lower a non-null balance by `amount` when it succeeds, and to change
      nothing when it fails or finds no non-null balance.
    */
    function Deducted(user: UserId, amount: int, ok: bool): State {
      this.(balances := if ok && user in balances && balances[user].Some?
                        then balances[user := Some(balances[user].value - amount)]
                        else balances,
            effects := effects + [DeductCredits(user, amount)])
    }

    /**
      `update({credits_balance: balance}).eq('user_id', user)`: overwrites the user's row
      when it succeeds; with no matching row it succeeds and changes nothing.
    */
    function Updated(user: UserId, balance: int, ok: bool): State {
      this.(balances := if ok && user in balances then balances[user := Some(balance)] else balances,
            effects := effects + [UpdateCredits(user, balance)])
    }

    /** Insert into `credit_transactions`; the row is added only when the insert succeeds. */
    function WithTransaction(row: TransactionRow, ok: bool): State {
      this.(transactions := if ok then transactions + [row] else transactions,
            effects := effects + [InsertTransaction(row)])
    }
  }

  /** The balance as a number: a missing row or a null balance counts as 0. */
  function BalanceOf(s: State, user: UserId): int {
    if user in s.balances && s.balances[user].Some? then s.balances[user].value else 0
  }

  /** Credits spent by `user` according to a run of transaction rows. */
  function SpentBy(rows: seq<TransactionRow>, user: UserId): int {
    if rows == [] then 0
    else (if rows[0].userId == user then rows[0].creditsSpent else 0) + SpentBy(rows[1..], user)
  }

  /**
    Between `before` and `after` the transaction log only grew, and the rows it gained
    account exactly for how far `user`'s balance dropped.
  */
  predicate Reconciles(before: State, after: State, user: UserId) {
    before.transactions <= after.transactions &&
    BalanceOf(before, user) - BalanceOf(after, user)
      == SpentBy(after.transactions[|before.transactions|..], user)
  }

  /** "spent = initial − balance" holds for every user across the step from `before` to `after`. */
  ghost predicate Corresponds(before: State, after: State) {
    forall user :: Reconciles(before, after, user)
  }

  /** No stored balance is negative. */
  predicate NonNegative(s: State) {
    forall user :: user in s.balances && s.balances[user].Some? ==> s.balances[user].value >= 0
  }

  lemma {:induction false} SpentByConcat(a: seq<TransactionRow>, b: seq<TransactionRow>, user: UserId)
    ensures SpentBy(a + b, user) == SpentBy(a, user) + SpentBy(b, user)
  {
    if a == [] {
      assert a + b == b;
    } else {
      assert (a + b)[0] == a[0] && (a + b)[1..] == a[1..] + b;
      SpentByConcat(a[1..], b, user);
    }
  }

  /** Correspondence composes: a run of steps that each keep it keeps it overall. */
  lemma CorrespondsTransitive(s1: State, s2: State, s3: State)
    requires Corresponds(s1, s2) && Corresponds(s2, s3)
    ensures Corresponds(s1, s3)
  {
    forall user ensures Reconciles(s1, s3, user) {
      assert Reconciles(s1, s2, user) && Reconciles(s2, s3, user);
      var n1, n2 := |s1.transactions|, |s2.transactions|;
      assert s3.transactions[n1..] == s2.transactions[n1..] + s3.transactions[n2..];
      SpentByConcat(s2.transactions[n1..], s3.transactions[n2..], user);
    }
  }

  /** With one new row, a user reconciles exactly when their balance dropped by what that row records for them. */
  lemma {:induction false} ReconcilesOneRow(before: State, after: State, row: TransactionRow, user: UserId)
    requires after.transactions == before.transactions + [row]
    ensures Reconciles(before, after, user) <==>
      BalanceOf(before, user) - BalanceOf(after, user) == (if row.userId == user then row.creditsSpent else 0)
  {
    assert after.transactions[|before.transactions|..] == [row];
    assert SpentBy([row], user) == (if row.userId == user then row.creditsSpent else 0) + SpentBy([], user);
  }

  /** With no new rows, a user reconciles exactly when their balance did not move. */
  lemma ReconcilesNoRow(before: State, after: State, user: UserId)
    requires after.transactions == before.transactions
    ensures Reconciles(before, after, user) <==> BalanceOf(before, user) == BalanceOf(after, user)
  {
    assert after.transactions[|before.transactions|..] == [];
  }

  /** The live tables and call log, updated in place one call at a time. */
  class Backend {
    var balances: map<UserId, Option<int>>
    var transactions: seq<TransactionRow>
    var generations: seq<GenerationRow>
    var effects: seq<Effect>

    function Snapshot(): State
      reads this
    {
      State(balances, transactions, generations, effects)
    }

    constructor (initial: State)
      ensures Snapshot() == initial
    {
      balances := initial.balances;
      transactions := initial.transactions;
      generations := initial.generations;
      effects := initial.effects;
    }

    method RequestImage(prompt: string)
      modifies this
      ensures Snapshot() == old(Snapshot()).WithImageRequest(prompt)
    {
      effects := effects + [TextToImage(prompt)];
    }

    method InsertGenerationRow(row: GenerationRow, ok: bool)
      modifies this
      ensures Snapshot() == old(Snapshot()).WithGeneration(row, ok)
    {
      if ok {
        generations := generations + [row];
      }
      effects := effects + [InsertGeneration(row)];
    }

    method DeductCreditsRpc(user: UserId, amount: int, ok: bool)
      modifies this
      ensures Snapshot() == old(Snapshot()).Deducted(user, amount, ok)
    {
      if ok && user in balances && balances[user].Some? {
        balances := balances[user := Some(balances[user].value - amount)];
      }
      effects := effects + [DeductCredits(user, amount)];
    }

    method UpdateBalance(user: UserId, balance: int, ok: bool)
      modifies this
      ensures Snapshot() == old(Snapshot()).Updated(user, balance, ok)
    {
      if ok && user in balances {
        balances := balances[user := Some(balance)];
      }
      effects := effects + [UpdateCredits(user, balance)];
    }

    method InsertTransactionRow(row: TransactionRow, ok: bool)
      modifies this
      ensures Snapshot() == old(Snapshot()).WithTransaction(row, ok)
    {
      if ok {
        transactions := transactions + [row];
      }
      effects := effects + [InsertTransaction(row)];
    }
  }
}
