/**
 * The `user_credits` table as a map from Telegram user id to balance, and
 * the effect of each read-then-write credit operation of
 * server/api/_shared.js on it. The model is sequential: each operation is
 * atomic.
 */
module Ledger {
  type Table = map<int, nat>

  /** Credits granted to an account the first time it is seen. */
  const WelcomeCredits: nat := 3

  /** `getUserCredits`: the stored balance, 0 when there is no account. */
  function Balance(t: Table, u: int): nat
  {
    if u in t then t[u] else 0
  }

  /** Only account `u` may differ between `t` and `r`. */
  ghost predicate OthersUnchanged(t: Table, r: Table, u: int)
  {
    forall v :: v != u ==> (v in r <==> v in t) && (v in t ==> r[v] == t[v])
  }

  /** The effect of `ensureUserWithWelcomeCredit`: an absent account is created with 3 credits. */
  function WithWelcome(t: Table, u: int): (r: Table)
    ensures u in r && r[u] == (if u in t then t[u] else WelcomeCredits)
    ensures OthersUnchanged(t, r, u)
  {
    if u in t then t else t[u := WelcomeCredits]
  }

  /** The effect of `addCredits(u, n)`: an absent account is created with `n`, else `n` is added. */
  function Credited(t: Table, u: int, n: nat): (r: Table)
    ensures u in r && r[u] == Balance(t, u) + n
    ensures OthersUnchanged(t, r, u)
  {
    t[u := Balance(t, u) + n]
  }

  /** Whether `consumeOneCredit` succeeds: there is an account and it has a credit. */
  predicate CanDebit(t: Table, u: int)
  {
    u in t && t[u] > 0
  }

  /** The effect of `consumeOneCredit`: one credit less when it succeeds, nothing otherwise. */
  function Debited(t: Table, u: int): (r: Table)
    ensures CanDebit(t, u) ==> u in r && r[u] == t[u] - 1
    ensures !CanDebit(t, u) ==> r == t
    ensures OthersUnchanged(t, r, u)
  {
    if CanDebit(t, u) then t[u := t[u] - 1] else t
  }

  /** One credit more for an existing account; an absent account is not created. */
  function Bumped(t: Table, u: int): (r: Table)
    ensures u in t ==> u in r && r[u] == t[u] + 1
    ensures u !in t ==> r == t
    ensures OthersUnchanged(t, r, u)
  {
    if u in t then t[u := t[u] + 1] else t
  }

  /** A second welcome grant changes nothing; the balance after either is 3 for a new account. */
  lemma WelcomeIdempotent(t: Table, u: int)
    ensures WithWelcome(WithWelcome(t, u), u) == WithWelcome(t, u)
    ensures u !in t ==> Balance(WithWelcome(WithWelcome(t, u), u), u) == WelcomeCredits
  {
  }

  /** A credit taken and then refunded leaves the table as it was. */
  lemma RefundUndoesDebit(t: Table, u: int)
    requires CanDebit(t, u)
    ensures Bumped(Debited(t, u), u) == t
  {
    assert Debited(t, u)[u := Debited(t, u)[u] + 1] == t;
  }

  /** `k` debit attempts in a row: the table after them and how many succeeded. */
  function DebitRun(t: Table, u: int, k: nat): (Table, nat)
  {
    if k == 0 then (t, 0)
    else
      var (t1, n) := DebitRun(t, u, k - 1);
      (Debited(t1, u), if CanDebit(t1, u) then n + 1 else n)
  }

  /**
   * Against a balance of `b`, `k` debit attempts succeed exactly `min(b, k)`
   * times and leave `b - min(b, k)`: the balance never goes below zero and
   * no request is served without a credit.
   */
  lemma {:induction false} DebitRunCount(t: Table, u: int, k: nat)
    requires u in t
    ensures var (r, n) := DebitRun(t, u, k);
      u in r && n == (if t[u] < k then t[u] else k) && r[u] == t[u] - n && OthersUnchanged(t, r, u)
  {
    if k > 0 {
      DebitRunCount(t, u, k - 1);
    }
  }
}
