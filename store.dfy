/**
 * The database tables the handlers use (`user_credits`, `payments`,
 * `referrals`, `admins`) as fields of one object, and the helper operations
 * of server/api/_shared.js that read and write them. Each method is one
 * atomic step; its effect on `credits` is the matching function of module
 * Ledger.
 */
module Store {
  import opened Basics
  import opened Strings
  import opened Json
  import Ledger

  datatype PaymentStatus = Completed | Failed

  /**
   * A row of `payments`. `paidAt` is the clock reading when the row was
   * written; `paymentRef` is the text column `payment_ref`, `None` for SQL
   * null.
   */
  datatype Payment = Payment(
    userId: int, xtrAmount: nat, creditsAdded: nat, paidAt: int,
    paymentRef: Option<string>, payload: Json, status: PaymentStatus, error: Option<string>)

  /** A row of `referrals`. */
  datatype Referral = Referral(inviterId: int, inviteeId: int)

  /** A row of `admins`. */
  datatype Admin = Admin(userId: int, role: string)

  /** Whether some payment row carries reference `ref`; the filter `eq.<ref>` never matches a null column. */
  ghost predicate HasRef(ps: seq<Payment>, ref: string)
  {
    exists i :: 0 <= i < |ps| && ps[i].paymentRef == Some(ref)
  }

  /** `update({status: 'failed', error: msg}).eq('payment_ref', ref)` on the rows. */
  function MarkedFailed(ps: seq<Payment>, ref: string, msg: string): (r: seq<Payment>)
    ensures |r| == |ps|
    ensures forall i :: 0 <= i < |ps| && ps[i].paymentRef != Some(ref) ==> r[i] == ps[i]
    ensures forall i :: 0 <= i < |ps| && ps[i].paymentRef == Some(ref) ==>
      r[i] == ps[i].(status := Failed, error := Some(msg))
  {
    if ps == [] then []
    else
      var p := if ps[0].paymentRef == Some(ref) then ps[0].(status := Failed, error := Some(msg)) else ps[0];
      [p] + MarkedFailed(ps[1..], ref, msg)
  }

  /** Marking a reference no row carries changes nothing. */
  lemma {:induction false} MarkedFailedAbsent(ps: seq<Payment>, ref: string, msg: string)
    requires !HasRef(ps, ref)
    ensures MarkedFailed(ps, ref, msg) == ps
  {
    if ps != [] {
      assert ps[0].paymentRef != Some(ref);
      assert !HasRef(ps[1..], ref) by {
        forall i | 0 <= i < |ps[1..]| ensures ps[1..][i].paymentRef != Some(ref) {
          assert ps[1..][i] == ps[i + 1];
        }
      }
      MarkedFailedAbsent(ps[1..], ref, msg);
    }
  }

  /**
   * How the `bigint` column `telegram_user_id` accepts a JSON value: an
   * integer, or a string of decimal digits with an optional sign. Anything
   * else is rejected by the database.
   */
  function UserKey(v: Json): (r: Option<int>)
    ensures v.JNumber? ==> r == Some(v.n)
    ensures r.Some? ==> v.JNumber? || v.JString?
  {
    match v
    case JNumber(n) => Some(n)
    case JString(s) =>
      var neg := |s| > 0 && s[0] == '-';
      var sign := if |s| > 0 && (s[0] == '-' || s[0] == '+') then 1 else 0;
      var digits := s[sign..];
      if digits != [] && AllDigits(digits) then
        var m: int := RadixValue(digits, 10);
        Some(if neg then -m else m)
      else None
    case _ => None
  }

  /** The error the database reports for a value `UserKey` rejects. */
  const BigintSyntaxError: string := "invalid input syntax for type bigint"

  /** `ADMIN_WHITELIST`: the comma-separated `ADMINS` variable, each entry trimmed; empty when unset or empty. */
  function AdminWhitelist(admins: Option<string>): (r: seq<string>)
    ensures admins.None? || admins.value == "" ==> r == []
    ensures admins.Some? && admins.value != "" ==>
      (|r| == |Split(admins.value, ',')| && forall i :: 0 <= i < |r| ==> r[i] == Trim(Split(admins.value, ',')[i]))
  {
    if admins.None? || admins.value == "" then []
    else
      var parts := Split(admins.value, ',');
      seq(|parts|, i requires 0 <= i < |parts| => Trim(parts[i]))
  }

  class Store {
    var credits: Ledger.Table
    var payments: seq<Payment>
    var referrals: seq<Referral>
    var admins: seq<Admin>

    /** Empty tables. */
    constructor ()
      ensures credits == map[] && payments == [] && referrals == [] && admins == []
    {
      credits := map[];
      payments := [];
      referrals := [];
      admins := [];
    }

    /** `getUserCredits`: the balance, 0 for an absent account, which is not created. */
    method GetUserCredits(u: int) returns (b: nat)
      ensures b == Ledger.Balance(credits, u)
      ensures u !in credits ==> b == 0
    {
      if u in credits {
        b := credits[u];
      } else {
        b := 0;
      }
    }

    /**
     * `ensureUserWithWelcomeCredit`: an existing balance is returned unchanged;
     * an absent account is inserted with 3 credits and 3 is returned. When the
     * insert reports `insertError` the call throws and nothing is written.
     */
    method EnsureUserWithWelcomeCredit(u: int, insertError: Option<string>) returns (r: Result<nat, string>)
      modifies this`credits
      ensures u in old(credits) ==> r == Ok(old(credits)[u]) && credits == old(credits)
      ensures u !in old(credits) && insertError.None? ==>
        r == Ok(Ledger.WelcomeCredits) && credits == Ledger.WithWelcome(old(credits), u)
      ensures u !in old(credits) && insertError.Some? ==>
        r == Err("Failed to create user: " + insertError.value) && credits == old(credits)
      ensures r.Ok? ==> credits == Ledger.WithWelcome(old(credits), u) && r.value == credits[u]
    {
      if u in credits {
        return Ok(credits[u]);
      }
      if insertError.Some? {
        return Err("Failed to create user: " + insertError.value);
      }
      credits := credits[u := Ledger.WelcomeCredits];
      r := Ok(Ledger.WelcomeCredits);
    }

    /** `addCredits(u, n)`: the new balance is the old one (0 if absent) plus `n`, and is returned. */
    method AddCredits(u: int, n: nat) returns (b: nat)
      modifies this`credits
      ensures credits == Ledger.Credited(old(credits), u, n)
      ensures b == Ledger.Balance(old(credits), u) + n && b == credits[u]
    {
      if u !in credits {
        credits := credits[u := n];
        return n;
      }
      b := credits[u] + n;
      credits := credits[u := b];
    }

    /** `consumeOneCredit`: debits exactly one credit iff there is an account with a positive balance. */
    method ConsumeOneCredit(u: int) returns (ok: bool)
      modifies this`credits
      ensures ok == Ledger.CanDebit(old(credits), u)
      ensures credits == Ledger.Debited(old(credits), u)
    {
      if u !in credits || credits[u] <= 0 {
        return false;
      }
      credits := credits[u := credits[u] - 1];
      ok := true;
    }

    /** Read the account and, if it exists, write back one credit more (the refund and the inviter bonus). */
    method AddOneIfPresent(u: int)
      modifies this`credits
      ensures credits == Ledger.Bumped(old(credits), u)
    {
      if u in credits {
        credits := credits[u := credits[u] + 1];
      }
    }

    /** `select('id').eq('payment_ref', ref).limit(1).maybeSingle()` is non-null. */
    method HasPayment(ref: string) returns (found: bool)
      ensures found <==> HasRef(payments, ref)
    {
      var i := 0;
      while i < |payments|
        invariant 0 <= i <= |payments|
        invariant forall j :: 0 <= j < i ==> payments[j].paymentRef != Some(ref)
      {
        if payments[i].paymentRef == Some(ref) {
          return true;
        }
        i := i + 1;
      }
      found := false;
    }

    method InsertPayment(p: Payment)
      modifies this`payments
      ensures payments == old(payments) + [p]
    {
      payments := payments + [p];
    }

    /** Mark every row with reference `ref` failed with `msg`; other rows are untouched. */
    method MarkPaymentsFailed(ref: string, msg: string)
      modifies this`payments
      ensures payments == MarkedFailed(old(payments), ref, msg)
    {
      payments := MarkedFailed(payments, ref, msg);
    }

    /** Whether a `referrals` row has invitee `u`. */
    method HasReferralFor(u: int) returns (found: bool)
      ensures found <==> exists i :: 0 <= i < |referrals| && referrals[i].inviteeId == u
    {
      var i := 0;
      while i < |referrals|
        invariant 0 <= i <= |referrals|
        invariant forall j :: 0 <= j < i ==> referrals[j].inviteeId != u
      {
        if referrals[i].inviteeId == u {
          return true;
        }
        i := i + 1;
      }
      found := false;
    }

    method InsertReferral(r: Referral)
      modifies this`referrals
      ensures referrals == old(referrals) + [r]
    {
      referrals := referrals + [r];
    }

    /** Whether an `admins` row has user `u` (and, when `superOnly`, role `super_admin`). */
    method HasAdminRow(u: int, superOnly: bool) returns (found: bool)
      ensures found <==> exists i :: 0 <= i < |admins| && admins[i].userId == u
                                     && (superOnly ==> admins[i].role == "super_admin")
    {
      var i := 0;
      while i < |admins|
        invariant 0 <= i <= |admins|
        invariant forall j :: 0 <= j < i ==>
          !(admins[j].userId == u && (superOnly ==> admins[j].role == "super_admin"))
      {
        if admins[i].userId == u && (!superOnly || admins[i].role == "super_admin") {
          return true;
        }
        i := i + 1;
      }
      found := false;
    }

    /**
     * `isAdmin(userId)`: false for a falsy id; true when `String(userId)` is
     * whitelisted, without a lookup; otherwise true iff an `admins` row exists
     * and the lookup did not fail.
     */
    method IsAdmin(whitelist: seq<string>, u: Num, lookupFailed: bool) returns (r: bool)
      ensures !(u.Int? && u.i != 0) ==> !r
      ensures u.Int? && u.i != 0 && IntToString(u.i) in whitelist ==> r
      ensures u.Int? && u.i != 0 && IntToString(u.i) !in whitelist ==>
        (r <==> !lookupFailed && exists i :: 0 <= i < |admins| && admins[i].userId == u.i)
    {
      if !(u.Int? && u.i != 0) {
        return false;
      }
      if IntToString(u.i) in whitelist {
        return true;
      }
      if lookupFailed {
        return false;
      }
      r := HasAdminRow(u.i, false);
    }

    /** `isSuperAdmin(userId)`: the whitelist plays no part; a `super_admin` row is required. */
    method IsSuperAdmin(u: Num, lookupFailed: bool) returns (r: bool)
      ensures r <==> u.Int? && u.i != 0 && !lookupFailed
                     && exists i :: 0 <= i < |admins| && admins[i].userId == u.i && admins[i].role == "super_admin"
    {
      if !(u.Int? && u.i != 0) || lookupFailed {
        return false;
      }
      r := HasAdminRow(u.i, true);
    }
  }
}
