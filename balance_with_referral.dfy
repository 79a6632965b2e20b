/**
 * The balance query of api/balance-with-referral.js: a GET with the signed
 * initData in the query, admitted by module QueryGate. The caller gets the
 * welcome credit if new; a `startParam` of the form `ref_<inviter>` then
 * records the caller as invited by `<inviter>` once, and gives the inviter
 * one credit.
 */
module BalanceWithReferral {
  import opened Basics
  import opened Strings
  import opened Json
  import opened Http
  import opened InitData
  import opened Ledger
  import Store
  import opened QueryGate

  // ---------------------------------------------------------------------
  // The referral

  /**
   * Lines 57-60: the inviter a start parameter names. It must start with
   * `ref_`; the rest is read by `parseInt`, and `NaN`, 0 and the caller's
   * own id name nobody.
   */
  function InviterOf(startParam: Option<string>, u: int): (r: Option<int>)
    ensures r.Some? ==> r.value != 0 && r.value != u
    ensures r.Some? <==> startParam.Some? && StartsWith(startParam.value, "ref_") && NamesOther(ParseInt(startParam.value[4..]), u)
    ensures r.Some? ==> ParseInt(startParam.value[4..]) == r
  {
    if startParam.GetOr("") != "" && StartsWith(startParam.value, "ref_") then
      var rest := ReplaceFirst(startParam.value, "ref_", "");
      assert rest == startParam.value[4..];
      var i := ParseInt(rest);
      if NamesOther(i, u) then i else None
    else
      assert startParam.Some? ==> !StartsWith(startParam.value, "ref_");
      None
  }

  /** `inviterId && inviterId !== userId`: a number other than 0 and other than the caller. */
  predicate NamesOther(i: Option<int>, u: int)
  {
    i.Some? && i.value != 0 && i.value != u
  }

  /** The link `ref_<inviter>` that api/referral-link.js hands out names its inviter for every other user. */
  lemma InviterOfLink(inviter: int, u: int)
    requires inviter != 0 && inviter != u
    ensures InviterOf(Some("ref_" + IntToString(inviter)), u) == Some(inviter)
  {
    var sp := "ref_" + IntToString(inviter);
    assert sp[4..] == IntToString(inviter);
    ParseIntOfIntToString(inviter);
  }

  /** Whether a `referrals` row has invitee `u`. */
  predicate HasInvitee(refs: seq<Store.Referral>, u: int)
  {
    exists i :: 0 <= i < |refs| && refs[i].inviteeId == u
  }

  /** No two `referrals` rows share an invitee. */
  predicate UniqueInvitees(refs: seq<Store.Referral>)
  {
    forall i, j :: 0 <= i < j < |refs| ==> refs[i].inviteeId != refs[j].inviteeId
  }

  /** The two tables the handler writes. */
  datatype Rows = Rows(credits: Table, referrals: seq<Store.Referral>)

  /**
   * Lines 60-110 for caller `u`: when an inviter is named and no row has
   * `u` as invitee, the row is inserted, even for an inviter with no
   * account, and the inviter's account, if it exists, gets one credit.
   */
  function Refer(rows: Rows, u: int, inviter: Option<int>): (r: Rows)
    ensures inviter.None? || HasInvitee(rows.referrals, u) ==> r == rows
    ensures inviter.Some? && !HasInvitee(rows.referrals, u) ==>
      r.referrals == rows.referrals + [Store.Referral(inviter.value, u)] && r.credits == Bumped(rows.credits, inviter.value)
  {
    if inviter.Some? && !HasInvitee(rows.referrals, u) then
      Rows(Bumped(rows.credits, inviter.value), rows.referrals + [Store.Referral(inviter.value, u)])
    else rows
  }

  /** Referring keeps every invitee in at most one row. */
  lemma ReferKeepsUniqueInvitees(rows: Rows, u: int, inviter: Option<int>)
    requires UniqueInvitees(rows.referrals)
    ensures UniqueInvitees(Refer(rows, u, inviter).referrals)
  {
    var r := Refer(rows, u, inviter);
    if inviter.Some? && !HasInvitee(rows.referrals, u) {
      forall i, j | 0 <= i < j < |r.referrals|
        ensures r.referrals[i].inviteeId != r.referrals[j].inviteeId
      {
        if j == |rows.referrals| {
          assert r.referrals[i] == rows.referrals[i];
        }
      }
    }
  }

  /** Once `u` is recorded as invitee, no later referral of `u` changes anything: an inviter is paid once per invitee. */
  lemma ReferAtMostOnce(rows: Rows, u: int, first: int, later: Option<int>)
    ensures var r := Refer(rows, u, Some(first));
      HasInvitee(r.referrals, u) && Refer(r, u, later) == r
  {
    var r := Refer(rows, u, Some(first));
    if !HasInvitee(rows.referrals, u) {
      assert r.referrals[|rows.referrals|].inviteeId == u;
    }
  }

  /** A referral changes the inviter's balance by at most one, and nobody else's. */
  lemma ReferPaysOnlyInviter(rows: Rows, u: int, inviter: Option<int>, v: int)
    requires inviter.None? || v != inviter.value
    ensures Balance(Refer(rows, u, inviter).credits, v) == Balance(rows.credits, v)
  {
  }

  // ---------------------------------------------------------------------
  // The catch block (a finding: `userId` is out of its scope)

  // `FailureReply` and the two scopes are module QueryGate's: the catch
  // block of lines 120-126 is the one the three query handlers share.

  /** As written, a failed welcome insert leaves the client without any answer. */
  lemma FailureUnansweredAsWritten(message: string)
    ensures FailureReply(CatchScopeAsWritten, message) == Unhandled
  {
  }

  /** With `userId` in scope the failure is answered 500 with its message. */
  lemma FailureAnsweredIntended(message: string)
    ensures FailureReply(CatchScopeIntended, message) == Sent(InternalError(message))
  {
  }

  // ---------------------------------------------------------------------
  // After the gate

  /** Lines 114-118: `{success: true, credits, userId}`. */
  function BalanceReply(credits: nat, u: int): (r: Response)
    ensures r.status == 200 && r.body.Some? && r.body.value.JObject?
    ensures Lookup(r.body.value.members, "credits") == Some(JNumber(credits))
    ensures Lookup(r.body.value.members, "userId") == Some(JNumber(u))
  {
    var ms := [("success", JBool(true)), ("credits", JNumber(credits)), ("userId", JNumber(u))];
    assert Lookup(ms[2..], "userId") == Some(JNumber(u));
    JsonResponse(200, JObject(ms))
  }

  /** The new tables and what the client sees. */
  datatype Outcome = Outcome(rows: Rows, reply: Reply)

  /** The `TypeError` of `startParam.startsWith('ref_')` when `startParam` is an array. */
  const StartsWithError: string := "startParam.startsWith is not a function"

  /**
   * Lines 53-126 for the admitted user `u`: the welcome grant (whose insert
   * may fail with `welcomeFault`, which throws into the catch block, where
   * the reference to `userId` throws again and nothing is sent), then the
   * referral named by `startParam`, then the balance the welcome grant
   * returned. A repeated `startParam` is an array, whose missing
   * `startsWith` throws into the same catch block after the welcome grant.
   */
  function Serve(rows: Rows, u: int, startParam: Option<QueryValue>, welcomeFault: Option<string>): (o: Outcome)
  {
    if u !in rows.credits && welcomeFault.Some? then
      Outcome(rows, FailureReply(CatchScopeAsWritten, "Failed to create user: " + welcomeFault.value))
    else
      var w := WithWelcome(rows.credits, u);
      if Repeated(startParam) then
        Outcome(Rows(w, rows.referrals), FailureReply(CatchScopeAsWritten, StartsWithError))
      else
        Outcome(Refer(Rows(w, rows.referrals), u, InviterOf(SingleText(startParam), u)), Sent(BalanceReply(w[u], u)))
  }

  /** Whether `startParam` was given more than once. */
  predicate Repeated(startParam: Option<QueryValue>)
  {
    startParam.Some? && startParam.value.Many?
  }

  /** A failed welcome insert changes neither table, and, as the catch block is written, the client gets no answer. */
  lemma WelcomeFailureChangesNothing(rows: Rows, u: int, startParam: Option<QueryValue>, message: string)
    requires u !in rows.credits
    ensures Serve(rows, u, startParam, Some(message)) == Outcome(rows, Unhandled)
  {
  }

  /**
   * Once the welcome grant succeeds, the caller's balance is their old one
   * (3 for a new caller) after every write of the request, since the
   * referral never touches the caller's account; that balance is what the
   * answer reports, except that a repeated `startParam` leaves the client
   * without an answer.
   */
  lemma ReportsCallerBalance(rows: Rows, u: int, startParam: Option<QueryValue>, welcomeFault: Option<string>)
    requires u in rows.credits || welcomeFault.None?
    ensures var o := Serve(rows, u, startParam, welcomeFault);
      && Balance(o.rows.credits, u) == (if u in rows.credits then rows.credits[u] else WelcomeCredits)
      && o.reply == (if Repeated(startParam) then Unhandled else Sent(BalanceReply(Balance(o.rows.credits, u), u)))
  {
    var w := WithWelcome(rows.credits, u);
    ReferPaysOnlyInviter(Rows(w, rows.referrals), u, InviterOf(SingleText(startParam), u), u);
  }

  /**
   * A repeated `startParam`: the welcome grant stands, nobody is referred,
   * and, as the catch block is written, the client gets no answer.
   */
  lemma RepeatedStartParamUnanswered(rows: Rows, u: int, items: seq<string>, welcomeFault: Option<string>)
    requires u in rows.credits || welcomeFault.None?
    ensures Serve(rows, u, Some(Many(items)), welcomeFault) == Outcome(Rows(WithWelcome(rows.credits, u), rows.referrals), Unhandled)
  {
  }

  /** No request ever puts a second row for one invitee into `referrals`. */
  lemma ServeKeepsUniqueInvitees(rows: Rows, u: int, startParam: Option<QueryValue>, welcomeFault: Option<string>)
    requires UniqueInvitees(rows.referrals)
    ensures UniqueInvitees(Serve(rows, u, startParam, welcomeFault).rows.referrals)
  {
    if !(u !in rows.credits && welcomeFault.Some?) && !Repeated(startParam) {
      ReferKeepsUniqueInvitees(Rows(WithWelcome(rows.credits, u), rows.referrals), u, InviterOf(SingleText(startParam), u));
    }
  }

  /**
   * A caller who already has an account and a referral row changes nothing,
   * whatever start parameter they bring: the inviter bonus is paid at most
   * once per invitee.
   */
  lemma ReferredCallerChangesNothing(rows: Rows, u: int, startParam: Option<QueryValue>, welcomeFault: Option<string>)
    requires u in rows.credits && HasInvitee(rows.referrals, u)
    ensures Serve(rows, u, startParam, welcomeFault).rows == rows
  {
  }

  /** A request naming an inviter records the caller as invitee, so the previous lemma covers every later request. */
  lemma ReferralRecordsCaller(rows: Rows, u: int, startParam: Option<string>)
    requires InviterOf(startParam, u).Some?
    ensures var o := Serve(rows, u, Single(startParam), None);
      u in o.rows.credits && HasInvitee(o.rows.referrals, u)
  {
    var w := WithWelcome(rows.credits, u);
    var sp := Single(startParam);
    assert !Repeated(sp) && SingleText(sp) == startParam;
    ReferAtMostOnce(Rows(w, rows.referrals), u, InviterOf(startParam, u).value, None);
    assert Serve(rows, u, sp, None).rows == Refer(Rows(w, rows.referrals), u, InviterOf(startParam, u));
  }

  /** An existing user is still referred by their first `ref_` link: the welcome grant plays no part. */
  lemma ExistingUserCanBeReferred(rows: Rows, u: int, startParam: Option<string>, welcomeFault: Option<string>)
    requires u in rows.credits && !HasInvitee(rows.referrals, u) && InviterOf(startParam, u).Some?
    ensures Serve(rows, u, Single(startParam), welcomeFault).rows.referrals
            == rows.referrals + [Store.Referral(InviterOf(startParam, u).value, u)]
  {
  }

  /** Lines 53-126 on the store: the steps of `Serve`, one table call at a time. */
  method ServeStep(store: Store.Store, u: int, startParam: Option<QueryValue>, welcomeFault: Option<string>)
    returns (reply: Reply)
    modifies store`credits, store`referrals
    ensures Rows(store.credits, store.referrals)
            == Serve(Rows(old(store.credits), old(store.referrals)), u, startParam, welcomeFault).rows
    ensures reply == Serve(Rows(old(store.credits), old(store.referrals)), u, startParam, welcomeFault).reply
  {
    var credits := store.EnsureUserWithWelcomeCredit(u, welcomeFault);
    if credits.Err? {
      return FailureReply(CatchScopeAsWritten, credits.error);
    }
    if Repeated(startParam) {
      return FailureReply(CatchScopeAsWritten, StartsWithError);
    }
    ghost var w := store.credits;
    var inviter := InviterOf(SingleText(startParam), u);
    if inviter.Some? {
      var existing := store.HasReferralFor(u);
      if !existing {
        store.InsertReferral(Store.Referral(inviter.value, u));
        store.AddOneIfPresent(inviter.value);
      }
    }
    assert Rows(store.credits, store.referrals) == Refer(Rows(w, old(store.referrals)), u, inviter);
    reply := Sent(BalanceReply(credits.value, u));
  }

  /** The handler: a request that is not admitted gets `EarlyReply` (no answer for a repeated `initData`) and changes nothing. */
  method Handle(store: Store.Store, req: Request, env: Env, mac: Mac, parse: JsonParser, welcomeFault: Option<string>)
    returns (reply: Reply)
    modifies store`credits, store`referrals
    ensures Admitted(req, env, mac, parse).None? ==>
      reply == EarlyReply(req, env, mac, parse)
      && store.credits == old(store.credits) && store.referrals == old(store.referrals)
    ensures Admitted(req, env, mac, parse).Some? ==>
      var o := Serve(Rows(old(store.credits), old(store.referrals)), Admitted(req, env, mac, parse).value,
                     QueryParam(req, "startParam"), welcomeFault);
      Rows(store.credits, store.referrals) == o.rows && reply == o.reply
  {
    var admitted := Admitted(req, env, mac, parse);
    if admitted.None? {
      return EarlyReply(req, env, mac, parse);
    }
    reply := ServeStep(store, admitted.value, QueryParam(req, "startParam"), welcomeFault);
  }
}
