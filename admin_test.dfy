/**
 * The admin probe of api/admin-test.js. In production it is hidden unless
 * `ENABLE_ADMIN_TEST` is `'true'`. After the gate of module QueryGate the
 * caller must be an admin; the answer describes the caller's role, and a
 * super admin also gets table statistics and the five latest payments.
 */
module AdminTest {
  import opened Basics
  import opened Strings
  import opened Json
  import opened Http
  import opened InitData
  import opened QueryGate
  import Ledger
  import Store

  const NotFound: Response := PlainError(404, "Not found")
  const AdminRequired: Response := PlainError(403, "Admin access required")
  const StatsErrorText: string := "Failed to retrieve system statistics"

  /** Line 6: in production the endpoint answers 404 unless it is enabled explicitly. */
  predicate Hidden(env: Env)
  {
    EnvVar(env, "NODE_ENV") == Some("production") && EnvVar(env, "ENABLE_ADMIN_TEST") != Some("true")
  }

  // ---------------------------------------------------------------------
  // Roles

  /** Whether an `admins` row has user `u` (and, when `superOnly`, role `super_admin`). */
  predicate HasAdminRow(admins: seq<Store.Admin>, u: int, superOnly: bool)
  {
    exists i :: 0 <= i < |admins| && admins[i].userId == u && (superOnly ==> admins[i].role == "super_admin")
  }

  /** `isAdmin(u)` for a truthy id: whitelisted, or a row found by a lookup that did not fail. */
  predicate AdminBy(admins: seq<Store.Admin>, whitelist: seq<string>, u: int, lookupFailed: bool)
  {
    IntToString(u) in whitelist || (!lookupFailed && HasAdminRow(admins, u, false))
  }

  /** `isSuperAdmin(u)` for a truthy id: a `super_admin` row found by a lookup that did not fail. */
  predicate SuperAdminBy(admins: seq<Store.Admin>, u: int, lookupFailed: bool)
  {
    !lookupFailed && HasAdminRow(admins, u, true)
  }

  /** When both lookups succeed, a super admin is an admin; only a failed admin lookup can turn a super admin away. */
  lemma SuperAdminIsAdmin(admins: seq<Store.Admin>, whitelist: seq<string>, u: int)
    requires SuperAdminBy(admins, u, false)
    ensures AdminBy(admins, whitelist, u, false)
  {
    var i :| 0 <= i < |admins| && admins[i].userId == u && admins[i].role == "super_admin";
    assert admins[i].userId == u;
  }

  // ---------------------------------------------------------------------
  // The report

  datatype Features = Features(
    canAccessAdminPanel: bool, canViewSystemLogs: bool, canManageUsers: bool, canModifySystemSettings: bool)

  datatype Stats = Stats(totalUsers: nat, totalPayments: nat, totalReferrals: nat)

  /** The selected columns of a `payments` row. */
  datatype PaymentView = PaymentView(userId: int, xtrAmount: nat, creditsAdded: nat, paidAt: int)

  /** `testInfo` without its `timestamp`. */
  datatype TestInfo = TestInfo(
    environment: string, isAdmin: bool, isSuperAdmin: bool, userId: int, features: Features,
    systemStats: Option<Stats>, recentPayments: Option<seq<PaymentView>>, systemStatsError: Option<string>)

  /** Lines 71-76: the admin panel is open to every admin, the rest to super admins only. */
  function FeaturesFor(isSuper: bool): (f: Features)
    ensures f.canAccessAdminPanel
    ensures f.canViewSystemLogs == isSuper && f.canManageUsers == isSuper && f.canModifySystemSettings == isSuper
  {
    Features(true, isSuper, isSuper, isSuper)
  }

  function View(p: Store.Payment): PaymentView
  {
    PaymentView(p.userId, p.xtrAmount, p.creditsAdded, p.paidAt)
  }

  function Views(ps: seq<Store.Payment>): (vs: seq<PaymentView>)
    ensures |vs| == |ps| && forall i :: 0 <= i < |ps| ==> vs[i] == View(ps[i])
  {
    seq(|ps|, i requires 0 <= i < |ps| => View(ps[i]))
  }

  /** The position of the first row with the latest `paidAt`. */
  function LatestIndex(vs: seq<PaymentView>): (k: nat)
    requires vs != []
    ensures k < |vs|
  {
    if |vs| == 1 then 0
    else
      var k := LatestIndex(vs[..|vs| - 1]);
      if vs[|vs| - 1].paidAt > vs[k].paidAt then |vs| - 1 else k
  }

  /** No row is later than the one `LatestIndex` picks. */
  lemma {:induction false} LatestIsLatest(vs: seq<PaymentView>)
    requires vs != []
    ensures NoLaterThan(vs, vs[LatestIndex(vs)].paidAt)
    decreases |vs|
  {
    if |vs| > 1 {
      var front := vs[..|vs| - 1];
      LatestIsLatest(front);
      var k := LatestIndex(front);
      assert vs[k] == front[k];
      forall j | 0 <= j < |vs| ensures vs[j].paidAt <= vs[LatestIndex(vs)].paidAt {
        if j < |vs| - 1 { assert vs[j] == front[j]; }
      }
    }
  }

  /**
   * `.order('paid_at', {ascending: false}).limit(n)`: the latest `n` rows,
   * latest first. Rows with equal `paidAt` come in table order here; the
   * database may order such ties either way, and every property below holds
   * for any tie order.
   */
  function TopByPaidAt(vs: seq<PaymentView>, n: nat): (r: seq<PaymentView>)
    ensures |r| == (if n < |vs| then n else |vs|)
    decreases n
  {
    if n == 0 || vs == [] then []
    else
      var k := LatestIndex(vs);
      [vs[k]] + TopByPaidAt(Without(vs, k), n - 1)
  }

  /** The rows shown are rows of the table, and all of them when `n` covers the table. */
  lemma {:induction false} TopDrawn(vs: seq<PaymentView>, n: nat)
    ensures multiset(TopByPaidAt(vs, n)) <= multiset(vs)
    ensures n >= |vs| ==> multiset(TopByPaidAt(vs, n)) == multiset(vs)
    decreases n
  {
    if n == 0 || vs == [] {
      assert TopByPaidAt(vs, n) == [];
      assert n >= |vs| ==> vs == [];
    } else {
      var k := LatestIndex(vs);
      var rest := Without(vs, k);
      var tail := TopByPaidAt(rest, n - 1);
      TopDrawn(rest, n - 1);
      WithoutMultiset(vs, k);
      DrawnStep(vs[k], tail, rest, vs, TopByPaidAt(vs, n), n >= |vs|);
    }
  }

  /** The multiset step of `TopDrawn`. */
  lemma DrawnStep(x: PaymentView, tail: seq<PaymentView>, rest: seq<PaymentView>, vs: seq<PaymentView>, r: seq<PaymentView>, covers: bool)
    requires r == [x] + tail && multiset(vs) == multiset(rest) + multiset{x}
    requires multiset(tail) <= multiset(rest)
    requires covers ==> multiset(tail) == multiset(rest)
    ensures multiset(r) <= multiset(vs)
    ensures covers ==> multiset(r) == multiset(vs)
  {
    assert multiset(r) == multiset{x} + multiset(tail);
  }

  /** `vs` without the row at `k`. */
  function Without(vs: seq<PaymentView>, k: nat): (rest: seq<PaymentView>)
    requires k < |vs|
    ensures |rest| == |vs| - 1
  {
    vs[..k] + vs[k + 1..]
  }

  /** Removing the row at `k` removes one copy of it and nothing else. */
  lemma WithoutMultiset(vs: seq<PaymentView>, k: nat)
    requires k < |vs|
    ensures multiset(vs) == multiset(Without(vs, k)) + multiset{vs[k]}
  {
    assert vs == vs[..k] + [vs[k]] + vs[k + 1..];
  }

  /** Where a row other than the `k`th sits once that one is removed. */
  lemma WithoutIndex(vs: seq<PaymentView>, k: nat, j: nat)
    requires k < |vs| && j < |vs| && j != k
    ensures (if j < k then j else j - 1) < |vs| - 1
    ensures Without(vs, k)[if j < k then j else j - 1] == vs[j]
  {
  }

  /** Each row is at least as late as the next. */
  predicate LatestFirst(r: seq<PaymentView>)
  {
    forall i :: 0 <= i < |r| - 1 ==> r[i].paidAt >= r[i + 1].paidAt
  }

  /** Every row of `vs` later than the last row of `r` is in `r`. */
  predicate KeepsLater(vs: seq<PaymentView>, r: seq<PaymentView>)
  {
    forall j :: 0 <= j < |vs| && r != [] && vs[j].paidAt > r[|r| - 1].paidAt ==> vs[j] in multiset(r)
  }

  /** Every row of `s` was paid no later than `bound`. */
  predicate NoLaterThan(s: seq<PaymentView>, bound: int)
  {
    forall i :: 0 <= i < |s| ==> s[i].paidAt <= bound
  }

  /** Removing a row keeps a bound on the rows. */
  lemma WithoutNoLater(vs: seq<PaymentView>, k: nat, bound: int)
    requires k < |vs| && NoLaterThan(vs, bound)
    ensures NoLaterThan(Without(vs, k), bound)
  {
    var rest := Without(vs, k);
    forall i | 0 <= i < |rest| ensures rest[i].paidAt <= bound {
      WithoutIndex(vs, k, if i < k then i else i + 1);
    }
  }

  /** A bound on the table's rows bounds the rows shown. */
  lemma {:induction false} TopNoLater(vs: seq<PaymentView>, n: nat, bound: int)
    requires NoLaterThan(vs, bound)
    ensures NoLaterThan(TopByPaidAt(vs, n), bound)
    decreases n
  {
    if n > 0 && vs != [] {
      var k := LatestIndex(vs);
      var rest := Without(vs, k);
      var tail := TopByPaidAt(rest, n - 1);
      WithoutNoLater(vs, k, bound);
      TopNoLater(rest, n - 1, bound);
      var r := [vs[k]] + tail;
      assert TopByPaidAt(vs, n) == r;
      forall i | 0 <= i < |r| ensures r[i].paidAt <= bound {
        if i > 0 { assert r[i] == tail[i - 1]; }
      }
    }
  }

  /** A row no earlier than every row of a sorted tail can head it. */
  lemma ConsLatestFirst(x: PaymentView, tail: seq<PaymentView>)
    requires LatestFirst(tail) && NoLaterThan(tail, x.paidAt)
    ensures LatestFirst([x] + tail)
  {
    var r := [x] + tail;
    forall i | 0 <= i < |r| - 1 ensures r[i].paidAt >= r[i + 1].paidAt {
      if i == 0 {
        assert r[1] == tail[0];
      } else {
        assert r[i] == tail[i - 1] && r[i + 1] == tail[i];
      }
    }
  }

  /** The rows come latest first. */
  lemma {:induction false} TopSorted(vs: seq<PaymentView>, n: nat)
    ensures LatestFirst(TopByPaidAt(vs, n))
    decreases n
  {
    if n > 0 && vs != [] {
      var k := LatestIndex(vs);
      var rest := Without(vs, k);
      var tail := TopByPaidAt(rest, n - 1);
      TopSorted(rest, n - 1);
      LatestIsLatest(vs);
      WithoutNoLater(vs, k, vs[k].paidAt);
      TopNoLater(rest, n - 1, vs[k].paidAt);
      ConsLatestFirst(vs[k], tail);
      assert TopByPaidAt(vs, n) == [vs[k]] + tail;
    }
  }

  /** One step of the selection: the latest row, then the top of the rest. */
  lemma TopUnfold(vs: seq<PaymentView>, n: nat)
    requires n > 0 && vs != []
    ensures TopByPaidAt(vs, n) == [vs[LatestIndex(vs)]] + TopByPaidAt(Without(vs, LatestIndex(vs)), n - 1)
  {
  }

  /** Putting the latest row in front of a selection that keeps later rows of the rest keeps later rows of the whole. */
  lemma ConsKeepsLater(vs: seq<PaymentView>, k: nat, rest: seq<PaymentView>, tail: seq<PaymentView>, r: seq<PaymentView>)
    requires vs != [] && k == LatestIndex(vs) && rest == Without(vs, k)
    requires KeepsLater(rest, tail) && r == [vs[k]] + tail
    ensures KeepsLater(vs, r)
  {
    LatestIsLatest(vs);
    assert multiset(r) == multiset{vs[k]} + multiset(tail);
    forall j | 0 <= j < |vs| && vs[j].paidAt > r[|r| - 1].paidAt ensures vs[j] in multiset(r) {
      if j != k {
        assert tail != [] && r[|r| - 1] == tail[|tail| - 1];
        WithoutIndex(vs, k, j);
        assert vs[j] in multiset(tail);
      }
    }
  }

  /** No row later than the last one shown is left out. */
  lemma {:induction false} TopKeepsLater(vs: seq<PaymentView>, n: nat)
    ensures KeepsLater(vs, TopByPaidAt(vs, n))
    decreases n, 1
  {
    if n == 0 || vs == [] {
      NothingToKeep(vs, TopByPaidAt(vs, n));
    } else {
      StepKeepsLater(vs, n);
    }
  }

  /** An empty selection keeps later rows vacuously. */
  lemma NothingToKeep(vs: seq<PaymentView>, r: seq<PaymentView>)
    requires r == []
    ensures KeepsLater(vs, r)
  {
  }

  /** One step of the induction: the latest row, then the selection from the rest. */
  lemma {:induction false} StepKeepsLater(vs: seq<PaymentView>, n: nat)
    requires n > 0 && vs != []
    ensures KeepsLater(vs, TopByPaidAt(vs, n))
    decreases n, 0
  {
    var k := LatestIndex(vs);
    var rest := Without(vs, k);
    var tail := TopByPaidAt(rest, n - 1);
    TopKeepsLater(rest, n - 1);
    TopUnfold(vs, n);
    ConsKeepsLater(vs, k, rest, tail, TopByPaidAt(vs, n));
  }

  /** `count || 0`: a count query that reports an error yields null. */
  function Count(size: nat, failed: bool): nat
  {
    if failed then 0 else size
  }

  /**
   * Lines 65-116: the report for admin `u`. The four statistics queries are
   * numbered 0 to 3 (`user_credits`, `payments`, `referrals`, then the
   * latest payments); `failedQueries` are those that report an error, and
   * `throwAt`, when set, is the query whose `await` throws. A throw before
   * query 3 leaves out the statistics; one at query 3 keeps the statistics
   * already stored; either way the error text is attached.
   */
  function TestInfoFor(credits: Ledger.Table, payments: seq<Store.Payment>, referrals: seq<Store.Referral>,
                       env: Env, u: int, isSuper: bool, failedQueries: set<nat>, throwAt: Option<nat>): (r: TestInfo)
    ensures r.isAdmin && r.isSuperAdmin == isSuper && r.userId == u && r.features == FeaturesFor(isSuper)
    ensures r.environment == EnvOr(env, "NODE_ENV", "development")
    ensures r.systemStats.Some? <==> isSuper && (throwAt.None? || throwAt.value >= 3)
    ensures r.recentPayments.Some? <==> isSuper && throwAt.None?
    ensures r.systemStatsError.Some? <==> isSuper && throwAt.Some?
    ensures r.systemStats.Some? && 0 !in failedQueries ==> r.systemStats.value.totalUsers == |credits|
    ensures r.recentPayments.Some? && 3 !in failedQueries ==>
      r.recentPayments.value == TopByPaidAt(Views(payments), 5)
  {
    var info := TestInfo(EnvOr(env, "NODE_ENV", "development"), true, isSuper, u, FeaturesFor(isSuper), None, None, None);
    if !isSuper then info
    else if throwAt.Some? && throwAt.value < 3 then info.(systemStatsError := Some(StatsErrorText))
    else
      var stats := Stats(Count(|credits|, 0 in failedQueries), Count(|payments|, 1 in failedQueries),
                         Count(|referrals|, 2 in failedQueries));
      if throwAt.Some? then info.(systemStats := Some(stats), systemStatsError := Some(StatsErrorText))
      else
        var recent := if 3 in failedQueries then [] else TopByPaidAt(Views(payments), 5);
        info.(systemStats := Some(stats), recentPayments := Some(recent))
  }

  /** The five latest payments a super admin sees are the latest ones, latest first. */
  lemma LatestPaymentsShown(payments: seq<Store.Payment>)
    ensures var r := TopByPaidAt(Views(payments), 5);
      && |r| == (if |payments| < 5 then |payments| else 5)
      && LatestFirst(r)
      && multiset(r) <= multiset(Views(payments))
      && (forall j :: 0 <= j < |payments| && r != [] && payments[j].paidAt > r[|r| - 1].paidAt ==> View(payments[j]) in r)
  {
    var vs := Views(payments);
    var r := TopByPaidAt(vs, 5);
    TopSorted(vs, 5);
    TopDrawn(vs, 5);
    TopKeepsLater(vs, 5);
    forall j | 0 <= j < |payments| && r != [] && payments[j].paidAt > r[|r| - 1].paidAt
      ensures View(payments[j]) in r
    {
      assert vs[j] == View(payments[j]);
    }
  }

  /** Lines 65-116 as the handler runs them: `testInfo` is built, then extended for a super admin. */
  method BuildTestInfo(store: Store.Store, env: Env, u: int, isSuper: bool, failedQueries: set<nat>,
                       throwAt: Option<nat>)
    returns (info: TestInfo)
    ensures info == TestInfoFor(store.credits, store.payments, store.referrals, env, u, isSuper, failedQueries, throwAt)
  {
    info := TestInfo(EnvOr(env, "NODE_ENV", "development"), true, isSuper, u, FeaturesFor(isSuper), None, None, None);
    if isSuper {
      if throwAt.Some? && throwAt.value < 3 {
        info := info.(systemStatsError := Some(StatsErrorText));
        return;
      }
      info := info.(systemStats := Some(Stats(Count(|store.credits|, 0 in failedQueries),
                                              Count(|store.payments|, 1 in failedQueries),
                                              Count(|store.referrals|, 2 in failedQueries))));
      if throwAt.Some? {
        info := info.(systemStatsError := Some(StatsErrorText));
        return;
      }
      var recent := if 3 in failedQueries then [] else TopByPaidAt(Views(store.payments), 5);
      info := info.(recentPayments := Some(recent));
    }
  }

  // ---------------------------------------------------------------------
  // The answer

  function FeaturesJson(f: Features): Json
  {
    JObject([("canAccessAdminPanel", JBool(f.canAccessAdminPanel)), ("canViewSystemLogs", JBool(f.canViewSystemLogs)),
             ("canManageUsers", JBool(f.canManageUsers)), ("canModifySystemSettings", JBool(f.canModifySystemSettings))])
  }

  function StatsJson(s: Stats): Json
  {
    JObject([("totalUsers", JNumber(s.totalUsers)), ("totalPayments", JNumber(s.totalPayments)),
             ("totalReferrals", JNumber(s.totalReferrals))])
  }

  function PaymentJson(p: PaymentView): Json
  {
    JObject([("telegram_user_id", JNumber(p.userId)), ("xtr_amount", JNumber(p.xtrAmount)),
             ("credits_added", JNumber(p.creditsAdded)), ("paid_at", JNumber(p.paidAt))])
  }

  /** `testInfo` as JSON: the members added later come after the others, in the order they were set. */
  function InfoJson(info: TestInfo): (j: Json)
    ensures j.JObject? && Lookup(j.members, "features") == Some(FeaturesJson(info.features))
  {
    var base := [("environment", JString(info.environment)), ("isAdmin", JBool(info.isAdmin)),
                 ("isSuperAdmin", JBool(info.isSuperAdmin)), ("userId", JNumber(info.userId)),
                 ("features", FeaturesJson(info.features))];
    var stats := if info.systemStats.Some? then [("systemStats", StatsJson(info.systemStats.value))] else [];
    var recent := if info.recentPayments.Some? then
                    [("recentPayments", JArray(seq(|info.recentPayments.value|,
                                                   i requires 0 <= i < |info.recentPayments.value| =>
                                                     PaymentJson(info.recentPayments.value[i]))))]
                  else [];
    var error := if info.systemStatsError.Some? then [("systemStatsError", JString(info.systemStatsError.value))] else [];
    var ms := base + stats + recent + error;
    assert ms[4] == ("features", FeaturesJson(info.features));
    assert forall j :: 0 <= j < 4 ==> ms[j] == base[j];
    LookupAt(ms, "features", 4);
    JObject(ms)
  }

  /** Lines 130-134. */
  function Granted(info: TestInfo): (r: Response)
    ensures r.status == 200 && r.body.Some? && r.body.value.JObject?
    ensures Lookup(r.body.value.members, "data") == Some(InfoJson(info))
  {
    var ms := [("success", JBool(true)), ("message", JString("Admin test access granted")), ("data", InfoJson(info))];
    assert Lookup(ms[2..], "data") == Some(InfoJson(info));
    JsonResponse(200, JObject(ms))
  }

  /**
   * The handler. The admin lookups of `isAdmin` and `isSuperAdmin` may each
   * fail (`adminLookupFailed`, `superLookupFailed`), which makes them false.
   */
  method Handle(store: Store.Store, req: Request, env: Env, mac: Mac, parse: JsonParser,
                adminLookupFailed: bool, superLookupFailed: bool, failedQueries: set<nat>, throwAt: Option<nat>)
    returns (reply: Reply)
    ensures Hidden(env) ==> reply == Sent(NotFound)
    ensures !Hidden(env) && Admitted(req, env, mac, parse).None? ==> reply == EarlyReply(req, env, mac, parse)
    ensures !Hidden(env) && Admitted(req, env, mac, parse).Some? ==>
      var u := Admitted(req, env, mac, parse).value;
      var whitelist := Store.AdminWhitelist(EnvVar(env, "ADMINS"));
      && (!AdminBy(store.admins, whitelist, u, adminLookupFailed) ==> reply == Sent(AdminRequired))
      && (AdminBy(store.admins, whitelist, u, adminLookupFailed) ==>
            reply == Sent(Granted(TestInfoFor(store.credits, store.payments, store.referrals, env, u,
                                              SuperAdminBy(store.admins, u, superLookupFailed),
                                              failedQueries, throwAt))))
  {
    if Hidden(env) {
      return Sent(NotFound);
    }
    var admitted := Admitted(req, env, mac, parse);
    if admitted.None? {
      return EarlyReply(req, env, mac, parse);
    }
    var response := Serve(store, env, admitted.value, adminLookupFailed, superLookupFailed, failedQueries, throwAt);
    reply := Sent(response);
  }

  /** Lines 56-134 for an admitted user `u`: the two admin lookups, then 403 or the report. */
  method Serve(store: Store.Store, env: Env, u: int, adminLookupFailed: bool, superLookupFailed: bool,
               failedQueries: set<nat>, throwAt: Option<nat>)
    returns (response: Response)
    requires u != 0
    ensures var whitelist := Store.AdminWhitelist(EnvVar(env, "ADMINS"));
      && (!AdminBy(store.admins, whitelist, u, adminLookupFailed) ==> response == AdminRequired)
      && (AdminBy(store.admins, whitelist, u, adminLookupFailed) ==>
            response == Granted(TestInfoFor(store.credits, store.payments, store.referrals, env, u,
                                            SuperAdminBy(store.admins, u, superLookupFailed),
                                            failedQueries, throwAt)))
  {
    var whitelist := Store.AdminWhitelist(EnvVar(env, "ADMINS"));
    var isAdmin := store.IsAdmin(whitelist, Int(u), adminLookupFailed);
    assert isAdmin == AdminBy(store.admins, whitelist, u, adminLookupFailed);
    var isSuper := store.IsSuperAdmin(Int(u), superLookupFailed);
    assert isSuper == SuperAdminBy(store.admins, u, superLookupFailed);
    if !isAdmin {
      return AdminRequired;
    }
    var info := BuildTestInfo(store, env, u, isSuper, failedQueries, throwAt);
    response := Granted(info);
  }

  /** A caller the admin lookup does not find gets 403, even one the super-admin lookup finds. */
  lemma FailedAdminLookupTurnsSuperAdminAway(admins: seq<Store.Admin>, whitelist: seq<string>, u: int)
    requires IntToString(u) !in whitelist && SuperAdminBy(admins, u, false)
    ensures !AdminBy(admins, whitelist, u, true)
  {
  }
}
