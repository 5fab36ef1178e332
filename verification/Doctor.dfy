/** The doctor report: seven checks against whatever configuration, transport and server there is,
    and what a clean exit says about the server. */
module Doctor {
  import opened Options

  datatype Name = Config | Reachable | Tls | Version | Clock | Auth | Audit

  datatype Status = Pass | Warn | Fail | Skip

  datatype Check = Check(name: Name, status: Status)

  const ORDER: seq<Name> := [Config, Reachable, Tls, Version, Clock, Auth, Audit]

  const SECOND: int := 1_000_000_000
  const DAY: int := 86_400 * SECOND
  const CERT_EXPIRY_WARN: int := 30 * DAY

  // ---------------------------------------------------------------------------
  // What the checks meet

  /** GET /api/v1/version. */
  datatype VersionAnswer = NoApi | OldServer | NoBody | Refused | Skewed | Compatible

  /** The TLS inspection; `left` is the time to the leaf's expiry, if a chain was seen. */
  datatype TlsAnswer = BadUrl | Loopback | PlainHttp | HandshakeFails | Unverified | Verified(left: Option<int>)

  /** GET /api/v1/auth/profile: a failed request, 200 (with setup steps pending), 403 that names a
      next step, or any other answer. */
  datatype AuthAnswer = NoAnswer | Accepted(pending: bool) | Blocked(hint: bool) | OtherCode

  datatype AuditAnswer = NoAudit | Forbidden | NotOffered | Valid | NotProven | Broken | BadAnswer

  /** `located`: the credentials file and the token could be read and name a server. `configured`:
      the URL is an http(s) one and the CA file, if any, loads. `client`: a client could be
      built, which fails only on an unusable CA file. `health` is the code of GET /health. */
  datatype Setup = Setup(located: bool, configured: bool, client: bool, health: Option<int>, tls: TlsAnswer,
                         version: VersionAnswer, offset: Option<int>, token: bool, auth: AuthAnswer, audit: AuditAnswer)

  const SKEW_WARN: int := 30 * SECOND
  const SKEW_FAIL: int := 300 * SECOND

  function TlsStatus(t: TlsAnswer, reachable: bool): Status {
    match t
    case BadUrl => Skip
    case Loopback => Skip
    case PlainHttp => Warn
    case HandshakeFails => if reachable then Fail else Skip
    case Unverified => Fail
    case Verified(left) =>
      if left.None? then Pass
      else if left.value <= 0 then Fail
      else if left.value < CERT_EXPIRY_WARN then Warn
      else Pass
  }

  function VersionStatus(v: VersionAnswer): Status {
    match v
    case NoApi => Fail
    case OldServer => Warn
    case NoBody => Fail
    case Refused => Fail
    case Skewed => Warn
    case Compatible => Pass
  }

  function ClockStatus(offset: Option<int>): Status {
    if offset.None? then Skip
    else
      var abs := if offset.value < 0 then -offset.value else offset.value;
      if abs > SKEW_FAIL then Fail else if abs > SKEW_WARN then Warn else Pass
  }

  function AuthStatus(token: bool, a: AuthAnswer): Status {
    if !token then Fail
    else
      match a
      case NoAnswer => Fail
      case Accepted(pending) => if pending then Warn else Pass
      case Blocked(hint) => if hint then Warn else Fail
      case OtherCode => Fail
  }

  function AuditStatus(a: AuditAnswer): Status {
    match a
    case NoAudit => Fail
    case Forbidden => Skip
    case NotOffered => Skip
    case Valid => Pass
    case NotProven => Warn
    case Broken => Fail
    case BadAnswer => Fail
  }

  // ---------------------------------------------------------------------------
  // The report

  function Names(cs: seq<Check>): seq<Name> {
    seq(|cs|, i requires 0 <= i < |cs| => cs[i].name)
  }

  /** The place of a check in the order. */
  function Rank(name: Name): (r: nat)
    ensures r < 7
  {
    match name
    case Config => 0
    case Reachable => 1
    case Tls => 2
    case Version => 3
    case Clock => 4
    case Auth => 5
    case Audit => 6
  }

  /** The checks are the first ones of the order, once each. */
  predicate InOrder(cs: seq<Check>) {
    forall i :: 0 <= i < |cs| ==> Rank(cs[i].name) == i
  }

  lemma OrderRanks(i: nat)
    requires i < 7
    ensures Rank(ORDER[i]) == i
  {
  }

  lemma RankIsOrder(name: Name)
    ensures ORDER[Rank(name)] == name
  {
  }

  lemma InOrderIsOrder(cs: seq<Check>)
    requires InOrder(cs) && |cs| == 7
    ensures Names(cs) == ORDER
  {
    forall i | 0 <= i < 7 ensures Names(cs)[i] == ORDER[i] {
      RankIsOrder(cs[i].name);
    }
  }

  function Count(cs: seq<Check>, st: Status): nat {
    if cs == [] then 0 else Count(cs[..|cs| - 1], st) + if cs[|cs| - 1].status == st then 1 else 0
  }

  lemma CountOne(cs: seq<Check>, c: Check, st: Status)
    ensures Count(cs + [c], st) == Count(cs, st) + if c.status == st then 1 else 0
  {
    assert (cs + [c])[..|cs|] == cs;
  }

  lemma {:induction false} CountsPartition(cs: seq<Check>)
    ensures Count(cs, Pass) + Count(cs, Warn) + Count(cs, Fail) + Count(cs, Skip) == |cs|
    ensures Count(cs, Fail) == 0 <==> forall i :: 0 <= i < |cs| ==> cs[i].status != Fail
  {
    if cs != [] {
      CountsPartition(cs[..|cs| - 1]);
    }
  }

  class Report {
    var checks: seq<Check>
    var passed: nat
    var warnings: nat
    var failed: nat
    var skipped: nat
    var ok: bool

    ghost predicate Valid() reads this {
      && passed == Count(checks, Pass) && warnings == Count(checks, Warn)
      && failed == Count(checks, Fail) && skipped == Count(checks, Skip) && ok == (failed == 0)
    }

    constructor ()
      ensures Valid() && checks == []
    {
      checks, passed, warnings, failed, skipped, ok := [], 0, 0, 0, 0, true;
    }

    method Add(name: Name, status: Status)
      requires Valid()
      modifies this
      ensures Valid() && checks == old(checks) + [Check(name, status)]
    {
      CountOne(checks, Check(name, status), Pass);
      CountOne(checks, Check(name, status), Warn);
      CountOne(checks, Check(name, status), Fail);
      CountOne(checks, Check(name, status), Skip);
      checks := checks + [Check(name, status)];
      match status {
        case Pass => passed := passed + 1;
        case Warn => warnings := warnings + 1;
        case Fail => failed := failed + 1;
        case Skip => skipped := skipped + 1;
      }
      ok := failed == 0;
    }

    /** skipRest: the checks after `after` that are not there yet, as skipped. */
    method SkipRest(after: Name)
      requires Valid() && InOrder(checks) && |checks| == Rank(after) + 1
      modifies this
      ensures Valid() && InOrder(checks) && |checks| == 7 && old(checks) <= checks
      ensures forall i :: Rank(after) < i < 7 ==> checks[i].status == Skip
    {
      var have := set i | 0 <= i < |checks| :: checks[i].name;
      ghost var was, k := checks, Rank(after);
      assert forall name :: name in have ==> Rank(name) <= k;
      var seen := false;
      for i := 0 to 7
        invariant Valid() && InOrder(checks) && was <= checks && seen == (i > k)
        invariant |checks| == if i > k then i else k + 1
        invariant forall j :: k < j < |checks| ==> checks[j].status == Skip
      {
        OrderRanks(i);
        var name := ORDER[i];
        if name == after {
          seen := true;
        } else if seen && name !in have {
          Add(name, Skip);
        }
      }
    }
  }

  /** The status of each check, by what the run met. */
  function StatusOf(s: Setup, name: Name): Status {
    var answered := s.located && s.client && s.health.Some?;
    var api := answered && !s.version.NoApi?;
    var auth := if api then AuthStatus(s.token, s.auth) else Skip;
    match name
    case Config => if s.located && s.configured then Pass else Fail
    case Reachable => if !s.located || !s.client then Skip else if s.health == Some(200) then Pass else Fail
    case Tls => if !s.located || !s.client then Skip else TlsStatus(s.tls, answered)
    case Version => if answered then VersionStatus(s.version) else Skip
    case Clock => if api then ClockStatus(s.offset) else Skip
    case Auth => auth
    case Audit => if auth.Pass? || auth.Warn? then AuditStatus(s.audit) else Skip
  }

  predicate Tells(s: Setup, cs: seq<Check>) {
    forall i :: 0 <= i < |cs| ==> cs[i].status == StatusOf(s, cs[i].name)
  }

  /** collectDoctorReport: for every setup, the seven checks once each in the fixed order, with
      counters that partition them, clean exactly when none failed. */
  method Collect(s: Setup) returns (r: Report)
    ensures r.Valid() && Names(r.checks) == ORDER && Tells(s, r.checks)
    ensures r.passed + r.warnings + r.failed + r.skipped == 7
    ensures r.ok <==> Clean(s)
  {
    r := new Report();
    RunChecks(r, s);
    CountsPartition(r.checks);
    InOrderIsOrder(r.checks);
    CleanReport(s, r.checks);
  }

  lemma CleanReport(s: Setup, cs: seq<Check>)
    requires InOrder(cs) && |cs| == 7 && Tells(s, cs)
    ensures Clean(s) <==> forall i :: 0 <= i < 7 ==> cs[i].status != Fail
  {
    forall name ensures StatusOf(s, name) == cs[Rank(name)].status {
      RankIsOrder(name);
      RankIsOrder(cs[Rank(name)].name);
    }
    assert forall i :: 0 <= i < 7 ==> cs[i].status == StatusOf(s, cs[i].name);
  }

  method RunChecks(r: Report, s: Setup)
    requires r.Valid() && r.checks == []
    modifies r
    ensures r.Valid() && InOrder(r.checks) && Tells(s, r.checks) && |r.checks| == 7
  {
    if !s.located {
      r.Add(Config, Fail);
      r.SkipRest(Config);
      return;
    }
    r.Add(Config, if s.configured then Pass else Fail);
    if s.client {
      Connected(r, s);
    } else {
      r.Add(Reachable, Skip);
      r.Add(Tls, Skip);
      r.SkipRest(Tls);
    }
  }

  /** The checks from reachability on, each told what the ones before found. */
  method Connected(r: Report, s: Setup)
    requires r.Valid() && s.located && s.client && InOrder(r.checks) && Tells(s, r.checks) && |r.checks| == 1
    modifies r
    ensures r.Valid() && InOrder(r.checks) && Tells(s, r.checks) && |r.checks| == 7
  {
    var reachable := s.health.Some?;
    r.Add(Reachable, if s.health == Some(200) then Pass else Fail);
    r.Add(Tls, TlsStatus(s.tls, reachable));
    var versionOk := VersionAndClock(r, s, reachable);
    var authOk := CheckAuth(r, s, reachable && versionOk);
    r.Add(Audit, if authOk then AuditStatus(s.audit) else Skip);
  }

  method VersionAndClock(r: Report, s: Setup, reachable: bool) returns (ok: bool)
    requires r.Valid() && InOrder(r.checks) && Tells(s, r.checks) && |r.checks| == 3
    requires s.located && s.client && reachable == s.health.Some?
    modifies r
    ensures r.Valid() && InOrder(r.checks) && Tells(s, r.checks) && |r.checks| == 5
    ensures ok == (reachable && !s.version.NoApi?)
  {
    if !reachable {
      r.Add(Version, Skip);
      r.Add(Clock, Skip);
      return false;
    }
    r.Add(Version, VersionStatus(s.version));
    if s.version.NoApi? {
      r.Add(Clock, Skip);
      return false;
    }
    r.Add(Clock, ClockStatus(s.offset));
    ok := true;
  }

  method CheckAuth(r: Report, s: Setup, canTry: bool) returns (ok: bool)
    requires r.Valid() && InOrder(r.checks) && Tells(s, r.checks) && |r.checks| == 5
    requires s.located && s.client && canTry == (s.health.Some? && !s.version.NoApi?)
    modifies r
    ensures r.Valid() && InOrder(r.checks) && Tells(s, r.checks) && |r.checks| == 6
    ensures ok == (StatusOf(s, Auth).Pass? || StatusOf(s, Auth).Warn?)
  {
    if !canTry {
      r.Add(Auth, Skip);
      return false;
    }
    var status := AuthStatus(s.token, s.auth);
    r.Add(Auth, status);
    ok := status.Pass? || status.Warn?;
  }

  // ---------------------------------------------------------------------------
  // What a clean exit means

  /** No check failed. */
  predicate Clean(s: Setup) {
    forall name :: StatusOf(s, name) != Fail
  }

  /** The answers that fail no check, said outright: a TLS certificate that is verified and not expired
      (or nothing to verify), a version this CLI may use, a clock within five minutes, a token
      the server accepts or asks a next step of, and an audit chain that is not broken. */
  predicate Acceptable(s: Setup) {
    && (s.tls.Verified? ==> s.tls.left.None? || s.tls.left.value > 0) && !s.tls.HandshakeFails? && !s.tls.Unverified?
    && (s.version.OldServer? || s.version.Skewed? || s.version.Compatible?)
    && (s.offset.Some? ==> -300_000_000_000 <= s.offset.value <= 300_000_000_000)
    && s.token && (s.auth.Accepted? || (s.auth.Blocked? && s.auth.hint))
    && (s.audit.Valid? || s.audit.NotProven? || s.audit.Forbidden? || s.audit.NotOffered?)
  }

  /** A client that cannot be built means a CA file the config check has refused. So a clean exit,
      which skipped checks alone never make, says that the server answered healthy, its API
      answered and is one this CLI may use, and it accepted the token. */
  lemma CleanMeansLoggedIn(s: Setup)
    requires !s.client ==> !s.configured
    ensures Clean(s) <==> s.located && s.configured && s.client && s.health == Some(200) && Acceptable(s)
  {
    if Clean(s) {
      assert StatusOf(s, Config) != Fail && StatusOf(s, Reachable) != Fail && StatusOf(s, Tls) != Fail;
      assert StatusOf(s, Version) != Fail && StatusOf(s, Clock) != Fail && StatusOf(s, Auth) != Fail;
      assert StatusOf(s, Audit) != Fail;
    }
  }

  /** What a clean report warns of and what it skips: plain http, a certificate with less than 30 days,
      an old or skewed version, a clock more than 30 seconds off, a setup step left, an audit
      chain not proven; a check is skipped only where there is nothing to look at or to see. */
  lemma CleanWarnsExactly(s: Setup)
    requires Clean(s) && (!s.client ==> !s.configured)
    ensures StatusOf(s, Config) == Pass && StatusOf(s, Reachable) == Pass
    ensures StatusOf(s, Tls) == Warn <==>
              s.tls.PlainHttp? || (s.tls.Verified? && s.tls.left.Some? && s.tls.left.value < 30 * DAY)
    ensures StatusOf(s, Tls) == Skip <==> s.tls.BadUrl? || s.tls.Loopback?
    ensures StatusOf(s, Version) == Warn <==> s.version.OldServer? || s.version.Skewed?
    ensures StatusOf(s, Version) != Skip
    ensures StatusOf(s, Clock) == Warn <==>
              s.offset.Some? && (s.offset.value > 30_000_000_000 || s.offset.value < -30_000_000_000)
    ensures StatusOf(s, Clock) == Skip <==> s.offset.None?
    ensures StatusOf(s, Auth) == Warn <==> s.auth.Blocked? || s.auth == Accepted(true)
    ensures StatusOf(s, Auth) != Skip
    ensures StatusOf(s, Audit) == Warn <==> s.audit.NotProven?
    ensures StatusOf(s, Audit) == Skip <==> s.audit.Forbidden? || s.audit.NotOffered?
  {
    CleanMeansLoggedIn(s);
  }

  /** In every report a check that needs an answer of the server is skipped only after one before it
      has failed and said why; the clock and the audit also when the server tells nothing. */
  lemma SkippedHasAReason(s: Setup, name: Name)
    requires !s.client ==> !s.configured
    requires StatusOf(s, name) == Skip && name != Tls
    ensures || (name == Clock && s.offset.None?) || (name == Audit && (s.audit.Forbidden? || s.audit.NotOffered?))
            || exists earlier :: Rank(earlier) < Rank(name) && StatusOf(s, earlier) == Fail
  {
    if StatusOf(s, Config) == Fail {
      assert name != Config ==> Rank(Config) < Rank(name);
    } else if StatusOf(s, Reachable) == Fail {
      assert name != Reachable ==> Rank(Reachable) < Rank(name);
    } else if StatusOf(s, Version) == Fail {
      assert name != Version ==> Rank(Version) < Rank(name);
    } else if StatusOf(s, Auth) == Fail {
      assert name == Audit ==> Rank(Auth) < Rank(name);
    }
  }

  /** The TLS check stands on its own feet: with a client it looks whether or not the server answered,
      and a failed handshake with a server that did not answer is left to the check before it. */
  lemma TlsExactly(s: Setup)
    requires s.located && s.client
    ensures StatusOf(s, Tls) == Fail <==>
              || s.tls.Unverified? || (s.tls.Verified? && s.tls.left.Some? && s.tls.left.value <= 0)
              || (s.tls.HandshakeFails? && s.health.Some?)
    ensures StatusOf(s, Tls) == Skip <==>
              || s.tls.BadUrl? || s.tls.Loopback?
              || (s.tls.HandshakeFails? && StatusOf(s, Reachable) == Fail && s.health.None?)
  {
  }
}
