/** The CertificateExpiryMonitor: severity of a certificate and the scan loop. */
module Certificates {
  import opened Prelude

  /** Nanoseconds, as in Go's `time`. */
  const DAY: int := 86_400_000_000_000
  const MAX_DURATION: int := 0x7fff_ffff_ffff_ffff

  /** `tls.crt` of a secret: absent, not a certificate, or a certificate. */
  datatype CertData = Missing | Unparsable | Certificate(subject: string, issuer: string, notAfter: int)

  datatype Secret = Secret(name: string, namespace: string, secretType: string, cert: CertData)

  const TLS := "kubernetes.io/tls"

  datatype Severity = Warning | Critical | Expired {
    function Rank(): nat {
      match this
      case Warning => 1
      case Critical => 2
      case Expired => 3
    }
  }

  datatype CertificateInfo = CertificateInfo(
    secretName: string, namespace: string, subject: string, issuer: string, expiryDate: int,
    daysUntilExpiry: int, severity: Severity)

  /** `time.Until`, which saturates. */
  function Until(notAfter: int, now: int): int {
    var d := notAfter - now;
    if d > MAX_DURATION then MAX_DURATION else if d < -MAX_DURATION - 1 then -MAX_DURATION - 1 else d
  }

  /** Whole days, truncated toward zero. */
  function Days(duration: int): int {
    if duration >= 0 then duration / DAY else -(-duration / DAY)
  }

  function Classify(days: int, warningDays: int, criticalDays: int): Option<Severity> {
    if days <= 0 then Some(Expired)
    else if days <= criticalDays then Some(Critical)
    else if days <= warningDays then Some(Warning)
    else None
  }

  /** `parseCertificate`, after the parsing. */
  function Parse(s: Secret, now: int, warningDays: int, criticalDays: int): Option<CertificateInfo> {
    if !s.cert.Certificate? then None
    else
      var days := Days(Until(s.cert.notAfter, now));
      var severity := Classify(days, warningDays, criticalDays);
      if severity.None? then None
      else Some(CertificateInfo(s.name, s.namespace, s.cert.subject, s.cert.issuer, s.cert.notAfter, days,
        severity.value))
  }

  // ---- the severity in terms of time --------------------------------------

  /** The severities are intervals of the remaining time.  Truncation toward zero makes
      a certificate Expired for the whole last day before its expiry. */
  lemma SeverityIntervals(notAfter: int, now: int, warningDays: int, criticalDays: int)
    ensures var left, severity := Until(notAfter, now), Classify(Days(Until(notAfter, now)), warningDays, criticalDays);
      && (severity == Some(Expired) <==> notAfter - now < DAY)
      && (severity == Some(Critical) <==> DAY <= left < (criticalDays + 1) * DAY)
      && (severity == Some(Warning) <==> DAY <= left < (warningDays + 1) * DAY && (criticalDays + 1) * DAY <= left)
  {
  }

  /** The day count always fits the int32 it is converted to. */
  lemma DaysFit(notAfter: int, now: int)
    ensures Int32(Days(Until(notAfter, now))) == Days(Until(notAfter, now))
  {
  }

  function Rank(severity: Option<Severity>): nat {
    if severity.None? then 0 else severity.value.Rank()
  }

  /** As time passes no severity goes down, for any thresholds in any order. */
  lemma SeverityAges(notAfter: int, now: int, later: int, warningDays: int, criticalDays: int)
    requires now <= later
    ensures Rank(Classify(Days(Until(notAfter, now)), warningDays, criticalDays))
      <= Rank(Classify(Days(Until(notAfter, later)), warningDays, criticalDays))
  {
  }

  // ---- the scan -----------------------------------------------------------

  function TlsSecrets(secrets: seq<Secret>): seq<Secret> {
    if secrets == [] then []
    else
      var last := secrets[|secrets| - 1];
      TlsSecrets(secrets[..|secrets| - 1]) + if last.secretType == TLS then [last] else []
  }

  /** The secrets that the scan examines.  A namespace that is not in the map is one
      whose secrets cannot be listed. */
  function Examined(namespaces: seq<string>, exclude: seq<string>, store: map<string, seq<Secret>>): seq<Secret> {
    if namespaces == [] then []
    else
      var ns := namespaces[|namespaces| - 1];
      Examined(namespaces[..|namespaces| - 1], exclude, store)
      + if ns in exclude || ns !in store then [] else TlsSecrets(store[ns])
  }

  /** A secret and the reading of the clock when it was parsed. */
  datatype Examination = Examination(secret: Secret, at: int)

  function SecretsOf(exs: seq<Examination>): seq<Secret> {
    seq(|exs|, i requires 0 <= i < |exs| => exs[i].secret)
  }

  function Finding(e: Examination, w: int, c: int): Option<CertificateInfo> {
    Parse(e.secret, e.at, w, c)
  }

  /** The items reported for some secrets. */
  function Infos(exs: seq<Examination>, w: int, c: int): seq<CertificateInfo> {
    if exs == [] then []
    else
      var info := Finding(exs[|exs| - 1], w, c);
      Infos(exs[..|exs| - 1], w, c) + if info.Some? then [info.value] else []
  }

  function Expireds(infos: seq<CertificateInfo>): nat {
    if infos == [] then 0
    else Expireds(infos[..|infos| - 1]) + if infos[|infos| - 1].severity == Expired then 1 else 0
  }

  /** What the scan writes; the counters are int32. */
  datatype Scan = Scan(certificates: seq<CertificateInfo>, total: int, expiring: int, expired: int)

  function ScanOf(exs: seq<Examination>, w: int, c: int): Scan {
    var infos := Infos(exs, w, c);
    Scan(infos, Int32(|exs|), Int32(|infos|), Int32(Expireds(infos)))
  }

  lemma ExpiredsAppend(infos: seq<CertificateInfo>, info: CertificateInfo)
    ensures Expireds(infos + [info]) == Expireds(infos) + if info.severity == Expired then 1 else 0
  {
  }

  /** What one more secret adds. */
  lemma InfosAppend(init: seq<Examination>, e: Examination, w: int, c: int)
    ensures var info, infos, more := Finding(e, w, c), Infos(init, w, c), Infos(init + [e], w, c);
      more == infos + (if info.Some? then [info.value] else [])
      && Expireds(more) == Expireds(infos) + (if info.Some? && info.value.severity == Expired then 1 else 0)
  {
    var info, infos := Finding(e, w, c), Infos(init, w, c);
    assert (init + [e])[..|init|] == init;
    if info.Some? {
      ExpiredsAppend(infos, info.value);
    } else {
      assert infos + [] == infos;
    }
  }

  lemma ScanStep(exs: seq<Examination>, e: Examination, w: int, c: int)
    ensures var scan, info := ScanOf(exs, w, c), Finding(e, w, c);
      ScanOf(exs + [e], w, c)
        == if info.None? then scan.(total := Int32(scan.total + 1))
           else Scan(scan.certificates + [info.value], Int32(scan.total + 1), Int32(scan.expiring + 1),
                     if info.value.severity == Expired then Int32(scan.expired + 1) else scan.expired)
  {
    var infos := Infos(exs, w, c);
    InfosAppend(exs, e, w, c);
    Int32Increment(|exs|);
    Int32Increment(|infos|);
    Int32Increment(Expireds(infos));
    assert infos + [] == infos;
  }

  /** The clock, which `time.Until` reads.  It never goes back. */
  class Clock {
    var time: int

    constructor ()
    {
    }

    method Now() returns (now: int)
      modifies this
      ensures now == time >= old(time)
    {
      var passed: int := *;
      if passed > 0 { time := time + passed; }
      now := time;
    }
  }

  /** Without a certificate the clock is not read. */
  method ParseCertificate(s: Secret, clock: Clock, warningDays: int, criticalDays: int)
    returns (info: Option<CertificateInfo>, ghost at: int)
    modifies clock
    ensures old(clock.time) <= at <= clock.time && info == Parse(s, at, warningDays, criticalDays)
    ensures !s.cert.Certificate? ==> clock.time == old(clock.time)
  {
    at := clock.time;
    if !s.cert.Certificate? { return None, at; }
    var now := clock.Now();
    at := now;
    var days := Int32(Days(Until(s.cert.notAfter, now)));
    DaysFit(s.cert.notAfter, now);
    var severity;
    if days <= 0 {
      severity := Expired;
    } else if days <= criticalDays {
      severity := Critical;
    } else if days <= warningDays {
      severity := Warning;
    } else {
      return None, at;
    }
    info := Some(CertificateInfo(s.name, s.namespace, s.cert.subject, s.cert.issuer, s.cert.notAfter, days, severity));
  }

  /** One round of the inner loop, for a TLS secret. */
  method ScanSecret(secret: Secret, before: Scan, clock: Clock, w: int, c: int, ghost seen: seq<Examination>)
    returns (scan: Scan, ghost e: Examination)
    requires before == ScanOf(seen, w, c)
    modifies clock
    ensures scan == ScanOf(seen + [e], w, c) && e.secret == secret && old(clock.time) <= e.at <= clock.time
  {
    scan := before.(total := Int32(before.total + 1));
    e := Examination(secret, clock.time);
    if secret.cert.Missing? {
      ScanStep(seen, e, w, c);
      return;
    }
    var info; ghost var at;
    info, at := ParseCertificate(secret, clock, w, c);
    e := Examination(secret, at);
    ScanStep(seen, e, w, c);
    if info.Some? {
      scan := scan.(certificates := scan.certificates + [info.value], expiring := Int32(scan.expiring + 1));
      if info.value.severity == Expired {
        scan := scan.(expired := Int32(scan.expired + 1));
      }
    }
  }

  /** The readings of a scan lie between its start and its end. */
  ghost predicate ReadBetween(exs: seq<Examination>, start: int, end: int) {
    forall i :: 0 <= i < |exs| ==> start <= exs[i].at <= end
  }

  /** The inner loop, over the secrets of one namespace. */
  method ScanNamespace(secrets: seq<Secret>, before: Scan, clock: Clock, warningDays: int, criticalDays: int,
                       ghost seen: seq<Examination>, ghost start: int)
    returns (scan: Scan, ghost exs: seq<Examination>)
    requires before == ScanOf(seen, warningDays, criticalDays) && start <= clock.time
    requires ReadBetween(seen, start, clock.time)
    modifies clock
    ensures scan == ScanOf(exs, warningDays, criticalDays) && SecretsOf(exs) == SecretsOf(seen) + TlsSecrets(secrets)
    ensures old(clock.time) <= clock.time && ReadBetween(exs, start, clock.time)
  {
    scan, exs := before, seen;
    for i := 0 to |secrets|
      invariant scan == ScanOf(exs, warningDays, criticalDays)
      invariant SecretsOf(exs) == SecretsOf(seen) + TlsSecrets(secrets[..i])
      invariant old(clock.time) <= clock.time && ReadBetween(exs, start, clock.time)
    {
      var secret := secrets[i];
      assert secrets[..i + 1][..i] == secrets[..i];
      if secret.secretType != TLS { continue; }
      ghost var e;
      scan, e := ScanSecret(secret, scan, clock, warningDays, criticalDays, exs);
      exs := exs + [e];
      SecretsAppend(exs[..|exs| - 1], e, SecretsOf(seen), TlsSecrets(secrets[..i]));
      assert exs == exs[..|exs| - 1] + [e];
    }
    assert secrets[..|secrets|] == secrets;
  }

  lemma SecretsAppend(exs: seq<Examination>, e: Examination, a: seq<Secret>, b: seq<Secret>)
    requires SecretsOf(exs) == a + b
    ensures SecretsOf(exs + [e]) == a + (b + [e.secret])
  {
    assert SecretsOf(exs + [e]) == SecretsOf(exs) + [e.secret];
  }

  /** The scan reports what it finds in the TLS secrets of the included namespaces, each
      at the moment at which it is parsed. */
  method ScanAll(namespaces: seq<string>, exclude: seq<string>, store: map<string, seq<Secret>>, clock: Clock,
                 warningThresholdDays: int, criticalThresholdDays: int)
    returns (scan: Scan, ghost exs: seq<Examination>)
    modifies clock
    ensures scan == ScanOf(exs, if warningThresholdDays == 0 then 30 else warningThresholdDays,
                           if criticalThresholdDays == 0 then 7 else criticalThresholdDays)
    ensures SecretsOf(exs) == Examined(namespaces, exclude, store)
    ensures ReadBetween(exs, old(clock.time), clock.time)
  {
    var excludeSet: set<string> := {};
    for i := 0 to |exclude|
      invariant excludeSet == set k | 0 <= k < i :: exclude[k]
    {
      excludeSet := excludeSet + {exclude[i]};
    }
    var warningDays, criticalDays := warningThresholdDays, criticalThresholdDays;
    if warningDays == 0 { warningDays := 30; }
    if criticalDays == 0 { criticalDays := 7; }
    scan, exs := Scan([], 0, 0, 0), [];
    ghost var start := clock.time;
    for i := 0 to |namespaces|
      invariant scan == ScanOf(exs, warningDays, criticalDays)
      invariant SecretsOf(exs) == Examined(namespaces[..i], exclude, store)
      invariant start <= clock.time && ReadBetween(exs, start, clock.time)
    {
      var ns := namespaces[i];
      assert namespaces[..i + 1][..i] == namespaces[..i];
      if ns in excludeSet || ns !in store { continue; }
      scan, exs := ScanNamespace(store[ns], scan, clock, warningDays, criticalDays, exs, start);
    }
    assert namespaces[..|namespaces|] == namespaces;
  }

  // ---- what the scan reports ----------------------------------------------

  /** Truncation toward zero: the part of the duration beyond the days is less than one
      day and has its sign. */
  ghost predicate IsDays(duration: int, days: int) {
    if duration >= 0 then days * 86_400_000_000_000 <= duration < (days + 1) * 86_400_000_000_000
    else (days - 1) * 86_400_000_000_000 < duration <= days * 86_400_000_000_000
  }

  /** The item of a secret that is examined at some moment: its fields, and the severity
      of the interval in which the remaining time lies, a 64-bit duration. */
  ghost predicate Reports(e: Examination, w: int, c: int, info: CertificateInfo) {
    var s, day := e.secret, 86_400_000_000_000;
    s.cert.Certificate? && info.secretName == s.name && info.namespace == s.namespace
    && info.subject == s.cert.subject && info.issuer == s.cert.issuer && info.expiryDate == s.cert.notAfter
    && var exact := s.cert.notAfter - e.at;
       var left := if exact >= 0x8000_0000_0000_0000 then 0x7fff_ffff_ffff_ffff
                   else if exact < -0x8000_0000_0000_0000 then -0x8000_0000_0000_0000 else exact;
       IsDays(left, info.daysUntilExpiry)
       && match info.severity
          case Expired => left < day
          case Critical => day <= left < (c + 1) * day
          case Warning => (c + 1) * day <= left && day <= left < (w + 1) * day
  }

  lemma FindingMeans(e: Examination, w: int, c: int, info: CertificateInfo)
    ensures Finding(e, w, c) == Some(info) <==> Reports(e, w, c, info)
  {
  }

  lemma {:induction false} InfosMembers(exs: seq<Examination>, w: int, c: int, info: CertificateInfo)
    ensures info in Infos(exs, w, c) <==> exists e :: e in exs && Reports(e, w, c, info)
  {
    if exs != [] {
      var init, last := exs[..|exs| - 1], exs[|exs| - 1];
      InfosMembers(init, w, c, info);
      FindingMeans(last, w, c, info);
      assert forall e :: e in exs <==> e in init || e == last;
    }
  }

  /** The items of a scan are those of the parts of what it examines, in order. */
  lemma {:induction false} InfosConcat(a: seq<Examination>, b: seq<Examination>, w: int, c: int)
    ensures Infos(a + b, w, c) == Infos(a, w, c) + Infos(b, w, c)
  {
    if b == [] {
      assert a + b == a;
    } else {
      InfosConcat(a, b[..|b| - 1], w, c);
      assert (a + b)[..|a + b| - 1] == a + b[..|b| - 1];
    }
  }

  /** One secret that is examined gives one item or none. */
  lemma InfosOfOne(e: Examination, w: int, c: int)
    ensures Infos([e], w, c) == [] || exists info :: Infos([e], w, c) == [info] && Reports(e, w, c, info)
    ensures Infos([e], w, c) == [] <==> forall info :: !Reports(e, w, c, info)
  {
    assert [e][..0] == [];
    forall info { FindingMeans(e, w, c, info); }
  }

  lemma {:induction false} TlsSecretsMembers(secrets: seq<Secret>, s: Secret)
    ensures s in TlsSecrets(secrets) <==> s in secrets && s.secretType == "kubernetes.io/tls"
  {
    if secrets != [] {
      TlsSecretsMembers(secrets[..|secrets| - 1], s);
      assert s in secrets <==> s in secrets[..|secrets| - 1] || s == secrets[|secrets| - 1];
    }
  }

  /** Examined are the TLS secrets of the namespaces that are not excluded and whose
      secrets can be listed. */
  lemma {:induction false} ExaminedExactly(namespaces: seq<string>, exclude: seq<string>,
                                           store: map<string, seq<Secret>>, s: Secret)
    ensures s in Examined(namespaces, exclude, store) <==>
      s.secretType == "kubernetes.io/tls"
      && exists ns :: ns in namespaces && ns !in exclude && ns in store && s in store[ns]
  {
    if namespaces != [] {
      var init, last := namespaces[..|namespaces| - 1], namespaces[|namespaces| - 1];
      ExaminedExactly(init, exclude, store, s);
      if last in store { TlsSecretsMembers(store[last], s); }
      assert forall ns :: ns in namespaces <==> ns in init || ns == last;
    }
  }

  /** Namespaces are examined in order, and within each its TLS secrets, each once. */
  lemma {:induction false} ExaminedConcat(a: seq<string>, b: seq<string>, exclude: seq<string>,
                                          store: map<string, seq<Secret>>)
    ensures Examined(a + b, exclude, store) == Examined(a, exclude, store) + Examined(b, exclude, store)
  {
    if b == [] {
      assert a + b == a;
    } else {
      ExaminedConcat(a, b[..|b| - 1], exclude, store);
      assert (a + b)[..|a + b| - 1] == a + b[..|b| - 1];
    }
  }

  lemma {:induction false} TlsSecretsConcat(a: seq<Secret>, b: seq<Secret>)
    ensures TlsSecrets(a + b) == TlsSecrets(a) + TlsSecrets(b)
  {
    if b == [] {
      assert a + b == a;
    } else {
      TlsSecretsConcat(a, b[..|b| - 1]);
      assert (a + b)[..|a + b| - 1] == a + b[..|b| - 1];
    }
  }

  lemma ExaminedOfOne(ns: string, exclude: seq<string>, store: map<string, seq<Secret>>, s: Secret)
    ensures Examined([ns], exclude, store) == if ns in exclude || ns !in store then [] else TlsSecrets(store[ns])
    ensures TlsSecrets([s]) == if s.secretType == "kubernetes.io/tls" then [s] else []
  {
    assert [ns][..0] == [] && [s][..0] == [];
  }

  lemma {:induction false} ExpiredsIsCardinality(infos: seq<CertificateInfo>)
    ensures Expireds(infos) == |set i | 0 <= i < |infos| && infos[i].severity == Expired|
  {
    var at := set i | 0 <= i < |infos| && infos[i].severity == Expired;
    if infos == [] {
      assert at == {};
    } else {
      var n := |infos| - 1;
      var before := set i | 0 <= i < n && infos[..n][i].severity == Expired;
      ExpiredsIsCardinality(infos[..n]);
      assert before == set i | 0 <= i < |infos[..n]| && infos[..n][i].severity == Expired;
      assert at == before + if infos[n].severity == Expired then {n} else {};
    }
  }

  /** Complete and sound, for the thresholds as they are given, 0 standing for 30 and 7
      days: each TLS secret of an included namespace that can be listed is examined at some
      moment, and what is reported is the item of each secret examined that has one. */
  lemma ScanIsExact(namespaces: seq<string>, exclude: seq<string>, store: map<string, seq<Secret>>,
                    exs: seq<Examination>, w: int, c: int)
    requires SecretsOf(exs) == Examined(namespaces, exclude, store) && |exs| < 0x8000_0000
    ensures forall ns, s ::
      ns in namespaces && ns !in exclude && ns in store && s in store[ns] && s.secretType == "kubernetes.io/tls" ==>
        exists e :: e in exs && e.secret == s
    ensures var scan := ScanOf(exs, if w == 0 then 30 else w, if c == 0 then 7 else c);
      (forall info :: info in scan.certificates <==>
         exists e :: e in exs && Reports(e, if w == 0 then 30 else w, if c == 0 then 7 else c, info))
      && scan.total == |exs| && scan.expiring == |scan.certificates|
      && scan.expired == |set i | 0 <= i < |scan.certificates| && scan.certificates[i].severity == Expired|
  {
    var w', c' := if w == 0 then 30 else w, if c == 0 then 7 else c;
    forall ns, s | ns in namespaces && ns !in exclude && ns in store && s in store[ns]
      && s.secretType == "kubernetes.io/tls"
      ensures exists e :: e in exs && e.secret == s
    {
      ExaminedExactly(namespaces, exclude, store, s);
      var i :| 0 <= i < |SecretsOf(exs)| && SecretsOf(exs)[i] == s;
      assert exs[i] in exs;
    }
    forall info ensures info in Infos(exs, w', c') <==> exists e :: e in exs && Reports(e, w', c', info) {
      InfosMembers(exs, w', c', info);
    }
    CountsAreBounded(exs, w', c');
    ExpiredsIsCardinality(Infos(exs, w', c'));
  }

  // ---- conservation and ageing --------------------------------------------

  lemma {:induction false} CountsAreBounded(exs: seq<Examination>, w: int, c: int)
    ensures |Infos(exs, w, c)| <= |exs| && Expireds(Infos(exs, w, c)) <= |Infos(exs, w, c)|
  {
    if exs != [] {
      var init, last := exs[..|exs| - 1], exs[|exs| - 1];
      CountsAreBounded(init, w, c);
      InfosAppend(init, last, w, c);
      assert exs == init + [last];
    }
  }

  /** The secrets of a namespace carry its name. */
  ghost predicate Namespaced(store: map<string, seq<Secret>>) {
    forall ns, s :: ns in store && s in store[ns] ==> s.namespace == ns
  }

  lemma InfoIsIncluded(namespaces: seq<string>, exclude: seq<string>, store: map<string, seq<Secret>>,
                       exs: seq<Examination>, w: int, c: int, info: CertificateInfo)
    requires Namespaced(store) && SecretsOf(exs) == Examined(namespaces, exclude, store) && info in Infos(exs, w, c)
    ensures info.namespace in namespaces && info.namespace !in exclude
  {
    InfosMembers(exs, w, c, info);
    var e :| e in exs && Reports(e, w, c, info);
    var i :| 0 <= i < |exs| && exs[i] == e;
    assert SecretsOf(exs)[i] == e.secret;
    ExaminedExactly(namespaces, exclude, store, e.secret);
  }

  /** Expired <= expiring = number of items <= scanned, and no item comes from an
      excluded namespace. */
  lemma ScanIsConserved(namespaces: seq<string>, exclude: seq<string>, store: map<string, seq<Secret>>,
        exs: seq<Examination>, w: int, c: int)
    requires Namespaced(store) && SecretsOf(exs) == Examined(namespaces, exclude, store) && |exs| < 0x8000_0000
    ensures var scan := ScanOf(exs, w, c);
      0 <= scan.expired <= scan.expiring == |scan.certificates| <= scan.total
      && forall info :: info in scan.certificates ==> info.namespace in namespaces && info.namespace !in exclude
  {
    CountsAreBounded(exs, w, c);
    forall info | info in Infos(exs, w, c) ensures info.namespace in namespaces && info.namespace !in exclude {
      InfoIsIncluded(namespaces, exclude, store, exs, w, c, info);
    }
  }

  /** The same secrets, each parsed no earlier. */
  ghost predicate NoEarlier(exs: seq<Examination>, later: seq<Examination>) {
    |exs| == |later| && forall i :: 0 <= i < |exs| ==> exs[i].secret == later[i].secret && exs[i].at <= later[i].at
  }

  lemma FindingAges(e: Examination, later: Examination, w: int, c: int)
    requires e.secret == later.secret && e.at <= later.at
    ensures var a, b := Finding(e, w, c), Finding(later, w, c);
      a.Some? ==> b.Some? && a.value.severity.Rank() <= b.value.severity.Rank()
  {
    if e.secret.cert.Certificate? { SeverityAges(e.secret.cert.notAfter, e.at, later.at, w, c); }
  }

  lemma {:induction false} CountsAge(exs: seq<Examination>, later: seq<Examination>, w: int, c: int)
    requires NoEarlier(exs, later)
    ensures |Infos(exs, w, c)| <= |Infos(later, w, c)|
    ensures Expireds(Infos(exs, w, c)) <= Expireds(Infos(later, w, c))
  {
    if exs != [] {
      var n := |exs| - 1;
      CountsAge(exs[..n], later[..n], w, c);
      InfosAppend(exs[..n], exs[n], w, c);
      InfosAppend(later[..n], later[n], w, c);
      assert exs == exs[..n] + [exs[n]] && later == later[..n] + [later[n]];
      FindingAges(exs[n], later[n], w, c);
    }
  }

  /** For fixed secrets, time never lowers the severity of a secret or either count. */
  lemma ScanAges(exs: seq<Examination>, later: seq<Examination>, w: int, c: int)
    requires NoEarlier(exs, later) && |exs| < 0x8000_0000
    ensures var scan, scan' := ScanOf(exs, w, c), ScanOf(later, w, c);
      scan.expired <= scan'.expired && scan.expiring <= scan'.expiring && scan.total == scan'.total
    ensures forall i :: 0 <= i < |exs| && Finding(exs[i], w, c).Some? ==>
      Finding(later[i], w, c).Some?
      && Finding(exs[i], w, c).value.severity.Rank() <= Finding(later[i], w, c).value.severity.Rank()
  {
    CountsAge(exs, later, w, c);
    CountsAreBounded(exs, w, c);
    CountsAreBounded(later, w, c);
    forall i | 0 <= i < |exs| ensures Finding(exs[i], w, c).Some? ==>
      Finding(later[i], w, c).Some?
      && Finding(exs[i], w, c).value.severity.Rank() <= Finding(later[i], w, c).value.severity.Rank()
    {
      FindingAges(exs[i], later[i], w, c);
    }
  }

  /** In particular, a scan that starts after another one has ended, on the same secrets. */
  lemma LaterScanIsNoEarlier(exs: seq<Examination>, later: seq<Examination>, start: int, end: int, start': int,
        end': int)
    requires SecretsOf(exs) == SecretsOf(later) && end <= start'
    requires ReadBetween(exs, start, end) && ReadBetween(later, start', end')
    ensures NoEarlier(exs, later)
  {
    assert |SecretsOf(exs)| == |SecretsOf(later)|;
    forall i | 0 <= i < |exs| ensures exs[i].secret == later[i].secret {
      assert SecretsOf(exs)[i] == SecretsOf(later)[i];
    }
  }
}
