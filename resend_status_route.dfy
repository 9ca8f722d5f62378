/** app/api/admin/resend/status/route.ts: the admin secret check, the
    configuration read from the environment, and the status report on the
    sending domain (record counts, health and the next steps to take). */
module ResendStatusRoute {
  import opened Common
  import opened ResendDomain

  const DefaultSendingDomain: string := "mail.faightclub.com"
  const DefaultFromEmail: string := "onboarding@resend.dev"

  /** The environment variables the handler reads. */
  datatype Env = Env(adminSecret: Option<string>, sendingDomain: Option<string>, fromEmail: Option<string>,
                     emailEnabled: Option<string>, autoDnsEnabled: Option<string>)

  /** The settings echoed in every answer past the secret check. */
  datatype Config = Config(sendingDomain: string, fromEmail: string, emailEnabled: bool, autoDnsEnabled: bool)

  /** An entry of `dnsStatus.records`. */
  datatype RecordSummary = RecordSummary(recordType: string, name: string, status: string, record: string)

  datatype DnsStatus = DnsStatus(total: nat, verified: nat, pending: nat, records: seq<RecordSummary>)

  datatype Health = Health(domainVerified: bool, usingCustomDomain: bool, emailsEnabled: bool, ready: bool)

  /** The answers of `GET`: 401, the report for a domain not found, the full
      report, or 500 with the error's message. */
  datatype StatusReply =
    | Unauthorized
    | NotConfigured(config: Config, message: string, nextSteps: seq<string>)
    | Configured(config: Config, domainId: string, domainName: string, domainStatus: string,
                 region: string, createdAt: string, dnsStatus: DnsStatus, health: Health, nextSteps: seq<string>)
    | Failure(error: string, echoed: EchoedConfig)

  /** The settings the 500 answer echoes: all of `Config` but the auto-DNS
      flag. */
  datatype EchoedConfig = EchoedConfig(sendingDomain: string, fromEmail: string, emailEnabled: bool)

  function Echoed(config: Config): EchoedConfig
  {
    EchoedConfig(config.sendingDomain, config.fromEmail, config.emailEnabled)
  }

  /** The header secret and `ADMIN_SECRET`, both trimmed, are non-empty and
      equal. */
  predicate Authorized(header: Option<string>, secret: Option<string>)
  {
    Truthy(TrimOpt(header)) && Truthy(TrimOpt(secret)) && TrimOpt(header) == TrimOpt(secret)
  }

  /** A flag is on only for the exact string "true". */
  predicate Flag(v: Option<string>)
  {
    v == Some("true")
  }

  function ConfigOf(env: Env): (c: Config)
    ensures !Truthy(env.sendingDomain) ==> c.sendingDomain == DefaultSendingDomain
    ensures Truthy(env.sendingDomain) ==> c.sendingDomain == env.sendingDomain.value
    ensures !Truthy(env.fromEmail) ==> c.fromEmail == DefaultFromEmail
    ensures Truthy(env.fromEmail) ==> c.fromEmail == env.fromEmail.value
    ensures c.emailEnabled <==> env.emailEnabled == Some("true")
    ensures c.autoDnsEnabled <==> env.autoDnsEnabled == Some("true")
  {
    Config(OrElse(env.sendingDomain, DefaultSendingDomain), OrElse(env.fromEmail, DefaultFromEmail),
           Flag(env.emailEnabled), Flag(env.autoDnsEnabled))
  }

  /** The records whose status is exactly 'verified', in order. */
  function VerifiedRecords(records: seq<DnsRecord>): (r: seq<DnsRecord>)
    ensures forall x :: x in r ==> x in records && x.status == "verified"
  {
    if records == [] then []
    else (if records[0].status == "verified" then [records[0]] else []) + VerifiedRecords(records[1..])
  }

  /** The other records, in order. */
  function PendingRecords(records: seq<DnsRecord>): (r: seq<DnsRecord>)
    ensures forall x :: x in r ==> x in records && x.status != "verified"
  {
    if records == [] then []
    else (if records[0].status != "verified" then [records[0]] else []) + PendingRecords(records[1..])
  }

  /** Every record is counted once, as verified or as pending. */
  lemma {:induction false} RecordsPartitioned(records: seq<DnsRecord>)
    ensures |VerifiedRecords(records)| + |PendingRecords(records)| == |records|
    ensures forall x :: x in records ==> (x in VerifiedRecords(records) <==> x.status == "verified")
    ensures forall x :: x in records ==> (x in PendingRecords(records) <==> x.status != "verified")
  {
    if records != [] {
      RecordsPartitioned(records[1..]);
      forall x | x in records ensures x in records[1..] || x == records[0] {
        var i :| 0 <= i < |records| && records[i] == x;
        if i > 0 { assert records[1..][i - 1] == x; }
      }
    }
  }

  /** `nextSteps`. */
  function NextSteps(verified: bool, custom: bool, pending: nat, sendingDomain: string): seq<string>
  {
    if !verified then
      ["Wait for DNS propagation (usually <1 hour)",
       "Check Resend dashboard for detailed status",
       if pending > 0 then NatToString(pending) + " DNS records still pending verification"
       else "All DNS records created"]
    else if verified && !custom then
      ["Domain verified! Update FROM_EMAIL env var to use your domain",
       "Suggested: keys@" + sendingDomain]
    else ["Email system fully configured and ready!"]
  }

  /** Three steps while the domain is unverified, the third giving the
      number of pending records when there are any; two, the second
      suggesting an address on the sending domain, once verified while the
      sender is still the provider's shared domain; one otherwise. */
  lemma NextStepsCases(verified: bool, custom: bool, pending: nat, sendingDomain: string)
    ensures var steps := NextSteps(verified, custom, pending, sendingDomain);
      (|steps| == 3 <==> !verified) && (|steps| == 2 <==> verified && !custom) &&
      (|steps| == 1 <==> verified && custom) &&
      (!verified && pending > 0 ==>
         StartsWith(steps[2], NatToString(pending)) && DecimalValue(steps[2][..|NatToString(pending)|]) == pending) &&
      (!verified && pending == 0 ==> steps[2] == "All DNS records created") &&
      (verified && !custom ==> EndsWith(steps[1], "keys@" + sendingDomain))
  {
    var steps := NextSteps(verified, custom, pending, sendingDomain);
    if !verified && pending > 0 {
      var digits := NatToString(pending);
      assert steps[2][..|digits|] == digits;
      NatToStringRoundTrip(pending);
    }
    if verified && !custom {
      assert steps[1] == "Suggested: " + ("keys@" + sendingDomain);
      assert steps[1][|steps[1]| - |"keys@" + sendingDomain|..] == "keys@" + sendingDomain;
    }
  }

  /** `GET`. `header` is `x-admin-secret`; `listing` is what the domain
      listing behind `findDomainByName` gives and `current` what `getDomain`
      gives for the found domain. */
  function Get(header: Option<string>, env: Env, listing: Result<seq<Domain>>, current: Result<Domain>): StatusReply
  {
    if !Authorized(header, env.adminSecret) then Unauthorized
    else
      var config := ConfigOf(env);
      match FindDomainByName(listing, config.sendingDomain)
      case Err(message) => Failure(message, Echoed(config))
      case Ok(None) =>
        NotConfigured(config, "Domain not found in Resend. Run setup-domain to configure.",
                      ["POST /api/admin/resend/setup-domain with x-admin-secret header"])
      case Ok(Some(_)) =>
        match current
        case Err(message) => Failure(message, Echoed(config))
        case Ok(d) =>
          var pending := PendingRecords(d.records);
          var verifiedRecords := VerifiedRecords(d.records);
          var isFullyVerified := d.status == "verified";
          var isUsingCustomDomain := !Contains(config.fromEmail, "resend.dev");
          Configured(config, d.id, d.name, d.status, d.region, d.createdAt,
                     DnsStatus(|d.records|, |verifiedRecords|, |pending|,
                               seq(|d.records|, i requires 0 <= i < |d.records| =>
                                 RecordSummary(d.records[i].recordType, d.records[i].name,
                                               d.records[i].status, d.records[i].record))),
                     Health(isFullyVerified, isUsingCustomDomain, config.emailEnabled,
                            isFullyVerified && isUsingCustomDomain && config.emailEnabled),
                     NextSteps(isFullyVerified, isUsingCustomDomain, |pending|, config.sendingDomain))
  }

  /** The answer is 401 exactly when the trimmed secrets are not both
      present, non-empty and equal. */
  lemma UnauthorizedUnlessSecretsMatch(header: Option<string>, env: Env, listing: Result<seq<Domain>>,
                                       current: Result<Domain>)
    ensures Get(header, env, listing, current).Unauthorized? <==>
              header.None? || env.adminSecret.None? || Trim(header.value) == "" ||
              Trim(env.adminSecret.value) == "" || Trim(header.value) != Trim(env.adminSecret.value)
  {
  }

  /** The full report counts every record once, as verified or pending,
      lists every record, and is ready exactly when the domain is verified,
      the sender is not on "resend.dev" and sending is switched on. */
  lemma ReportConsistent(header: Option<string>, env: Env, listing: Result<seq<Domain>>, current: Result<Domain>)
    requires Get(header, env, listing, current).Configured?
    ensures var r := Get(header, env, listing, current);
      current.Ok? &&
      r.dnsStatus.verified + r.dnsStatus.pending == r.dnsStatus.total == |current.value.records| &&
      |r.dnsStatus.records| == r.dnsStatus.total &&
      (r.health.usingCustomDomain <==> !Contains(r.config.fromEmail, "resend.dev")) &&
      (r.health.ready <==> current.value.status == "verified" && !Contains(r.config.fromEmail, "resend.dev") &&
                           env.emailEnabled == Some("true")) &&
      r.nextSteps == NextSteps(current.value.status == "verified", r.health.usingCustomDomain,
                               r.dnsStatus.pending, r.config.sendingDomain)
  {
    RecordsPartitioned(current.value.records);
  }

  /** Past the secret check, a listing without the sending domain gives the
      not-configured report with its single next step, and an error of
      either call gives the 500 answer with that error's message. */
  lemma UnknownDomainOrError(header: Option<string>, env: Env, listing: Result<seq<Domain>>, current: Result<Domain>)
    requires Authorized(header, env.adminSecret)
    ensures listing.Ok? && (forall i :: 0 <= i < |listing.value| ==> listing.value[i].name != ConfigOf(env).sendingDomain) ==>
              Get(header, env, listing, current).NotConfigured? && |Get(header, env, listing, current).nextSteps| == 1
    ensures listing.Err? ==> Get(header, env, listing, current) == Failure(listing.message, Echoed(ConfigOf(env)))
    ensures (listing.Ok? && current.Err? &&
             exists i :: 0 <= i < |listing.value| && listing.value[i].name == ConfigOf(env).sendingDomain) ==>
              Get(header, env, listing, current) == Failure(current.message, Echoed(ConfigOf(env)))
  {
    var config := ConfigOf(env);
    if listing.Ok? {
      var found := FirstNamed(listing.value, config.sendingDomain);
      assert FindDomainByName(listing, config.sendingDomain) == Ok(found);
      if found.None? {
        assert Get(header, env, listing, current) ==
               NotConfigured(config, "Domain not found in Resend. Run setup-domain to configure.",
                             ["POST /api/admin/resend/setup-domain with x-admin-secret header"]);
      } else if current.Err? {
        assert Get(header, env, listing, current) == Failure(current.message, Echoed(config));
      }
    }
  }

  lemma {:induction false} ContainsFrom(s: string, sub: string, k: nat)
    requires k <= |s| && StartsWith(s[k..], sub)
    ensures Contains(s, sub)
    decreases k
  {
    if k > 0 {
      assert s[1..][k - 1..] == s[k..];
      ContainsFrom(s[1..], sub, k - 1);
    } else {
      assert s[0..] == s;
    }
  }

  /** With FROM_EMAIL unset the sender is on the provider's shared domain,
      so the report is never ready. */
  lemma DefaultSenderNeverReady(header: Option<string>, env: Env, listing: Result<seq<Domain>>, current: Result<Domain>)
    requires !Truthy(env.fromEmail)
    requires Get(header, env, listing, current).Configured?
    ensures !Get(header, env, listing, current).health.usingCustomDomain
    ensures !Get(header, env, listing, current).health.ready
  {
    DefaultSenderShared();
  }

  lemma DefaultSenderShared()
    ensures Contains(DefaultFromEmail, "resend.dev")
  {
    assert DefaultFromEmail[11..][..10] == "resend.dev";
    ContainsFrom(DefaultFromEmail, "resend.dev", 11);
  }
}
