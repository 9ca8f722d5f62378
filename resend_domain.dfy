/** lib/resend-domain.ts: the conversion of a domain's DNS records into
    records for the DNS provider (with the apex removed from each name), the
    search of the domain list, `ensureDomain`, and the bounded
    `pollVerification` loop. Every call to the mail provider's API is an
    input: a listing, a creation outcome, or the sequence of domain states
    that successive fetches return. */
module ResendDomain {
  import opened Common

  /** `ResendDnsRecord`, without the unused `ttl` field. */
  datatype DnsRecord = DnsRecord(record: string, name: string, recordType: string, status: string,
                                 value: string, priority: Option<int>)

  /** `ResendDomain`. */
  datatype Domain = Domain(id: string, name: string, status: string, createdAt: string, region: string,
                           records: seq<DnsRecord>)

  /** A record in the shape the DNS provider takes. */
  datatype ProviderRecord = ProviderRecord(name: string, recordType: string, value: string, priority: Option<int>)

  /** The characters of a domain name: ASCII letters, digits, '-' and '.'.
      Of these only '.' means something in a regular expression. */
  predicate DomainChars(s: string)
  {
    forall k :: 0 <= k < |s| ==>
      'a' <= s[k] <= 'z' || 'A' <= s[k] <= 'Z' || '0' <= s[k] <= '9' || s[k] == '-' || s[k] == '.'
  }

  /** `w` is matched by the apex read as a regular expression: each '.' of
      the apex matches any one character but a line terminator, every other
      character only itself. */
  predicate ApexMatches(w: string, apex: string)
  {
    |w| == |apex| &&
    forall k :: 0 <= k < |apex| ==>
      if apex[k] == '.' then !IsLineTerminator(w[k]) else w[k] == apex[k]
  }

  /** `t` is `a` optional leading dots (0 or 1), a match of the apex, and
      `b` optional trailing dots (0 or 1). */
  predicate FitsWith(t: string, apex: string, a: nat, b: nat)
  {
    a + |apex| + b == |t| &&
    (a == 1 ==> t[0] == '.') && (b == 1 ==> t[|t| - 1] == '.') &&
    ApexMatches(t[a..a + |apex|], apex)
  }

  /** `t` is entirely matched by `\.?<apex>\.?`. */
  predicate ApexSuffix(t: string, apex: string)
  {
    FitsWith(t, apex, 0, 0) || FitsWith(t, apex, 1, 0) || FitsWith(t, apex, 0, 1) || FitsWith(t, apex, 1, 1)
  }

  /** The leftmost position from `i` on where `\.?<apex>\.?$` matches: the
      pattern is anchored at the end, so a match from position k takes all
      of `s[k..]`. */
  function FirstSuffixStart(s: string, apex: string, i: nat): (k: Option<nat>)
    requires i <= |s|
    ensures k.Some? ==> i <= k.value <= |s| && ApexSuffix(s[k.value..], apex) &&
                        forall j :: i <= j < k.value ==> !ApexSuffix(s[j..], apex)
    ensures k.None? ==> forall j :: i <= j <= |s| ==> !ApexSuffix(s[j..], apex)
    decreases |s| - i
  {
    if ApexSuffix(s[i..], apex) then Some(i)
    else if i == |s| then None
    else FirstSuffixStart(s, apex, i + 1)
  }

  /** `name.replace(new RegExp(`\\.?${apex}\\.?$`), '')`: the first match,
      which runs to the end, is removed. */
  function StripApex(name: string, apex: string): string
  {
    match FirstSuffixStart(name, apex, 0)
    case Some(k) => name[..k]
    case None => name
  }

  /** `name.replace(/\.$/, '')`: one trailing dot is removed. */
  function StripTrailingDot(name: string): string
  {
    if |name| > 0 && name[|name| - 1] == '.' then name[..|name| - 1] else name
  }

  /** The name cleanup of `parseResendRecordsForVercel`. */
  function NormalizeName(name: string, apex: string): string
  {
    StripTrailingDot(StripApex(name, apex))
  }

  lemma ApexMatchesItself(apex: string)
    requires DomainChars(apex)
    ensures ApexMatches(apex, apex)
  {
  }

  /** The apex itself, with or without a trailing dot, becomes "". */
  lemma ApexBecomesEmpty(apex: string)
    requires DomainChars(apex)
    ensures NormalizeName(apex, apex) == ""
    ensures NormalizeName(apex + ".", apex) == ""
  {
    ApexMatchesItself(apex);
    assert (apex + ".")[0..|apex|] == apex;
    assert FitsWith(apex + ".", apex, 0, 1);
    assert (apex + ".")[0..] == apex + ".";
  }

  /** A name inside the apex, with or without a trailing dot, becomes the
      part in front of the apex. */
  lemma SubdomainBecomesRelative(sub: string, apex: string, trailing: string)
    requires DomainChars(apex) && apex != "" && apex[|apex| - 1] != '.'
    requires sub == "" || sub[|sub| - 1] != '.'
    requires trailing == "" || trailing == "."
    ensures NormalizeName(sub + "." + apex + trailing, apex) == sub
  {
    var s := sub + "." + apex + trailing;
    var b := |trailing|;
    ApexMatchesItself(apex);
    assert s[|sub|..] == "." + apex + trailing;
    assert s[|sub|..][1..1 + |apex|] == apex;
    assert FitsWith(s[|sub|..], apex, 1, b);
    forall j | 0 <= j < |sub| ensures !ApexSuffix(s[j..], apex) {
      if j == |sub| - 1 {
        assert s[j..][0] == sub[j] && s[j..][|s[j..]| - 1] == s[|s| - 1];
      }
    }
    match FirstSuffixStart(s, apex, 0)
    case Some(k) =>
      assert k == |sub|;
      assert s[..k] == sub;
    case None =>
      assert false;
  }

  /** A name that no apex match ends and that has no trailing dot, such as
      a name already relative to the apex, is kept as it is. */
  lemma UnmatchedNameKept(name: string, apex: string)
    requires forall j :: 0 <= j <= |name| ==> !ApexSuffix(name[j..], apex)
    requires name == [] || name[|name| - 1] != '.'
    ensures NormalizeName(name, apex) == name
  {
  }

  /** A name shorter than the apex can only be matched from its end, and so
      is kept when it does not end in a dot. */
  lemma ShortNameKept(name: string, apex: string)
    requires |name| < |apex|
    requires name == [] || name[|name| - 1] != '.'
    ensures NormalizeName(name, apex) == name
  {
  }

  /** The DKIM record name as the mail provider gives it for a sending
      domain under "faightclub.com" is already relative and is kept. */
  lemma RelativeDkimNameKept()
    ensures NormalizeName("resend._domainkey.mail", "faightclub.com") == "resend._domainkey.mail"
  {
    var name := "resend._domainkey.mail";
    forall j | 0 <= j <= |name| ensures !ApexSuffix(name[j..], "faightclub.com") {
      if 6 <= j <= 8 {
        var t := name[j..];
        assert t[|t| - 1] == 'l' && t[|t| - 4] == 'm';
      }
    }
    UnmatchedNameKept(name, "faightclub.com");
  }

  /** The apex goes into the pattern unescaped: each of its dots matches any
      character, so for the apex "faightclub.com" the name
      "mail.faightclubXcom" also loses its apex part. */
  lemma UnescapedDotMatchesAnyChar()
    ensures NormalizeName("mail.faightclubXcom", "faightclub.com") == "mail"
  {
    assert ApexMatches("faightclubXcom", "faightclub.com");
    assert "mail.faightclubXcom" == "mail" + "." + "faightclubXcom";
    SubdomainBecomesRelativeUnder("mail", "faightclub.com", "faightclubXcom");
  }

  /** `SubdomainBecomesRelative` for any name that the apex pattern matches. */
  lemma SubdomainBecomesRelativeUnder(sub: string, apex: string, w: string)
    requires ApexMatches(w, apex) && apex != "" && apex[|apex| - 1] != '.' && w[|w| - 1] != '.'
    requires sub == "" || sub[|sub| - 1] != '.'
    ensures NormalizeName(sub + "." + w, apex) == sub
  {
    var s := sub + "." + w;
    assert s[|sub|..] == "." + w;
    assert s[|sub|..][1..1 + |apex|] == w;
    assert FitsWith(s[|sub|..], apex, 1, 0);
    forall j | 0 <= j < |sub| ensures !ApexSuffix(s[j..], apex) {
      if j == |sub| - 1 {
        assert s[j..][0] == sub[j] && s[j..][|s[j..]| - 1] == s[|s| - 1];
      }
    }
    match FirstSuffixStart(s, apex, 0)
    case Some(k) =>
      assert k == |sub|;
      assert s[..k] == sub;
    case None =>
      assert false;
  }

  /** `parseResendRecordsForVercel(records, _, apex)`: one record per record,
      in order, with the name cleaned and type, value and priority copied. */
  function ParseRecordsForProvider(records: seq<DnsRecord>, apex: string): (out: seq<ProviderRecord>)
    ensures |out| == |records|
    ensures forall i :: 0 <= i < |records| ==>
              out[i].recordType == records[i].recordType && out[i].value == records[i].value &&
              out[i].priority == records[i].priority && out[i].name == NormalizeName(records[i].name, apex)
  {
    seq(|records|, i requires 0 <= i < |records| =>
      ProviderRecord(NormalizeName(records[i].name, apex), records[i].recordType, records[i].value, records[i].priority))
  }

  /** The first domain with exactly the given name. */
  function FirstNamed(domains: seq<Domain>, name: string): (found: Option<Domain>)
    ensures found.None? <==> forall i :: 0 <= i < |domains| ==> domains[i].name != name
    ensures found.Some? ==> exists i :: 0 <= i < |domains| && domains[i] == found.value &&
                              found.value.name == name && forall j :: 0 <= j < i ==> domains[j].name != name
    decreases |domains|
  {
    if domains == [] then None
    else if domains[0].name == name then Some(domains[0])
    else
      var rest := FirstNamed(domains[1..], name);
      assert forall i :: 1 <= i < |domains| ==> domains[i] == domains[1..][i - 1];
      if rest.Some? then
        ghost var k :| 0 <= k < |domains[1..]| && domains[1..][k] == rest.value &&
                       forall j :: 0 <= j < k ==> domains[1..][j].name != name;
        assert domains[k + 1] == rest.value;
        assert forall j :: 0 <= j < k + 1 ==> domains[j].name != name by {
          forall j | 0 <= j < k + 1 ensures domains[j].name != name {
            if j > 0 { assert domains[j] == domains[1..][j - 1]; }
          }
        }
        rest
      else rest
  }

  /** `findDomainByName(name)`: a listing error propagates; otherwise the
      first listed domain of that name, or null. */
  function FindDomainByName(listing: Result<seq<Domain>>, name: string): Result<Option<Domain>>
  {
    match listing
    case Err(message) => Err(message)
    case Ok(domains) => Ok(FirstNamed(domains, name))
  }

  /** What `ensureDomain` resolves to. */
  datatype Ensured = Ensured(domain: Domain, isNew: bool)

  /** `ensureDomain(sendingDomain)`. `creation` is what `createDomain` would
      give; it is consulted only when no domain of that name is listed. */
  function EnsureDomain(listing: Result<seq<Domain>>, sendingDomain: string, creation: Result<Domain>)
    : Result<Ensured>
  {
    match FindDomainByName(listing, sendingDomain)
    case Err(message) => Err(message)
    case Ok(Some(existing)) => Ok(Ensured(existing, false))
    case Ok(None) =>
      match creation
      case Err(message) => Err(message)
      case Ok(domain) => Ok(Ensured(domain, true))
  }

  /** A listed domain is returned as not new, and no creation outcome
      matters; a new domain is reported only when the listing has none of
      that name, and it is the created one. */
  lemma EnsureDomainReusesListed(domains: seq<Domain>, sendingDomain: string, c1: Result<Domain>, c2: Result<Domain>)
    ensures EnsureDomain(Ok(domains), sendingDomain, c1).Ok? && !EnsureDomain(Ok(domains), sendingDomain, c1).value.isNew
            <==> exists i :: 0 <= i < |domains| && domains[i].name == sendingDomain
    ensures (exists i :: 0 <= i < |domains| && domains[i].name == sendingDomain) ==>
              EnsureDomain(Ok(domains), sendingDomain, c1) == EnsureDomain(Ok(domains), sendingDomain, c2) &&
              EnsureDomain(Ok(domains), sendingDomain, c1).value.domain.name == sendingDomain
    ensures EnsureDomain(Ok(domains), sendingDomain, c1).Ok? && EnsureDomain(Ok(domains), sendingDomain, c1).value.isNew ==>
              c1.Ok? && EnsureDomain(Ok(domains), sendingDomain, c1).value.domain == c1.value &&
              forall i :: 0 <= i < |domains| ==> domains[i].name != sendingDomain
  {
  }

  /** The steps of the poll, in order. */
  datatype PollStep = Fetch | Verify(succeeded: bool) | Sleep(ms: int)

  /** What `pollVerification` resolves to. */
  datatype PollResult = PollResult(verified: bool, domain: Domain)

  /** The number of loop rounds `maxAttempts` allows. */
  function Rounds(maxAttempts: int): nat
  {
    if maxAttempts > 0 then maxAttempts else 0
  }

  /** The poll from round `attempt` on: its result and its steps.
      `fetches[j]` is what the j-th `getDomain` gives and `verifies[j]`
      whether the j-th `verifyDomain` succeeds. */
  function Poll(fetches: seq<Result<Domain>>, verifies: seq<bool>, maxAttempts: int, intervalMs: int, attempt: nat)
    : (Result<PollResult>, seq<PollStep>)
    requires attempt <= Rounds(maxAttempts) < |fetches| && Rounds(maxAttempts) <= |verifies|
    decreases Rounds(maxAttempts) - attempt
  {
    if attempt == Rounds(maxAttempts) then
      match fetches[attempt]
      case Err(message) => (Err(message), [Fetch])
      case Ok(domain) => (Ok(PollResult(domain.status == "verified", domain)), [Fetch])
    else
      match fetches[attempt]
      case Err(message) => (Err(message), [Fetch])
      case Ok(domain) =>
        if domain.status == "verified" then (Ok(PollResult(true, domain)), [Fetch])
        else if domain.status == "failed" then (Ok(PollResult(false, domain)), [Fetch])
        else
          var (result, steps) := Poll(fetches, verifies, maxAttempts, intervalMs, attempt + 1);
          (result, [Fetch, Verify(verifies[attempt])] +
                   (if attempt < maxAttempts - 1 then [Sleep(intervalMs)] else []) + steps)
  }

  function CountFetches(steps: seq<PollStep>): nat
  {
    if steps == [] then 0 else (if steps[0] == Fetch then 1 else 0) + CountFetches(steps[1..])
  }

  lemma CountFetchesAppend(a: seq<PollStep>, b: seq<PollStep>)
    ensures CountFetches(a + b) == CountFetches(a) + CountFetches(b)
  {
    if a != [] {
      assert (a + b)[1..] == a[1..] + b;
      CountFetchesAppend(a[1..], b);
    } else {
      assert a + b == b;
    }
  }

  /** The poll fetches at most once per round plus once more, ends with a
      fetch, and never sleeps except right before a fetch (so not after the
      last round). */
  lemma {:induction false} PollSteps(fetches: seq<Result<Domain>>, verifies: seq<bool>, maxAttempts: int,
                                     intervalMs: int, attempt: nat)
    requires attempt <= Rounds(maxAttempts) < |fetches| && Rounds(maxAttempts) <= |verifies|
    ensures var steps := Poll(fetches, verifies, maxAttempts, intervalMs, attempt).1;
      |steps| > 0 && steps[|steps| - 1] == Fetch && steps[0] == Fetch &&
      CountFetches(steps) <= Rounds(maxAttempts) - attempt + 1 &&
      forall i :: 0 <= i < |steps| && steps[i].Sleep? ==> i + 1 < |steps| && steps[i + 1] == Fetch
    decreases Rounds(maxAttempts) - attempt
  {
    if attempt < Rounds(maxAttempts) && fetches[attempt].Ok? &&
       fetches[attempt].value.status != "verified" && fetches[attempt].value.status != "failed" {
      PollSteps(fetches, verifies, maxAttempts, intervalMs, attempt + 1);
      var rest := Poll(fetches, verifies, maxAttempts, intervalMs, attempt + 1).1;
      var sleep := if attempt < maxAttempts - 1 then [Sleep(intervalMs)] else [];
      assert Poll(fetches, verifies, maxAttempts, intervalMs, attempt).1 ==
             [Fetch, Verify(verifies[attempt])] + sleep + rest;
      RoundSteps(verifies[attempt], sleep, intervalMs, rest);
    }
  }

  /** One more round in front of well-shaped steps keeps them well shaped
      and adds one fetch. */
  lemma RoundSteps(ok: bool, sleep: seq<PollStep>, intervalMs: int, rest: seq<PollStep>)
    requires sleep == [] || sleep == [Sleep(intervalMs)]
    requires |rest| > 0 && rest[0] == Fetch && rest[|rest| - 1] == Fetch
    requires forall i :: 0 <= i < |rest| && rest[i].Sleep? ==> i + 1 < |rest| && rest[i + 1] == Fetch
    ensures var steps := [Fetch, Verify(ok)] + sleep + rest;
      |steps| > 0 && steps[|steps| - 1] == Fetch && steps[0] == Fetch &&
      CountFetches(steps) == CountFetches(rest) + 1 &&
      forall i :: 0 <= i < |steps| && steps[i].Sleep? ==> i + 1 < |steps| && steps[i + 1] == Fetch
  {
    var head := [Fetch, Verify(ok)] + sleep;
    var steps := head + rest;
    CountFetchesAppend(head, rest);
    assert CountFetches(head) == 1 by {
      assert head[1..] == [Verify(ok)] + sleep;
      assert head[1..][1..] == sleep;
      assert CountFetches(sleep) == 0 by {
        if sleep != [] { assert sleep[1..] == []; }
      }
    }
    forall i | 0 <= i < |steps| && steps[i].Sleep? ensures i + 1 < |steps| && steps[i + 1] == Fetch {
      if i >= |head| {
        assert steps[i] == rest[i - |head|];
        assert steps[i + 1] == rest[i + 1 - |head|];
      } else {
        assert i == 2 && |head| == 3;
        assert steps[i + 1] == rest[0];
      }
    }
  }

  /** The first fetched state that is 'verified' or 'failed' within the
      rounds decides the poll: verified exactly when it is 'verified'. */
  lemma {:induction false} PollStopsAtFirstDecisive(fetches: seq<Result<Domain>>, verifies: seq<bool>,
                                                    maxAttempts: int, intervalMs: int, attempt: nat, k: nat)
    requires attempt <= k < Rounds(maxAttempts) < |fetches| && Rounds(maxAttempts) <= |verifies|
    requires forall j :: attempt <= j < k ==>
               fetches[j].Ok? && fetches[j].value.status != "verified" && fetches[j].value.status != "failed"
    requires fetches[k].Ok? && (fetches[k].value.status == "verified" || fetches[k].value.status == "failed")
    ensures Poll(fetches, verifies, maxAttempts, intervalMs, attempt).0 ==
              Ok(PollResult(fetches[k].value.status == "verified", fetches[k].value))
    decreases k - attempt
  {
    if attempt < k {
      PollStopsAtFirstDecisive(fetches, verifies, maxAttempts, intervalMs, attempt + 1, k);
    }
  }

  /** When no round sees 'verified' or 'failed', the poll reports the state
      of the one extra fetch after the last round. */
  lemma {:induction false} PollTimesOut(fetches: seq<Result<Domain>>, verifies: seq<bool>,
                                        maxAttempts: int, intervalMs: int, attempt: nat)
    requires attempt <= Rounds(maxAttempts) < |fetches| && Rounds(maxAttempts) <= |verifies|
    requires forall j :: attempt <= j < Rounds(maxAttempts) ==>
               fetches[j].Ok? && fetches[j].value.status != "verified" && fetches[j].value.status != "failed"
    requires fetches[Rounds(maxAttempts)].Ok?
    ensures var d := fetches[Rounds(maxAttempts)].value;
      Poll(fetches, verifies, maxAttempts, intervalMs, attempt).0 == Ok(PollResult(d.status == "verified", d))
    decreases Rounds(maxAttempts) - attempt
  {
    if attempt < Rounds(maxAttempts) {
      PollTimesOut(fetches, verifies, maxAttempts, intervalMs, attempt + 1);
    }
  }

  /** The outcomes of the verification triggers do not change the result. */
  lemma {:induction false} PollIgnoresVerifyErrors(fetches: seq<Result<Domain>>, v1: seq<bool>, v2: seq<bool>,
                                                   maxAttempts: int, intervalMs: int, attempt: nat)
    requires attempt <= Rounds(maxAttempts) < |fetches| && Rounds(maxAttempts) <= |v1| && Rounds(maxAttempts) <= |v2|
    ensures Poll(fetches, v1, maxAttempts, intervalMs, attempt).0 == Poll(fetches, v2, maxAttempts, intervalMs, attempt).0
    decreases Rounds(maxAttempts) - attempt
  {
    if attempt < Rounds(maxAttempts) {
      PollIgnoresVerifyErrors(fetches, v1, v2, maxAttempts, intervalMs, attempt + 1);
    }
  }

  /** `pollVerification(domainId, maxAttempts, intervalMs)`; `steps` records
      the fetches, verification triggers and sleeps in the order made. */
  method PollVerification(fetches: seq<Result<Domain>>, verifies: seq<bool>, maxAttempts: int, intervalMs: int)
    returns (r: Result<PollResult>, steps: seq<PollStep>)
    requires Rounds(maxAttempts) < |fetches| && Rounds(maxAttempts) <= |verifies|
    ensures (r, steps) == Poll(fetches, verifies, maxAttempts, intervalMs, 0)
  {
    ghost var total := Poll(fetches, verifies, maxAttempts, intervalMs, 0);
    steps := [];
    var attempt := 0;
    while attempt < maxAttempts
      invariant 0 <= attempt <= Rounds(maxAttempts)
      invariant total.0 == Poll(fetches, verifies, maxAttempts, intervalMs, attempt).0
      invariant total.1 == steps + Poll(fetches, verifies, maxAttempts, intervalMs, attempt).1
      decreases maxAttempts - attempt
    {
      ghost var here := Poll(fetches, verifies, maxAttempts, intervalMs, attempt);
      ghost var next := Poll(fetches, verifies, maxAttempts, intervalMs, attempt + 1);
      var fetched := fetches[attempt];
      steps := steps + [Fetch];
      if fetched.Err? {
        return Err(fetched.message), steps;
      }
      var domain := fetched.value;
      if domain.status == "verified" {
        return Ok(PollResult(true, domain)), steps;
      }
      if domain.status == "failed" {
        return Ok(PollResult(false, domain)), steps;
      }
      ghost var head := [Fetch, Verify(verifies[attempt])] +
                        (if attempt < maxAttempts - 1 then [Sleep(intervalMs)] else []);
      assert here == (next.0, head + next.1);
      steps := steps + [Verify(verifies[attempt])];
      if attempt < maxAttempts - 1 {
        steps := steps + [Sleep(intervalMs)];
      }
      assert total.1 == steps + next.1;
      attempt := attempt + 1;
    }
    var fetched := fetches[attempt];
    steps := steps + [Fetch];
    if fetched.Err? {
      return Err(fetched.message), steps;
    }
    r := Ok(PollResult(fetched.value.status == "verified", fetched.value));
  }
}
