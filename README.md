# faightclub core, modelled in Dafny

faightclub stages "battles" between two AI coding agents. A battle has a fixed pipeline:
- each agent generates code;
- each agent refines its own code;
- a critic compares the two refined solutions;
- a judge picks the winner.

Each stage is streamed to the browser as a Server-Sent Event. The finished battle is stored, and the leaderboard is updated.

This project models the pieces that shape those battles and their stored results:
- the prompt builders and agent pairing;
- the stage-event protocol;
- the battle pipeline;
- the battle record and leaderboard update;
- seeding of demo battles;
- the per-IP rate limiter of the battle endpoint;
- access keys and their cache;
- the checkout endpoint.

It also models the email side:
- the mail provider's domain and DNS-record helpers;
- the DNS provider's record upsert;
- the admin status report;
- the test-email endpoint.

There is one module per source file. Lists, maps and tables are values. The in-memory maps and tables that the source mutates are fields of classes:
- `RateLimiter`;
- `EntitlementService`;
- `Database`;
- `SSEStream`.

Everything the code learns from outside is a parameter. This covers the completion service's answers, `JSON.parse`, `JSON.stringify`, `Math.random`'s shuffle, `Date.now()`, and the HTTP and database calls' results.

Strings are sequences of characters. Scores and averages are `real`.

A completion request names its system prompt by its key in `SYSTEM_PROMPTS` (`Prompts.SystemRole`). `Prompts.SystemPrompt` gives the text for each key.

## Model

| member | source | states |
|---|---|---|
| Common.Trim | app/api/stripe/create-checkout/route.ts:12-14 | `trim()` removes exactly the leading and trailing JavaScript white space and line terminators and keeps the infix between them |
| Common.NatToStringRoundTrip | app/api/admin/resend/status/route.ts:86-87 | the decimal text a template string prints for a count reads back as that count |
| Streaming.AllStagesEnumerated | lib/streaming.ts:1-9 | the stage union has exactly eight members, listed in pipeline order |
| Streaming.StageNamesDistinct | lib/streaming.ts:1-9 | two stages serialise to the same literal only if they are the same stage |
| Streaming.EncodeSSE | lib/streaming.ts:18-20 | a frame is `data: ` + the JSON text + a blank line, and the JSON text sits at offset 6 |
| Streaming.DecodeEncode | lib/streaming.ts:18-20 | a client cutting the frame's prefix and suffix gets the JSON text back |
| Streaming.EncodeInjective | lib/streaming.ts:18-20 | different JSON texts give different frames |
| Streaming.FramesAppend | lib/streaming.ts:18-20 | framing a stream of events is framing each event in order |
| Streaming.SSEStream.Enqueue | lib/streaming.ts:37-39 | a write appends the chunk to the readable side and leaves the stream open |
| Streaming.SSEStream.Close | lib/streaming.ts:40-42 | closing keeps every chunk written so far |
| Streaming.SendStage | lib/streaming.ts:52-58 | one write, carrying exactly the event's frame |
| Prompts.AgentNamesDistinct | lib/prompts.ts:3 | there are six agent names and no two are equal |
| Prompts.PermutationHeadDistinct | lib/prompts.ts:5-8 | any shuffle of the names has six entries, and its first two differ |
| Prompts.AgentPair | lib/prompts.ts:5-8 | the pair is two different agents from AGENT_NAMES |
| Prompts.GeneratorPrompt | lib/prompts.ts:41-43 | the task follows "Task: ", the agent's name follows "You are ", and the fixed instruction ends it |
| Prompts.GeneratorPromptSeparatesAgents | lib/prompts.ts:41-43 | for one task, two agents get the same prompt only if they are the same agent |
| Prompts.RefinerPrompt | lib/prompts.ts:45-47 | a fixed head, followed by the code verbatim |
| Prompts.RefinerRoundTrip | lib/prompts.ts:45-47 | cutting the head off a refiner prompt gives back the code |
| Prompts.CriticPrompt | lib/prompts.ts:49-51 | code A sits between the `[A]` and `[B]` markers, and code B ends the prompt |
| Prompts.JudgePrompt | lib/prompts.ts:53-59 | code A, code B and the critique appear in that order under their markers, then "Pick winner." |
| Prompts.JudgePromptSeparatesCritiques | lib/prompts.ts:53-59 | for the same codes, different critiques give different judge prompts |
| Arena.Replies | lib/arena.ts:43-103 | the texts of the completion calls up to the first one that throws |
| Arena.TraceInStageOrder | lib/arena.ts:38-115 | the events sent never go back to an earlier stage |
| Arena.CallsReported | lib/arena.ts:42-111 | each completion call is announced by a data-less event before it runs and reported with its raw text after |
| Arena.CompletedTrace | lib/arena.ts:38-115 | a finished battle sends 14 events: it opens with "A vs B" and closes with the winner's name |
| Arena.FailedBattle | lib/arena.ts:43-103 | the k-th call failing rejects the battle with its error after k + 1 requests and 2k + 2 events, the last being that stage's started event; no winner is announced |
| Arena.RequestsChain | lib/arena.ts:43-103 | the refiners get the generated codes, the critic both refined codes, and the judge those plus the raw critique; each call gets its role's system prompt; premium model for the first four calls; temperature 0.3 only for the judge |
| Arena.AgentsPromptedApart | lib/arena.ts:43-56 | the two generators never receive the same prompt |
| Arena.CritiqueFallback | lib/arena.ts:85-94 | unparseable critique text gives the 'Parse error' critique; the raw text is still streamed and stored |
| Arena.JudgmentFallback | lib/arena.ts:105-111 | unparseable judgment text defaults to side A at 50 to 50; agent A is announced and stored as the winner |
| Arena.WinnerAnnouncedAndCredited | lib/arena.ts:114-133 | agent A is announced exactly when the judged side is 'A'; for side A or B, the leaderboard gives that agent the win and the other one a battle |
| Arena.UnknownSideAnnouncedNotCredited | lib/arena.ts:114-133 | a parsed side other than 'A' or 'B' announces agent B but leaves the leaderboard unchanged |
| Arena.RecordMatchesResult | lib/arena.ts:118-144 | the stored record and the returned result agree on agents, codes, judged side and scores |
| Arena.FailedAt | lib/arena.ts:43-103 | the events and requests when the pipeline stops at a failing call |
| Arena.SucceededWith | lib/arena.ts:113-144 | the events, requests and result when all six calls answer |
| Arena.Stage | lib/arena.ts:41-48 | one completion stage: the started event, the call, and the finished event or the error |
| Arena.GenerateAndRefine | lib/arena.ts:38-75 | the first four stages, or the error of the first failing call |
| Arena.Generate | lib/arena.ts:38-56 | the entering event and both generation stages, or the error of the first failing call |
| Arena.Refine | lib/arena.ts:58-75 | both refinement stages, each refining that agent's generated code, or the error of the first failing call |
| Arena.RunBattle | lib/arena.ts:26-145 | the outcome, events and requests are those of the specification; the stream gets exactly the events' frames; the battle is stored and the leaderboard updated only after a success, and only when the insert succeeds |
| SupabaseAdmin.Lookup | lib/supabase-admin.ts:55-59 | `.eq('agent_name', name).single()` finds the row exactly when the name has one |
| SupabaseAdmin.UpdateCreditsBothSides | lib/supabase-admin.ts:48-103 | for side A or B, the judged agent gains a win and a battle, the other agent gains only a battle, and each average takes that side's score |
| SupabaseAdmin.UpdateIgnoresUnknownSide | lib/supabase-admin.ts:49-50 | a side other than 'A' or 'B' leaves the table as it was |
| SupabaseAdmin.UpdateFrame | lib/supabase-admin.ts:48-103 | only the two credited agents' rows can change |
| SupabaseAdmin.UpdateKeepsWinsWithinBattles | lib/supabase-admin.ts:61-100 | wins ≤ battles in every row is preserved by an update |
| SupabaseAdmin.CreditOrderIrrelevant | lib/supabase-admin.ts:53-102 | crediting the winner and the loser commute when they are different agents |
| SupabaseAdmin.RunningMean | lib/supabase-admin.ts:62-100 | the `(avg·n + s)/(n+1)` update keeps avg_score the mean of every score the agent received |
| SupabaseAdmin.TwoBattlesAverage | lib/supabase-admin.ts:62-100 | after two battles an agent's average is the mean of its two scores |
| SupabaseAdmin.Database.InsertBattle | lib/supabase-admin.ts:37-46 | appends the record, leaving the leaderboard unchanged |
| SupabaseAdmin.Database.UpsertWinner | lib/supabase-admin.ts:54-77 | update-or-insert of the winner's row |
| SupabaseAdmin.Database.UpsertLoser | lib/supabase-admin.ts:80-102 | update-or-insert of the loser's row |
| SupabaseAdmin.Database.UpdateLeaderboard | lib/supabase-admin.ts:48-103 | the table afterwards is `LeaderboardAfter` of the old one, and battles are unchanged |
| RunBattleRoute.FreshWindow | app/api/run-battle/route.ts:17-20 | a missing or expired entry admits and opens a new one-minute window with count 1 |
| RunBattleRoute.WithinWindow | app/api/run-battle/route.ts:22-27 | inside a window, admits exactly while the count is below 10, and counts each admission |
| RunBattleRoute.CheckFrame | app/api/run-battle/route.ts:13-28 | a check touches only the caller's entry |
| RunBattleRoute.CheckKeepsCountsBounded | app/api/run-battle/route.ts:13-28 | every count stays between 1 and 10 |
| RunBattleRoute.WindowAdmissions | app/api/run-battle/route.ts:22-27 | within one window, the i-th further request is admitted exactly when count + i < 10 |
| RunBattleRoute.EleventhRejected | app/api/run-battle/route.ts:10-28 | of the requests falling within the minute opened by the first, exactly the first ten are admitted |
| RunBattleRoute.SweepInvisible | app/api/run-battle/route.ts:31-38 | the cleanup sweep never changes a later check's answer or the entry it leaves |
| RunBattleRoute.RateLimiter.CheckRateLimit | app/api/run-battle/route.ts:13-28 | admission and new map as `Check` |
| RunBattleRoute.RateLimiter.Cleanup | app/api/run-battle/route.ts:31-38 | removes exactly the entries whose window has passed and keeps the others unchanged |
| RunBattleRoute.ClientIp | app/api/run-battle/route.ts:41-43 | x-forwarded-for if truthy, else x-real-ip if truthy, else "unknown"; never empty |
| RunBattleRoute.Get | app/api/run-battle/route.ts:40-99 | checks run in order: 429, then a missing prompt (400), then an over-long prompt (400), and only then a battle; the quota is spent even on a rejected prompt; the stream holds the battle's frames, plus an error frame on failure, and is closed |
| Entitlements.TierLimits | lib/entitlements.ts:102-113 | every tier, and no tier, gets at least 3 battles a day and 2000 prompt characters |
| Entitlements.TierLimitsOrdered | lib/entitlements.ts:102-113 | builder ≥ pro ≥ sponsor ≥ free; unknown tiers get the free limits |
| Entitlements.Single | lib/entitlements.ts:38 | `.single()` gives a row exactly when one row matches |
| Entitlements.FilterComplete | lib/entitlements.ts:32-38 | every row satisfying the query is selected |
| Entitlements.ValidateCachesAnswer | lib/entitlements.ts:76-100 | after a validation, the key's cache entry holds exactly the answer returned |
| Entitlements.ValidateFindsActiveRow | lib/entitlements.ts:84-99 | an entitlement is found exactly when a single active row holds the key; it is that row, and no other active row holds the key |
| Entitlements.AnswerStableUntilExpiry | lib/entitlements.ts:78-81 | until the entry expires, the answer ignores changes to the table |
| Entitlements.MissCachedFiveMinutes | lib/entitlements.ts:91-98 | a looked-up answer, found or not, is cached for exactly five minutes |
| Entitlements.OrOld | lib/entitlements.ts:46-47 | a supplied Stripe id wins, and otherwise the stored one stays |
| Entitlements.WithStripeIds | lib/entitlements.ts:43-50 | rows with another id are unchanged, and no row's id, key, email or status changes |
| Entitlements.StripeIdsKeptUnlessSupplied | lib/entitlements.ts:42-50 | the Stripe ids of the reused row are replaced only by truthy arguments |
| Entitlements.EntitlementService.ValidateAccessKey | lib/entitlements.ts:76-100 | the answer and cache are those of `Validate`; the table is untouched |
| Entitlements.EntitlementService.ClearEntitlementCache | lib/entitlements.ts:115-121 | a truthy key removes that entry alone, and otherwise the cache is emptied |
| Entitlements.EntitlementService.CreateOrReuseEntitlement | lib/entitlements.ts:25-74 | reuses the active row for the lower-cased email and tier; otherwise inserts one with a fresh key, or throws "Failed to create entitlement: …" |
| Entitlements.InsertedRowIsReused | lib/entitlements.ts:31-74 | after a purchase inserts a row, a second purchase with the same email, ignoring ASCII case only, and tier finds it |
| Seed.SeedBattlesJudged | lib/seed.ts:4-54 | the three seeds are played on the first three seed prompts, judged as listed, and store their own codes and critique |
| Seed.SeedBattlesWellFormed | lib/seed.ts:18-54 | each seed pits two different agents of AGENT_NAMES, picks side A or B with scores in 0..100, gives the picked side the higher score, and has a reason opening with "<winner> wins" |
| Seed.SideBCreditsAgentATwice | lib/seed.ts:79 | as written, a side-B seed credits agent A both the win and the loss, and agent B not at all |
| Seed.IntendedUpdateMatchesShared | lib/seed.ts:89-139 | with agent B passed as the loser, the file's own update equals lib/supabase-admin.ts's |
| Seed.SeedingInOrder | lib/seed.ts:75-84 | seeds are credited one after another, first to last |
| Seed.SeededFromEmpty | lib/seed.ts:75-84 | as written, seeding an empty table gives Zenith 1 win in 2 battles at 82, and Blaze no row |
| Seed.IntendedSeededFromEmpty | lib/seed.ts:75-84 | with the intended call, every seed's agents have one battle each, and the winners one win, at their own scores |
| Seed.SeedingKeepsWinsWithinBattles | lib/seed.ts:75-84 | wins ≤ battles is preserved by seeding |
| Seed.SeedUpdateLeaderboard | lib/seed.ts:89-139 | update-or-insert of the winner's row, then of the loser's |
| Seed.SeedAll | lib/seed.ts:57-87 | a non-zero count skips; an insert error throws with nothing changed; otherwise all seeds are appended, each credited in order with the loser argument the call site passes, and the count is returned |
| Seed.SeedBattlesOnce | lib/seed.ts:57-87 | `seedBattles` over SEED_BATTLES: skip, error, or three seeds inserted and credited as written, so an empty table ends as `Seed.SeededFromEmpty` states |
| VercelDns.TeamParamRoundTrip | lib/vercel-dns.ts:50-53 | a set team id comes back out of `?teamId=…`; an unset or empty one gives "" |
| VercelDns.FindMatchingRecord | lib/vercel-dns.ts:130-142 | the first record equal in type, name and value; none only when no record matches |
| VercelDns.CreateBodyFields | lib/vercel-dns.ts:84-91 | the body carries name, type and value; ttl only when set and non-zero; priority whenever set |
| VercelDns.KeysPartition | lib/vercel-dns.ts:171-206 | created, existing and failed together hold one key per required record |
| VercelDns.KeysComplete | lib/vercel-dns.ts:180-203 | each record's `type:name` key is in the list of its own outcome, and each listed key comes from such a record |
| VercelDns.DispositionByListing | lib/vercel-dns.ts:184-202 | a record is existing exactly when the listing has it, and its creation is then not attempted; otherwise it is created or failed as the creation goes |
| VercelDns.ListingNotRefreshed | lib/vercel-dns.ts:175-194 | the listing is read once, so a record required twice is created twice |
| VercelDns.UpsertDnsRecords | lib/vercel-dns.ts:171-206 | a listing error propagates; otherwise the three lists are those of `KeysWith` |
| ResendDomain.FirstSuffixStart | lib/resend-domain.ts:154 | the leftmost position where `\.?<apex>\.?$` matches |
| ResendDomain.ApexBecomesEmpty | lib/resend-domain.ts:150-163 | the apex itself, with or without a trailing dot, normalises to "" |
| ResendDomain.SubdomainBecomesRelative | lib/resend-domain.ts:150-163 | `sub.apex` and `sub.apex.` normalise to `sub` |
| ResendDomain.SubdomainBecomesRelativeUnder | lib/resend-domain.ts:154 | the same for every name that the unescaped apex pattern matches |
| ResendDomain.UnmatchedNameKept | lib/resend-domain.ts:154-155 | a name that the pattern does not match, without a trailing dot, is kept unchanged |
| ResendDomain.ShortNameKept | lib/resend-domain.ts:154-155 | a name shorter than the apex, without a trailing dot, is kept |
| ResendDomain.RelativeDkimNameKept | lib/resend-domain.ts:139-143 | the relative DKIM name "resend._domainkey.mail" is passed through unchanged |
| ResendDomain.UnescapedDotMatchesAnyChar | lib/resend-domain.ts:154 | because the apex is unescaped, "mail.faightclubXcom" is stripped to "mail" |
| ResendDomain.ParseRecordsForProvider | lib/resend-domain.ts:145-164 | one output per record, in order, with the name normalised and type, value and priority copied |
| ResendDomain.FirstNamed | lib/resend-domain.ts:81-84 | the first domain with exactly that name; none only when no domain has it |
| ResendDomain.EnsureDomainReusesListed | lib/resend-domain.ts:169-182 | a listed domain is returned as not new without creating one; a new domain is returned only when none was listed |
| ResendDomain.PollSteps | lib/resend-domain.ts:187-219 | the poll begins and ends with a fetch, fetches at most once per round plus once more, and sleeps only right before a fetch, so never after the last round |
| ResendDomain.PollStopsAtFirstDecisive | lib/resend-domain.ts:192-201 | the first 'verified' or 'failed' state within the rounds decides the result |
| ResendDomain.PollTimesOut | lib/resend-domain.ts:216-218 | with no decisive round, the result is the final fetch, verified exactly when its status is 'verified' |
| ResendDomain.PollIgnoresVerifyErrors | lib/resend-domain.ts:204-208 | the verification triggers' failures never change the result |
| ResendDomain.PollVerification | lib/resend-domain.ts:187-219 | the loop's result and steps are `Poll`'s |
| ResendStatusRoute.ConfigOf | app/api/admin/resend/status/route.ts:17-20 | defaults for an unset or empty domain or sender; each flag is on only for exactly "true" |
| ResendStatusRoute.RecordsPartitioned | app/api/admin/resend/status/route.ts:45-47 | every record counts once, as verified or pending |
| ResendStatusRoute.NextStepsCases | app/api/admin/resend/status/route.ts:82-95 | 3 steps while unverified, with the pending count when there is one; 2 when verified on the shared sender, suggesting keys@domain; else 1 |
| ResendStatusRoute.UnauthorizedUnlessSecretsMatch | app/api/admin/resend/status/route.ts:11-15 | 401 exactly when the trimmed secrets are not both non-empty and equal |
| ResendStatusRoute.ReportConsistent | app/api/admin/resend/status/route.ts:42-96 | verified + pending = total = number of records; ready exactly when verified, on a custom sender, and enabled |
| ResendStatusRoute.UnknownDomainOrError | app/api/admin/resend/status/route.ts:22-109 | an unlisted domain gives the not-configured report; an error of either call gives 500 with its message and the sending domain, from-address and email flag, but not the auto-DNS flag |
| ResendStatusRoute.DefaultSenderNeverReady | app/api/admin/resend/status/route.ts:18-50 | with FROM_EMAIL unset the sender is on resend.dev, so the report is never ready |
| TestEmailRoute.RegexCharacterised | app/api/test-email/route.ts:16-17 | the regular expression accepts exactly: no white space, one '@' not in front, and a '.' strictly inside the part after it |
| TestEmailRoute.SpaceOrSecondAtRejected | app/api/test-email/route.ts:16-17 | any white space or a second '@' fails the test |
| TestEmailRoute.SampleAccepted | app/api/test-email/route.ts:16 | "a@b.co" passes |
| TestEmailRoute.ChecksPrecedeSending | app/api/test-email/route.ts:8-22 | a missing or empty address, then a badly formed one, get 400 before any send |
| TestEmailRoute.SendOutcomeReported | app/api/test-email/route.ts:24-45 | the id on success; otherwise 500 with the error, or "Failed to send email" |
| CreateCheckoutRoute.PaymentsSwitchFirst | app/api/stripe/create-checkout/route.ts:23-28 | 503 exactly when PAYMENTS_ENABLED does not trim to "true", whatever the body |
| CreateCheckoutRoute.TierAndPriceGuards | app/api/stripe/create-checkout/route.ts:33-46 | 400 exactly for a tier other than pro, builder and sponsor; 500 for an unconfigured price; a session only when both pass |
| CreateCheckoutRoute.SessionShape | app/api/stripe/create-checkout/route.ts:48-63 | subscription exactly for pro and builder; a customer and payment-intent data only for a payment; one line item of quantity 1 at the trimmed price |
| CreateCheckoutRoute.AppUrlDefault | app/api/stripe/create-checkout/route.ts:8 | APP_URL is the trimmed NEXT_PUBLIC_APP_URL when that is set and non-empty, and "https://faightclub.com" otherwise |
| CreateCheckoutRoute.SessionUrls | app/api/stripe/create-checkout/route.ts:58-59 | both return URLs start with APP_URL; the success URL ends with the session-id placeholder page and the cancel URL with `/?canceled=1` |
| CreateCheckoutRoute.SessionOutcome | app/api/stripe/create-checkout/route.ts:50-73 | the session's URL, or 500 when its creation fails |

## Left out

- Network, database and completion-service failures beyond the ones named are not modelled. Each external call's outcome is a parameter.
- Asynchrony is not modelled: every `await` is taken in order, and the stream's two ends are one list of chunks.
- `TextEncoder` is left out: chunks are strings, not bytes, and lengths count characters rather than UTF-16 code units.
- `setInterval` is left out: its periodic timer is one `Cleanup(now)` call.
- `Date.now()` is a parameter: the two readings of `validateAccessKey` are one `now`.
- Missing Supabase environment variables at import time are not modelled.
- `generateAccessKey` is left out: its random bytes are the caller's new key.
- `updated_at` is left out: the entitlement update's timestamp is not kept.
- Arena.RunBattle: when `insertBattle` succeeds but the leaderboard update throws, the error is caught and the battle resolves; the model treats the update as succeeding.
- SupabaseAdmin.Database.UpsertWinner: the select-then-write race between concurrent battles is not modelled; calls are sequential.
- Entitlements.TierLimits: the route handlers do not consult it, and only the table itself is modelled.
- VercelDns.UpsertDnsRecords: `data.records || []` is not modelled; a listing is a sequence or an error.
- VercelDns: `getHeaders` failing without `VERCEL_TOKEN` is not modelled.
- VercelDns: `deleteDnsRecord` and `checkVercelNameservers` are left out; they are plain fetches with no logic of their own.
- ResendDomain.ParseRecordsForProvider: regular-expression metacharacters in the apex other than '.' are not modelled. The apex is assumed to be a domain name.
- ResendDomain: the unused `ttl` field of records is dropped.
- Common.ToLower: only the ASCII letters 'A'..'Z' are folded. `toLowerCase` folds every Unicode letter and may change the length, so Entitlements.EntitlementService.CreateOrReuseEntitlement and Entitlements.InsertedRowIsReused ignore ASCII case only.
- ResendDomain: `getHeaders` failing without the API key is not modelled.
- ResendDomain: `listDomains`' `data.data || []` is not modelled.
- ResendDomain: `createDomain`, `verifyDomain` and `deleteDomain` are modelled only as outcomes.
- ResendStatusRoute.Get: `freshDomain.records || []` is not modelled; records are always a sequence.
- ResendStatusRoute.Get: a non-Error throw's "Unknown error" is not modelled; errors carry their message.
- CreateCheckoutRoute: the payment SDK and its API version are left out.
- CreateCheckoutRoute: the contents of `payment_intent_data` are left out; only its presence is modelled.
- CreateCheckoutRoute: a request body that parses to `null` is the parse error case.
- TestEmailRoute: `sendTestEmail` is a parameter.
- Arena.CritiqueFallback: `JSON.parse` is an oracle, so a parsed critique or judgment of the wrong shape is taken as parsed.
- Seed.SeedBattles: the generated codes, refined codes and critiques of SEED_BATTLES (lib/seed.ts:18-54) are not reproduced verbatim. They are the `SeedCorpus` parameter, because nothing reads them and the long literals are too costly to verify. Every seed lemma holds for any texts.

## Findings

| source | as written | input that shows it | evidently intended | confidence | as-written member | corrected member |
|---|---|---|---|---|---|---|
| lib/seed.ts:79 | `battle.winner === 'A' ? battle.agent_b_name : battle.agent_a_name` is passed as `loserName`. `updateLeaderboard` then takes `loserName` as the winner of side 'B' and `agentAName` as its loser, so agent A is credited twice. | the third seed (Zenith vs Blaze, side 'B', 80 to 84) on an empty leaderboard: Zenith ends with 1 win in 2 battles at 82, and Blaze gets no row | pass `agent_b_name` whichever side won, as `runBattle` does: Zenith 0 wins in 1 battle at 80, Blaze 1 win in 1 battle at 84 | not executed | Seed.SeededFromEmpty | Seed.IntendedSeededFromEmpty |
