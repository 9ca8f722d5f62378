/** app/api/run-battle/route.ts: the per-IP fixed-window rate limiter, its
    cleanup sweep, and the `GET` handler that admits a request, validates
    the prompt and streams one battle. */
module RunBattleRoute {
  import opened Common
  import opened Streaming
  import opened SupabaseAdmin
  import opened Arena

  /** `RATE_LIMIT`: admissions per window. */
  const RateLimit: nat := 10
  /** `RATE_WINDOW`: one minute, in milliseconds. */
  const RateWindow: int := 60 * 1000
  /** The longest prompt the handler accepts. */
  const MaxPromptLength: nat := 2000

  /** A `rateLimitMap` value. */
  datatype Entry = Entry(count: nat, resetAt: int)

  /** One `checkRateLimit(ip)` at time `now`: whether it admits, and the map
      afterwards. A missing or expired entry (strictly `now > resetAt`)
      opens a fresh window; within a window a full count rejects and leaves
      the map alone; otherwise the count goes up by one. */
  function Check(entries: map<string, Entry>, ip: string, now: int): (bool, map<string, Entry>)
  {
    if ip !in entries || now > entries[ip].resetAt then (true, entries[ip := Entry(1, now + RateWindow)])
    else if entries[ip].count >= RateLimit then (false, entries)
    else (true, entries[ip := Entry(entries[ip].count + 1, entries[ip].resetAt)])
  }

  /** A missing or expired entry admits and restarts the window at `now`. */
  lemma FreshWindow(entries: map<string, Entry>, ip: string, now: int)
    requires ip !in entries || now > entries[ip].resetAt
    ensures var (admitted, after) := Check(entries, ip, now);
      admitted && ip in after && after[ip] == Entry(1, now + 60000)
  {
  }

  /** Inside a window (`now <= resetAt`, so `now == resetAt` included) a
      request is admitted exactly while fewer than ten were; admission adds
      one to the count, rejection changes nothing. */
  lemma WithinWindow(entries: map<string, Entry>, ip: string, now: int)
    requires ip in entries && now <= entries[ip].resetAt
    ensures var (admitted, after) := Check(entries, ip, now);
      (admitted <==> entries[ip].count < RateLimit) &&
      (admitted ==> ip in after && after[ip] == Entry(entries[ip].count + 1, entries[ip].resetAt)) &&
      (!admitted ==> after == entries)
  {
  }

  /** A check touches only the caller's entry. */
  lemma CheckFrame(entries: map<string, Entry>, ip: string, now: int, other: string)
    requires other != ip
    ensures var after := Check(entries, ip, now).1;
      (other in after <==> other in entries) && (other in entries ==> after[other] == entries[other])
  {
  }

  /** Every count lies between 1 and the limit. */
  predicate CountsBounded(entries: map<string, Entry>)
  {
    forall ip :: ip in entries ==> 1 <= entries[ip].count <= RateLimit
  }

  lemma CheckKeepsCountsBounded(entries: map<string, Entry>, ip: string, now: int)
    requires CountsBounded(entries)
    ensures CountsBounded(Check(entries, ip, now).1)
  {
  }

  /** The admissions of a series of checks by one client at the given times. */
  function RunChecks(entries: map<string, Entry>, ip: string, times: seq<int>): (r: seq<bool>)
    ensures |r| == |times|
    decreases |times|
  {
    if times == [] then []
    else
      var (admitted, after) := Check(entries, ip, times[0]);
      [admitted] + RunChecks(after, ip, times[1..])
  }

  /** Inside one window that has already counted c requests, the i-th further
      request is admitted exactly when c + i < 10. */
  lemma {:induction false} WindowAdmissions(entries: map<string, Entry>, ip: string, times: seq<int>)
    requires ip in entries
    requires forall i :: 0 <= i < |times| ==> times[i] <= entries[ip].resetAt
    ensures forall i :: 0 <= i < |times| ==>
              (RunChecks(entries, ip, times)[i] <==> entries[ip].count + i < RateLimit)
    decreases |times|
  {
    if times != [] {
      var (admitted, after) := Check(entries, ip, times[0]);
      assert after[ip].resetAt == entries[ip].resetAt;
      assert after[ip].count == if entries[ip].count < RateLimit then entries[ip].count + 1 else entries[ip].count;
      WindowAdmissions(after, ip, times[1..]);
      forall i | 0 <= i < |times|
        ensures RunChecks(entries, ip, times)[i] <==> entries[ip].count + i < RateLimit
      {
        if i > 0 {
          assert RunChecks(entries, ip, times)[i] == RunChecks(after, ip, times[1..])[i - 1];
          assert times[1..][i - 1] == times[i];
        }
      }
    }
  }

  /** Requests from one client that all fall within the minute opened by the
      first of them: the first ten are admitted and every later one,
      beginning with the eleventh, is rejected. */
  lemma EleventhRejected(entries: map<string, Entry>, ip: string, times: seq<int>)
    requires |times| > 0 && (ip !in entries || times[0] > entries[ip].resetAt)
    requires forall i :: 0 <= i < |times| ==> times[i] <= times[0] + RateWindow
    ensures forall i :: 0 <= i < |times| ==> (RunChecks(entries, ip, times)[i] <==> i < 10)
  {
    var (_, after) := Check(entries, ip, times[0]);
    WindowAdmissions(after, ip, times[1..]);
    forall i | 0 <= i < |times| ensures RunChecks(entries, ip, times)[i] <==> i < 10 {
      if i > 0 {
        assert RunChecks(entries, ip, times)[i] == RunChecks(after, ip, times[1..])[i - 1];
      }
    }
  }

  /** The map after the cleanup sweep at `now`: the entries whose window has
      not yet passed. */
  function Swept(entries: map<string, Entry>, now: int): map<string, Entry>
  {
    map ip | ip in entries && now <= entries[ip].resetAt :: entries[ip]
  }

  /** Sweeping at `now` is invisible to every later check: the admission and
      the caller's new entry are those of the unswept map. */
  lemma SweepInvisible(entries: map<string, Entry>, now: int, ip: string, later: int)
    requires now <= later
    ensures Check(Swept(entries, now), ip, later).0 == Check(entries, ip, later).0
    ensures ip in Check(entries, ip, later).1
    ensures Check(Swept(entries, now), ip, later).1[ip] == Check(entries, ip, later).1[ip]
  {
  }

  /** `rateLimitMap` and the two operations on it. */
  class RateLimiter {
    var entries: map<string, Entry>

    constructor ()
      ensures entries == map[]
    {
      entries := map[];
    }

    /** `checkRateLimit(ip)`, with `Date.now()` passed in as `now`. */
    method CheckRateLimit(ip: string, now: int) returns (admitted: bool)
      modifies this
      ensures (admitted, entries) == Check(old(entries), ip, now)
    {
      if ip !in entries || now > entries[ip].resetAt {
        entries := entries[ip := Entry(1, now + RateWindow)];
        return true;
      }
      var entry := entries[ip];
      if entry.count >= RateLimit {
        return false;
      }
      entries := entries[ip := entry.(count := entry.count + 1)];
      admitted := true;
    }

    /** One run of the cleanup interval: every entry whose window has passed
      (`now > resetAt`) is deleted and all others are kept as they are. */
    method Cleanup(now: int)
      modifies this
      ensures forall ip :: ip in entries <==> ip in old(entries) && now <= old(entries)[ip].resetAt
      ensures forall ip :: ip in entries ==> entries[ip] == old(entries)[ip]
      ensures entries == Swept(old(entries), now)
    {
      var pending := entries.Keys;
      while pending != {}
        invariant pending <= old(entries).Keys
        invariant forall ip :: ip in entries <==>
                    ip in old(entries) && (ip in pending || now <= old(entries)[ip].resetAt)
        invariant forall ip :: ip in entries ==> entries[ip] == old(entries)[ip]
        decreases pending
      {
        var ip :| ip in pending;
        if now > entries[ip].resetAt {
          entries := entries - {ip};
        }
        pending := pending - {ip};
      }
    }
  }

  /** The parts of the request the handler reads: the two forwarding
      headers and the `prompt` query parameter. */
  datatype Request = Request(forwardedFor: Option<string>, realIp: Option<string>, prompt: Option<string>)

  /** A plain-text error response, or the event stream with the chunks the
      battle eventually enqueues on it and whether it has been closed. */
  datatype Reply = Plain(status: int, text: string) | EventStream(chunks: seq<string>, closed: bool)

  /** The client key: `x-forwarded-for || x-real-ip || 'unknown'`. */
  function ClientIp(req: Request): (ip: string)
    ensures ip != ""
    ensures Truthy(req.forwardedFor) ==> ip == req.forwardedFor.value
    ensures !Truthy(req.forwardedFor) && Truthy(req.realIp) ==> ip == req.realIp.value
    ensures !Truthy(req.forwardedFor) && !Truthy(req.realIp) ==> ip == "unknown"
  {
    if Truthy(req.forwardedFor) then req.forwardedFor.value else OrElse(req.realIp, "unknown")
  }

  /** The event enqueued when the battle rejects. */
  function FailureEvent(message: string): StageEvent
  {
    ErrorEvent("Battle failed: " + message)
  }

  /** What the stream of an admitted request ends up holding: the frames of
      the battle's events, then one error frame if the battle failed. */
  function StreamedChunks(prompt: string, o: Oracle): seq<string>
    requires ValidOracle(o)
  {
    Frames(o.serialize, Trace(o)) +
      match Outcome(prompt, o)
      case Ok(_) => []
      case Err(message) => [EncodeSSE(o.serialize, FailureEvent(message))]
  }

  /** `GET`: rate limit first (429), then a missing or empty prompt (400),
      then a prompt over 2000 characters (400); only then a battle is run on
      a fresh stream, which is closed exactly once however the battle ends.
      The quota is consumed even by a request rejected for its prompt. */
  method Get(req: Request, now: int, limiter: RateLimiter, o: Oracle, db: Database) returns (reply: Reply)
    requires ValidOracle(o)
    modifies limiter, db
    ensures limiter.entries == Check(old(limiter.entries), ClientIp(req), now).1
    ensures !Check(old(limiter.entries), ClientIp(req), now).0 ==>
              reply == Plain(429, "Rate limit exceeded. Please wait a minute.") &&
              db.battles == old(db.battles) && db.leaderboard == old(db.leaderboard)
    ensures Check(old(limiter.entries), ClientIp(req), now).0 && !Truthy(req.prompt) ==>
              reply == Plain(400, "Missing prompt parameter")
    ensures Check(old(limiter.entries), ClientIp(req), now).0 && Truthy(req.prompt) &&
            |req.prompt.value| > MaxPromptLength ==>
              reply == Plain(400, "Prompt too long (max 2000 characters)")
    ensures reply.Plain? ==> db.battles == old(db.battles) && db.leaderboard == old(db.leaderboard)
    ensures Check(old(limiter.entries), ClientIp(req), now).0 && Truthy(req.prompt) &&
            |req.prompt.value| <= MaxPromptLength ==>
              reply == EventStream(StreamedChunks(req.prompt.value, o), true)
  {
    var ip := ClientIp(req);
    var admitted := limiter.CheckRateLimit(ip, now);
    if !admitted {
      return Plain(429, "Rate limit exceeded. Please wait a minute.");
    }
    if !Truthy(req.prompt) {
      return Plain(400, "Missing prompt parameter");
    }
    var prompt := req.prompt.value;
    if |prompt| > MaxPromptLength {
      return Plain(400, "Prompt too long (max 2000 characters)");
    }
    var stream := new SSEStream();
    var result, events, requests := RunBattle(prompt, o, stream, db);
    if result.Err? {
      stream.Enqueue(EncodeSSE(o.serialize, FailureEvent(result.message)));
    }
    stream.Close();
    reply := EventStream(stream.chunks, stream.closed);
  }
}
