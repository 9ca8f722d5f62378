/** lib/arena.ts: `runBattle`, the strictly sequential battle pipeline.
    The six completion calls, `JSON.parse`, `JSON.stringify`, the shuffle
    and the outcome of the two database writes are inputs (an `Oracle`);
    what remains is a deterministic trace of stage events, completion
    requests, a result and a persisted record. */
module Arena {
  import opened Common
  import opened Streaming
  import opened Prompts
  import opened SupabaseAdmin

  datatype ModelClass = Premium | Economy

  /** The options object handed to `complete`; `system` is the key of its
      system prompt, whose text is `SystemPrompt(system)`. */
  datatype CompletionRequest = CompletionRequest(model: ModelClass, system: SystemRole, prompt: string, temperature: real)

  /** What one `complete` call gives back: the text, or the error it throws. */
  datatype Completion = Reply(text: string) | Failure(message: string)

  datatype Review = Review(strengths: string, weaknesses: string)
  datatype CritiqueResult = CritiqueResult(a: Review, b: Review)

  /** `judgment`: after a successful parse nothing checks its shape, so the
      winner is any string and the scores any numbers. */
  datatype Judgment = Judgment(winner: string, scoreA: real, scoreB: real, reason: string)

  datatype Submission = Submission(name: string, code: string, refined: string)

  datatype BattleResult = BattleResult(
    prompt: string,
    agentA: Submission,
    agentB: Submission,
    critique: CritiqueResult,
    judgment: Judgment)

  const ParseErrorReview: Review := Review("Parse error", "Parse error")
  const ParseErrorCritique: CritiqueResult := CritiqueResult(ParseErrorReview, ParseErrorReview)
  const DefaultJudgment: Judgment := Judgment("A", 50.0, 50.0, "Parse error - defaulted")

  const DefaultTemperature: real := 0.7
  const JudgeTemperature: real := 0.3

  /** Everything `runBattle` learns from outside: the shuffled copy of the
      agent names, the answers of the six completion calls in call order,
      `JSON.parse` on critique and judgment text, `JSON.stringify` on events,
      and whether `insertBattle` succeeds (a failing insert throws, which
      skips `updateLeaderboard`; the leaderboard writes never throw). */
  datatype Oracle = Oracle(
    shuffled: seq<string>,
    answers: seq<Completion>,
    parseCritique: string -> Option<CritiqueResult>,
    parseJudgment: string -> Option<Judgment>,
    serialize: StageEvent -> string,
    insertSucceeds: bool)

  predicate ValidOracle(o: Oracle)
  {
    multiset(o.shuffled) == multiset(AgentNames) && |o.answers| == CallCount
  }

  /** The number of completion calls of one battle. */
  const CallCount: nat := 6

  /** The stage during which completion call k runs. */
  function CallStage(k: nat): BattleStage
    requires k < CallCount
  {
    [GeneratingA, GeneratingB, RefiningA, RefiningB, Critique, Judging][k]
  }

  /** `agentName` of the events of call k: A for the `_a` stages, B for the
      `_b` stages, none for critique and judging. */
  function CallAgent(a: string, b: string, k: nat): Option<string>
    requires k < CallCount
  {
    if k == 0 || k == 2 then Some(a) else if k == 1 || k == 3 then Some(b) else None
  }

  function Opening(a: string, b: string): StageEvent
  {
    StageEvent(Entering, Some(a + " vs " + b), None)
  }

  /** The event sent before call k, without data. */
  function Started(a: string, b: string, k: nat): StageEvent
    requires k < CallCount
  {
    StageEvent(CallStage(k), None, CallAgent(a, b, k))
  }

  /** The event sent after call k, carrying its raw text. */
  function Finished(a: string, b: string, k: nat, text: string): StageEvent
    requires k < CallCount
  {
    StageEvent(CallStage(k), Some(text), CallAgent(a, b, k))
  }

  function Announcement(name: string): StageEvent
  {
    StageEvent(Winner, Some(name), None)
  }

  /** The started/finished pairs of the calls that answered `texts`. */
  function CallEvents(a: string, b: string, texts: seq<string>): (r: seq<StageEvent>)
    requires |texts| <= CallCount
    ensures |r| == 2 * |texts|
  {
    seq(2 * |texts|, i requires 0 <= i < 2 * |texts| =>
      if i % 2 == 0 then Started(a, b, i / 2) else Finished(a, b, i / 2, texts[i / 2]))
  }

  lemma CallEventsSnoc(a: string, b: string, texts: seq<string>, t: string)
    requires |texts| < CallCount
    ensures CallEvents(a, b, texts + [t]) ==
            CallEvents(a, b, texts) + [Started(a, b, |texts|), Finished(a, b, |texts|, t)]
  {
    var lhs := CallEvents(a, b, texts + [t]);
    var rhs := CallEvents(a, b, texts) + [Started(a, b, |texts|), Finished(a, b, |texts|, t)];
    forall i | 0 <= i < |lhs| ensures lhs[i] == rhs[i] {
      if i < 2 * |texts| {
        assert (texts + [t])[i / 2] == texts[i / 2];
      }
    }
  }

  /** The texts of the completion calls that answered before the first
      failure. */
  function Replies(answers: seq<Completion>): (texts: seq<string>)
    ensures |texts| <= |answers|
    ensures forall j :: 0 <= j < |texts| ==> answers[j] == Reply(texts[j])
    ensures |texts| < |answers| ==> answers[|texts|].Failure?
  {
    if answers == [] || answers[0].Failure? then []
    else [answers[0].text] + Replies(answers[1..])
  }

  /** Answers that are replies up to a failure (or the end) determine `Replies`. */
  lemma {:induction false} RepliesUpTo(answers: seq<Completion>, texts: seq<string>)
    requires |texts| <= |answers|
    requires forall j :: 0 <= j < |texts| ==> answers[j] == Reply(texts[j])
    requires |texts| < |answers| ==> answers[|texts|].Failure?
    ensures Replies(answers) == texts
  {
    if texts != [] {
      RepliesUpTo(answers[1..], texts[1..]);
    }
  }

  function AgentA(o: Oracle): string
    requires ValidOracle(o)
  {
    AgentPair(o.shuffled).0
  }

  function AgentB(o: Oracle): string
    requires ValidOracle(o)
  {
    AgentPair(o.shuffled).1
  }

  /** The request of completion call k, built from the texts of the calls
      before it. */
  function RequestFor(prompt: string, a: string, b: string, texts: seq<string>, k: nat): CompletionRequest
    requires k < CallCount && k <= |texts|
  {
    if k == 0 then CompletionRequest(Premium, Generator, GeneratorPrompt(prompt, a), DefaultTemperature)
    else if k == 1 then CompletionRequest(Premium, Generator, GeneratorPrompt(prompt, b), DefaultTemperature)
    else if k == 2 then CompletionRequest(Premium, Refiner, RefinerPrompt(texts[0]), DefaultTemperature)
    else if k == 3 then CompletionRequest(Premium, Refiner, RefinerPrompt(texts[1]), DefaultTemperature)
    else if k == 4 then CompletionRequest(Economy, Critic, CriticPrompt(texts[2], texts[3]), DefaultTemperature)
    else CompletionRequest(Economy, Judge, JudgePrompt(texts[2], texts[3], texts[4]), JudgeTemperature)
  }

  /** The requests sent: one per call up to and including the first one that
      fails. */
  function Requests(prompt: string, o: Oracle): (r: seq<CompletionRequest>)
    requires ValidOracle(o)
  {
    var texts := Replies(o.answers);
    var n := if |texts| < CallCount then |texts| + 1 else CallCount;
    seq(n, k requires 0 <= k < n => RequestFor(prompt, AgentA(o), AgentB(o), texts, k))
  }

  function CritiqueOf(o: Oracle, raw: string): CritiqueResult
  {
    match o.parseCritique(raw)
    case Some(c) => c
    case None => ParseErrorCritique
  }

  function JudgmentOf(o: Oracle, raw: string): Judgment
  {
    match o.parseJudgment(raw)
    case Some(j) => j
    case None => DefaultJudgment
  }

  /** The announced name: agent A exactly when the judged side is 'A'. */
  function WinnerName(a: string, b: string, j: Judgment): string
  {
    if j.winner == "A" then a else b
  }

  /** Every event `send` is called with. */
  function Trace(o: Oracle): seq<StageEvent>
    requires ValidOracle(o)
  {
    [Opening(AgentA(o), AgentB(o))] + CallEvents(AgentA(o), AgentB(o), Replies(o.answers)) + [LastEvent(o)]
  }

  /** The last event `send` is called with: the winner's announcement, or
      the started event of the failing stage. */
  function LastEvent(o: Oracle): StageEvent
    requires ValidOracle(o)
  {
    var a, b, texts := AgentA(o), AgentB(o), Replies(o.answers);
    if |texts| == CallCount then Announcement(WinnerName(a, b, JudgmentOf(o, texts[5])))
    else Started(a, b, |texts|)
  }

  /** Indexing between a first and a last element. */
  lemma Middle(x: StageEvent, m: seq<StageEvent>, y: StageEvent, i: nat)
    requires i < |m|
    ensures ([x] + m + [y])[i + 1] == m[i]
  {
  }

  function ResultOf(prompt: string, o: Oracle): BattleResult
    requires ValidOracle(o) && |Replies(o.answers)| == CallCount
  {
    var texts := Replies(o.answers);
    BattleResult(prompt,
      Submission(AgentA(o), texts[0], texts[2]),
      Submission(AgentB(o), texts[1], texts[3]),
      CritiqueOf(o, texts[4]),
      JudgmentOf(o, texts[5]))
  }

  /** The value `runBattle` resolves to, or the error it rejects with. */
  function Outcome(prompt: string, o: Oracle): Result<BattleResult>
    requires ValidOracle(o)
  {
    var texts := Replies(o.answers);
    if |texts| < CallCount then Err(o.answers[|texts|].message) else Ok(ResultOf(prompt, o))
  }

  /** `battleData`: the record handed to `insertBattle`. */
  function RecordOf(prompt: string, o: Oracle): Battle
    requires ValidOracle(o) && |Replies(o.answers)| == CallCount
  {
    var texts := Replies(o.answers);
    var j := JudgmentOf(o, texts[5]);
    Battle(prompt, AgentA(o), AgentB(o), texts[0], texts[1], texts[2], texts[3], texts[4],
           Some(j.winner), Some(Score(j.scoreA, j.scoreB, j.reason)))
  }


  /** Call k runs in the (k+1)-th stage of the pipeline order. */
  lemma CallStageIndex(k: nat)
    requires k < CallCount
    ensures StageIndex(CallStage(k)) == k + 1
  {
  }

  /** The pipeline position of the i-th event of a trace. */
  function TraceLevel(o: Oracle, i: nat): nat
    requires ValidOracle(o)
  {
    var n := |Replies(o.answers)|;
    if i == 0 then 0
    else if i <= 2 * n then (i - 1) / 2 + 1
    else if n == CallCount then 7
    else n + 1
  }

  lemma CallEventStage(a: string, b: string, texts: seq<string>, i: nat)
    requires |texts| <= CallCount && i < 2 * |texts|
    ensures CallEvents(a, b, texts)[i].StageEvent?
    ensures CallEvents(a, b, texts)[i].stage == CallStage(i / 2)
  {
  }

  lemma TraceEventLevel(o: Oracle, i: nat)
    requires ValidOracle(o) && i < |Trace(o)|
    ensures Trace(o)[i].StageEvent?
    ensures StageIndex(Trace(o)[i].stage) == TraceLevel(o, i)
  {
    var a, b, texts := AgentA(o), AgentB(o), Replies(o.answers);
    var calls := CallEvents(a, b, texts);
    if i == 0 {
    } else if i <= 2 * |texts| {
      Middle(Opening(a, b), calls, LastEvent(o), i - 1);
      CallEventStage(a, b, texts, i - 1);
      CallStageIndex((i - 1) / 2);
    } else {
      assert Trace(o)[i] == LastEvent(o);
      if |texts| < CallCount {
        CallStageIndex(|texts|);
      }
    }
  }

  /** Events are only ever sent in pipeline order: the stage never goes
      back, whether the battle completes or stops at a failing call. */
  lemma TraceInStageOrder(o: Oracle)
    requires ValidOracle(o)
    ensures forall i :: 0 <= i < |Trace(o)| ==> Trace(o)[i].StageEvent?
    ensures forall i, j :: 0 <= i <= j < |Trace(o)| ==>
              StageIndex(Trace(o)[i].stage) <= StageIndex(Trace(o)[j].stage)
  {
    forall i | 0 <= i < |Trace(o)| ensures Trace(o)[i].StageEvent? {
      TraceEventLevel(o, i);
    }
    forall i, j | 0 <= i <= j < |Trace(o)|
      ensures StageIndex(Trace(o)[i].stage) <= StageIndex(Trace(o)[j].stage)
    {
      TraceEventLevel(o, i);
      TraceEventLevel(o, j);
    }
  }

  /** Every completion call is announced before it runs and reported after
      it answers, with its raw text; the started event carries no data. */
  lemma CallsReported(o: Oracle, k: nat)
    requires ValidOracle(o) && k < |Replies(o.answers)|
    ensures Trace(o)[1 + 2 * k] == StageEvent(CallStage(k), None, CallAgent(AgentA(o), AgentB(o), k))
    ensures Trace(o)[2 + 2 * k] == StageEvent(CallStage(k), Some(Replies(o.answers)[k]), CallAgent(AgentA(o), AgentB(o), k))
  {
    var a, b, texts := AgentA(o), AgentB(o), Replies(o.answers);
    var calls := CallEvents(a, b, texts);
    var last := LastEvent(o);
    assert Trace(o) == [Opening(a, b)] + calls + [last];
    Middle(Opening(a, b), calls, last, 2 * k);
    Middle(Opening(a, b), calls, last, 2 * k + 1);
    CallEventsAt(a, b, texts, k);
    assert Trace(o)[1 + 2 * k] == Started(a, b, k);
    assert Trace(o)[2 + 2 * k] == Finished(a, b, k, texts[k]);
  }

  /** The events of call k sit at positions 2k and 2k + 1. */
  lemma CallEventsAt(a: string, b: string, texts: seq<string>, k: nat)
    requires k < |texts| <= CallCount
    ensures CallEvents(a, b, texts)[2 * k] == Started(a, b, k)
    ensures CallEvents(a, b, texts)[2 * k + 1] == Finished(a, b, k, texts[k])
  {
    assert (2 * k) % 2 == 0 && (2 * k) / 2 == k;
    assert (2 * k + 1) % 2 == 1 && (2 * k + 1) / 2 == k;
  }

  /** The stages of a completed battle, event by event. */
  const CompletedStages: seq<BattleStage> :=
    [Entering, GeneratingA, GeneratingA, GeneratingB, GeneratingB, RefiningA, RefiningA,
     RefiningB, RefiningB, Critique, Critique, Judging, Judging, Winner]

  /** A completed battle sends fourteen events: entering, a started and a
      finished event for each of the six calls, and the winner; the first
      names both agents and the last names the announced winner. */
  lemma CompletedTrace(o: Oracle)
    requires ValidOracle(o) && |Replies(o.answers)| == CallCount
    ensures |Trace(o)| == 14
    ensures forall i :: 0 <= i < 14 ==> Trace(o)[i].StageEvent? && Trace(o)[i].stage == CompletedStages[i]
    ensures Trace(o)[0] == StageEvent(Entering, Some(AgentA(o) + " vs " + AgentB(o)), None)
    ensures Trace(o)[13] == StageEvent(Winner, Some(WinnerName(AgentA(o), AgentB(o), JudgmentOf(o, Replies(o.answers)[5]))), None)
  {
    forall i | 0 <= i < 14 ensures Trace(o)[i].StageEvent? && Trace(o)[i].stage == CompletedStages[i] {
      TraceEventLevel(o, i);
      StageAtIndex(Trace(o)[i].stage);
      CompletedStageLevels(i);
    }
  }

  lemma StageAtIndex(s: BattleStage)
    ensures AllStages[StageIndex(s)] == s
  {
    AllStagesEnumerated();
  }

  /** The stage of event i of a completed battle, by its pipeline position. */
  lemma CompletedStageLevels(i: nat)
    requires i < 14
    ensures CompletedStages[i] == AllStages[if i == 0 then 0 else if i <= 12 then (i - 1) / 2 + 1 else 7]
  {
  }

  /** A battle whose k-th call fails rejects with that call's error, having
      made k + 1 requests and sent 2k + 2 events, the last one the started
      event of the failing stage; no winner is ever announced. */
  lemma FailedBattle(prompt: string, o: Oracle)
    requires ValidOracle(o) && |Replies(o.answers)| < CallCount
    ensures var k := |Replies(o.answers)|;
      o.answers[k].Failure? &&
      Outcome(prompt, o) == Err(o.answers[k].message) &&
      |Requests(prompt, o)| == k + 1 &&
      |Trace(o)| == 2 * k + 2 &&
      Trace(o)[2 * k + 1] == StageEvent(CallStage(k), None, CallAgent(AgentA(o), AgentB(o), k))
    ensures forall i :: 0 <= i < |Trace(o)| ==> Trace(o)[i].StageEvent? && Trace(o)[i].stage != Winner
  {
    forall i | 0 <= i < |Trace(o)| ensures Trace(o)[i].StageEvent? && Trace(o)[i].stage != Winner {
      TraceEventLevel(o, i);
    }
  }

  /** Each request is built from the texts of the calls before it: the
      refiners get the generated codes, the critic both refined codes, and
      the judge both refined codes and the raw critique text, unparsed.
      Each call gets its role's system prompt. The generators and refiners
      use the premium model, the critic and
      judge the economy one; only the judge runs at temperature 0.3. */
  lemma RequestsChain(prompt: string, o: Oracle)
    requires ValidOracle(o) && |Replies(o.answers)| == CallCount
    ensures var r, t := Requests(prompt, o), Replies(o.answers);
      |r| == CallCount &&
      r[0].prompt == GeneratorPrompt(prompt, AgentA(o)) &&
      r[1].prompt == GeneratorPrompt(prompt, AgentB(o)) &&
      RefinerCode(r[2].prompt) == Some(t[0]) &&
      RefinerCode(r[3].prompt) == Some(t[1]) &&
      r[4].prompt == CriticPrompt(t[2], t[3]) &&
      r[5].prompt == JudgePrompt(t[2], t[3], t[4])
    ensures var r := Requests(prompt, o);
      forall k :: 0 <= k < CallCount ==>
        (r[k].model == Premium <==> k < 4) &&
        (r[k].system == Generator <==> k < 2) && (r[k].system == Refiner <==> 2 <= k < 4) &&
        (r[k].system == Critic <==> k == 4) && (r[k].system == Judge <==> k == 5) &&
        (r[k].temperature == JudgeTemperature <==> k == 5) &&
        (r[k].temperature != JudgeTemperature ==> r[k].temperature == DefaultTemperature)
  {
    var t := Replies(o.answers);
    RefinerRoundTrip(t[0]);
    RefinerRoundTrip(t[1]);
  }

  /** The two agents never get the same generator prompt. */
  lemma AgentsPromptedApart(prompt: string, o: Oracle)
    requires ValidOracle(o)
    ensures Requests(prompt, o)[0].prompt != GeneratorPrompt(prompt, AgentB(o))
  {
    GeneratorPromptSeparatesAgents(prompt, AgentA(o), AgentB(o));
  }

  /** Unparseable critique text yields the 'Parse error' critique in the
      result, while the stored record and the critique event keep the raw
      text. */
  lemma CritiqueFallback(prompt: string, o: Oracle)
    requires ValidOracle(o) && |Replies(o.answers)| == CallCount
    requires o.parseCritique(Replies(o.answers)[4]).None?
    ensures ResultOf(prompt, o).critique == ParseErrorCritique
    ensures RecordOf(prompt, o).critique == Replies(o.answers)[4]
    ensures Trace(o)[10].data == Some(Replies(o.answers)[4])
  {
    CallsReported(o, 4);
  }

  /** Unparseable judgment text yields side 'A' with 50 to 50, so agent A is
      announced, stored as winner and credited. */
  lemma JudgmentFallback(prompt: string, o: Oracle)
    requires ValidOracle(o) && |Replies(o.answers)| == CallCount
    requires o.parseJudgment(Replies(o.answers)[5]).None?
    ensures ResultOf(prompt, o).judgment == DefaultJudgment
    ensures Trace(o)[13] == Announcement(AgentA(o))
    ensures RecordOf(prompt, o).winner == Some("A")
    ensures RecordOf(prompt, o).score == Some(Score(50.0, 50.0, "Parse error - defaulted"))
  {
  }

  /** The announced winner is agent A exactly when the judged side is 'A',
      and agent B otherwise; with side 'A' or 'B' the leaderboard credits
      that same agent with the win and the other with a battle. */
  lemma WinnerAnnouncedAndCredited(prompt: string, o: Oracle, rows: map<string, Row>)
    requires ValidOracle(o) && |Replies(o.answers)| == CallCount
    ensures var j := ResultOf(prompt, o).judgment;
      var w := WinnerName(AgentA(o), AgentB(o), j);
      Trace(o)[13] == Announcement(w) &&
      (w == AgentA(o) <==> j.winner == "A") && (w == AgentB(o) <==> j.winner != "A")
    ensures var j := ResultOf(prompt, o).judgment;
      var w := WinnerName(AgentA(o), AgentB(o), j);
      var l := if w == AgentA(o) then AgentB(o) else AgentA(o);
      var after := LeaderboardAfter(rows, j.winner, AgentB(o), j.scoreA, j.scoreB, AgentA(o));
      (j.winner == "A" || j.winner == "B") ==>
        w in after && l in after &&
        after[w].wins == (if w in rows then rows[w].wins else 0) + 1 &&
        after[l].wins == (if l in rows then rows[l].wins else 0) &&
        after[l].battles == (if l in rows then rows[l].battles else 0) + 1
  {
    var j := ResultOf(prompt, o).judgment;
    PermutationHeadDistinct(o.shuffled);
    assert AgentA(o) in AgentNames && AgentB(o) in AgentNames;
    if j.winner == "A" || j.winner == "B" {
      UpdateCreditsBothSides(rows, j.winner, AgentB(o), j.scoreA, j.scoreB, AgentA(o));
    }
  }

  /** A parsed judgment whose side is neither 'A' nor 'B' announces agent B
      as the winner but leaves the leaderboard untouched. */
  lemma UnknownSideAnnouncedNotCredited(prompt: string, o: Oracle, rows: map<string, Row>)
    requires ValidOracle(o) && |Replies(o.answers)| == CallCount
    requires var j := ResultOf(prompt, o).judgment; j.winner != "A" && j.winner != "B"
    ensures Trace(o)[13] == Announcement(AgentB(o))
    ensures var j := ResultOf(prompt, o).judgment;
      LeaderboardAfter(rows, j.winner, AgentB(o), j.scoreA, j.scoreB, AgentA(o)) == rows
  {
  }

  /** The stored record agrees with the returned result: same agents, codes
      and refined codes, the judged side as winner and the judged scores. */
  lemma RecordMatchesResult(prompt: string, o: Oracle)
    requires ValidOracle(o) && |Replies(o.answers)| == CallCount
    ensures var rec, res := RecordOf(prompt, o), ResultOf(prompt, o);
      rec.prompt == res.prompt &&
      rec.agentAName == res.agentA.name && rec.agentBName == res.agentB.name &&
      rec.agentACode == res.agentA.code && rec.agentBCode == res.agentB.code &&
      rec.agentARefined == res.agentA.refined && rec.agentBRefined == res.agentB.refined &&
      rec.winner == Some(res.judgment.winner) &&
      rec.score == Some(Score(res.judgment.scoreA, res.judgment.scoreB, res.judgment.reason))
  {
  }

  /** Where the pipeline stands after the calls that answered `texts`: the
      events and requests so far are those of the specification. */
  predicate Consistent(prompt: string, o: Oracle, texts: seq<string>, log: seq<StageEvent>,
                       requests: seq<CompletionRequest>)
    requires ValidOracle(o)
  {
    |texts| <= CallCount && |requests| == |texts| &&
    (forall j :: 0 <= j < |texts| ==> o.answers[j] == Reply(texts[j])) &&
    (forall i :: 0 <= i < |requests| ==> requests[i] == RequestFor(prompt, AgentA(o), AgentB(o), texts, i)) &&
    log == [Opening(AgentA(o), AgentB(o))] + CallEvents(AgentA(o), AgentB(o), texts)
  }

  /** A request depends only on the texts of the calls before it. */
  lemma RequestForStable(prompt: string, a: string, b: string, texts: seq<string>, t: string, k: nat)
    requires k < CallCount && k <= |texts|
    ensures RequestFor(prompt, a, b, texts + [t], k) == RequestFor(prompt, a, b, texts, k)
  {
    if k > 0 {
      assert forall j :: 0 <= j < k ==> (texts + [t])[j] == texts[j];
    }
  }

  /** The battle stops at the first failing call: the events and requests
      are those so far plus the failing call's started event and request. */
  lemma FailedAt(prompt: string, o: Oracle, texts: seq<string>, log: seq<StageEvent>,
                 requests: seq<CompletionRequest>)
    requires ValidOracle(o) && |texts| < CallCount
    requires Consistent(prompt, o, texts, log, requests)
    requires o.answers[|texts|].Failure?
    ensures Replies(o.answers) == texts
    ensures Outcome(prompt, o) == Err(o.answers[|texts|].message)
    ensures Trace(o) == log + [Started(AgentA(o), AgentB(o), |texts|)]
    ensures Requests(prompt, o) == requests + [RequestFor(prompt, AgentA(o), AgentB(o), texts, |texts|)]
  {
    RepliesUpTo(o.answers, texts);
  }

  /** The request list, result and trace when all six calls answer. */
  lemma SucceededWith(prompt: string, o: Oracle, texts: seq<string>, log: seq<StageEvent>,
                      requests: seq<CompletionRequest>)
    requires ValidOracle(o) && |texts| == CallCount
    requires Consistent(prompt, o, texts, log, requests)
    ensures Replies(o.answers) == texts
    ensures Requests(prompt, o) == requests
    ensures Outcome(prompt, o) == Ok(ResultOf(prompt, o))
    ensures Trace(o) == log + [Announcement(WinnerName(AgentA(o), AgentB(o), JudgmentOf(o, texts[5])))]
  {
    RepliesUpTo(o.answers, texts);
  }

  /** `send`: a no-op without a stream, else one `sendStage`. `log` lists
      the events `send` has been called with so far; the stream holds
      `before` followed by their frames. */
  method Send(stream: SSEStream?, serialize: StageEvent -> string, ghost before: seq<string>,
              log: seq<StageEvent>, e: StageEvent)
    returns (log': seq<StageEvent>)
    requires stream != null ==> !stream.closed && stream.chunks == before + Frames(serialize, log)
    modifies stream
    ensures log' == log + [e]
    ensures stream != null ==> !stream.closed && stream.chunks == before + Frames(serialize, log')
  {
    if stream != null {
      SendStage(stream, serialize, e);
      FramesAppend(serialize, log, [e]);
    }
    log' := log + [e];
  }

  /** One completion stage: the started event, the call `req`, and on a
      reply the finished event carrying its text. On a failure the battle
      is over, and what was sent and requested is all of it. */
  method Stage(k: nat, req: CompletionRequest, prompt: string, o: Oracle, stream: SSEStream?,
               ghost before: seq<string>, ghost texts: seq<string>,
               log: seq<StageEvent>, requests: seq<CompletionRequest>)
    returns (reply: Option<string>, log': seq<StageEvent>, requests': seq<CompletionRequest>)
    requires ValidOracle(o) && k < CallCount && |texts| == k
    requires Consistent(prompt, o, texts, log, requests)
    requires req == RequestFor(prompt, AgentA(o), AgentB(o), texts, k)
    requires stream != null ==> !stream.closed && stream.chunks == before + Frames(o.serialize, log)
    modifies stream
    ensures reply.Some? <==> o.answers[k].Reply?
    ensures reply.Some? ==> o.answers[k] == Reply(reply.value) &&
                            Consistent(prompt, o, texts + [reply.value], log', requests')
    ensures reply.None? ==> Outcome(prompt, o) == Err(o.answers[k].message) &&
                            Trace(o) == log' && Requests(prompt, o) == requests'
    ensures stream != null ==> !stream.closed && stream.chunks == before + Frames(o.serialize, log')
  {
    var a, b := AgentA(o), AgentB(o);
    log' := Send(stream, o.serialize, before, log, Started(a, b, k));
    requests' := requests + [req];
    match o.answers[k]
    case Failure(_) =>
      reply := None;
      FailedAt(prompt, o, texts, log, requests);
    case Reply(text) =>
      reply := Some(text);
      log' := Send(stream, o.serialize, before, log', Finished(a, b, k, text));
      ConsistentSnoc(prompt, o, texts, log, requests, text);
  }

  /** Before any call: the opening event alone and no requests. */
  lemma ConsistentStart(prompt: string, o: Oracle)
    requires ValidOracle(o)
    ensures Consistent(prompt, o, [], [Opening(AgentA(o), AgentB(o))], [])
  {
    assert CallEvents(AgentA(o), AgentB(o), []) == [];
  }

  /** A call that answers extends the texts, the events by its started and
      finished events, and the requests by its own. */
  lemma ConsistentSnoc(prompt: string, o: Oracle, texts: seq<string>, log: seq<StageEvent>,
                       requests: seq<CompletionRequest>, text: string)
    requires ValidOracle(o) && |texts| < CallCount
    requires Consistent(prompt, o, texts, log, requests)
    requires o.answers[|texts|] == Reply(text)
    ensures Consistent(prompt, o, texts + [text],
                       log + [Started(AgentA(o), AgentB(o), |texts|), Finished(AgentA(o), AgentB(o), |texts|, text)],
                       requests + [RequestFor(prompt, AgentA(o), AgentB(o), texts, |texts|)])
  {
    var a, b := AgentA(o), AgentB(o);
    var requests' := requests + [RequestFor(prompt, a, b, texts, |texts|)];
    CallEventsSnoc(a, b, texts, text);
    forall i | 0 <= i < |requests'|
      ensures requests'[i] == RequestFor(prompt, a, b, texts + [text], i)
    {
      RequestForStable(prompt, a, b, texts, text, i);
    }
    forall j | 0 <= j < |texts| + 1
      ensures o.answers[j] == Reply((texts + [text])[j])
    {
      if j < |texts| {
        assert (texts + [text])[j] == texts[j];
      }
    }
  }

  /** The entering event and the two generation stages of `runBattle`.
      Stops at the first failing call with its error message. */
  method Generate(prompt: string, o: Oracle, stream: SSEStream?, ghost before: seq<string>)
    returns (failure: Option<string>, codeA: string, codeB: string,
             events: seq<StageEvent>, requests: seq<CompletionRequest>, ghost texts: seq<string>)
    requires ValidOracle(o)
    requires stream != null ==> !stream.closed && stream.chunks == before
    modifies stream
    ensures failure.None? ==> |texts| == 2 && texts[0] == codeA && texts[1] == codeB &&
                              Consistent(prompt, o, texts, events, requests)
    ensures failure.Some? ==> Outcome(prompt, o) == Err(failure.value) &&
                              Trace(o) == events && Requests(prompt, o) == requests
    ensures stream != null ==> !stream.closed && stream.chunks == before + Frames(o.serialize, events)
  {
    var a, b := AgentA(o), AgentB(o);
    events := Send(stream, o.serialize, before, [], Opening(a, b));
    requests := [];
    codeA, codeB := "", "";
    texts := [];
    ConsistentStart(prompt, o);

    var reply;
    reply, events, requests := Stage(0, CompletionRequest(Premium, Generator, GeneratorPrompt(prompt, a), DefaultTemperature),
                                     prompt, o, stream, before, texts, events, requests);
    if reply.None? {
      return Some(o.answers[0].message), codeA, codeB, events, requests, texts;
    }
    codeA := reply.value;
    texts := texts + [codeA];

    reply, events, requests := Stage(1, CompletionRequest(Premium, Generator, GeneratorPrompt(prompt, b), DefaultTemperature),
                                     prompt, o, stream, before, texts, events, requests);
    if reply.None? {
      return Some(o.answers[1].message), codeA, codeB, events, requests, texts;
    }
    codeB := reply.value;
    texts := texts + [codeB];
    failure := None;
  }

  /** The two refinement stages of `runBattle`, each refining one agent's
      generated code. Stops at the first failing call with its error
      message. */
  method Refine(prompt: string, o: Oracle, stream: SSEStream?, ghost before: seq<string>, ghost texts: seq<string>,
                codeA: string, codeB: string, events: seq<StageEvent>, requests: seq<CompletionRequest>)
    returns (failure: Option<string>, refinedA: string, refinedB: string,
             events': seq<StageEvent>, requests': seq<CompletionRequest>, ghost texts': seq<string>)
    requires ValidOracle(o) && |texts| == 2 && texts[0] == codeA && texts[1] == codeB
    requires Consistent(prompt, o, texts, events, requests)
    requires stream != null ==> !stream.closed && stream.chunks == before + Frames(o.serialize, events)
    modifies stream
    ensures failure.None? ==> |texts'| == 4 && texts'[0] == codeA && texts'[1] == codeB &&
                              texts'[2] == refinedA && texts'[3] == refinedB &&
                              Consistent(prompt, o, texts', events', requests')
    ensures failure.Some? ==> Outcome(prompt, o) == Err(failure.value) &&
                              Trace(o) == events' && Requests(prompt, o) == requests'
    ensures stream != null ==> !stream.closed && stream.chunks == before + Frames(o.serialize, events')
  {
    refinedA, refinedB := "", "";
    texts' := texts;

    var reply;
    reply, events', requests' := Stage(2, CompletionRequest(Premium, Refiner, RefinerPrompt(codeA), DefaultTemperature),
                                       prompt, o, stream, before, texts', events, requests);
    if reply.None? {
      return Some(o.answers[2].message), refinedA, refinedB, events', requests', texts';
    }
    refinedA := reply.value;
    texts' := texts' + [refinedA];

    reply, events', requests' := Stage(3, CompletionRequest(Premium, Refiner, RefinerPrompt(codeB), DefaultTemperature),
                                       prompt, o, stream, before, texts', events', requests');
    if reply.None? {
      return Some(o.answers[3].message), refinedA, refinedB, events', requests', texts';
    }
    refinedB := reply.value;
    texts' := texts' + [refinedB];
    failure := None;
  }

  /** The first four stages of `runBattle`: the entering event, then both
      agents generate and both refine. Stops at the first failing call with
      its error message. */
  method GenerateAndRefine(prompt: string, o: Oracle, stream: SSEStream?)
    returns (failure: Option<string>, codeA: string, codeB: string, refinedA: string, refinedB: string,
             events: seq<StageEvent>, requests: seq<CompletionRequest>, ghost texts: seq<string>)
    requires ValidOracle(o)
    requires stream != null ==> !stream.closed
    modifies stream
    ensures failure.None? ==> |texts| == 4 && texts[0] == codeA && texts[1] == codeB &&
                              texts[2] == refinedA && texts[3] == refinedB &&
                              Consistent(prompt, o, texts, events, requests)
    ensures failure.Some? ==> Outcome(prompt, o) == Err(failure.value) &&
                              Trace(o) == events && Requests(prompt, o) == requests
    ensures stream != null ==> !stream.closed && stream.chunks == old(stream.chunks) + Frames(o.serialize, events)
  {
    ghost var before := if stream != null then stream.chunks else [];
    refinedA, refinedB := "", "";
    failure, codeA, codeB, events, requests, texts := Generate(prompt, o, stream, before);
    if failure.Some? {
      return;
    }
    failure, refinedA, refinedB, events, requests, texts := Refine(prompt, o, stream, before, texts, codeA, codeB, events, requests);
  }

  /** `runBattle(prompt, stream)`: the result, or the error the first failing
      completion throws; also the events sent and the completion requests
      made, in order. */
  method RunBattle(prompt: string, o: Oracle, stream: SSEStream?, db: Database)
    returns (result: Result<BattleResult>, events: seq<StageEvent>, requests: seq<CompletionRequest>)
    requires ValidOracle(o)
    requires stream != null ==> !stream.closed
    modifies stream, db
    ensures result == Outcome(prompt, o)
    ensures events == Trace(o)
    ensures requests == Requests(prompt, o)
    ensures stream != null ==> !stream.closed && stream.chunks == old(stream.chunks) + Frames(o.serialize, events)
    ensures result.Ok? && o.insertSucceeds ==>
              var j := result.value.judgment;
              db.battles == old(db.battles) + [RecordOf(prompt, o)] &&
              db.leaderboard == LeaderboardAfter(old(db.leaderboard), j.winner, AgentB(o), j.scoreA, j.scoreB, AgentA(o))
    ensures result.Err? || !o.insertSucceeds ==>
              db.battles == old(db.battles) && db.leaderboard == old(db.leaderboard)
  {
    var a, b := AgentA(o), AgentB(o);
    ghost var before := if stream != null then stream.chunks else [];
    var failure, codeA, codeB, refinedA, refinedB;
    ghost var texts;
    failure, codeA, codeB, refinedA, refinedB, events, requests, texts := GenerateAndRefine(prompt, o, stream);
    if failure.Some? {
      return Err(failure.value), events, requests;
    }

    var critiqueRaw;
    critiqueRaw, events, requests := Stage(4, CompletionRequest(Economy, Critic, CriticPrompt(refinedA, refinedB), DefaultTemperature),
                                           prompt, o, stream, before, texts, events, requests);
    if critiqueRaw.None? {
      return Err(o.answers[4].message), events, requests;
    }
    texts := texts + [critiqueRaw.value];
    var critique := CritiqueOf(o, critiqueRaw.value);

    var judgmentRaw;
    judgmentRaw, events, requests := Stage(5, CompletionRequest(Economy, Judge,
                                                                JudgePrompt(refinedA, refinedB, critiqueRaw.value), JudgeTemperature),
                                           prompt, o, stream, before, texts, events, requests);
    if judgmentRaw.None? {
      return Err(o.answers[5].message), events, requests;
    }
    var judgment := JudgmentOf(o, judgmentRaw.value);
    texts := texts + [judgmentRaw.value];
    SucceededWith(prompt, o, texts, events, requests);

    var winnerName := if judgment.winner == "A" then a else b;
    events := Send(stream, o.serialize, before, events, Announcement(winnerName));

    var record := Battle(prompt, a, b, codeA, codeB, refinedA, refinedB, critiqueRaw.value,
                         Some(judgment.winner), Some(Score(judgment.scoreA, judgment.scoreB, judgment.reason)));
    if o.insertSucceeds {
      db.InsertBattle(record);
      db.UpdateLeaderboard(judgment.winner, b, judgment.scoreA, judgment.scoreB, a);
    }

    result := Ok(BattleResult(prompt, Submission(a, codeA, refinedA), Submission(b, codeB, refinedB),
                              critique, judgment));
  }
}
