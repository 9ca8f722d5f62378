/** lib/seed.ts: the seed prompts and battles, `seedBattles` (skip when
    battles exist, insert all seeds, then credit each one on the
    leaderboard) and the file's own leaderboard update. */
module Seed {
  import opened Common
  import opened Prompts
  import opened SupabaseAdmin

  /** `SEED_PROMPTS`. */
  const SeedPrompts: seq<string> := [
    "Build a terminal-based snake game in Python",
    "Create a React hook for infinite scroll",
    "Write a binary search tree in TypeScript",
    "Implement a debounce function from scratch",
    "Build a URL shortener backend in Node.js",
    "Create a CSS-only loading spinner",
    "Write a recursive Fibonacci with memoization",
    "Implement a simple pub/sub event system",
    "Build a rate limiter middleware",
    "Create a regex for email validation"]

  /** The texts of one seed: both generated codes, both refined codes and
      the critique. Nothing in `seedBattles` reads them, so they are a
      parameter here. */
  datatype SeedTexts = SeedTexts(codeA: string, codeB: string, refinedA: string, refinedB: string, critique: string)

  /** The texts of the three seeds of `SEED_BATTLES`, in order. */
  datatype SeedCorpus = SeedCorpus(snake: SeedTexts, scroll: SeedTexts, tree: SeedTexts)

  /** The judged part of a seed: the two agents, the side the judge picked
      and the score. */
  datatype Verdict = Verdict(agentAName: string, agentBName: string, winner: Option<string>, score: Option<Score>)

  function VerdictOf(b: Battle): Verdict
  {
    Verdict(b.agentAName, b.agentBName, b.winner, b.score)
  }

  const SnakeVerdict: Verdict :=
    Verdict("Nova", "Cipher", Some("A"), Some(Score(82.0, 75.0, "Nova wins" + " - complete playable game vs incomplete OOP skeleton")))
  const ScrollVerdict: Verdict :=
    Verdict("Apex", "Vortex", Some("A"), Some(Score(88.0, 72.0, "Apex wins" + " - IntersectionObserver is modern best practice, full error handling")))
  const TreeVerdict: Verdict :=
    Verdict("Zenith", "Blaze", Some("B"), Some(Score(80.0, 84.0, "Blaze wins" + " - cleaner functional design with useful min/max utilities")))

  const SeedVerdicts: seq<Verdict> := [SnakeVerdict, ScrollVerdict, TreeVerdict]

  function TextsOf(b: Battle): SeedTexts
  {
    SeedTexts(b.agentACode, b.agentBCode, b.agentARefined, b.agentBRefined, b.critique)
  }

  /** A seed record from its prompt, verdict and texts. */
  function Seeded(prompt: string, v: Verdict, t: SeedTexts): (b: Battle)
    ensures VerdictOf(b) == v && TextsOf(b) == t && b.prompt == prompt
  {
    Battle(prompt, v.agentAName, v.agentBName, t.codeA, t.codeB, t.refinedA, t.refinedB, t.critique, v.winner, v.score)
  }

  /** `SEED_BATTLES`, with the texts of its seeds. */
  function SeedBattles(texts: SeedCorpus): seq<Battle>
  {
    [Seeded("Build a terminal-based snake game in Python", SnakeVerdict, texts.snake),
     Seeded("Create a React hook for infinite scroll", ScrollVerdict, texts.scroll),
     Seeded("Write a binary search tree in TypeScript", TreeVerdict, texts.tree)]
  }

  /** The seeds are the first three seed prompts, judged as listed, and
      carry the given texts. */
  lemma SeedBattlesJudged(texts: SeedCorpus)
    ensures |SeedBattles(texts)| == 3
    ensures forall i :: 0 <= i < 3 ==> SeedBattles(texts)[i].prompt == SeedPrompts[i]
    ensures forall i :: 0 <= i < 3 ==> VerdictOf(SeedBattles(texts)[i]) == SeedVerdicts[i]
    ensures forall i :: 0 <= i < 3 ==> TextsOf(SeedBattles(texts)[i]) == [texts.snake, texts.scroll, texts.tree][i]
  {
  }

  /** The agent on the judged winning side. */
  function JudgedWinner(v: Verdict): string
  {
    if v.winner == Some("A") then v.agentAName else v.agentBName
  }

  lemma StartsWithConcat(p: string, rest: string)
    ensures StartsWith(p + rest, p)
  {
    assert (p + rest)[..|p|] == p;
  }

  /** A verdict pits two different agents of AGENT_NAMES, picks side 'A' or
      'B' with both scores in 0..100, gives the picked side the higher
      score, and its reason opens with the name of the agent on that side
      followed by " wins". */
  predicate WellFormedVerdict(v: Verdict)
  {
    v.agentAName in AgentNames && v.agentBName in AgentNames && v.agentAName != v.agentBName &&
    (v.winner == Some("A") || v.winner == Some("B")) &&
    v.score.Some? && 0.0 <= v.score.value.a <= 100.0 && 0.0 <= v.score.value.b <= 100.0 &&
    (if v.winner == Some("A") then v.score.value.a > v.score.value.b else v.score.value.b > v.score.value.a) &&
    StartsWith(v.score.value.reason, JudgedWinner(v) + " wins")
  }

  /** Every seed is well formed and played on one of the seed prompts. */
  lemma SeedBattlesWellFormed(texts: SeedCorpus)
    ensures |SeedBattles(texts)| == 3
    ensures forall i :: 0 <= i < |SeedBattles(texts)| ==>
              SeedBattles(texts)[i].prompt in SeedPrompts && WellFormedVerdict(VerdictOf(SeedBattles(texts)[i]))
  {
    SeedBattlesJudged(texts);
    SeedVerdictsWellFormed();
    WellFormedFromVerdicts(SeedBattles(texts));
  }

  /** Seeds on the first seed prompts, judged as SEED_BATTLES are, are well
      formed. */
  lemma WellFormedFromVerdicts(bs: seq<Battle>)
    requires |bs| == 3
    requires forall i :: 0 <= i < 3 ==> bs[i].prompt == SeedPrompts[i] && VerdictOf(bs[i]) == SeedVerdicts[i]
    requires forall i :: 0 <= i < |SeedVerdicts| ==> WellFormedVerdict(SeedVerdicts[i])
    ensures forall i :: 0 <= i < |bs| ==> bs[i].prompt in SeedPrompts && WellFormedVerdict(VerdictOf(bs[i]))
  {
    forall i | 0 <= i < |bs| ensures bs[i].prompt in SeedPrompts && WellFormedVerdict(VerdictOf(bs[i])) {
      assert bs[i].prompt == SeedPrompts[i];
    }
  }

  lemma SeedVerdictsWellFormed()
    ensures forall i :: 0 <= i < |SeedVerdicts| ==> WellFormedVerdict(SeedVerdicts[i])
  {
    StartsWithConcat("Nova wins", " - complete playable game vs incomplete OOP skeleton");
    StartsWithConcat("Apex wins", " - IntersectionObserver is modern best practice, full error handling");
    StartsWithConcat("Blaze wins", " - cleaner functional design with useful min/max utilities");
    assert WellFormedVerdict(SnakeVerdict) && WellFormedVerdict(ScrollVerdict) && WellFormedVerdict(TreeVerdict);
  }

  /** The file's own `updateLeaderboard(winner, loserName, scores,
      agentAName)`: side 'A' credits agentAName over loserName with scores
      a and b; any other side credits loserName over agentAName with b and
      a. The winner's row is written first, then the loser's read afresh. */
  function SeedUpdate(rows: map<string, Row>, winner: string, loserName: string, s: Score, agentAName: string)
    : map<string, Row>
  {
    var winnerName := if winner == "A" then agentAName else loserName;
    var actualLoser := if winner == "A" then loserName else agentAName;
    var winnerScore := if winner == "A" then s.a else s.b;
    var loserScore := if winner == "A" then s.b else s.a;
    RecordLoss(RecordWin(rows, winnerName, winnerScore), actualLoser, loserScore)
  }

  /** The `loserName` that `seedBattles` passes: agent B when side 'A' won,
      but agent A otherwise. */
  function PassedLoser(v: Verdict): string
  {
    if v.winner == Some("A") then v.agentBName else v.agentAName
  }

  /** One turn of the seeding loop, as written: a seed with a truthy winner
      and a score is credited with the loser argument of the call site. */
  function SeedStep(rows: map<string, Row>, v: Verdict): map<string, Row>
  {
    if Truthy(v.winner) && v.score.Some?
    then SeedUpdate(rows, v.winner.value, PassedLoser(v), v.score.value, v.agentAName)
    else rows
  }

  /** The leaderboard after the seeding loop over `bs`, as written. */
  function SeededLeaderboard(rows: map<string, Row>, bs: seq<Battle>): map<string, Row>
  {
    if bs == [] then rows else SeedStep(SeededLeaderboard(rows, bs[..|bs| - 1]), VerdictOf(bs[|bs| - 1]))
  }

  /** One turn of the seeding loop with agent B passed as `loserName`. */
  function IntendedStep(rows: map<string, Row>, v: Verdict): map<string, Row>
  {
    if Truthy(v.winner) && v.score.Some?
    then SeedUpdate(rows, v.winner.value, v.agentBName, v.score.value, v.agentAName)
    else rows
  }

  /** The leaderboard after the seeding loop with agent B always passed as
      `loserName`, as `runBattle` does. */
  function IntendedSeededLeaderboard(rows: map<string, Row>, bs: seq<Battle>): map<string, Row>
  {
    if bs == [] then rows else IntendedStep(IntendedSeededLeaderboard(rows, bs[..|bs| - 1]), VerdictOf(bs[|bs| - 1]))
  }

  /** Side 'B' as the call site passes it: the loser argument is agent A
      itself, so agent A is credited both as winner (with score b) and as
      loser (with score a), and agent B is not credited at all. */
  lemma SideBCreditsAgentATwice(rows: map<string, Row>, v: Verdict)
    requires v.winner == Some("B") && v.score.Some? && v.agentAName != v.agentBName
    ensures var after := SeedStep(rows, v);
      after[v.agentAName] == LostRow(Some(WonRow(Lookup(rows, v.agentAName), v.score.value.b)), v.score.value.a) &&
      (v.agentBName in after <==> v.agentBName in rows) &&
      (v.agentBName in rows ==> after[v.agentBName] == rows[v.agentBName])
  {
  }

  /** With agent B passed as `loserName` the file's own update agrees with
      `updateLeaderboard` of lib/supabase-admin.ts for sides 'A' and 'B'. */
  lemma IntendedUpdateMatchesShared(rows: map<string, Row>, winner: string, s: Score, agentA: string, agentB: string)
    requires winner == "A" || winner == "B"
    requires agentA != "" && agentB != ""
    ensures SeedUpdate(rows, winner, agentB, s, agentA) == LeaderboardAfter(rows, winner, agentB, s.a, s.b, agentA)
  {
  }

  /** Three seeds are credited one after the other, first to last. */
  lemma SeedingInOrder(rows: map<string, Row>, bs: seq<Battle>)
    requires |bs| == 3
    ensures SeededLeaderboard(rows, bs) ==
              SeedStep(SeedStep(SeedStep(rows, VerdictOf(bs[0])), VerdictOf(bs[1])), VerdictOf(bs[2]))
    ensures IntendedSeededLeaderboard(rows, bs) ==
              IntendedStep(IntendedStep(IntendedStep(rows, VerdictOf(bs[0])), VerdictOf(bs[1])), VerdictOf(bs[2]))
  {
    assert bs[..3] == bs;
    assert bs[..3][..2] == bs[..2];
    assert bs[..2][..1] == bs[..1];
    assert bs[..1][..0] == [];
    assert SeededLeaderboard(rows, bs[..1]) == SeedStep(rows, VerdictOf(bs[0]));
    assert IntendedSeededLeaderboard(rows, bs[..1]) == IntendedStep(rows, VerdictOf(bs[0]));
  }

  /** The table the three seed verdicts leave behind, as written. */
  lemma SeedVerdictsAsWritten()
    ensures SeedStep(SeedStep(SeedStep(map[], SnakeVerdict), ScrollVerdict), TreeVerdict) ==
      map["Nova" := Row(1, 1, 82.0), "Cipher" := Row(0, 1, 75.0),
          "Apex" := Row(1, 1, 88.0), "Vortex" := Row(0, 1, 72.0),
          "Zenith" := Row(1, 2, 82.0)]
  {
  }

  /** The table the three seed verdicts leave behind with the intended call. */
  lemma SeedVerdictsIntended()
    ensures IntendedStep(IntendedStep(IntendedStep(map[], SnakeVerdict), ScrollVerdict), TreeVerdict) ==
      map["Nova" := Row(1, 1, 82.0), "Cipher" := Row(0, 1, 75.0),
          "Apex" := Row(1, 1, 88.0), "Vortex" := Row(0, 1, 72.0),
          "Zenith" := Row(0, 1, 80.0), "Blaze" := Row(1, 1, 84.0)]
  {
  }

  /** Any three seeds judged as SEED_BATTLES are, both as written and with
      the intended call. */
  lemma SeededFromVerdicts(bs: seq<Battle>)
    requires |bs| == 3 && forall i :: 0 <= i < 3 ==> VerdictOf(bs[i]) == SeedVerdicts[i]
    ensures SeededLeaderboard(map[], bs) ==
      map["Nova" := Row(1, 1, 82.0), "Cipher" := Row(0, 1, 75.0),
          "Apex" := Row(1, 1, 88.0), "Vortex" := Row(0, 1, 72.0),
          "Zenith" := Row(1, 2, 82.0)]
    ensures IntendedSeededLeaderboard(map[], bs) ==
      map["Nova" := Row(1, 1, 82.0), "Cipher" := Row(0, 1, 75.0),
          "Apex" := Row(1, 1, 88.0), "Vortex" := Row(0, 1, 72.0),
          "Zenith" := Row(0, 1, 80.0), "Blaze" := Row(1, 1, 84.0)]
  {
    SeedingInOrder(map[], bs);
    assert VerdictOf(bs[0]) == SnakeVerdict && VerdictOf(bs[1]) == ScrollVerdict && VerdictOf(bs[2]) == TreeVerdict;
    SeedVerdictsAsWritten();
    SeedVerdictsIntended();
  }

  /** Seeding an empty leaderboard as written: the Zenith–Blaze seed, won by
      side 'B', gives Zenith one win in two battles averaging 82 and leaves
      Blaze without a row. */
  lemma SeededFromEmpty(texts: SeedCorpus)
    ensures SeededLeaderboard(map[], SeedBattles(texts)) ==
      map["Nova" := Row(1, 1, 82.0), "Cipher" := Row(0, 1, 75.0),
          "Apex" := Row(1, 1, 88.0), "Vortex" := Row(0, 1, 72.0),
          "Zenith" := Row(1, 2, 82.0)]
    ensures "Blaze" !in SeededLeaderboard(map[], SeedBattles(texts))
  {
    SeedBattlesJudged(texts);
    SeededFromVerdicts(SeedBattles(texts));
  }

  /** Seeding an empty leaderboard with the intended call: every agent of
      every seed has one battle, the judged winner one win, and each row
      averages that agent's own score. */
  lemma IntendedSeededFromEmpty(texts: SeedCorpus)
    ensures IntendedSeededLeaderboard(map[], SeedBattles(texts)) ==
      map["Nova" := Row(1, 1, 82.0), "Cipher" := Row(0, 1, 75.0),
          "Apex" := Row(1, 1, 88.0), "Vortex" := Row(0, 1, 72.0),
          "Zenith" := Row(0, 1, 80.0), "Blaze" := Row(1, 1, 84.0)]
  {
    SeedBattlesJudged(texts);
    SeededFromVerdicts(SeedBattles(texts));
  }

  /** Whatever the seeds, seeding keeps every row's wins within its battles. */
  lemma {:induction false} SeedingKeepsWinsWithinBattles(rows: map<string, Row>, bs: seq<Battle>)
    requires WinsWithinBattles(rows)
    ensures WinsWithinBattles(SeededLeaderboard(rows, bs))
    ensures WinsWithinBattles(IntendedSeededLeaderboard(rows, bs))
  {
    if bs != [] {
      SeedingKeepsWinsWithinBattles(rows, bs[..|bs| - 1]);
    }
  }

  /** What `seedBattles` resolves to. */
  datatype SeedResult = SeedResult(seeded: nat, skipped: bool)

  /** The file's own `updateLeaderboard`, against the tables of `db`. */
  method SeedUpdateLeaderboard(db: Database, winner: string, loserName: string, s: Score, agentAName: string)
    modifies db
    ensures db.leaderboard == SeedUpdate(old(db.leaderboard), winner, loserName, s, agentAName)
    ensures db.battles == old(db.battles)
  {
    var winnerName := if winner == "A" then agentAName else loserName;
    var actualLoser := if winner == "A" then loserName else agentAName;
    var winnerScore := if winner == "A" then s.a else s.b;
    var loserScore := if winner == "A" then s.b else s.a;
    db.UpsertWinner(winnerName, winnerScore);
    db.UpsertLoser(actualLoser, loserScore);
  }

  /** `seedBattles()` over `SEED_BATTLES`, with the loser argument as the
      call site passes it; from an empty leaderboard the table ends as
      `SeededFromEmpty` states. */
  method SeedBattlesOnce(db: Database, texts: SeedCorpus, count: Option<int>, insertError: Option<string>)
    returns (r: Result<SeedResult>)
    modifies db
    ensures count.Some? && count.value > 0 ==>
              r == Ok(SeedResult(0, true)) && db.battles == old(db.battles) && db.leaderboard == old(db.leaderboard)
    ensures !(count.Some? && count.value > 0) && insertError.Some? ==>
              r == Err(insertError.value) && db.battles == old(db.battles) && db.leaderboard == old(db.leaderboard)
    ensures !(count.Some? && count.value > 0) && insertError.None? ==>
              r == Ok(SeedResult(3, false)) &&
              db.battles == old(db.battles) + SeedBattles(texts) &&
              db.leaderboard == SeededLeaderboard(old(db.leaderboard), SeedBattles(texts))
  {
    SeedBattlesJudged(texts);
    r := SeedAll(db, SeedBattles(texts), count, insertError);
  }

  /** The loop of `seedBattles()` over the seeds `bs`, passing agent B as
      `loserName` when side 'A' won and agent A otherwise, as the call site
      does. `count` is the exact row count of
      `battles` (null when the count query gives none) and `insertError` the
      error of the bulk insert, if it fails. */
  method SeedAll(db: Database, bs: seq<Battle>, count: Option<int>, insertError: Option<string>)
    returns (r: Result<SeedResult>)
    modifies db
    ensures count.Some? && count.value > 0 ==>
              r == Ok(SeedResult(0, true)) && db.battles == old(db.battles) && db.leaderboard == old(db.leaderboard)
    ensures !(count.Some? && count.value > 0) && insertError.Some? ==>
              r == Err(insertError.value) && db.battles == old(db.battles) && db.leaderboard == old(db.leaderboard)
    ensures !(count.Some? && count.value > 0) && insertError.None? ==>
              r == Ok(SeedResult(|bs|, false)) &&
              db.battles == old(db.battles) + bs &&
              db.leaderboard == SeededLeaderboard(old(db.leaderboard), bs)
  {
    if count.Some? && count.value > 0 {
      return Ok(SeedResult(0, true));
    }
    if insertError.Some? {
      return Err(insertError.value);
    }
    db.battles := db.battles + bs;
    var i := 0;
    while i < |bs|
      invariant 0 <= i <= |bs|
      invariant db.battles == old(db.battles) + bs
      invariant db.leaderboard == SeededLeaderboard(old(db.leaderboard), bs[..i])
    {
      var battle := bs[i];
      assert bs[..i + 1][..i] == bs[..i];
      if Truthy(battle.winner) && battle.score.Some? {
        var loserName := if battle.winner == Some("A") then battle.agentBName else battle.agentAName;
        SeedUpdateLeaderboard(db, battle.winner.value, loserName, battle.score.value, battle.agentAName);
      }
      i := i + 1;
    }
    assert bs[..i] == bs;
    r := Ok(SeedResult(|bs|, false));
  }
}
