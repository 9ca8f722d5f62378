/** lib/supabase-admin.ts: the battle record, the `battles` and
    `leaderboard` tables (as a sequence and a map owned by one `Database`
    object), `insertBattle` and the read-modify-write `updateLeaderboard`. */
module SupabaseAdmin {
  import opened Common

  /** `score` column: both scores and the judge's reason. */
  datatype Score = Score(a: real, b: real, reason: string)

  /** `Battle` without `id` and `created_at`, which the database assigns. */
  datatype Battle = Battle(
    prompt: string,
    agentAName: string,
    agentBName: string,
    agentACode: string,
    agentBCode: string,
    agentARefined: string,
    agentBRefined: string,
    critique: string,
    winner: Option<string>,
    score: Option<Score>)

  /** A `leaderboard` row, keyed by `agent_name`. */
  datatype Row = Row(wins: nat, battles: nat, avgScore: real)

  function Lookup(rows: map<string, Row>, name: string): (r: Option<Row>)
    ensures r.Some? <==> name in rows
    ensures r.Some? ==> r.value == rows[name]
  {
    if name in rows then Some(rows[name]) else None
  }

  /** The `(avg · n + s) / (n + 1)` update of a running mean over n scores. */
  function NextMean(avg: real, n: nat, s: real): real
  {
    (avg * n as real + s) / (n + 1) as real
  }

  /** The winner's row after the update-or-insert. */
  function WonRow(existing: Option<Row>, s: real): Row
  {
    match existing
    case Some(row) => Row(row.wins + 1, row.battles + 1, NextMean(row.avgScore, row.battles, s))
    case None => Row(1, 1, s)
  }

  /** The loser's row after the update-or-insert. */
  function LostRow(existing: Option<Row>, s: real): Row
  {
    match existing
    case Some(row) => Row(row.wins, row.battles + 1, NextMean(row.avgScore, row.battles, s))
    case None => Row(0, 1, s)
  }

  function RecordWin(rows: map<string, Row>, name: string, s: real): map<string, Row>
  {
    rows[name := WonRow(Lookup(rows, name), s)]
  }

  function RecordLoss(rows: map<string, Row>, name: string, s: real): map<string, Row>
  {
    rows[name := LostRow(Lookup(rows, name), s)]
  }

  /** The agents credited by `updateLeaderboard`: side 'A' means agentAName
      won against loserName, side 'B' means loserName won against agentAName,
      and any other value names nobody. */
  function Sides(winnerName: string, loserName: string, agentAName: string): (Option<string>, Option<string>)
  {
    if winnerName == "A" then (Some(agentAName), Some(loserName))
    else if winnerName == "B" then (Some(loserName), Some(agentAName))
    else (None, None)
  }

  /** The score a side earns: the winner `scores.a` when side 'A' won, else
      `scores.b`; the loser the other one. */
  function WinnerScore(winnerName: string, a: real, b: real): real
  {
    if winnerName == "A" then a else b
  }

  function LoserScore(winnerName: string, a: real, b: real): real
  {
    if winnerName == "A" then b else a
  }

  /** The table after `updateLeaderboard`: the winner's row first, then the
      loser's row read afresh; a falsy (missing or empty) name is skipped. */
  function LeaderboardAfter(rows: map<string, Row>, winnerName: string, loserName: string,
                            a: real, b: real, agentAName: string): map<string, Row>
  {
    var (w, l) := Sides(winnerName, loserName, agentAName);
    var afterWin := if Truthy(w) then RecordWin(rows, w.value, WinnerScore(winnerName, a, b)) else rows;
    if Truthy(l) then RecordLoss(afterWin, l.value, LoserScore(winnerName, a, b)) else afterWin
  }

  /** Each row counts no more wins than battles. */
  predicate WinsWithinBattles(rows: map<string, Row>)
  {
    forall name :: name in rows ==> rows[name].wins <= rows[name].battles
  }

  /** Side resolution and counters: the judged winner gains a win and a
      battle, the other agent a battle only, each scored by its own side. */
  lemma UpdateCreditsBothSides(rows: map<string, Row>, winnerName: string, loserName: string,
                               a: real, b: real, agentAName: string)
    requires winnerName == "A" || winnerName == "B"
    requires agentAName != "" && loserName != "" && agentAName != loserName
    ensures var after := LeaderboardAfter(rows, winnerName, loserName, a, b, agentAName);
      var w := if winnerName == "A" then agentAName else loserName;
      var l := if winnerName == "A" then loserName else agentAName;
      after == rows[w := WonRow(Lookup(rows, w), if winnerName == "A" then a else b)]
                   [l := LostRow(Lookup(rows, l), if winnerName == "A" then b else a)] &&
      after[w].wins == (if w in rows then rows[w].wins else 0) + 1 &&
      after[w].battles == (if w in rows then rows[w].battles else 0) + 1 &&
      after[l].wins == (if l in rows then rows[l].wins else 0) &&
      after[l].battles == (if l in rows then rows[l].battles else 0) + 1
  {
  }

  /** A judged side other than 'A' or 'B' leaves the table as it was. */
  lemma UpdateIgnoresUnknownSide(rows: map<string, Row>, winnerName: string, loserName: string,
                                 a: real, b: real, agentAName: string)
    requires winnerName != "A" && winnerName != "B"
    ensures LeaderboardAfter(rows, winnerName, loserName, a, b, agentAName) == rows
  {
  }

  /** Only the two credited agents' rows can change. */
  lemma UpdateFrame(rows: map<string, Row>, winnerName: string, loserName: string,
                    a: real, b: real, agentAName: string, other: string)
    requires other != agentAName && other != loserName
    ensures var after := LeaderboardAfter(rows, winnerName, loserName, a, b, agentAName);
      (other in after <==> other in rows) && (other in rows ==> after[other] == rows[other])
  {
  }

  /** wins ≤ battles holds of every row after an update if it did before. */
  lemma {:induction false} UpdateKeepsWinsWithinBattles(rows: map<string, Row>, winnerName: string,
                                     loserName: string, a: real, b: real, agentAName: string)
    requires WinsWithinBattles(rows)
    ensures WinsWithinBattles(LeaderboardAfter(rows, winnerName, loserName, a, b, agentAName))
  {
    var (w, l) := Sides(winnerName, loserName, agentAName);
    var afterWin := if Truthy(w) then RecordWin(rows, w.value, WinnerScore(winnerName, a, b)) else rows;
    assert WinsWithinBattles(afterWin);
  }

  /** Crediting two different agents commutes: the order in which the winner's
      and the loser's rows are written does not matter. */
  lemma CreditOrderIrrelevant(rows: map<string, Row>, w: string, sw: real, l: string, sl: real)
    requires w != l
    ensures RecordLoss(RecordWin(rows, w, sw), l, sl) == RecordWin(RecordLoss(rows, l, sl), w, sw)
  {
  }

  function Sum(ss: seq<real>): real
  {
    if ss == [] then 0.0 else Sum(ss[..|ss| - 1]) + ss[|ss| - 1]
  }

  /** `row` is the aggregate of exactly the scores `ss`: no row for no score,
      otherwise one battle per score and their arithmetic mean. */
  predicate Aggregates(row: Option<Row>, ss: seq<real>)
  {
    match row
    case None => ss == []
    case Some(r) => r.battles == |ss| && |ss| > 0 && r.avgScore == Sum(ss) / |ss| as real
  }

  lemma SumSnoc(ss: seq<real>, s: real)
    ensures Sum(ss + [s]) == Sum(ss) + s
  {
    assert (ss + [s])[..|ss|] == ss;
  }

  lemma MeanStep(total: real, n: real, s: real)
    requires n > 0.0
    ensures (total / n * n + s) / (n + 1.0) == (total + s) / (n + 1.0)
  {
    assert total / n * n == total;
  }

  lemma NextMeanAt(avg: real, k: nat, s: real)
    ensures NextMean(avg, k, s) == (avg * (k as real) + s) / ((k as real) + 1.0)
  {
  }

  /** One step of the running mean from the mean of k scores totalling
      `total` gives the mean of the k + 1 scores. */
  lemma NextMeanOfMean(total: real, k: nat, s: real)
    requires k > 0
    ensures NextMean(total / k as real, k, s) == (total + s) / (k + 1) as real
  {
    var n := k as real;
    NextMeanAt(total / n, k, s);
    MeanStep(total, n, s);
  }

  /** The running-mean update keeps avg_score the mean of all scores seen,
      for a win and for a loss, whether the row existed or not. */
  lemma {:induction false} RunningMean(row: Option<Row>, ss: seq<real>, s: real)
    requires Aggregates(row, ss)
    ensures Aggregates(Some(WonRow(row, s)), ss + [s])
    ensures Aggregates(Some(LostRow(row, s)), ss + [s])
  {
    if row.Some? {
      SumSnoc(ss, s);
      NextMeanOfMean(Sum(ss), |ss|, s);
    } else {
      assert ss + [s] == [s];
      assert Sum([s]) == Sum([]) + s;
    }
  }

  /** An agent with no row that plays two battles scored s1 then s2 ends with
      two battles and average (s1 + s2) / 2, whichever it won or lost. */
  lemma TwoBattlesAverage(s1: real, s2: real, won1: bool, won2: bool)
    ensures var first := if won1 then WonRow(None, s1) else LostRow(None, s1);
      var second := if won2 then WonRow(Some(first), s2) else LostRow(Some(first), s2);
      second.battles == 2 && second.avgScore == (s1 + s2) / 2.0 &&
      second.wins == (if won1 then 1 else 0) + (if won2 then 1 else 0)
  {
  }

  /** The `battles` and `leaderboard` tables behind `supabaseAdmin`. */
  class Database {
    var battles: seq<Battle>
    var leaderboard: map<string, Row>

    constructor (battles0: seq<Battle>, leaderboard0: map<string, Row>)
      ensures battles == battles0 && leaderboard == leaderboard0
    {
      battles := battles0;
      leaderboard := leaderboard0;
    }

    /** `insertBattle` (the insert that succeeds). */
    method InsertBattle(b: Battle)
      modifies this
      ensures battles == old(battles) + [b]
      ensures leaderboard == old(leaderboard)
    {
      battles := battles + [b];
    }

    /** Select the winner's row, then update it or insert a fresh one. */
    method UpsertWinner(name: string, s: real)
      modifies this
      ensures leaderboard == RecordWin(old(leaderboard), name, s)
      ensures battles == old(battles)
    {
      var existing := Lookup(leaderboard, name);
      if existing.Some? {
        var newWins := existing.value.wins + 1;
        var newBattles := existing.value.battles + 1;
        var newAvg := (existing.value.avgScore * existing.value.battles as real + s) / newBattles as real;
        leaderboard := leaderboard[name := Row(newWins, newBattles, newAvg)];
      } else {
        leaderboard := leaderboard[name := Row(1, 1, s)];
      }
    }

    /** Select the loser's row, then update it or insert a fresh one. */
    method UpsertLoser(name: string, s: real)
      modifies this
      ensures leaderboard == RecordLoss(old(leaderboard), name, s)
      ensures battles == old(battles)
    {
      var existing := Lookup(leaderboard, name);
      if existing.Some? {
        var newBattles := existing.value.battles + 1;
        var newAvg := (existing.value.avgScore * existing.value.battles as real + s) / newBattles as real;
        leaderboard := leaderboard[name := Row(existing.value.wins, newBattles, newAvg)];
      } else {
        leaderboard := leaderboard[name := Row(0, 1, s)];
      }
    }

    /** `updateLeaderboard(winnerName, loserName, scores, agentAName)`. */
    method UpdateLeaderboard(winnerName: string, loserName: string, a: real, b: real, agentAName: string)
      modifies this
      ensures leaderboard == LeaderboardAfter(old(leaderboard), winnerName, loserName, a, b, agentAName)
      ensures battles == old(battles)
    {
      var winner := if winnerName == "A" then Some(agentAName) else if winnerName == "B" then Some(loserName) else None;
      var loser := if winnerName == "A" then Some(loserName) else if winnerName == "B" then Some(agentAName) else None;
      if Truthy(winner) {
        UpsertWinner(winner.value, if winnerName == "A" then a else b);
      }
      if Truthy(loser) {
        UpsertLoser(loser.value, if winnerName == "A" then b else a);
      }
    }
  }
}
