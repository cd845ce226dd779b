/** The game's rules that App.tsx computes without changing state: the trait
    table, the starting players, damage routing and the hp floor, the
    game-over test, the history summary sent to the judge, and the patch that
    attaches an illustration to the log. */
module AppRules {
  import opened Wrappers
  import opened Types
  import opened Strings

  /** One row of the TRAITS table: base hp and avatar (labels are display text). */
  datatype TraitData = TraitData(hp: int, avatar: string)

  const TOUGH_AVATAR := "\U{1F98D}"
  const MENTAL_AVATAR := "\U{1F9E0}"

  /** `TRAITS[trait]` */
  function TraitTable(t: TraitType): TraitData {
    match t
    case Tough => TraitData(120, TOUGH_AVATAR)
    case Mental => TraitData(80, MENTAL_AVATAR)
  }

  /** The message shown when a submitted action is blank. */
  const INPUT_ERROR := "行動を入力してください / Please enter an action"

  /** Player 1 before any trait is chosen: 100/100, trait TOUGH. */
  function InitialP1(): PlayerStats {
    PlayerStats(P1, "Player 1", 100, 100, TOUGH_AVATAR, "text-blue-400", Tough)
  }

  /** Player 2 before any trait is chosen: 100/100, trait MENTAL. */
  function InitialP2(): PlayerStats {
    PlayerStats(P2, "Player 2", 100, 100, MENTAL_AVATAR, "text-red-400", Mental)
  }

  /** `p` with trait `t` and full hp for it; everything else kept. */
  function WithTrait(p: PlayerStats, t: TraitType): (q: PlayerStats)
    ensures q.traitType == t && q.hp == q.maxHp == TraitTable(t).hp
    ensures q.maxHp == (if t == Tough then 120 else 80)
    ensures q.id == p.id && q.name == p.name && q.themeColor == p.themeColor
  {
    p.(traitType := t, hp := TraitTable(t).hp, maxHp := TraitTable(t).hp, avatar := TraitTable(t).avatar)
  }

  /** Which health bar shakes while damage is shown. */
  datatype DamageTarget = TargetP1 | TargetP2 | TargetBoth

  /** Player `pid` takes the turn's damage: the other player won, or it was a draw. */
  predicate Loses(pid: PlayerId, w: Winner) {
    match w
    case WinnerP1 => pid == P2
    case WinnerP2 => pid == P1
    case Draw => true
  }

  /** `Math.max(0, hp)` */
  function ClampHp(hp: int): (r: int)
    ensures r >= 0 && r >= hp
    ensures hp >= 0 ==> r == hp
    ensures r == 0 <==> hp <= 0
  {
    if hp < 0 then 0 else hp
  }

  /** The unclamped hp values `newP1Hp` and `newP2Hp` of a turn. */
  datatype HpChange = HpChange(newP1Hp: int, newP2Hp: int)

  /** The winner's damage goes to the loser; a draw takes the full damage
      from both; nobody else is touched. */
  function RouteDamage(p1Hp: int, p2Hp: int, w: Winner, damage: int): (c: HpChange)
    ensures c.newP1Hp == p1Hp - (if Loses(P1, w) then damage else 0)
    ensures c.newP2Hp == p2Hp - (if Loses(P2, w) then damage else 0)
  {
    if w == WinnerP2 then HpChange(p1Hp - damage, p2Hp)
    else if w == WinnerP1 then HpChange(p1Hp, p2Hp - damage)
    else HpChange(p1Hp - damage, p2Hp - damage)
  }

  /** The shaking bars mirror the losers. */
  function TargetOf(w: Winner): (t: DamageTarget)
    ensures (t == TargetP1 || t == TargetBoth) <==> Loses(P1, w)
    ensures (t == TargetP2 || t == TargetBoth) <==> Loses(P2, w)
  {
    if w == WinnerP1 then TargetP2 else if w == WinnerP2 then TargetP1 else TargetBoth
  }

  /** `newP1Hp <= 0 || newP2Hp <= 0` */
  predicate GameOverDue(c: HpChange) {
    c.newP1Hp <= 0 || c.newP2Hp <= 0
  }

  /** Testing the unclamped values is the same as asking whether a stored hp is 0. */
  lemma GameOverIffKnockedOut(c: HpChange)
    ensures GameOverDue(c) <==> ClampHp(c.newP1Hp) == 0 || ClampHp(c.newP2Hp) == 0
  {
  }

  /** With non-negative damage a turn never raises hp, keeps it within
      `[0, maxHp]`, and a player that does not lose keeps their hp exactly. */
  lemma DamageOnlyLowers(p1Hp: int, p2Hp: int, maxHp1: int, maxHp2: int, w: Winner, damage: int)
    requires damage >= 0
    requires 0 <= p1Hp <= maxHp1 && 0 <= p2Hp <= maxHp2
    ensures var c := RouteDamage(p1Hp, p2Hp, w, damage);
      && 0 <= ClampHp(c.newP1Hp) <= p1Hp && 0 <= ClampHp(c.newP2Hp) <= p2Hp
      && (!Loses(P1, w) ==> ClampHp(c.newP1Hp) == p1Hp)
      && (!Loses(P2, w) ==> ClampHp(c.newP2Hp) == p2Hp)
  {
  }

  /** The name the history credits with an entry: p1's only when p1 won, so
      a draw is credited to p2. */
  function CreditedName(w: Winner, p1Name: string, p2Name: string): (n: string)
    ensures w == WinnerP1 ==> n == p1Name
    ensures w == WinnerP2 || w == Draw ==> n == p2Name
  {
    if w == WinnerP1 then p1Name else p2Name
  }

  /** `Turn ${l.turn}: ${name} won. ${l.result.narration}` */
  function HistoryLine(e: LogEntry, p1Name: string, p2Name: string): string {
    "Turn " + IntToString(e.turn) + ": " + CreditedName(e.result.winner, p1Name, p2Name) + " won. " + e.result.narration
  }

  /** `logs.slice(-3)`: the last three entries, or all of them when fewer. */
  function LastThree(logs: seq<LogEntry>): seq<LogEntry> {
    if |logs| <= 3 then logs else logs[|logs| - 3..]
  }

  /** `entries.map(...)` */
  function HistoryLines(entries: seq<LogEntry>, p1Name: string, p2Name: string): seq<string> {
    if entries == [] then []
    else [HistoryLine(entries[0], p1Name, p2Name)] + HistoryLines(entries[1..], p1Name, p2Name)
  }

  /** The `historyText` sent to the judge. */
  function HistorySummary(logs: seq<LogEntry>, p1Name: string, p2Name: string): string {
    Join(HistoryLines(LastThree(logs), p1Name, p2Name), "; ")
  }

  /** `slice(-3)` keeps the newest three entries, or all when fewer. */
  lemma LastThreeIsSuffix(logs: seq<LogEntry>)
    ensures var k := if |logs| < 3 then |logs| else 3;
      |LastThree(logs)| == k && LastThree(logs) == logs[|logs| - k..]
  {
  }

  /** `map` renders each entry, in order. */
  lemma {:induction false} HistoryLinesAt(entries: seq<LogEntry>, p1Name: string, p2Name: string)
    ensures |HistoryLines(entries, p1Name, p2Name)| == |entries|
    ensures forall i :: 0 <= i < |entries| ==>
      HistoryLines(entries, p1Name, p2Name)[i] == HistoryLine(entries[i], p1Name, p2Name)
  {
    if entries != [] {
      var rest := entries[1..];
      HistoryLinesAt(rest, p1Name, p2Name);
      var lines := HistoryLines(entries, p1Name, p2Name);
      assert lines == [HistoryLine(entries[0], p1Name, p2Name)] + HistoryLines(rest, p1Name, p2Name);
      forall i | 0 <= i < |entries| ensures lines[i] == HistoryLine(entries[i], p1Name, p2Name) {
        if i > 0 {
          assert entries[i] == rest[i - 1];
        }
      }
    }
  }

  /** The summary spelt out: at most the three newest entries, oldest first,
      separated by "; ". */
  lemma HistoryExplicit(logs: seq<LogEntry>, p1Name: string, p2Name: string)
    ensures |logs| == 0 ==> HistorySummary(logs, p1Name, p2Name) == ""
    ensures |logs| == 1 ==> HistorySummary(logs, p1Name, p2Name) == HistoryLine(logs[0], p1Name, p2Name)
    ensures |logs| == 2 ==>
      HistorySummary(logs, p1Name, p2Name) ==
        HistoryLine(logs[0], p1Name, p2Name) + "; " + HistoryLine(logs[1], p1Name, p2Name)
    ensures |logs| >= 3 ==>
      var n := |logs|;
      HistorySummary(logs, p1Name, p2Name) ==
        HistoryLine(logs[n - 3], p1Name, p2Name) + "; " +
        HistoryLine(logs[n - 2], p1Name, p2Name) + "; " +
        HistoryLine(logs[n - 1], p1Name, p2Name)
  {
    var recent := LastThree(logs);
    var lines := HistoryLines(recent, p1Name, p2Name);
    LastThreeIsSuffix(logs);
    HistoryLinesAt(recent, p1Name, p2Name);
    if |lines| == 2 {
      assert Join(lines[1..], "; ") == lines[1];
    } else if |lines| == 3 {
      assert Join(lines[2..], "; ") == lines[2];
      assert Join(lines[1..], "; ") == lines[1] + "; " + lines[2];
      var n := |logs|;
      assert recent[0] == logs[n - 3] && recent[1] == logs[n - 2] && recent[2] == logs[n - 1];
    }
  }

  /** Entries older than the last three never reach the judge. */
  lemma HistoryIgnoresOlder(older: seq<LogEntry>, recent: seq<LogEntry>, p1Name: string, p2Name: string)
    requires |recent| >= 3
    ensures HistorySummary(older + recent, p1Name, p2Name) == HistorySummary(recent, p1Name, p2Name)
  {
    var all := older + recent;
    assert LastThree(all) == LastThree(recent) by {
      assert all[|all| - 3..] == recent[|recent| - 3..];
    }
  }

  /** The functional update inside `setLogs`: the last entry gets `url` as its
      image when its turn is `turn`; nothing else in the log changes. */
  function AttachImageToLast(logs: seq<LogEntry>, turn: int, url: string): (r: seq<LogEntry>)
    ensures |r| == |logs|
    ensures forall i :: 0 <= i < |logs| ==> r[i].turn == logs[i].turn
    ensures forall i :: 0 <= i < |logs| - 1 ==> r[i] == logs[i]
    ensures |logs| > 0 && logs[|logs| - 1].turn == turn ==>
      r[|r| - 1].result == logs[|logs| - 1].result.(imageUrl := Some(url))
    ensures !(|logs| > 0 && logs[|logs| - 1].turn == turn) ==> r == logs
  {
    var lastIdx := |logs| - 1;
    if lastIdx >= 0 && logs[lastIdx].turn == turn then
      logs[lastIdx := logs[lastIdx].(result := logs[lastIdx].result.(imageUrl := Some(url)))]
    else logs
  }

  /** Every entry's turn number is larger than those before it. */
  predicate TurnsIncreasing(logs: seq<LogEntry>) {
    forall i, j :: 0 <= i < j < |logs| ==> logs[i].turn < logs[j].turn
  }

  /** The log's turn numbers increase and lie in `1..turnCount`. */
  predicate LogNumbered(logs: seq<LogEntry>, turnCount: int) {
    TurnsIncreasing(logs) && forall i :: 0 <= i < |logs| ==> 1 <= logs[i].turn <= turnCount
  }

  /** Logging the current turn, which has no entry yet, keeps the numbering. */
  lemma AppendKeepsLogNumbered(logs: seq<LogEntry>, turnCount: int, result: TurnResult)
    requires LogNumbered(logs, turnCount) && turnCount >= 1
    requires forall i :: 0 <= i < |logs| ==> logs[i].turn < turnCount
    ensures LogNumbered(logs + [LogEntry(turnCount, result)], turnCount)
  {
    var r := logs + [LogEntry(turnCount, result)];
    forall i, j | 0 <= i < j < |r| ensures r[i].turn < r[j].turn {
      assert r[i] == logs[i];
    }
  }

  /** Attaching an image keeps the turn numbering of the log. */
  lemma AttachKeepsTurnsIncreasing(logs: seq<LogEntry>, turn: int, url: string)
    requires TurnsIncreasing(logs)
    ensures TurnsIncreasing(AttachImageToLast(logs, turn, url))
  {
    var r := AttachImageToLast(logs, turn, url);
    forall i, j | 0 <= i < j < |r| ensures r[i].turn < r[j].turn {
      assert r[i].turn == logs[i].turn && r[j].turn == logs[j].turn;
    }
  }
}
