/** The match state machine of App.tsx as one object. Every React state
    variable is a field; every handler is a method. `processTurn` runs across
    two awaits and two timers; each stretch between them is one method, except
    the stretch after the illustration call, which is three methods taken in a
    fixed order (patch the log, `finally`, game-over test). The field `pending`
    records which step comes next together with the values the JavaScript
    closure carries across (the verdict, the unclamped hp values). */
module App {
  import opened Wrappers
  import opened Types
  import opened Strings
  import opened AppRules
  import GeminiService

  /** What is left of `processTurn`. */
  datatype Continuation =
    | Idle                                               // no turn in flight
    | AwaitingVerdict                                    // `await resolveTurn(...)`
    | AwaitingDamage(result: TurnResult)                 // the 500 ms timer
    | AwaitingImage(change: HpChange)                    // `await generateBattleIllustration(...)`
    | ImageArrived(change: HpChange)                     // the log patch is done, `finally` is next
    | ImageSettled(change: HpChange)                     // after `finally`, before the game-over test
    | GameOverTimer                                      // the 4000 ms timer

  /** All fields at once, so that a contract can state the whole new state. */
  datatype MatchState = MatchState(
    phase: GamePhase,
    turnCount: int,
    logs: seq<LogEntry>,
    p1: PlayerStats,
    p2: PlayerStats,
    p1Input: string,
    p2Input: string,
    inputError: string,
    damageTarget: Option<DamageTarget>,
    isGeneratingImage: bool,
    pending: Continuation)

  class Match {
    var phase: GamePhase
    var turnCount: int
    var logs: seq<LogEntry>
    var p1: PlayerStats
    var p2: PlayerStats
    var p1Input: string
    var p2Input: string
    var inputError: string
    var damageTarget: Option<DamageTarget>
    var isGeneratingImage: bool
    var pending: Continuation

    ghost function State(): MatchState
      reads this
    {
      MatchState(phase, turnCount, logs, p1, p2, p1Input, p2Input, inputError,
                 damageTarget, isGeneratingImage, pending)
    }

    /** The current turn has no log entry yet. */
    ghost predicate NotLogged()
      reads this
    {
      forall i :: 0 <= i < |logs| ==> logs[i].turn < turnCount
    }

    /** The newest log entry belongs to the current turn. */
    ghost predicate Logged()
      reads this
    {
      |logs| > 0 && logs[|logs| - 1].turn == turnCount
    }

    ghost predicate KnockedOut()
      reads this
    {
      p1.hp == 0 || p2.hp == 0
    }

    ghost predicate HpApplied(c: HpChange)
      reads this
    {
      p1.hp == ClampHp(c.newP1Hp) && p2.hp == ClampHp(c.newP2Hp)
    }

    /** hp within the maximum; kept whenever the judge's damage is not negative. */
    ghost predicate HpWithinMax()
      reads this
    {
      p1.hp <= p1.maxHp && p2.hp <= p2.maxHp
    }

    /** The object invariant: the phase, the log and the turn in flight agree. */
    ghost predicate Valid()
      reads this
    {
      && turnCount >= 1
      && p1.id == P1 && p2.id == P2
      && p1.maxHp > 0 && p2.maxHp > 0 && p1.hp >= 0 && p2.hp >= 0
      && LogNumbered(logs, turnCount)
      && (damageTarget.Some? <==> pending.AwaitingDamage?)
      && (phase == Setup ==> logs == [] && turnCount == 1)
      && (phase in {Setup, P1Input, P2Input} ==> pending == Idle && !isGeneratingImage && NotLogged())
      && (phase == Processing <==> pending.AwaitingVerdict? || pending.AwaitingDamage?)
      && (phase == Processing ==> isGeneratingImage)
      && (pending.AwaitingVerdict? ==> NotLogged())
      && (pending.AwaitingDamage? ==> Logged())
      && (phase == ShowResult ==> Logged())
      && (pending.AwaitingImage? ==> phase == ShowResult && isGeneratingImage && HpApplied(pending.change))
      && (pending.ImageArrived? ==> phase == ShowResult && isGeneratingImage && HpApplied(pending.change))
      && (pending.ImageSettled? ==> phase == ShowResult && !isGeneratingImage && HpApplied(pending.change))
      && (pending.GameOverTimer? ==> phase == ShowResult && !isGeneratingImage && KnockedOut())
      && (phase == ShowResult && pending == Idle ==> !isGeneratingImage && !KnockedOut())
      && (phase == GameOver ==> pending == Idle && !isGeneratingImage && Logged() && KnockedOut())
    }

    /** The "Next Turn" button is shown (both players alive) and enabled (no
        illustration outstanding) on the result screen. */
    predicate NextTurnOffered()
      reads this
    {
      phase == ShowResult && !(p1.hp <= 0 || p2.hp <= 0) && !isGeneratingImage
    }

    /** The request `processTurn` sends to the judge from the current state. */
    function CurrentRequest(): (req: GeminiService.TurnRequest)
      reads this
      ensures req.p1Action == p1Input && req.p2Action == p2Input
      ensures req.historySummary == HistorySummary(logs, p1.name, p2.name)
    {
      GeminiService.TurnRequest(p1.name, p1Input, p1.traitType, p2.name, p2Input, p2.traitType,
                                HistorySummary(logs, p1.name, p2.name))
    }

    /** The initial React state. */
    constructor ()
      ensures Valid() && HpWithinMax()
      ensures State() == MatchState(Setup, 1, [], InitialP1(), InitialP2(), "", "", "", None, false, Idle)
    {
      phase := Setup;
      turnCount := 1;
      logs := [];
      p1 := InitialP1();
      p2 := InitialP2();
      p1Input := "";
      p2Input := "";
      inputError := "";
      damageTarget := None;
      isGeneratingImage := false;
      pending := Idle;
    }

    /** `setPlayerTrait`: the chosen player gets the trait and full table hp;
        the other player and the rest of the state are unchanged. */
    method SetPlayerTrait(pid: PlayerId, t: TraitType)
      requires Valid() && phase == Setup
      modifies this
      ensures Valid() && HpWithinMax() == (if pid == P1 then old(p2.hp <= p2.maxHp) else old(p1.hp <= p1.maxHp))
      ensures pid == P1 ==> State() == old(State()).(p1 := WithTrait(old(p1), t))
      ensures pid == P2 ==> State() == old(State()).(p2 := WithTrait(old(p2), t))
    {
      if pid == P1 {
        p1 := WithTrait(p1, t);
      } else {
        p2 := WithTrait(p2, t);
      }
    }

    /** The name fields on the setup screen. */
    method SetPlayerName(pid: PlayerId, name: string)
      requires Valid() && phase == Setup
      modifies this
      ensures Valid() && HpWithinMax() == old(HpWithinMax())
      ensures pid == P1 ==> State() == old(State()).(p1 := old(p1).(name := name))
      ensures pid == P2 ==> State() == old(State()).(p2 := old(p2).(name := name))
    {
      if pid == P1 {
        p1 := p1.(name := name);
      } else {
        p2 := p2.(name := name);
      }
    }

    /** The action text areas: player 1's is on screen in P1_INPUT, player 2's in P2_INPUT. */
    method SetActionText(pid: PlayerId, text: string)
      requires Valid() && phase == (if pid == P1 then P1Input else P2Input)
      modifies this
      ensures Valid() && HpWithinMax() == old(HpWithinMax())
      ensures pid == P1 ==> State() == old(State()).(p1Input := text)
      ensures pid == P2 ==> State() == old(State()).(p2Input := text)
    {
      if pid == P1 {
        p1Input := text;
      } else {
        p2Input := text;
      }
    }

    /** `handleStartGame` */
    method StartGame()
      requires Valid() && phase == Setup
      modifies this
      ensures Valid() && HpWithinMax() == old(HpWithinMax())
      ensures State() == old(State()).(phase := P1Input)
    {
      phase := P1Input;
    }

    /** `handleP1Submit`: a blank action only sets the error; any other clears
        it and moves on to player 2. */
    method SubmitP1()
      requires Valid() && phase == P1Input
      modifies this
      ensures Valid() && HpWithinMax() == old(HpWithinMax())
      ensures IsBlank(old(p1Input)) ==> State() == old(State()).(inputError := INPUT_ERROR)
      ensures !IsBlank(old(p1Input)) ==> State() == old(State()).(inputError := "", phase := P2Input)
    {
      var blank := TrimmedIsEmpty(p1Input);
      if blank {
        inputError := INPUT_ERROR;
        return;
      }
      inputError := "";
      phase := P2Input;
    }

    /** `handleP2Submit` and the start of `processTurn`: a blank action only
        sets the error; any other clears it, enters PROCESSING, raises the
        illustration flag and sends `CurrentRequest()` to the judge. */
    method SubmitP2()
      requires Valid() && phase == P2Input
      modifies this
      ensures Valid() && HpWithinMax() == old(HpWithinMax())
      ensures IsBlank(old(p2Input)) ==> State() == old(State()).(inputError := INPUT_ERROR)
      ensures !IsBlank(old(p2Input)) ==>
        State() == old(State()).(inputError := "", phase := Processing, isGeneratingImage := true,
                                 pending := AwaitingVerdict)
    {
      var blank := TrimmedIsEmpty(p2Input);
      if blank {
        inputError := INPUT_ERROR;
        return;
      }
      inputError := "";
      phase := Processing;
      isGeneratingImage := true;
      pending := AwaitingVerdict;
    }

    /** The judge has answered the request sent on submission (nothing has
        changed since, so it is still `CurrentRequest()`, with the history of
        the last three entries): the result, or the fallback, is appended to
        the log as the entry of the current turn, before any hp changes, and
        the losing bars start shaking. */
    method ReceiveVerdict(reply: GeminiService.ModelReply) returns (result: TurnResult)
      requires Valid() && pending.AwaitingVerdict?
      modifies this
      ensures Valid() && HpWithinMax() == old(HpWithinMax())
      ensures result == GeminiService.ResolveTurn(old(CurrentRequest()), reply)
      ensures State() == old(State()).(logs := old(logs) + [LogEntry(old(turnCount), result)],
                                       damageTarget := Some(TargetOf(result.winner)),
                                       pending := AwaitingDamage(result))
    {
      var request := CurrentRequest();
      result := GeminiService.ResolveTurn(request, reply);
      AppendKeepsLogNumbered(logs, turnCount, result);
      logs := logs + [LogEntry(turnCount, result)];
      damageTarget := Some(TargetOf(result.winner));
      pending := AwaitingDamage(result);
    }

    /** The 500 ms timer: the damage is routed to the loser(s), stored hp is
        floored at 0, the result screen shows, and the shaking stops. */
    method ApplyDamage() returns (change: HpChange)
      requires Valid() && pending.AwaitingDamage?
      modifies this
      ensures Valid()
      ensures change == RouteDamage(old(p1.hp), old(p2.hp), old(pending.result.winner), old(pending.result.damage))
      ensures State() == old(State()).(p1 := old(p1).(hp := ClampHp(change.newP1Hp)),
                                       p2 := old(p2).(hp := ClampHp(change.newP2Hp)),
                                       phase := ShowResult, damageTarget := None,
                                       pending := AwaitingImage(change))
      ensures old(HpWithinMax()) && old(pending.result.damage) >= 0 ==>
        HpWithinMax() && p1.hp <= old(p1.hp) && p2.hp <= old(p2.hp)
    {
      var r := pending.result;
      change := RouteDamage(p1.hp, p2.hp, r.winner, r.damage);
      p1, p2 := p1.(hp := ClampHp(change.newP1Hp)), p2.(hp := ClampHp(change.newP2Hp));
      phase, damageTarget, pending := ShowResult, None, AwaitingImage(change);
    }

    /** The illustration call has returned `imageUrl`: a truthy URL patches
        the image of the newest entry when that entry is this turn's; the log
        is otherwise unchanged. As the newest entry is always this turn's
        here, every truthy URL is attached. The call resolves once, so a
        turn's entry gets at most one image. */
    method AttachImage(imageUrl: Option<string>)
      requires Valid() && pending.AwaitingImage?
      modifies this
      ensures Valid() && HpWithinMax() == old(HpWithinMax())
      ensures State() == old(State()).(logs := if Truthy(imageUrl)
                                                then AttachImageToLast(old(logs), old(turnCount), imageUrl.value)
                                                else old(logs),
                                       pending := ImageArrived(old(pending.change)))
      ensures Truthy(imageUrl) ==> logs[|logs| - 1].result.imageUrl == imageUrl
    {
      if Truthy(imageUrl) {
        AttachKeepsTurnsIncreasing(logs, turnCount, imageUrl.value);
        logs := AttachImageToLast(logs, turnCount, imageUrl.value);
      }
      pending := ImageArrived(pending.change);
    }

    /** The `finally` block: the illustration flag drops, whether the patch
        ran or the call threw before it. */
    method SettleImage()
      requires Valid() && (pending.AwaitingImage? || pending.ImageArrived?)
      modifies this
      ensures Valid() && HpWithinMax() == old(HpWithinMax())
      ensures State() == old(State()).(isGeneratingImage := false, pending := ImageSettled(old(pending.change)))
    {
      isGeneratingImage := false;
      pending := ImageSettled(pending.change);
    }

    /** The game-over test after the illustration settles: the 4000 ms timer
        is scheduled exactly when a player is down to 0 hp; otherwise the
        "Next Turn" button becomes available. */
    method FinishTurn() returns (gameOverScheduled: bool)
      requires Valid() && pending.ImageSettled?
      modifies this
      ensures Valid() && HpWithinMax() == old(HpWithinMax())
      ensures gameOverScheduled == GameOverDue(old(pending.change))
      ensures gameOverScheduled <==> p1.hp == 0 || p2.hp == 0
      ensures gameOverScheduled <==> !NextTurnOffered()
      ensures State() == old(State()).(pending := if gameOverScheduled then GameOverTimer else Idle)
    {
      GameOverIffKnockedOut(pending.change);
      gameOverScheduled := GameOverDue(pending.change);
      pending := if gameOverScheduled then GameOverTimer else Idle;
    }

    /** The 4000 ms timer fires. */
    method EnterGameOver()
      requires Valid() && pending.GameOverTimer?
      modifies this
      ensures Valid() && HpWithinMax() == old(HpWithinMax())
      ensures State() == old(State()).(phase := GameOver, pending := Idle)
    {
      phase := GameOver;
      pending := Idle;
    }

    /** `nextTurn`: the next turn number, both actions cleared, back to
        player 1; the input error is left as it was. */
    method NextTurn()
      requires Valid() && pending == Idle && NextTurnOffered()
      modifies this
      ensures Valid() && HpWithinMax() == old(HpWithinMax())
      ensures State() == old(State()).(turnCount := old(turnCount) + 1, p1Input := "", p2Input := "",
                                       phase := P1Input)
    {
      turnCount := turnCount + 1;
      p1Input := "";
      p2Input := "";
      phase := P1Input;
    }

    /** `resetGame`: player 1 becomes TOUGH 120/120 and player 2 MENTAL 80/80
        whatever they had chosen, names kept; log emptied, turn 1, actions
        cleared, back to setup; the input error is left as it was. */
    method ResetGame()
      requires Valid() && phase == GameOver
      modifies this
      ensures Valid() && HpWithinMax()
      ensures State() == MatchState(Setup, 1, [], WithTrait(old(p1), Tough), WithTrait(old(p2), Mental),
                                    "", "", old(inputError), None, false, Idle)
    {
      var q1 := WithTrait(p1, Tough);
      var q2 := WithTrait(p2, Mental);
      assert q1.id == P1 && q2.id == P2 && 0 < q1.hp == q1.maxHp && 0 < q2.hp == q2.maxHp;
      p1, p2, logs, turnCount, p1Input, p2Input, phase :=
        q1, q2, [], 1, "", "", Setup;
    }
  }
}
