/** The record and enumeration types shared by the game (types.ts). */
module Types {
  import opened Wrappers

  /** 'p1' | 'p2' */
  datatype PlayerId = P1 | P2

  /** The six phases of a match. */
  datatype GamePhase = Setup | P1Input | P2Input | Processing | ShowResult | GameOver

  /** 'TOUGH' | 'MENTAL' */
  datatype TraitType = Tough | Mental

  /** The `winner` field of a turn result: 'p1' | 'p2' | 'draw'. */
  datatype Winner = WinnerP1 | WinnerP2 | Draw

  datatype PlayerStats = PlayerStats(
    id: PlayerId,
    name: string,
    hp: int,
    maxHp: int,
    avatar: string,
    themeColor: string,
    traitType: TraitType)  // the source field `trait`

  /** One judged exchange; `imageUrl` is absent until an illustration is attached. */
  datatype TurnResult = TurnResult(
    winner: Winner,
    damage: int,
    narration: string,
    p1Action: string,
    p2Action: string,
    crit: bool,
    imageUrl: Option<string>)

  datatype LogEntry = LogEntry(turn: int, result: TurnResult)

  /** The string value each GamePhase member carries. */
  function PhaseName(p: GamePhase): string {
    match p
    case Setup => "SETUP"
    case P1Input => "P1_INPUT"
    case P2Input => "P2_INPUT"
    case Processing => "PROCESSING"
    case ShowResult => "RESULT"
    case GameOver => "GAME_OVER"
  }

  /** Reads a phase back from its string value; every other string is not a phase. */
  function PhaseFromName(s: string): (r: Option<GamePhase>)
    ensures r.Some? <==> s in {"SETUP", "P1_INPUT", "P2_INPUT", "PROCESSING", "RESULT", "GAME_OVER"}
    ensures r.Some? ==> PhaseName(r.value) == s
  {
    if s == "SETUP" then Some(Setup)
    else if s == "P1_INPUT" then Some(P1Input)
    else if s == "P2_INPUT" then Some(P2Input)
    else if s == "PROCESSING" then Some(Processing)
    else if s == "RESULT" then Some(ShowResult)
    else if s == "GAME_OVER" then Some(GameOver)
    else None
  }

  /** Each phase's string value reads back as that phase, and no two phases
      share a string value. */
  lemma PhaseNamesRoundTrip(p: GamePhase, q: GamePhase)
    ensures PhaseFromName(PhaseName(p)) == Some(p)
    ensures PhaseName(p) == PhaseName(q) ==> p == q
  {
  }

  function TraitName(t: TraitType): string {
    match t
    case Tough => "TOUGH"
    case Mental => "MENTAL"
  }

  function TraitFromName(s: string): (r: Option<TraitType>)
    ensures r.Some? <==> s == "TOUGH" || s == "MENTAL"
    ensures r.Some? ==> TraitName(r.value) == s
  {
    if s == "TOUGH" then Some(Tough) else if s == "MENTAL" then Some(Mental) else None
  }

  function WinnerName(w: Winner): string {
    match w
    case WinnerP1 => "p1"
    case WinnerP2 => "p2"
    case Draw => "draw"
  }

  function WinnerFromName(s: string): (r: Option<Winner>)
    ensures r.Some? <==> s == "p1" || s == "p2" || s == "draw"
    ensures r.Some? ==> WinnerName(r.value) == s
  {
    if s == "p1" then Some(WinnerP1)
    else if s == "p2" then Some(WinnerP2)
    else if s == "draw" then Some(Draw)
    else None
  }

  function PlayerIdName(pid: PlayerId): string {
    match pid
    case P1 => "p1"
    case P2 => "p2"
  }

  function PlayerIdFromName(s: string): (r: Option<PlayerId>)
    ensures r.Some? <==> s == "p1" || s == "p2"
    ensures r.Some? ==> PlayerIdName(r.value) == s
  {
    if s == "p1" then Some(P1) else if s == "p2" then Some(P2) else None
  }
}
