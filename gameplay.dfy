/** The game screen's flow around the rhythm engine
    (frontend-game/src/screens/GameScreen.tsx): how a judgment from the
    engine updates score, combo and accuracy, the chase progress, the
    one-shot end-of-match handler, win attribution, the restart and the
    rank.  The engine, the input handler and the lobby service are not part
    of this model: their results are inputs, and the calls made to them are
    recorded in logs. */
module Gameplay {
  import opened Wrappers
  import opened Roster

  // ---------------------------------------------------------------------
  // Values

  /** A judgment as the engine returns it: its type name and its score. */
  datatype Judgment = Judgment(kind: string, score: int)

  predicate IsMiss(j: Judgment) { j.kind == "Miss" }

  /** What the engine reports for one note: the judgment and the player's
      accuracy after it. */
  datatype NoteResult = NoteResult(judgment: Judgment, accuracy: real)

  datatype Outcome = BearEscaped | ManCaught

  /** The gameplay record of the game store. */
  datatype GameplayState = GameplayState(
    started: bool,
    paused: bool,
    scoreP1: int,
    scoreP2: int,
    comboP1: nat,
    comboP2: nat,
    accuracyP1: real,
    accuracyP2: real,
    gameOver: bool,
    outcome: Option<Outcome>,
    synchronizedGameOver: bool,
    synchronizedGameResult: Option<string>)

  function ScoreOf(g: GameplayState, p: Player): int {
    if p == P1 then g.scoreP1 else g.scoreP2
  }

  function ComboOf(g: GameplayState, p: Player): nat {
    if p == P1 then g.comboP1 else g.comboP2
  }

  function AccuracyOf(g: GameplayState, p: Player): real {
    if p == P1 then g.accuracyP1 else g.accuracyP2
  }

  function Other(p: Player): Player {
    if p == P1 then P2 else P1
  }

  /** Everything but the per-player score, combo and accuracy is equal. */
  predicate SameMatchFields(g: GameplayState, h: GameplayState) {
    g.started == h.started && g.paused == h.paused && g.gameOver == h.gameOver
    && g.outcome == h.outcome && g.synchronizedGameOver == h.synchronizedGameOver
    && g.synchronizedGameResult == h.synchronizedGameResult
  }

  // ---------------------------------------------------------------------
  // Score and combo

  /** `currentCombo + 1` after anything but a Miss, 0 after a Miss. */
  function NewCombo(current: nat, j: Judgment): (c: nat)
    ensures c == 0 <==> IsMiss(j)
  {
    if !IsMiss(j) then current + 1 else 0
  }

  /** The combo after a run of judgments. */
  function ComboAfter(start: nat, js: seq<Judgment>): nat {
    if js == [] then start else NewCombo(ComboAfter(start, js[..|js| - 1]), js[|js| - 1])
  }

  /** The number of judgments at the end of `js` that are not misses. */
  function TrailingHits(js: seq<Judgment>): (n: nat)
    ensures n <= |js|
    ensures forall k | |js| - n <= k < |js| :: !IsMiss(js[k])
    ensures n < |js| ==> IsMiss(js[|js| - 1 - n])
  {
    if js == [] || IsMiss(js[|js| - 1]) then 0 else TrailingHits(js[..|js| - 1]) + 1
  }

  /** The combo counts the hits since the last miss, on top of the starting
      combo when there was no miss at all. */
  lemma {:induction false} ComboIsStreak(start: nat, js: seq<Judgment>)
    ensures ComboAfter(start, js) ==
      if TrailingHits(js) == |js| then start + |js| else TrailingHits(js)
  {
    if js != [] {
      ComboIsStreak(start, js[..|js| - 1]);
    }
  }

  /** `scoreP1Ref`, `scoreP2Ref`, `comboP1Ref` and `comboP2Ref`: copies of
      the store's scores and combos that effects refresh after each
      render, so they lag behind updates made since the last render. */
  datatype ScoreRefs = ScoreRefs(scoreP1: int, scoreP2: int, comboP1: nat, comboP2: nat)

  /** The refs once the effects after a render have run. */
  function RefsOf(g: GameplayState): (refs: ScoreRefs)
    ensures refs.scoreP1 == g.scoreP1 && refs.scoreP2 == g.scoreP2
    ensures refs.comboP1 == g.comboP1 && refs.comboP2 == g.comboP2
  {
    ScoreRefs(g.scoreP1, g.scoreP2, g.comboP1, g.comboP2)
  }

  function RefScore(refs: ScoreRefs, p: Player): int {
    if p == P1 then refs.scoreP1 else refs.scoreP2
  }

  function RefCombo(refs: ScoreRefs, p: Player): nat {
    if p == P1 then refs.comboP1 else refs.comboP2
  }

  /** A score pushed to the lobby service: the lobby code and the new score. */
  datatype ScorePush = ScorePush(code: string, score: int)

  /** The gameplay record after a note result, and the score push it
      issues. */
  datatype NoteOutcome = NoteOutcome(gameplay: GameplayState, push: Option<ScorePush>)

  function WithPlayer(g: GameplayState, p: Player, score: int, combo: nat, accuracy: real): GameplayState {
    if p == P1 then g.(scoreP1 := score, comboP1 := combo, accuracyP1 := accuracy)
    else g.(scoreP2 := score, comboP2 := combo, accuracyP2 := accuracy)
  }

  /** `handleNoteResult`'s effect on the store and the lobby service: the
      current score and combo are read from the refs, and `connected` says
      whether a connection to the service exists. */
  function ApplyNoteResult(g: GameplayState, refs: ScoreRefs, lobby: Lobby, connected: bool, r: NoteResult): (o: NoteOutcome)
    // Dropped while a multiplayer match has no side.
    ensures LocalPlayer(lobby).None? ==> o == NoteOutcome(g, None)
    // The local player's combo and accuracy are always written; the score
    // only in solo play, where it is the ref's score plus the judgment's.
    ensures LocalPlayer(lobby).Some? ==>
      var p := LocalPlayer(lobby).value;
      && ComboOf(o.gameplay, p) == NewCombo(RefCombo(refs, p), r.judgment)
      && AccuracyOf(o.gameplay, p) == r.accuracy
      && ScoreOf(o.gameplay, p) == (if IsMultiplayer(lobby) then ScoreOf(g, p) else RefScore(refs, p) + r.judgment.score)
      && ScoreOf(o.gameplay, Other(p)) == ScoreOf(g, Other(p))
      && ComboOf(o.gameplay, Other(p)) == ComboOf(g, Other(p))
      && AccuracyOf(o.gameplay, Other(p)) == AccuracyOf(g, Other(p))
    ensures SameMatchFields(g, o.gameplay)
    // A push happens for a counted hit in a multiplayer match with a
    // connection and a lobby code, and carries the would-be new score.
    ensures o.push.Some? <==>
      LocalPlayer(lobby).Some? && IsMultiplayer(lobby) && !IsMiss(r.judgment) && connected && Truthy(lobby.code)
    ensures o.push.Some? ==>
      o.push.value == ScorePush(lobby.code.value, RefScore(refs, LocalPlayer(lobby).value) + r.judgment.score)
  {
    match LocalPlayer(lobby)
    case None => NoteOutcome(g, None)
    case Some(p) =>
      var newScore := RefScore(refs, p) + r.judgment.score;
      var newCombo := NewCombo(RefCombo(refs, p), r.judgment);
      if IsMultiplayer(lobby) then
        var push := if !IsMiss(r.judgment) && connected && Truthy(lobby.code)
                    then Some(ScorePush(lobby.code.value, newScore)) else None;
        NoteOutcome(WithPlayer(g, p, ScoreOf(g, p), newCombo, r.accuracy), push)
      else
        NoteOutcome(WithPlayer(g, p, newScore, newCombo, r.accuracy), None)
  }

  /** In solo play every note result counts for player 1, and player 2's
      fields are never touched. */
  lemma SoloTouchesOnlyP1(g: GameplayState, refs: ScoreRefs, lobby: Lobby, connected: bool, r: NoteResult)
    requires !IsMultiplayer(lobby)
    ensures var h := ApplyNoteResult(g, refs, lobby, connected, r).gameplay;
      && h.scoreP1 == refs.scoreP1 + r.judgment.score
      && h.comboP1 == NewCombo(refs.comboP1, r.judgment)
      && h.accuracyP1 == r.accuracy
      && h.scoreP2 == g.scoreP2 && h.comboP2 == g.comboP2 && h.accuracyP2 == g.accuracyP2
  {
    assert LocalPlayer(lobby) == Some(P1);
  }

  /** Solo play, two note results between renders: both read the same
      refs, so the second overwrites the first, whose points and combo
      step are lost. */
  lemma ResultsBetweenRendersOverwrite(g: GameplayState, refs: ScoreRefs, lobby: Lobby, connected: bool,
                                       r1: NoteResult, r2: NoteResult)
    requires !IsMultiplayer(lobby)
    ensures var h := ApplyNoteResult(ApplyNoteResult(g, refs, lobby, connected, r1).gameplay, refs, lobby, connected, r2).gameplay;
      && h.scoreP1 == refs.scoreP1 + r2.judgment.score
      && h.comboP1 == NewCombo(refs.comboP1, r2.judgment)
  {
    SoloTouchesOnlyP1(ApplyNoteResult(g, refs, lobby, connected, r1).gameplay, refs, lobby, connected, r2);
  }

  /** Solo play, a render between two note results: the refs catch up, so
      both judgments count. */
  lemma ResultsAcrossRendersAdd(g: GameplayState, lobby: Lobby, connected: bool, r1: NoteResult, r2: NoteResult)
    requires !IsMultiplayer(lobby)
    ensures var h1 := ApplyNoteResult(g, RefsOf(g), lobby, connected, r1).gameplay;
      var h := ApplyNoteResult(h1, RefsOf(h1), lobby, connected, r2).gameplay;
      && h.scoreP1 == g.scoreP1 + r1.judgment.score + r2.judgment.score
      && h.comboP1 == NewCombo(NewCombo(g.comboP1, r1.judgment), r2.judgment)
  {
    var h1 := ApplyNoteResult(g, RefsOf(g), lobby, connected, r1).gameplay;
    SoloTouchesOnlyP1(g, RefsOf(g), lobby, connected, r1);
    SoloTouchesOnlyP1(h1, RefsOf(h1), lobby, connected, r2);
  }

  // ---------------------------------------------------------------------
  // Chase progress, outcome, win and rank

  /** The score that counts as a full chase bar. */
  const MaxScoreForProgress: int := 10000

  /** `Math.min(100, (score / maxScoreForProgress) * 100)`. */
  function Progress(score: int): (r: real)
    ensures r <= 100.0
    ensures 0 <= score ==> 0.0 <= r
    ensures score >= MaxScoreForProgress ==> r == 100.0
  {
    var x := (score as real / MaxScoreForProgress as real) * 100.0;
    if x < 100.0 then x else 100.0
  }

  /** A higher score never shows less progress. */
  lemma ProgressMonotone(a: int, b: int)
    requires a <= b
    ensures Progress(a) <= Progress(b)
  {
    assert (a as real / 10000.0) <= (b as real / 10000.0);
  }

  /** The two outcome tags that end a match. */
  function OutcomeOf(result: Option<string>): (o: Option<Outcome>)
    ensures o == Some(BearEscaped) <==> result == Some("bear_escaped")
    ensures o == Some(ManCaught) <==> result == Some("man_caught")
  {
    if result == Some("bear_escaped") then Some(BearEscaped)
    else if result == Some("man_caught") then Some(ManCaught)
    else None
  }

  /** `stats.gameResult || undefined`. */
  function OrUndefined(s: Option<string>): (r: Option<string>)
    ensures r.Some? <==> Truthy(s)
    ensures r.Some? ==> r == s
  {
    if Truthy(s) then s else None
  }

  /** The local player of the end handler: `lobby.side === 'blue' ? 2 : 1`. */
  function SidePlayer(side: Option<Side>): (p: Player)
    ensures p == P2 <==> side == Some(Blue)
  {
    if side == Some(Blue) then P2 else P1
  }

  /** In a multiplayer match with a side, the end handler attributes the
      win to the same player the note handler scores for. */
  lemma SidePlayerIsLocal(lobby: Lobby)
    requires IsMultiplayer(lobby) && lobby.side.Some?
    ensures LocalPlayer(lobby) == Some(SidePlayer(lobby.side))
  {
  }

  /** The bear's player wins when the bear escaped, the man's player when
      the man caught the bear. */
  function PlayerWon(o: Outcome, character: Option<string>): (won: bool)
    ensures o == BearEscaped ==> (won <==> character == Some("bear"))
    ensures o == ManCaught ==> (won <==> character == Some("man"))
  {
    match o
    case BearEscaped => character == Some("bear")
    case ManCaught => character == Some("man")
  }

  /** With one bear and one man, exactly one of them wins. */
  lemma OneWinner(o: Outcome)
    ensures PlayerWon(o, Some("bear")) != PlayerWon(o, Some("man"))
  {
  }

  datatype Rank = S | A | B | C | D

  /** Rank order: D lowest, S highest. */
  function Level(r: Rank): nat {
    match r
    case D => 0
    case C => 1
    case B => 2
    case A => 3
    case S => 4
  }

  /** `getRank`: thresholds 95, 85, 75 and 65 on accuracy. */
  function GetRank(accuracy: real): (r: Rank)
    ensures r == S <==> accuracy >= 95.0
    ensures r == A <==> 85.0 <= accuracy < 95.0
    ensures r == B <==> 75.0 <= accuracy < 85.0
    ensures r == C <==> 65.0 <= accuracy < 75.0
    ensures r == D <==> accuracy < 65.0
  {
    if accuracy >= 95.0 then S
    else if accuracy >= 85.0 then A
    else if accuracy >= 75.0 then B
    else if accuracy >= 65.0 then C
    else D
  }

  /** Better accuracy never earns a lower rank. */
  lemma RankMonotone(a: real, b: real)
    requires a <= b
    ensures Level(GetRank(a)) <= Level(GetRank(b))
  {
  }


  // ---------------------------------------------------------------------
  // The screen

  /** What the screen asks of a rhythm engine. */
  datatype EngineAction =
    | Create(multiplayer: bool)
    | Start(songId: Option<string>)
    | Stop
    | Pause
    | Resume
    | Hit(lane: int, player: Player)
    | Release(lane: int)

  /** A call on the engine with the given id; engines are numbered in the
      order the screen creates them. */
  datatype EngineCall = EngineCall(engine: nat, action: EngineAction)

  /** The calls the screen makes on the lobby service. */
  datatype LobbyCall =
    | SetScore(code: string, score: int)
    | UpdateGameState(code: string, bearProgress: real, manProgress: real, gameOver: bool, gameResult: Option<string>)

  /** An input event from the input handler. */
  datatype InputEvent = HitInput(lane: int) | ReleaseInput(lane: int)

  /** What `engine.getStats()` returns. */
  datatype EngineStats = EngineStats(
    bearProgress: real, manProgress: real, spacebarPressed: bool, gameOver: bool, gameResult: Option<string>)

  /** A floating `+score` popup. */
  datatype Popup = Popup(id: nat, amount: int)

  /** The two players' popup lists and the last id handed out. */
  datatype Popups = Popups(p1: seq<Popup>, p2: seq<Popup>, lastId: nat)

  function ListOf(ps: Popups, p: Player): seq<Popup> {
    if p == P1 then ps.p1 else ps.p2
  }

  /** Ids are positive, at most the last id handed out, and increasing
      along the list. */
  predicate Ordered(list: seq<Popup>, lastId: nat) {
    (forall k | 0 <= k < |list| :: 0 < list[k].id <= lastId)
    && (forall i, j | 0 <= i < j < |list| :: list[i].id < list[j].id)
  }

  predicate PopupsValid(ps: Popups) {
    Ordered(ps.p1, ps.lastId) && Ordered(ps.p2, ps.lastId)
  }

  /** A new popup for the player, under the next id. */
  function AddPopup(ps: Popups, p: Player, amount: int): (r: Popups)
    ensures r.lastId == ps.lastId + 1
    ensures ListOf(r, p) == ListOf(ps, p) + [Popup(r.lastId, amount)]
    ensures ListOf(r, Other(p)) == ListOf(ps, Other(p))
    ensures PopupsValid(ps) ==> PopupsValid(r)
  {
    var id := ps.lastId + 1;
    if p == P1 then ps.(p1 := ps.p1 + [Popup(id, amount)], lastId := id)
    else ps.(p2 := ps.p2 + [Popup(id, amount)], lastId := id)
  }

  /** `list.filter(p => p.id !== id)`. */
  function RemovePopup(list: seq<Popup>, id: nat): (r: seq<Popup>)
    ensures forall k | 0 <= k < |r| :: r[k].id != id && r[k] in list
    ensures forall q | q in list && q.id != id :: q in r
  {
    if list == [] then []
    else (if list[0].id != id then [list[0]] else []) + RemovePopup(list[1..], id)
  }

  /** A popup with a smaller id than all of an ordered list goes in front. */
  lemma OrderedCons(p: Popup, list: seq<Popup>, lastId: nat)
    requires Ordered(list, lastId) && 0 < p.id <= lastId
    requires forall q | q in list :: p.id < q.id
    ensures Ordered([p] + list, lastId)
  {
    var r := [p] + list;
    forall i, j | 0 <= i < j < |r| ensures r[i].id < r[j].id {
      assert r[j] == list[j - 1];
      if i > 0 {
        assert r[i] == list[i - 1];
      }
    }
  }

  /** The tail of an ordered list is ordered, above its head. */
  lemma OrderedTail(list: seq<Popup>, lastId: nat)
    requires list != [] && Ordered(list, lastId)
    ensures Ordered(list[1..], lastId)
    ensures forall q | q in list[1..] :: list[0].id < q.id
  {
    forall q | q in list[1..] ensures list[0].id < q.id {
      var j :| 0 <= j < |list[1..]| && list[1..][j] == q;
      assert list[j + 1] == q;
    }
  }

  lemma {:induction false} RemovePopupOrdered(list: seq<Popup>, id: nat, lastId: nat)
    ensures Ordered(list, lastId) ==> Ordered(RemovePopup(list, id), lastId)
  {
    if list != [] && Ordered(list, lastId) {
      var tail := list[1..];
      OrderedTail(list, lastId);
      RemovePopupOrdered(tail, id, lastId);
      var rest := RemovePopup(tail, id);
      assert forall q | q in rest :: q in tail;
      if list[0].id != id {
        OrderedCons(list[0], rest, lastId);
        assert RemovePopup(list, id) == [list[0]] + rest;
      } else {
        assert RemovePopup(list, id) == rest;
      }
    }
  }

  /** The popup timer: the popup with that id leaves the player's list. */
  function ExpirePopup(ps: Popups, p: Player, id: nat): (r: Popups)
    ensures r.lastId == ps.lastId
    ensures ListOf(r, p) == RemovePopup(ListOf(ps, p), id)
    ensures ListOf(r, Other(p)) == ListOf(ps, Other(p))
    ensures PopupsValid(ps) ==> PopupsValid(r)
  {
    RemovePopupOrdered(ListOf(ps, p), id, ps.lastId);
    if p == P1 then ps.(p1 := RemovePopup(ps.p1, id)) else ps.(p2 := RemovePopup(ps.p2, id))
  }

  /** Which input reaches the engine: none while paused or in a
      multiplayer match with no side; otherwise a hit for the local player
      or a release. */
  function InputDispatch(isPaused: bool, lobby: Lobby, ev: InputEvent): (a: Option<EngineAction>)
    ensures a.None? <==> isPaused || LocalPlayer(lobby).None?
    ensures a.Some? && ev.HitInput? ==> a.value == Hit(ev.lane, LocalPlayer(lobby).value)
    ensures a.Some? && ev.ReleaseInput? ==> a.value == Release(ev.lane)
  {
    if isPaused then None
    else match LocalPlayer(lobby)
      case None => None
      case Some(p) =>
        match ev
        case HitInput(lane) => Some(Hit(lane, p))
        case ReleaseInput(lane) => Some(Release(lane))
  }

  /** Whether a stats tick sees a finished match with a known outcome. */
  predicate MatchEnded(gameOver: bool, result: Option<string>): (ended: bool)
    ensures ended <==> gameOver && (result == Some("bear_escaped") || result == Some("man_caught"))
  {
    gameOver && OutcomeOf(result).Some?
  }

  /** The lobby call of one stats tick: the engine's stats, pushed in a
      multiplayer match with a lobby code and a connection. */
  function SyncCalls(lobby: Lobby, connected: bool, stats: EngineStats): (calls: seq<LobbyCall>)
    ensures |calls| <= 1
    ensures calls != [] <==> IsMultiplayer(lobby) && Truthy(lobby.code) && connected
    ensures calls != [] ==> calls[0] == UpdateGameState(lobby.code.value, stats.bearProgress, stats.manProgress,
                                                        stats.gameOver, OrUndefined(stats.gameResult))
  {
    if IsMultiplayer(lobby) && Truthy(lobby.code) && connected
    then [UpdateGameState(lobby.code.value, stats.bearProgress, stats.manProgress, stats.gameOver,
                          OrUndefined(stats.gameResult))]
    else []
  }

  /** The calls of one re-run of the screen's main effect: the cleanup
      stops engine `e`, the setup creates engine `e + 1` of the right kind
      and starts it on the song. */
  function RerunCalls(e: nat, multiplayer: bool, songId: Option<string>): seq<EngineCall> {
    [EngineCall(e, Stop), EngineCall(e + 1, Create(multiplayer)), EngineCall(e + 1, Start(songId))]
  }

  /** The engine calls of `togglePause`: the pause or resume of engine
      `e`, then the re-run of the main effect its new flag causes. */
  function PauseCalls(e: nat, nowPaused: bool, multiplayer: bool, songId: Option<string>): seq<EngineCall> {
    [EngineCall(e, if nowPaused then Pause else Resume)] + RerunCalls(e, multiplayer, songId)
  }

  /** Pausing ends with a new engine starting the song from its beginning,
      and that engine is never paused: the game plays on while the screen
      shows it as paused. */
  lemma PauseRestartsSong(e: nat, multiplayer: bool, songId: Option<string>)
    ensures var calls := PauseCalls(e, true, multiplayer, songId);
      && calls[|calls| - 1] == EngineCall(e + 1, Start(songId))
      && forall k | 0 <= k < |calls| :: calls[k] != EngineCall(e + 1, Pause)
  {
  }

  class GameSession {
    var lobby: Lobby
    /** Whether a connection to the lobby service exists (`getConn()`). */
    var connected: bool
    var p1Character: Option<string>
    var p2Character: Option<string>
    var songId: Option<string>
    /** The store's gameplay record. */
    var gameplay: GameplayState
    var refs: ScoreRefs
    /** The gameplay record as the stats interval sees it: the one of the
        render in which the main effect last ran. */
    var seen: GameplayState
    var isPaused: bool
    /** The id of the engine `gameEngineRef` holds. */
    var engine: nat
    var engineCalls: seq<EngineCall>
    var lobbyCalls: seq<LobbyCall>
    var popups: Popups
    var bearProgress: real
    var manProgress: real
    var bearBoost: bool
    var gameResult: Option<Outcome>
    var playerWon: Option<bool>
    /** `endHandledRef`: the end-of-match handler has run. */
    var endHandled: bool
    /** The multiplayer restart timers scheduled and not yet fired, each
        with the engine it will start. */
    var pendingRestarts: seq<nat>
    /** The 100 ms stats interval is running. */
    var intervalActive: bool
    /** `setScreen('RESULTS')` was called. */
    var showResults: bool

    /** The popups are well formed, and the interval's snapshot agrees with
        the store on the synchronized end state (both are dependencies of
        the effect, which re-runs when they change). */
    predicate Valid()
      reads this
    {
      && PopupsValid(popups)
      && seen.synchronizedGameOver == gameplay.synchronizedGameOver
      && seen.synchronizedGameResult == gameplay.synchronizedGameResult
    }

    /** Mounting the screen: engine 0 of the right kind is created and
        started on the song, and the stats interval begins. */
    constructor (lobby: Lobby, connected: bool, p1Character: Option<string>, p2Character: Option<string>,
                 songId: Option<string>, gameplay: GameplayState)
      ensures Valid()
      ensures this.lobby == lobby && this.connected == connected && this.songId == songId
      ensures this.p1Character == p1Character && this.p2Character == p2Character
      ensures this.gameplay == gameplay && seen == gameplay && refs == RefsOf(gameplay)
      ensures !isPaused && intervalActive && !endHandled && pendingRestarts == []
      ensures engine == 0 && engineCalls == [EngineCall(0, Create(IsMultiplayer(lobby))), EngineCall(0, Start(songId))]
      ensures lobbyCalls == [] && popups == Popups([], [], 0)
      ensures bearProgress == 0.0 && manProgress == 0.0 && !bearBoost
      ensures gameResult == None && playerWon == None && !showResults
    {
      this.lobby := lobby;
      this.connected := connected;
      this.p1Character := p1Character;
      this.p2Character := p2Character;
      this.songId := songId;
      this.gameplay := gameplay;
      this.seen := gameplay;
      this.refs := RefsOf(gameplay);
      this.isPaused := false;
      this.engine := 0;
      this.engineCalls := [EngineCall(0, Create(IsMultiplayer(lobby))), EngineCall(0, Start(songId))];
      this.lobbyCalls := [];
      this.popups := Popups([], [], 0);
      this.bearProgress := 0.0;
      this.manProgress := 0.0;
      this.bearBoost := false;
      this.gameResult := None;
      this.playerWon := None;
      this.endHandled := false;
      this.pendingRestarts := [];
      this.intervalActive := true;
      this.showResults := false;
    }

    /** `handleNoteResult`: the store update and score push of
        ApplyNoteResult, and a popup for the local player when the
        judgment scored. */
    method HandleNoteResult(r: NoteResult)
      requires Valid()
      modifies this`gameplay, this`lobbyCalls, this`popups
      ensures Valid()
      ensures gameplay == ApplyNoteResult(old(gameplay), refs, lobby, connected, r).gameplay
      ensures var push := ApplyNoteResult(old(gameplay), refs, lobby, connected, r).push;
        lobbyCalls == old(lobbyCalls) + (if push.Some? then [SetScore(push.value.code, push.value.score)] else [])
      ensures popups == if LocalPlayer(lobby).Some? && r.judgment.score > 0
                        then AddPopup(old(popups), LocalPlayer(lobby).value, r.judgment.score)
                        else old(popups)
    {
      var outcome := ApplyNoteResult(gameplay, refs, lobby, connected, r);
      if LocalPlayer(lobby).None? {
        return;
      }
      var player := LocalPlayer(lobby).value;
      gameplay := outcome.gameplay;
      if outcome.push.Some? {
        lobbyCalls := lobbyCalls + [SetScore(outcome.push.value.code, outcome.push.value.score)];
      }
      if r.judgment.score > 0 {
        popups := AddPopup(popups, player, r.judgment.score);
      }
    }

    /** A render and the ref-copying effects after it. */
    method CommitRefs()
      modifies this`refs
      ensures refs == RefsOf(gameplay)
    {
      refs := RefsOf(gameplay);
    }

    /** The 650 ms popup timer firing. */
    method ExpirePopupTimer(player: Player, id: nat)
      requires Valid()
      modifies this`popups
      ensures Valid()
      ensures popups == ExpirePopup(old(popups), player, id)
    {
      popups := ExpirePopup(popups, player, id);
    }

    /** `handleInput`: forwards the event to the current engine as
        InputDispatch decides. */
    method HandleInput(ev: InputEvent)
      modifies this`engineCalls
      ensures var a := InputDispatch(isPaused, lobby, ev);
        engineCalls == old(engineCalls) + (if a.Some? then [EngineCall(engine, a.value)] else [])
    {
      var a := InputDispatch(isPaused, lobby, ev);
      if a.Some? {
        engineCalls := engineCalls + [EngineCall(engine, a.value)];
      }
    }

    /** A re-run of the main effect, after one of its dependencies changed:
        the cleanup stops the engine, clears the interval and reopens the
        latch; the setup creates and starts a new engine and a new interval
        that sees the current gameplay record. */
    method RerunEffect()
      requires PopupsValid(popups)
      modifies this`engine, this`engineCalls, this`endHandled, this`intervalActive, this`seen
      ensures Valid()
      ensures engine == old(engine) + 1
      ensures engineCalls == old(engineCalls) + RerunCalls(old(engine), IsMultiplayer(lobby), songId)
      ensures !endHandled && intervalActive && seen == gameplay
    {
      engineCalls := engineCalls + RerunCalls(engine, IsMultiplayer(lobby), songId);
      engine := engine + 1;
      endHandled := false;
      intervalActive := true;
      seen := gameplay;
    }

    /** `togglePause`: flips the pause flag and pauses or resumes the
        engine.  The flag is a dependency of `handleInput`, which is one of
        the main effect's, so the effect re-runs: the paused engine is
        stopped and a new one starts the song. */
    method TogglePause()
      requires Valid()
      modifies this`isPaused, this`engine, this`engineCalls, this`endHandled, this`intervalActive, this`seen
      ensures Valid()
      ensures isPaused == !old(isPaused)
      ensures engine == old(engine) + 1
      ensures engineCalls == old(engineCalls) + PauseCalls(old(engine), isPaused, IsMultiplayer(lobby), songId)
      ensures !endHandled && intervalActive && seen == gameplay
    {
      isPaused := !isPaused;
      engineCalls := engineCalls + [EngineCall(engine, if isPaused then Pause else Resume)];
      RerunEffect();
    }

    /** Pausing as the control evidently intends: the flag flips and the
        current engine pauses or resumes, and nothing restarts. */
    method PauseInPlace()
      modifies this`isPaused, this`engineCalls
      ensures isPaused == !old(isPaused)
      ensures engineCalls == old(engineCalls) + [EngineCall(engine, if isPaused then Pause else Resume)]
      ensures isPaused ==> engineCalls[|engineCalls| - 1] == EngineCall(engine, Pause)
    {
      isPaused := !isPaused;
      engineCalls := engineCalls + [EngineCall(engine, if isPaused then Pause else Resume)];
    }

    /** The chase bars: from the snapshot's scores in a multiplayer match,
        from the engine otherwise. */
    method UpdateProgress(stats: EngineStats)
      modifies this`bearProgress, this`manProgress, this`bearBoost
      ensures bearProgress == if IsMultiplayer(lobby) then Progress(seen.scoreP1) else stats.bearProgress
      ensures manProgress == if IsMultiplayer(lobby) then Progress(seen.scoreP2) else stats.manProgress
      ensures bearBoost == stats.spacebarPressed
    {
      bearProgress := if IsMultiplayer(lobby) then Progress(seen.scoreP1) else stats.bearProgress;
      manProgress := if IsMultiplayer(lobby) then Progress(seen.scoreP2) else stats.manProgress;
      bearBoost := stats.spacebarPressed;
    }

    /** The engine's own stats go to the lobby service in a multiplayer
        match with a lobby code and a connection. */
    method SyncStats(stats: EngineStats)
      modifies this`lobbyCalls
      ensures lobbyCalls == old(lobbyCalls) + SyncCalls(lobby, connected, stats)
    {
      lobbyCalls := lobbyCalls + SyncCalls(lobby, connected, stats);
    }

    /** The end-of-match check behind the `endHandledRef` latch.  `fired`
        says whether the handler ran. */
    method CheckEnd(gameOver: bool, result: Option<string>) returns (fired: bool)
      requires Valid()
      modifies this`gameResult, this`endHandled, this`playerWon, this`pendingRestarts,
               this`engineCalls, this`gameplay, this`showResults
      ensures Valid()
      // The handler runs on a finished match only while the latch is open,
      // and running it closes the latch.
      ensures fired <==> MatchEnded(gameOver, result) && !old(endHandled)
      ensures endHandled == (old(endHandled) || fired)
      ensures gameResult == if MatchEnded(gameOver, result) then OutcomeOf(result) else old(gameResult)
      // Multiplayer: the side's player wins or loses by the character they
      // play, and a restart of the current engine is scheduled.
      ensures fired && IsMultiplayer(lobby) ==>
        && playerWon == Some(PlayerWon(OutcomeOf(result).value,
                                       if SidePlayer(lobby.side) == P2 then p2Character else p1Character))
        && pendingRestarts == old(pendingRestarts) + [engine]
        && engineCalls == old(engineCalls) && gameplay == old(gameplay) && showResults == old(showResults)
      // Solo: no winner, the engine stops, the store records the outcome
      // and the results screen is requested.
      ensures fired && !IsMultiplayer(lobby) ==>
        && playerWon == None && pendingRestarts == old(pendingRestarts)
        && engineCalls == old(engineCalls) + [EngineCall(engine, Stop)]
        && gameplay == old(gameplay).(gameOver := true, outcome := OutcomeOf(result))
        && showResults
      ensures !fired ==>
        && playerWon == old(playerWon) && pendingRestarts == old(pendingRestarts)
        && engineCalls == old(engineCalls) && gameplay == old(gameplay) && showResults == old(showResults)
    {
      fired := false;
      var outcome := OutcomeOf(result);
      if gameOver && outcome.Some? {
        gameResult := outcome;
        if !endHandled {
          endHandled := true;
          fired := true;
          if IsMultiplayer(lobby) {
            var character := if SidePlayer(lobby.side) == P2 then p2Character else p1Character;
            playerWon := Some(PlayerWon(outcome.value, character));
            pendingRestarts := pendingRestarts + [engine];
          } else {
            playerWon := None;
            engineCalls := engineCalls + [EngineCall(engine, Stop)];
            gameplay := gameplay.(gameOver := true, outcome := outcome);
            showResults := true;
          }
        }
      }
    }

    /** The end flag the stats interval checks: the synchronized one in a
        multiplayer match, the engine's otherwise. */
    function EndOver(stats: EngineStats): bool
      reads this`lobby, this`seen
    {
      if IsMultiplayer(lobby) then seen.synchronizedGameOver else stats.gameOver
    }

    /** The end result the stats interval checks, chosen like EndOver. */
    function EndResult(stats: EngineStats): Option<string>
      reads this`lobby, this`seen
    {
      if IsMultiplayer(lobby) then seen.synchronizedGameResult else stats.gameResult
    }

    /** One run of the stats interval: the bars, the sync and the end check,
        the last one on the synchronized end state in a multiplayer match
        and on the engine's otherwise. */
    method StatsTick(stats: EngineStats) returns (fired: bool)
      requires Valid() && intervalActive
      modifies this`bearProgress, this`manProgress, this`bearBoost, this`lobbyCalls,
               this`gameResult, this`endHandled, this`playerWon, this`pendingRestarts,
               this`engineCalls, this`gameplay, this`showResults
      ensures Valid()
      ensures bearProgress == if IsMultiplayer(lobby) then Progress(seen.scoreP1) else stats.bearProgress
      ensures manProgress == if IsMultiplayer(lobby) then Progress(seen.scoreP2) else stats.manProgress
      ensures bearBoost == stats.spacebarPressed
      ensures lobbyCalls == old(lobbyCalls) + SyncCalls(lobby, connected, stats)
      // The end check reads the synchronized end state in a multiplayer
      // match and the engine's otherwise.
      ensures fired <==> MatchEnded(EndOver(stats), EndResult(stats)) && !old(endHandled)
      ensures endHandled == (old(endHandled) || fired)
      ensures gameResult == if MatchEnded(EndOver(stats), EndResult(stats)) then OutcomeOf(EndResult(stats))
                            else old(gameResult)
      ensures fired && IsMultiplayer(lobby) ==>
        && playerWon == Some(PlayerWon(OutcomeOf(EndResult(stats)).value,
                                       if SidePlayer(lobby.side) == P2 then p2Character else p1Character))
        && pendingRestarts == old(pendingRestarts) + [engine]
        && engineCalls == old(engineCalls) && gameplay == old(gameplay) && showResults == old(showResults)
      ensures fired && !IsMultiplayer(lobby) ==>
        && playerWon == None && pendingRestarts == old(pendingRestarts)
        && engineCalls == old(engineCalls) + [EngineCall(engine, Stop)]
        && gameplay == old(gameplay).(gameOver := true, outcome := OutcomeOf(EndResult(stats)))
        && showResults
      ensures !fired ==>
        && playerWon == old(playerWon) && pendingRestarts == old(pendingRestarts)
        && engineCalls == old(engineCalls) && gameplay == old(gameplay) && showResults == old(showResults)
    {
      UpdateProgress(stats);
      SyncStats(stats);
      fired := CheckEnd(EndOver(stats), EndResult(stats));
    }

    /** The multiplayer restart timer at `k` firing: the latch reopens, the
        win state clears and the engine the timer captured starts the song
        again. */
    method FireRestartTimer(k: nat)
      requires k < |pendingRestarts|
      modifies this`endHandled, this`playerWon, this`engineCalls, this`pendingRestarts
      ensures !endHandled && playerWon == None
      ensures pendingRestarts == old(pendingRestarts[..k] + pendingRestarts[k + 1..])
      ensures engineCalls == old(engineCalls) + [EngineCall(old(pendingRestarts[k]), Start(songId))]
    {
      endHandled := false;
      playerWon := None;
      engineCalls := engineCalls + [EngineCall(pendingRestarts[k], Start(songId))];
      pendingRestarts := pendingRestarts[..k] + pendingRestarts[k + 1..];
    }

    /** Leaving the screen: the engine stops, the interval is cleared and
        the latch reopens.  Scheduled restart timers are not cleared. */
    method Unmount()
      modifies this`engineCalls, this`intervalActive, this`endHandled
      ensures !intervalActive && !endHandled
      ensures engineCalls == old(engineCalls) + [EngineCall(engine, Stop)]
    {
      engineCalls := engineCalls + [EngineCall(engine, Stop)];
      intervalActive := false;
      endHandled := false;
    }

    /** `restartSong`: the engine stops, scores, combos and accuracies are
        reset, and with a song a new engine of the right kind starts it.
        The end-of-match latch is left as it was. */
    method RestartSong()
      requires Valid()
      modifies this`gameplay, this`engineCalls, this`engine
      ensures Valid()
      ensures gameplay == old(gameplay).(started := true, paused := false, scoreP1 := 0, scoreP2 := 0,
                                        comboP1 := 0, comboP2 := 0, accuracyP1 := 100.0, accuracyP2 := 100.0,
                                        gameOver := false)
      ensures songId.None? ==> engine == old(engine) && engineCalls == old(engineCalls) + [EngineCall(engine, Stop)]
      ensures songId.Some? ==> (engine == old(engine) + 1 &&
        engineCalls == old(engineCalls) + RerunCalls(old(engine), IsMultiplayer(lobby), songId))
    {
      engineCalls := engineCalls + [EngineCall(engine, Stop)];
      gameplay := gameplay.(started := true, paused := false, scoreP1 := 0, scoreP2 := 0,
                            comboP1 := 0, comboP2 := 0, accuracyP1 := 100.0, accuracyP2 := 100.0,
                            gameOver := false);
      if songId.Some? {
        engine := engine + 1;
        engineCalls := engineCalls + [EngineCall(engine, Create(IsMultiplayer(lobby))), EngineCall(engine, Start(songId))];
      }
    }

    /** The store mirroring the lobby service's record.  A change to the
        synchronized end state re-runs the main effect; the scores are not
        among its dependencies. */
    method MirrorLobbyRecord(scoreP1: int, scoreP2: int, gameOver: bool, gameResult: Option<string>)
      requires Valid()
      modifies this`gameplay, this`engine, this`engineCalls, this`endHandled, this`intervalActive, this`seen
      ensures Valid()
      ensures gameplay == old(gameplay).(scoreP1 := scoreP1, scoreP2 := scoreP2,
                                        synchronizedGameOver := gameOver, synchronizedGameResult := gameResult)
      ensures var changed := gameOver != old(gameplay).synchronizedGameOver
                             || gameResult != old(gameplay).synchronizedGameResult;
        && (changed ==> engine == old(engine) + 1 && !endHandled && intervalActive && seen == gameplay
                        && engineCalls == old(engineCalls) + RerunCalls(old(engine), IsMultiplayer(lobby), songId))
        && (!changed ==> engine == old(engine) && engineCalls == old(engineCalls) && endHandled == old(endHandled)
                         && intervalActive == old(intervalActive) && seen == old(seen))
    {
      var changed := gameOver != gameplay.synchronizedGameOver || gameResult != gameplay.synchronizedGameResult;
      gameplay := gameplay.(scoreP1 := scoreP1, scoreP2 := scoreP2,
                            synchronizedGameOver := gameOver, synchronizedGameResult := gameResult);
      if changed {
        RerunEffect();
      }
    }
  }

  /** The latch: of two stats ticks with nothing in between that reopens
      it, at most one runs the end-of-match handler, and none does once it
      has run. */
  method TwoTicksFireOnce(s: GameSession, first: EngineStats, second: EngineStats)
    returns (firedFirst: bool, firedSecond: bool)
    requires s.Valid() && s.intervalActive
    modifies s
    ensures !(firedFirst && firedSecond)
    ensures old(s.endHandled) ==> !firedFirst && !firedSecond
  {
    firedFirst := s.StatsTick(first);
    firedSecond := s.StatsTick(second);
  }
}
