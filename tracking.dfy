/**
 * The session tracker of LoR_Timers.py as pure transitions over its whole state.
 * Each function is one method of `LoRTimers` (the class in timers.dfy is proved against
 * them). Clock readings are arguments; Python's truthiness tests on start times, on the
 * carried-over time and on the champion label are modelled exactly (`Truthy`, `Named`).
 */
module Tracking {
  import opened Wrappers
  import Dicts
  import Api

  const MENUS := "Menus"
  const IN_PROGRESS := "InProgress"
  /** Deck-less cycles, counted since the champion was assigned or a new game id armed the
      wait for a deck, after which the champion is dropped. */
  const WATCHDOG_LIMIT := 3

  type Deck = Api.Deck

  /** What one poll cycle reads from the client. */
  datatype Snapshot = Snapshot(
    gameState: Option<string>,
    deck: Option<Deck>,
    gameId: Option<int>,
    playerWon: Option<bool>)

  /** One `{"duration": ...}` entry of `game_durations`. */
  datatype DurationRecord = DurationRecord(duration: int)

  /** Every field of a `LoRTimers` object that the tracking code reads or writes. */
  datatype Tracker = Tracker(
    deckMissingCount: nat,
    previousGameId: Option<int>,
    gameId: Option<int>,
    playerWon: Option<bool>,
    previousGameWon: Option<bool>,
    currentChampion: Option<string>,
    previousChampion: Option<string>,
    previousGameState: Option<string>,
    currentState: Option<string>,
    waitingForDeck: bool,
    pause: bool,
    menuStart: Option<int>,
    championStart: Option<int>,
    menuDuration: int,
    championDuration: int,
    gameDurations: map<string, seq<DurationRecord>>,
    pendingChampionTime: Option<int>,
    deck: Option<Deck>,
    previousDeck: Option<Deck>)

  /** The three change flags of one cycle. */
  datatype Changes = Changes(stateChanged: bool, gameIdChanged: bool, deckChanged: bool)

  /** Python truthiness of a start time or carried time: `None` and `0` are false. */
  predicate Truthy(t: Option<int>)
  {
    t.Some? && t.value != 0
  }

  /** Python truthiness of a champion label: `None` and "" are false. */
  predicate Named(c: Option<string>)
  {
    c.Some? && c.value != ""
  }

  /** The two timers are never running at once. */
  predicate Exclusive(t: Tracker)
  {
    !(Truthy(t.menuStart) && Truthy(t.championStart))
  }

  /** `r` differs from `t` at most in the timer fields (the two starts, the two totals,
      the carried time and the records). */
  predicate OnlyTimers(t: Tracker, r: Tracker)
  {
    r == t.(menuStart := r.menuStart, championStart := r.championStart,
            menuDuration := r.menuDuration, championDuration := r.championDuration,
            pendingChampionTime := r.pendingChampionTime, gameDurations := r.gameDurations)
  }

  /** `r` differs from `t` at most in the champion fields and the deck-missing counter. */
  predicate OnlyChampion(t: Tracker, r: Tracker)
  {
    r == t.(currentChampion := r.currentChampion, previousChampion := r.previousChampion,
            deckMissingCount := r.deckMissingCount)
  }

  /** The state right after construction. */
  function Initial(): (t: Tracker)
    ensures Exclusive(t) && t.gameDurations == map[]
  {
    Tracker(0, None, None, None, None, None, None, None, None, false, false,
            None, None, 0, 0, map[], None, None, None)
  }

  /** The records of champion `c` (an absent key reads as no records). */
  function Records(t: Tracker, c: string): seq<DurationRecord>
  {
    if c in t.gameDurations then t.gameDurations[c] else []
  }

  /** Python `==` on two decks, each possibly `None`: key order does not matter. */
  predicate SameDeck(a: Option<Deck>, b: Option<Deck>)
  {
    match (a, b)
    case (None, None) => true
    case (Some(x), Some(y)) => Dicts.AsMap(x) == Dicts.AsMap(y)
    case _ => false
  }

  // ----- properties read by the display -----

  /** current_champion_time: the running session's elapsed time, or the stored total. */
  function CurrentChampionTime(t: Tracker, now: int): (r: int)
    ensures Truthy(t.championStart) ==> r == now - t.championStart.value
    ensures !Truthy(t.championStart) ==> r == t.championDuration
  {
    if Truthy(t.championStart) then now - t.championStart.value else t.championDuration
  }

  /** total_menu_time: the stored menu total plus the running menu session, if any. */
  function TotalMenuTime(t: Tracker, now: int): (r: int)
    ensures Truthy(t.menuStart) ==> r - t.menuDuration == now - t.menuStart.value
    ensures !Truthy(t.menuStart) ==> r == t.menuDuration
  {
    if Truthy(t.menuStart) then t.menuDuration + (now - t.menuStart.value) else t.menuDuration
  }

  // ----- timers -----

  /** stop_menu_timer(end). */
  function StopMenuTimer(t: Tracker, end: int): (r: Tracker)
    ensures !Truthy(r.menuStart)
    ensures r.menuDuration == TotalMenuTime(t, end)
    ensures Truthy(t.menuStart) ==> r == t.(menuStart := None, menuDuration := r.menuDuration)
    ensures !Truthy(t.menuStart) ==> r == t
    ensures Exclusive(t) ==> Exclusive(r)
    ensures OnlyTimers(t, r)
  {
    if Truthy(t.menuStart) then
      t.(menuDuration := t.menuDuration + (end - t.menuStart.value), menuStart := None)
    else t
  }

  /** stop_champion_timer(clock): add the session to `championDuration`; a win of a named
      champion appends the total and resets it, a loss carries the total over. */
  function StopChampionTimer(t: Tracker, clock: int): (r: Tracker)
    ensures !Truthy(r.championStart)
    ensures !Truthy(t.championStart) ==> r == t
    ensures r.menuStart == t.menuStart && r.menuDuration == t.menuDuration
    ensures Exclusive(t) ==> Exclusive(r)
    ensures OnlyTimers(t, r)
  {
    if Truthy(t.championStart) then
      var total := t.championDuration + (clock - t.championStart.value);
      var t1 := t.(championDuration := total, championStart := None);
      if Named(t1.currentChampion) then
        if t1.playerWon == Some(true) then
          var c := t1.currentChampion.value;
          t1.(gameDurations := t1.gameDurations[c := Records(t1, c) + [DurationRecord(total)]],
              championDuration := 0)
        else
          t1.(pendingChampionTime := Some(total))
      else t1
    else t
  }

  /** start_champion_timer at `clock`: stop the menu timer, then start the champion
      timer unless it runs, moving its start back by any carried-over time. */
  function StartChampionTimer(t: Tracker, clock: int): (r: Tracker)
    ensures !Truthy(r.menuStart) && Exclusive(r)
    ensures Truthy(t.championStart) ==>
      r.championStart == t.championStart && r.pendingChampionTime == t.pendingChampionTime
    ensures !Truthy(t.championStart) && Truthy(t.pendingChampionTime) ==>
      r.championStart == Some(clock - t.pendingChampionTime.value) && r.pendingChampionTime.None?
    ensures !Truthy(t.championStart) && !Truthy(t.pendingChampionTime) ==>
      r.championStart == Some(clock) && r.pendingChampionTime == t.pendingChampionTime
    ensures r.menuDuration == TotalMenuTime(t, clock)
    ensures r.championDuration == t.championDuration && r.gameDurations == t.gameDurations
    ensures OnlyTimers(t, r)
  {
    var t1 := if Truthy(t.menuStart) then StopMenuTimer(t, clock) else t;
    if Truthy(t1.championStart) then t1
    else
      var t2 := t1.(championStart := Some(clock));
      if Truthy(t2.pendingChampionTime) then
        t2.(championStart := Some(clock - t2.pendingChampionTime.value), pendingChampionTime := None)
      else t2
  }

  /** start_menu_timer at `clock`: stop the champion timer, then start the menu timer
      unless it runs. */
  function StartMenuTimer(t: Tracker, clock: int): (r: Tracker)
    ensures !Truthy(r.championStart) && Exclusive(r)
    ensures Truthy(t.menuStart) ==> r.menuStart == t.menuStart
    ensures !Truthy(t.menuStart) ==> r.menuStart == Some(clock)
    ensures r.menuDuration == t.menuDuration
    ensures !Truthy(t.championStart) ==> r == t.(menuStart := r.menuStart)
    ensures Truthy(t.championStart) ==> r == StopChampionTimer(t, clock).(menuStart := r.menuStart)
    ensures OnlyTimers(t, r)
  {
    var t1 := if Truthy(t.championStart) then StopChampionTimer(t, clock) else t;
    if Truthy(t1.menuStart) then t1 else t1.(menuStart := Some(clock))
  }

  // ----- champion resolution -----

  /** The position of the first card code, in deck order, that the mapping knows. */
  function FirstMatchIndex(deck: Deck, mapping: map<string, string>): (r: Option<nat>)
    ensures r.None? <==> forall i :: 0 <= i < |deck| ==> deck[i].0 !in mapping
    ensures r.Some? ==> r.value < |deck| && deck[r.value].0 in mapping
    ensures r.Some? ==> forall j :: 0 <= j < r.value ==> deck[j].0 !in mapping
  {
    if deck == [] then None
    else if deck[0].0 in mapping then Some(0)
    else match FirstMatchIndex(deck[1..], mapping)
      case None => None
      case Some(i) => Some(i + 1)
  }

  /** A known card code at position `i` with no known code before it is the first match. */
  lemma {:induction false} FirstMatchIndexIs(deck: Deck, mapping: map<string, string>, i: nat)
    requires i < |deck| && deck[i].0 in mapping
    requires forall j :: 0 <= j < i ==> deck[j].0 !in mapping
    ensures FirstMatchIndex(deck, mapping) == Some(i)
  {
    if i > 0 {
      FirstMatchIndexIs(deck[1..], mapping, i - 1);
    }
  }

  /** The champion of that first known card code: first match wins, later ones are ignored. */
  function FirstMatch(deck: Deck, mapping: map<string, string>): (r: Option<string>)
    ensures r.None? <==> forall i :: 0 <= i < |deck| ==> deck[i].0 !in mapping
    ensures r.Some? ==> var i := FirstMatchIndex(deck, mapping).value; r.value == mapping[deck[i].0]
  {
    match FirstMatchIndex(deck, mapping)
    case None => None
    case Some(i) => Some(mapping[deck[i].0])
  }

  /** determine_champion_from_deck: a newly found champion replaces the current one,
      which becomes the previous one, and the deck-missing counter restarts. */
  function DetermineChampion(t: Tracker, mapping: map<string, string>): (r: Tracker)
    ensures OnlyChampion(t, r)
    ensures t.deck.None? ==> r == t
    ensures t.deck.Some? && FirstMatch(t.deck.value, mapping) == None ==> r == t
    ensures t.deck.Some? && FirstMatch(t.deck.value, mapping) == t.currentChampion ==> r == t
    ensures t.deck.Some? && FirstMatch(t.deck.value, mapping).Some? && FirstMatch(t.deck.value, mapping) != t.currentChampion ==>
      r == t.(previousChampion := t.currentChampion, currentChampion := FirstMatch(t.deck.value, mapping),
              deckMissingCount := 0)
  {
    if t.deck.None? then t
    else match FirstMatch(t.deck.value, mapping)
      case None => t
      case Some(found) =>
        if t.currentChampion == Some(found) then t
        else t.(previousChampion := t.currentChampion, currentChampion := Some(found), deckMissingCount := 0)
  }

  // ----- one poll cycle -----

  /** update_fields: the snapshot's values land in the tracker; the old deck is kept. */
  function UpdateFields(t: Tracker, s: Snapshot): (r: Tracker)
    ensures r.deck == s.deck && r.previousDeck == t.deck && r.currentState == s.gameState
    ensures r.gameId == s.gameId && r.playerWon == s.playerWon
    ensures r == t.(deck := r.deck, previousDeck := r.previousDeck, currentState := r.currentState,
                    gameId := r.gameId, playerWon := r.playerWon)
  {
    t.(playerWon := s.playerWon, gameId := s.gameId, previousDeck := t.deck, deck := s.deck,
       currentState := s.gameState)
  }

  /** What update_fields reads through the client's accessors: `LocalPlayerWon` and
      `GameID` straight from the stored result, the deck through get_deck and the state
      through get_game_state. */
  function SnapshotOf(g: Api.GameDoc, d: Api.DeckDoc, r: Api.ResultDoc): (s: Snapshot)
    ensures s.deck.None? <==> d.cardsInDeck.Null?
    ensures s.gameId.None? <==> !r.gameId.Present?
    ensures s.playerWon.None? <==> !r.localPlayerWon.Present?
  {
    Snapshot(Api.GetGameState(g), Api.GetDeck(d), Api.Read(r.gameId), Api.Read(r.localPlayerWon))
  }

  /** The change flags computed by track_state_changes on a tracker that already holds
      the new snapshot. */
  function ChangesOf(t: Tracker): (ch: Changes)
    ensures ch.stateChanged <==> t.currentState != t.previousGameState
    ensures ch.gameIdChanged <==> t.gameId.Some? && t.gameId != t.previousGameId
    ensures ch.deckChanged <==> !SameDeck(t.deck, t.previousDeck)
  {
    Changes(t.currentState != t.previousGameState,
            t.gameId.Some? && t.gameId != t.previousGameId,
            !SameDeck(t.deck, t.previousDeck))
  }

  /** track_state_changes: read the snapshot, start the champion timer on a state change
      into a game, start the menu timer and arm the post-game wait on a new game id, and
      re-resolve the champion when the deck changed. */
  function TrackStateChanges(t: Tracker, s: Snapshot, clock: int, mapping: map<string, string>): (res: (Tracker, Changes))
    ensures res.1 == ChangesOf(UpdateFields(t, s))
    ensures Exclusive(t) ==> Exclusive(res.0)
    ensures res.0.pause == t.pause && res.0.previousGameId == t.previousGameId
    ensures res.0.previousGameState == t.previousGameState
    ensures res.0.deck == s.deck && res.0.gameId == s.gameId && res.0.playerWon == s.playerWon
    ensures res.0.currentState == s.gameState
  {
    var t1 := UpdateFields(t, s);
    var ch := ChangesOf(t1);
    var t2 := OnNewGameId(OnStateChange(t1, ch.stateChanged, clock), ch.gameIdChanged, clock);
    (if ch.deckChanged then DetermineChampion(t2, mapping) else t2, ch)
  }

  /** The state-change block of track_state_changes: a change into a game with a named
      champion starts the champion timer; nothing else happens. */
  function OnStateChange(t: Tracker, stateChanged: bool, clock: int): (r: Tracker)
    ensures !(stateChanged && Named(t.currentChampion) && t.currentState == Some(IN_PROGRESS)) ==> r == t
    ensures stateChanged && Named(t.currentChampion) && t.currentState == Some(IN_PROGRESS) ==>
      r == StartChampionTimer(t, clock)
    ensures Exclusive(t) ==> Exclusive(r)
    ensures OnlyTimers(t, r)
  {
    if stateChanged && Named(t.currentChampion) && t.currentState == Some(IN_PROGRESS) then
      StartChampionTimer(t, clock)
    else t
  }

  /** The new-game-id block of track_state_changes: a non-None result starts the menu
      timer, and a prior id arms the wait for the next deck with a reset counter. */
  function OnNewGameId(t: Tracker, gameIdChanged: bool, clock: int): (r: Tracker)
    ensures !gameIdChanged ==> r == t
    ensures gameIdChanged && t.previousGameId.Some? ==> r.waitingForDeck && r.deckMissingCount == 0
    ensures gameIdChanged && t.previousGameId.None? ==>
      r.waitingForDeck == t.waitingForDeck && r.deckMissingCount == t.deckMissingCount
    ensures gameIdChanged && t.playerWon.Some? ==>
      !Truthy(r.championStart) && (clock != 0 ==> Truthy(r.menuStart))
    ensures t.playerWon.None? ==> r == t.(waitingForDeck := r.waitingForDeck, deckMissingCount := r.deckMissingCount)
    ensures OnlyTimers(t, r.(waitingForDeck := t.waitingForDeck, deckMissingCount := t.deckMissingCount))
    ensures Exclusive(t) ==> Exclusive(r)
  {
    if gameIdChanged then
      var t1 := if t.playerWon.Some? then StartMenuTimer(t, clock) else t;
      if t1.previousGameId.Some? then t1.(waitingForDeck := true, deckMissingCount := 0) else t1
    else t
  }

  /** handle_timers: the timer a state transition calls for. */
  function HandleTimers(t: Tracker, ch: Changes, clock: int): (r: Tracker)
    ensures Exclusive(t) ==> Exclusive(r)
    ensures r.previousGameState == t.previousGameState && r.currentState == t.currentState
    ensures r.pause == t.pause && r.deck == t.deck && r.previousGameId == t.previousGameId
    ensures r.currentChampion == t.currentChampion && r.waitingForDeck == t.waitingForDeck
    ensures r.deckMissingCount == t.deckMissingCount && r.gameId == t.gameId
    ensures OnlyTimers(t, r)
    ensures ch.stateChanged && t.previousGameState == Some(IN_PROGRESS) ==> r == StartMenuTimer(t, clock)
    ensures (&& ch.stateChanged && t.previousGameState != Some(IN_PROGRESS) && t.currentState == Some(IN_PROGRESS)
             && (t.previousGameState == Some(MENUS) || t.previousGameState.None?)) ==> r == StartChampionTimer(t, clock)
    ensures !ch.stateChanged ==> r == t
    ensures (&& t.previousGameState != Some(IN_PROGRESS)
             && !(t.currentState == Some(IN_PROGRESS) && (t.previousGameState == Some(MENUS) || t.previousGameState.None?)))
            ==> r == t
  {
    if ch.stateChanged && t.previousGameState == Some(IN_PROGRESS) then
      StartMenuTimer(t, clock)
    else if ch.stateChanged && t.previousGameState == Some(MENUS) && t.currentState == Some(IN_PROGRESS) then
      StartChampionTimer(t, clock)
    else if ch.stateChanged && t.currentState == Some(IN_PROGRESS) && t.previousGameState.None? then
      StartChampionTimer(t, clock)
    else t
  }

  /** The deck-missing watchdog (the tail of update_game_state): with no deck and a
      champion assigned, count the cycle; at the limit drop the champion and its running
      session and go to the menu timer. */
  function Watchdog(t: Tracker, clock: int): (r: Tracker)
    ensures !(t.deck.None? && Named(t.currentChampion)) ==> r == t
    ensures t.deck.None? && Named(t.currentChampion) && t.deckMissingCount + 1 < WATCHDOG_LIMIT ==>
      r == t.(deckMissingCount := t.deckMissingCount + 1)
    ensures t.deck.None? && Named(t.currentChampion) && t.deckMissingCount + 1 >= WATCHDOG_LIMIT ==>
      r == DropChampion(t.(deckMissingCount := t.deckMissingCount + 1), clock)
    ensures Exclusive(t) ==> Exclusive(r)
  {
    if t.deck.None? && Named(t.currentChampion) then
      var t1 := t.(deckMissingCount := t.deckMissingCount + 1);
      if t1.deckMissingCount >= WATCHDOG_LIMIT then DropChampion(t1, clock) else t1
    else t
  }

  /** The watchdog's reset: the champion becomes the previous one, the wait and the pause
      end, the running session is discarded unrecorded, and the menu timer runs. */
  function DropChampion(t: Tracker, clock: int): (r: Tracker)
    ensures r.currentChampion.None? && r.previousChampion == t.currentChampion
    ensures !r.waitingForDeck && !r.pause && !Truthy(r.championStart) && r.championDuration == 0
    ensures r.gameDurations == t.gameDurations && r.deckMissingCount == t.deckMissingCount
    ensures Truthy(t.menuStart) ==> r.menuStart == t.menuStart
    ensures !Truthy(t.menuStart) ==> r.menuStart == Some(clock)
    ensures Exclusive(r)
    ensures r == t.(previousChampion := t.currentChampion, currentChampion := None, waitingForDeck := false,
                    pause := false, championStart := None, championDuration := 0, menuStart := r.menuStart)
  {
    var t1 := t.(previousChampion := t.currentChampion, currentChampion := None,
                 waitingForDeck := false, pause := false, championStart := None,
                 championDuration := 0);
    StartMenuTimer(t1, clock)
  }

  /** The second half of update_game_state, after the transitions are handled: wait
      out the post-game screen, take a new game id, arm the pause, run the watchdog. */
  function ResolvePause(t: Tracker, gameIdChanged: bool, clock: int): (r: Tracker)
    ensures Exclusive(t) ==> Exclusive(r)
  {
    if t.pause && t.deck.None? then
      StartMenuTimer(t, clock)
    else
      var t1 := t.(pause := false);
      if gameIdChanged then
        t1.(previousChampion := t1.currentChampion, previousGameWon := t1.playerWon,
            previousGameId := t1.gameId)
      else if t1.waitingForDeck && t1.deck.None? then
        t1.(waitingForDeck := false, pause := true)
      else Watchdog(t1, clock)
  }

  /** update_game_state: one poll cycle over snapshot `s` at time `clock`. */
  function UpdateGameState(t: Tracker, s: Snapshot, clock: int, mapping: map<string, string>): (r: Tracker)
    ensures Exclusive(t) ==> Exclusive(r)
  {
    var (t1, ch) := TrackStateChanges(t, s, clock, mapping);
    var t2 := if ch.stateChanged then HandleTimers(t1, ch, clock).(previousGameState := t1.currentState) else t1;
    ResolvePause(t2, ch.gameIdChanged, clock)
  }
}
