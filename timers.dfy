/**
 * The `LoRTimers` object of LoR_Timers.py: its fields are updated in place, one poll
 * cycle at a time. Every method is proved to take the object's state exactly where the
 * matching transition of module Tracking takes it.
 */
module Timers {
  import opened Wrappers
  import opened Tracking

  class LoRTimers {
    var deckMissingCount: nat
    var previousGameId: Option<int>
    var gameId: Option<int>
    var playerWon: Option<bool>
    var previousGameWon: Option<bool>
    var currentChampion: Option<string>
    var previousChampion: Option<string>
    var previousGameState: Option<string>
    var currentState: Option<string>
    var waitingForDeck: bool
    var pause: bool
    var menuStartTime: Option<int>
    var championStartTime: Option<int>
    var menuDuration: int
    var championDuration: int
    var gameDurations: map<string, seq<DurationRecord>>
    var pendingChampionTime: Option<int>
    var deck: Option<Deck>
    var previousDeck: Option<Deck>
    /** The card-code-to-champion table, read once at start-up (empty if the file is
        missing or invalid). */
    const championMapping: map<string, string>

    /** The object's state as a value. */
    function State(): Tracker
      reads this
    {
      Tracker(deckMissingCount, previousGameId, gameId, playerWon, previousGameWon,
              currentChampion, previousChampion, previousGameState, currentState,
              waitingForDeck, pause, menuStartTime, championStartTime, menuDuration,
              championDuration, gameDurations, pendingChampionTime, deck, previousDeck)
    }

    constructor (mapping: map<string, string>)
      ensures State() == Initial() && championMapping == mapping
    {
      championMapping := mapping;
      deckMissingCount := 0;
      previousGameId, gameId := None, None;
      playerWon, previousGameWon := None, None;
      currentChampion, previousChampion := None, None;
      previousGameState, currentState := None, None;
      waitingForDeck, pause := false, false;
      menuStartTime, championStartTime := None, None;
      menuDuration, championDuration := 0, 0;
      gameDurations := map[];
      pendingChampionTime := None;
      deck, previousDeck := None, None;
    }

    /** The current_champion_time property at time `now`. */
    function CurrentChampionTime(now: int): (r: int)
      reads this
      ensures r == Tracking.CurrentChampionTime(State(), now)
    {
      if championStartTime.Some? && championStartTime.value != 0 then now - championStartTime.value
      else championDuration
    }

    /** The total_menu_time property at time `now`. */
    function TotalMenuTime(now: int): (r: int)
      reads this
      ensures r == Tracking.TotalMenuTime(State(), now)
    {
      if menuStartTime.Some? && menuStartTime.value != 0 then menuDuration + (now - menuStartTime.value)
      else menuDuration
    }

    method StopMenuTimer(end: int)
      modifies this
      ensures State() == Tracking.StopMenuTimer(old(State()), end)
    {
      if menuStartTime.Some? && menuStartTime.value != 0 {
        menuDuration := menuDuration + (end - menuStartTime.value);
        menuStartTime := None;
      }
    }

    method StopChampionTimer(clock: int)
      modifies this
      ensures State() == Tracking.StopChampionTimer(old(State()), clock)
    {
      if championStartTime.Some? && championStartTime.value != 0 {
        var sessionDuration := clock - championStartTime.value;
        EndSession(sessionDuration);
        if currentChampion.Some? && currentChampion.value != "" {
          if playerWon == Some(true) {
            RecordTotal(currentChampion.value);
          } else {
            pendingChampionTime := Some(championDuration);
          }
        }
      }
    }

    /** The session of `sessionDuration` seconds ends and joins the accumulated total. */
    method EndSession(sessionDuration: int)
      modifies this
      ensures State() == old(State()).(championDuration := old(championDuration) + sessionDuration,
                                       championStart := None)
    {
      championDuration := championDuration + sessionDuration;
      championStartTime := None;
    }

    /** The accumulated total is appended to champion `c`'s records and restarts at 0. */
    method RecordTotal(c: string)
      modifies this
      ensures State() == old(State()).(gameDurations := old(gameDurations)[c := Records(old(State()), c)
                                         + [DurationRecord(old(championDuration))]],
                                       championDuration := 0)
    {
      var list := if c in gameDurations then gameDurations[c] else [];
      gameDurations := gameDurations[c := list + [DurationRecord(championDuration)]];
      championDuration := 0;
    }

    method StartChampionTimer(clock: int)
      modifies this
      ensures State() == Tracking.StartChampionTimer(old(State()), clock)
    {
      if menuStartTime.Some? && menuStartTime.value != 0 {
        StopMenuTimer(clock);
      }
      if !(championStartTime.Some? && championStartTime.value != 0) {
        championStartTime := Some(clock);
        if pendingChampionTime.Some? && pendingChampionTime.value != 0 {
          championStartTime := Some(championStartTime.value - pendingChampionTime.value);
          pendingChampionTime := None;
        }
      }
    }

    method StartMenuTimer(clock: int)
      modifies this
      ensures State() == Tracking.StartMenuTimer(old(State()), clock)
    {
      if championStartTime.Some? && championStartTime.value != 0 {
        StopChampionTimer(clock);
      }
      if !(menuStartTime.Some? && menuStartTime.value != 0) {
        menuStartTime := Some(clock);
      }
    }

    /** determine_champion_from_deck: scan the deck's card codes in order and stop at
        the first one the mapping knows. */
    method DetermineChampionFromDeck()
      modifies this
      ensures State() == DetermineChampion(old(State()), championMapping)
    {
      if deck.None? {
        return;
      }
      var cards := deck.value;
      var i := 0;
      while i < |cards|
        invariant 0 <= i <= |cards|
        invariant forall j :: 0 <= j < i ==> cards[j].0 !in championMapping
        invariant State() == old(State())
      {
        var cardCode := cards[i].0;
        if cardCode in championMapping {
          var found := championMapping[cardCode];
          FirstMatchIndexIs(cards, championMapping, i);
          if currentChampion == Some(found) {
            return;
          }
          AdoptChampion(found);
          return;
        }
        i := i + 1;
      }
    }

    /** `found` becomes the champion, the old one the previous one, and the deck-missing
        counter restarts. */
    method AdoptChampion(found: string)
      modifies this
      ensures State() == old(State()).(previousChampion := old(currentChampion),
                                       currentChampion := Some(found), deckMissingCount := 0)
    {
      previousChampion := currentChampion;
      currentChampion := Some(found);
      deckMissingCount := 0;
    }

    /** update_fields over the snapshot the client's accessors return. */
    method UpdateFields(s: Snapshot)
      modifies this
      ensures State() == Tracking.UpdateFields(old(State()), s)
    {
      ReadResult(s);
      ReadDeckAndState(s);
    }

    /** The result part of update_fields. */
    method ReadResult(s: Snapshot)
      modifies this
      ensures State() == old(State()).(playerWon := s.playerWon, gameId := s.gameId)
    {
      playerWon := s.playerWon;
      gameId := s.gameId;
    }

    /** The deck and state part of update_fields: the old deck is kept as the previous one. */
    method ReadDeckAndState(s: Snapshot)
      modifies this
      ensures State() == old(State()).(previousDeck := old(deck), deck := s.deck, currentState := s.gameState)
    {
      previousDeck := deck;
      deck := s.deck;
      currentState := s.gameState;
    }

    method TrackStateChanges(s: Snapshot, clock: int) returns (stateChanged: bool, gameIdChanged: bool, deckChanged: bool)
      modifies this
      ensures (State(), Changes(stateChanged, gameIdChanged, deckChanged))
              == Tracking.TrackStateChanges(old(State()), s, clock, championMapping)
    {
      UpdateFields(s);
      stateChanged := currentState != previousGameState;
      gameIdChanged := gameId.Some? && gameId != previousGameId;
      deckChanged := !SameDeck(deck, previousDeck);
      OnStateChange(stateChanged, clock);
      OnNewGameId(gameIdChanged, clock);
      if deckChanged {
        DetermineChampionFromDeck();
      }
    }

    /** The state-change block of track_state_changes. */
    method OnStateChange(stateChanged: bool, clock: int)
      modifies this
      ensures State() == Tracking.OnStateChange(old(State()), stateChanged, clock)
    {
      if stateChanged {
        if currentChampion.Some? && currentChampion.value != "" && currentState == Some(IN_PROGRESS) {
          StartChampionTimer(clock);
        }
      }
    }

    /** The new-game-id block of track_state_changes. */
    method OnNewGameId(gameIdChanged: bool, clock: int)
      modifies this
      ensures State() == Tracking.OnNewGameId(old(State()), gameIdChanged, clock)
    {
      if gameIdChanged {
        if playerWon.Some? {
          StartMenuTimer(clock);
        }
        if previousGameId.Some? {
          waitingForDeck := true;
          deckMissingCount := 0;
        }
      }
    }

    method HandleTimers(stateChanged: bool, gameIdChanged: bool, deckChanged: bool, clock: int)
      modifies this
      ensures State() == Tracking.HandleTimers(old(State()), Changes(stateChanged, gameIdChanged, deckChanged), clock)
    {
      if stateChanged && previousGameState == Some(IN_PROGRESS) {
        StartMenuTimer(clock);
      } else if stateChanged && previousGameState == Some(MENUS) && currentState == Some(IN_PROGRESS) {
        StartChampionTimer(clock);
      } else if stateChanged && currentState == Some(IN_PROGRESS) && previousGameState.None? {
        StartChampionTimer(clock);
      }
    }

    /** update_game_state: one poll cycle over snapshot `s` at time `clock`. */
    method UpdateGameState(s: Snapshot, clock: int)
      modifies this
      ensures State() == Tracking.UpdateGameState(old(State()), s, clock, championMapping)
    {
      var stateChanged, gameIdChanged, deckChanged := TrackStateChanges(s, clock);
      if stateChanged {
        HandleTimers(stateChanged, gameIdChanged, deckChanged, clock);
        previousGameState := currentState;
      }
      ResolvePause(gameIdChanged, clock);
    }

    /** The part of update_game_state after the transitions are handled. */
    method ResolvePause(gameIdChanged: bool, clock: int)
      modifies this
      ensures State() == Tracking.ResolvePause(old(State()), gameIdChanged, clock)
    {
      if pause && deck.None? {
        StartMenuTimer(clock);
        return;
      } else {
        pause := false;
      }
      if gameIdChanged {
        TakeGameId();
        return;
      }
      if waitingForDeck {
        if deck.None? {
          waitingForDeck, pause := false, true;
          return;
        }
      }
      Watchdog(clock);
    }

    /** The new game id is taken as the previous one, with its champion and result. */
    method TakeGameId()
      modifies this
      ensures State() == old(State()).(previousChampion := old(currentChampion),
                                       previousGameWon := old(playerWon), previousGameId := old(gameId))
    {
      previousChampion, previousGameWon, previousGameId := currentChampion, playerWon, gameId;
    }

    /** The deck-missing watchdog that ends update_game_state. */
    method Watchdog(clock: int)
      modifies this
      ensures State() == Tracking.Watchdog(old(State()), clock)
    {
      if deck.None? && currentChampion.Some? && currentChampion.value != "" {
        deckMissingCount := deckMissingCount + 1;
        if deckMissingCount >= WATCHDOG_LIMIT {
          DropChampion(clock);
        }
      }
    }

    /** The watchdog's reset. */
    method DropChampion(clock: int)
      modifies this
      ensures State() == Tracking.DropChampion(old(State()), clock)
    {
      ForgetChampion();
      EndWait();
      championStartTime, championDuration := None, 0;
      StartMenuTimer(clock);
    }

    /** The champion becomes the previous one and none is assigned. */
    method ForgetChampion()
      modifies this
      ensures State() == old(State()).(previousChampion := old(currentChampion), currentChampion := None)
    {
      previousChampion, currentChampion := currentChampion, None;
    }

    /** Neither the wait for a deck nor the pause is on. */
    method EndWait()
      modifies this
      ensures State() == old(State()).(waitingForDeck := false, pause := false)
    {
      waitingForDeck, pause := false, false;
    }
  }
}
