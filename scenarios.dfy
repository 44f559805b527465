/**
 * Whole poll-cycle sequences of LoR_Timers.py: a won game and a lost-then-won game with
 * one champion, from a freshly constructed tracker.
 */
module Scenarios {
  import opened Wrappers
  import opened Tracking

  /** The first three cycles of both scenarios: in the menus without a deck, in the
      menus with a deck whose only card maps to `champ`, then in a game. */
  function Opening(x: string, mapping: map<string, string>, c1: int, c2: int, c3: int): Tracker
  {
    var r1 := UpdateGameState(Initial(), Snapshot(Some(MENUS), None, None, None), c1, mapping);
    var r2 := UpdateGameState(r1, Snapshot(Some(MENUS), Some([(x, 1)]), None, None), c2, mapping);
    UpdateGameState(r2, Snapshot(Some(IN_PROGRESS), Some([(x, 1)]), None, None), c3, mapping)
  }

  /** After the opening the champion is resolved and its timer runs from `c3`; the menu
      timer never ran. */
  lemma OpeningState(x: string, mapping: map<string, string>, c1: int, c2: int, c3: int)
    requires x in mapping && mapping[x] != "" && c3 != 0
    ensures var r := Opening(x, mapping, c1, c2, c3);
      && r.currentChampion == Some(mapping[x]) && r.championStart == Some(c3)
      && r.championDuration == 0 && r.pendingChampionTime.None? && r.menuStart.None?
      && r.previousGameState == Some(IN_PROGRESS) && r.previousGameId.None?
      && r.deck == Some([(x, 1)]) && r.gameDurations == map[]
      && !r.pause && !r.waitingForDeck && r.deckMissingCount == 0
  {
    var r1 := UpdateGameState(Initial(), Snapshot(Some(MENUS), None, None, None), c1, mapping);
    assert r1 == Initial().(currentState := Some(MENUS), previousGameState := Some(MENUS));
    var r2 := UpdateGameState(r1, Snapshot(Some(MENUS), Some([(x, 1)]), None, None), c2, mapping);
    assert FirstMatch([(x, 1)], mapping) == Some(mapping[x]);
    assert r2 == r1.(deck := Some([(x, 1)]), currentChampion := Some(mapping[x]));
    var r3 := UpdateGameState(r2, Snapshot(Some(IN_PROGRESS), Some([(x, 1)]), None, None), c3, mapping);
    var (u, ch) := TrackStateChanges(r2, Snapshot(Some(IN_PROGRESS), Some([(x, 1)]), None, None), c3, mapping);
    assert !ch.deckChanged && ch.stateChanged && !ch.gameIdChanged;
    assert u.championStart == Some(c3);
  }

  /** A won game: leaving it with result `{GameID: 5, LocalPlayerWon: true}` and no deck
      records one session of `c4 - c3` seconds for the champion. */
  lemma WonGame(x: string, mapping: map<string, string>, c1: int, c2: int, c3: int, c4: int)
    requires x in mapping && mapping[x] != "" && c3 != 0
    ensures var r := UpdateGameState(Opening(x, mapping, c1, c2, c3),
                                     Snapshot(Some(MENUS), None, Some(5), Some(true)), c4, mapping);
      && r.gameDurations == map[mapping[x] := [DurationRecord(c4 - c3)]]
      && r.championDuration == 0 && r.previousGameId == Some(5)
  {
    OpeningState(x, mapping, c1, c2, c3);
    var r3 := Opening(x, mapping, c1, c2, c3);
    var snap := Snapshot(Some(MENUS), None, Some(5), Some(true));
    var (u, ch) := TrackStateChanges(r3, snap, c4, mapping);
    assert ch.stateChanged && ch.gameIdChanged && ch.deckChanged;
    var u1 := UpdateFields(r3, snap);
    var u2 := StartMenuTimer(u1, c4);
    assert u2 == StopChampionTimer(u1, c4).(menuStart := Some(c4));
    assert u1.championStart == Some(c3) && u1.championDuration == 0 && u1.playerWon == Some(true);
    assert Records(u1, mapping[x]) == [] && u1.currentChampion == Some(mapping[x]);
    assert u2.gameDurations == map[mapping[x] := [] + [DurationRecord(c4 - c3)]];
    assert u == DetermineChampion(u2, mapping) == u2;
    var w := HandleTimers(u, ch, c4).(previousGameState := u.currentState);
    assert w.gameDurations == u.gameDurations && !w.pause;
    assert UpdateGameState(r3, snap, c4, mapping) == ResolvePause(w, true, c4);
    assert ResolvePause(w, true, c4).gameDurations == w.gameDurations;
    assert [] + [DurationRecord(c4 - c3)] == [DurationRecord(c4 - c3)];
  }

  /** Back in the menus after game 5 was lost: nothing recorded and `d1` seconds of
      champion `c` carried over. */
  predicate AfterLoss(t: Tracker, c: string, d1: int)
  {
    && t.gameDurations == map[] && t.pendingChampionTime == Some(d1)
    && t.championStart.None? && t.championDuration == d1 && t.currentChampion == Some(c)
    && t.previousGameState == Some(MENUS) && t.previousGameId == Some(5) && !t.pause && !t.waitingForDeck
    && t.deck.None? && t.currentState == Some(MENUS) && t.gameId == Some(5)
  }

  /** In game 5 again with the deck whose only card is `x`, champion `c`'s timer running
      from `start` with `d1` seconds accumulated and the menu timer stopped. */
  predicate Reentered(t: Tracker, x: string, c: string, d1: int, start: int)
  {
    && t.championStart == Some(start) && t.championDuration == d1 && t.currentChampion == Some(c)
    && t.previousGameState == Some(IN_PROGRESS) && t.previousGameId == Some(5) && t.gameDurations == map[]
    && !t.pause && !t.waitingForDeck && t.playerWon == Some(false)
    && t.deck == Some([(x, 1)]) && t.currentState == Some(IN_PROGRESS) && t.gameId == Some(5)
    && !Truthy(t.menuStart)
  }

  /** Leaving the opening's game at `c4` with a lost result: no record, the session is
      carried over as pending time and the menu timer runs. */
  lemma LostGameStep(x: string, mapping: map<string, string>, c1: int, c2: int, c3: int, c4: int)
    requires x in mapping && mapping[x] != "" && c3 != 0
    ensures AfterLoss(UpdateGameState(Opening(x, mapping, c1, c2, c3),
                                      Snapshot(Some(MENUS), None, Some(5), Some(false)), c4, mapping),
                      mapping[x], c4 - c3)
  {
    OpeningState(x, mapping, c1, c2, c3);
  }

  /** Entering a new game at `c5` with the same deck and id, after a loss of `d1` seconds
      that is pending: the champion timer restarts `d1` seconds before `c5`. */
  lemma ReenterStep(t: Tracker, x: string, mapping: map<string, string>, d1: int, c5: int)
    requires x in mapping && mapping[x] != "" && c5 != 0 && c5 - d1 != 0
    requires AfterLoss(t, mapping[x], d1)
    ensures Reentered(UpdateGameState(t, Snapshot(Some(IN_PROGRESS), Some([(x, 1)]), Some(5), Some(false)), c5, mapping),
                      x, mapping[x], d1, c5 - d1)
  {
    var snap := Snapshot(Some(IN_PROGRESS), Some([(x, 1)]), Some(5), Some(false));
    var (u, ch) := TrackStateChanges(t, snap, c5, mapping);
    assert ch.stateChanged && !ch.gameIdChanged && ch.deckChanged;
    assert FirstMatch([(x, 1)], mapping) == Some(mapping[x]);
    assert u.championStart == Some(c5 - d1) && u.currentChampion == Some(mapping[x]);
  }

  /** Winning the re-entered game at `c6`: one record of the doubled carry-over plus the
      won session, and the wait for the next deck is armed. */
  lemma WinStep(t: Tracker, x: string, mapping: map<string, string>, d1: int, c5: int, c6: int)
    requires x in mapping && mapping[x] != "" && c5 - d1 != 0
    requires Reentered(t, x, mapping[x], d1, c5 - d1)
    ensures var r6 := UpdateGameState(t, Snapshot(Some(MENUS), None, Some(6), Some(true)), c6, mapping);
      && r6.gameDurations == map[mapping[x] := [DurationRecord(2 * d1 + (c6 - c5))]]
      && r6.waitingForDeck
  {
    var snap6 := Snapshot(Some(MENUS), None, Some(6), Some(true));
    var (v, ch6) := TrackStateChanges(t, snap6, c6, mapping);
    assert ch6.stateChanged && ch6.gameIdChanged && ch6.deckChanged;
    var v1 := UpdateFields(t, snap6);
    var v2 := StartMenuTimer(v1, c6);
    assert v2 == StopChampionTimer(v1, c6).(menuStart := Some(c6));
    assert Records(v1, mapping[x]) == [] && v1.currentChampion == Some(mapping[x]);
    assert v2.gameDurations == map[mapping[x] := [] + [DurationRecord(2 * d1 + (c6 - c5))]];
    assert v == DetermineChampion(v2.(waitingForDeck := true, deckMissingCount := 0), mapping);
    var w := HandleTimers(v, ch6, c6).(previousGameState := v.currentState);
    assert w.gameDurations == v.gameDurations && w.waitingForDeck && !w.pause;
    assert UpdateGameState(t, snap6, c6, mapping) == ResolvePause(w, true, c6);
    assert ResolvePause(w, true, c6).gameDurations == w.gameDurations;
    assert ResolvePause(w, true, c6).waitingForDeck;
    assert [] + [DurationRecord(2 * d1 + (c6 - c5))] == [DurationRecord(2 * d1 + (c6 - c5))];
  }

  /** A lost game of `c4 - c3` seconds, a new game entered at `c5` and won at `c6`:
      the single record holds twice the lost session plus the won one. */
  lemma LostThenWonGame(x: string, mapping: map<string, string>, c1: int, c2: int, c3: int,
                        c4: int, c5: int, c6: int)
    requires x in mapping && mapping[x] != "" && c3 != 0 && c5 != 0 && c5 - (c4 - c3) != 0
    ensures var r4 := UpdateGameState(Opening(x, mapping, c1, c2, c3),
                                      Snapshot(Some(MENUS), None, Some(5), Some(false)), c4, mapping);
            var r5 := UpdateGameState(r4, Snapshot(Some(IN_PROGRESS), Some([(x, 1)]), Some(5), Some(false)), c5, mapping);
            var r6 := UpdateGameState(r5, Snapshot(Some(MENUS), None, Some(6), Some(true)), c6, mapping);
      && r4.gameDurations == map[] && r4.pendingChampionTime == Some(c4 - c3)
      && r6.gameDurations == map[mapping[x] := [DurationRecord(2 * (c4 - c3) + (c6 - c5))]]
      && r6.waitingForDeck
  {
    LostGameStep(x, mapping, c1, c2, c3, c4);
    var r4 := UpdateGameState(Opening(x, mapping, c1, c2, c3),
                              Snapshot(Some(MENUS), None, Some(5), Some(false)), c4, mapping);
    ReenterStep(r4, x, mapping, c4 - c3, c5);
    var r5 := UpdateGameState(r4, Snapshot(Some(IN_PROGRESS), Some([(x, 1)]), Some(5), Some(false)), c5, mapping);
    WinStep(r5, x, mapping, c4 - c3, c5, c6);
  }
}
