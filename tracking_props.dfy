/**
 * What the session tracker of LoR_Timers.py guarantees, proved about the transitions of
 * module Tracking.
 */
module TrackingProperties {
  import opened Wrappers
  import opened Tracking

  // ----- stopping the champion timer -----

  /** A win of a named champion appends exactly one record, holding the accumulated plus
      the session time, at the end of that champion's list; nothing else is recorded. */
  lemma WinningStop(t: Tracker, clock: int)
    requires Truthy(t.championStart) && Named(t.currentChampion) && t.playerWon == Some(true)
    ensures var r := StopChampionTimer(t, clock); var c := t.currentChampion.value;
      && |Records(r, c)| == |Records(t, c)| + 1
      && Records(r, c)[..|Records(t, c)|] == Records(t, c)
      && Records(r, c)[|Records(t, c)|] == DurationRecord(t.championDuration + (clock - t.championStart.value))
      && c in r.gameDurations
      && (forall c' :: c' != c ==> Records(r, c') == Records(t, c') && (c' in r.gameDurations <==> c' in t.gameDurations))
      && r.championDuration == 0 && r.pendingChampionTime == t.pendingChampionTime
      && r.championStart.None?
  {
  }

  /** A stop that is not a win of a named champion records nothing; for a named champion
      the accumulated total is kept AND carried over as pending time. */
  lemma LosingStop(t: Tracker, clock: int)
    requires Truthy(t.championStart) && !(Named(t.currentChampion) && t.playerWon == Some(true))
    ensures var r := StopChampionTimer(t, clock); var total := t.championDuration + (clock - t.championStart.value);
      && r.gameDurations == t.gameDurations
      && r.championDuration == total
      && r.pendingChampionTime == (if Named(t.currentChampion) then Some(total) else t.pendingChampionTime)
      && r.championStart.None?
  {
  }

  /** Stopping a timer that is not running changes nothing. */
  lemma StopIdleTimers(t: Tracker, clock: int)
    requires !Truthy(t.championStart) && !Truthy(t.menuStart)
    ensures StopChampionTimer(t, clock) == t && StopMenuTimer(t, clock) == t
  {
  }

  /** After a stop that is not a recorded win, the displayed champion time at the stop
      instant is the kept total: the old total plus what the display showed. */
  lemma StopChampionDisplay(t: Tracker, now: int)
    requires Truthy(t.championStart) && !(Named(t.currentChampion) && t.playerWon == Some(true))
    ensures CurrentChampionTime(StopChampionTimer(t, now), now) == t.championDuration + CurrentChampionTime(t, now)
  {
  }

  // ----- the carry-over after a loss -----

  /** `t` carries `acc` seconds: the accumulated total is `acc`, and the pending time
      that the next start restores is `acc` (a zero pending time restores nothing). */
  predicate Carrying(t: Tracker, acc: int)
  {
    && t.championDuration == acc
    && (if acc != 0 then t.pendingChampionTime == Some(acc) else !Truthy(t.pendingChampionTime))
  }

  /** The carried time after a run of lost sessions of the given lengths, starting from
      `acc`: each loss doubles what was carried and adds its own length, because the
      carried time is both kept in the total and restored through the start offset. */
  function CarriedAfter(acc: int, lengths: seq<int>): int
    decreases |lengths|
  {
    if lengths == [] then acc else CarriedAfter(2 * acc + lengths[0], lengths[1..])
  }

  /** One session started at `start` and lost `len` seconds later. */
  function PlayOnce(t: Tracker, start: int, len: int): Tracker
  {
    StopChampionTimer(StartChampionTimer(t, start), start + len)
  }

  /** A lost session of a named champion carrying `acc` ends carrying `2*acc + len`. */
  lemma OneLoss(t: Tracker, acc: int, start: int, len: int)
    requires Carrying(t, acc) && Named(t.currentChampion) && t.playerWon != Some(true)
    requires !Truthy(t.championStart) && start - acc != 0
    ensures var r := PlayOnce(t, start, len);
      && Carrying(r, 2 * acc + len) && r.gameDurations == t.gameDurations
      && !Truthy(r.championStart) && r.currentChampion == t.currentChampion && r.playerWon == t.playerWon
  {
    var t1 := StartChampionTimer(t, start);
    assert t1.championStart == Some(start - acc);
  }

  /** The sessions `(start, length)` of a run can all be started: each start, moved back
      by what is carried at that point, is a truthy time. */
  predicate Startable(acc: int, sessions: seq<(int, int)>)
    decreases |sessions|
  {
    sessions == [] || (sessions[0].0 - acc != 0 && Startable(2 * acc + sessions[0].1, sessions[1..]))
  }

  /** The lengths of the sessions. */
  function Lengths(sessions: seq<(int, int)>): (ls: seq<int>)
    ensures |ls| == |sessions| && forall i :: 0 <= i < |sessions| ==> ls[i] == sessions[i].1
  {
    seq(|sessions|, i requires 0 <= i < |sessions| => sessions[i].1)
  }

  /** Play a run of lost sessions in order. */
  function PlayAll(t: Tracker, sessions: seq<(int, int)>): Tracker
    decreases |sessions|
  {
    if sessions == [] then t else PlayAll(PlayOnce(t, sessions[0].0, sessions[0].1), sessions[1..])
  }

  /** A run of lost sessions of a named champion records nothing and carries
      `CarriedAfter(acc, lengths)`. */
  lemma {:induction false} LossStreak(t: Tracker, acc: int, sessions: seq<(int, int)>)
    requires Carrying(t, acc) && Named(t.currentChampion) && t.playerWon != Some(true)
    requires !Truthy(t.championStart) && Startable(acc, sessions)
    decreases |sessions|
    ensures var r := PlayAll(t, sessions);
      && Carrying(r, CarriedAfter(acc, Lengths(sessions))) && r.gameDurations == t.gameDurations
      && !Truthy(r.championStart) && r.currentChampion == t.currentChampion
  {
    if sessions != [] {
      var (start, len) := sessions[0];
      OneLoss(t, acc, start, len);
      assert Lengths(sessions)[1..] == Lengths(sessions[1..]);
      LossStreak(PlayOnce(t, start, len), 2 * acc + len, sessions[1..]);
    }
  }

  /** A won session of a named champion carrying `acc` records `2*acc + len`. */
  lemma WinAfterCarry(t: Tracker, acc: int, start: int, len: int)
    requires Carrying(t, acc) && Named(t.currentChampion) && t.playerWon == Some(true)
    requires !Truthy(t.championStart) && start - acc != 0
    ensures var r := PlayOnce(t, start, len); var c := t.currentChampion.value;
      && Records(r, c) == Records(t, c) + [DurationRecord(2 * acc + len)]
      && r.championDuration == 0
      && forall c' :: c' != c ==> Records(r, c') == Records(t, c')
  {
    var t1 := StartChampionTimer(t, start);
    assert t1.championStart == Some(start - acc);
  }

  /** A loss of `d1` seconds followed by a win after `d2` more seconds records
      `2*d1 + d2`, not `d1 + d2`. */
  lemma LossThenWin(t: Tracker, s1: int, d1: int, s2: int, d2: int)
    requires Carrying(t, 0) && Named(t.currentChampion) && t.playerWon == Some(false)
    requires !Truthy(t.championStart) && s1 != 0 && s2 - d1 != 0
    ensures var lost := PlayOnce(t, s1, d1);
            var won := PlayOnce(lost.(playerWon := Some(true)), s2, d2);
            var c := t.currentChampion.value;
      && lost.gameDurations == t.gameDurations
      && Records(won, c) == Records(t, c) + [DurationRecord(2 * d1 + d2)]
  {
    OneLoss(t, 0, s1, d1);
    var lost := PlayOnce(t, s1, d1);
    WinAfterCarry(lost.(playerWon := Some(true)), d1, s2, d2);
  }

  // ----- starting timers -----

  /** Starting a timer that already runs leaves its start time where it was. */
  lemma RestartKeepsStart(t: Tracker, clock: int)
    ensures Truthy(t.championStart) ==> StartChampionTimer(t, clock).championStart == t.championStart
    ensures Truthy(t.menuStart) ==> StartMenuTimer(t, clock).menuStart == t.menuStart
  {
  }

  // ----- champion resolution -----

  /** First match wins: a later part of the deck matters only when the earlier part
      has no known card code. */
  lemma {:induction false} FirstMatchAppend(a: Deck, b: Deck, mapping: map<string, string>)
    ensures FirstMatch(a + b, mapping) == if FirstMatch(a, mapping).Some? then FirstMatch(a, mapping) else FirstMatch(b, mapping)
  {
    FirstMatchIndexAppend(a, b, mapping);
  }

  lemma {:induction false} FirstMatchIndexAppend(a: Deck, b: Deck, mapping: map<string, string>)
    ensures FirstMatchIndex(a + b, mapping) ==
      match FirstMatchIndex(a, mapping)
      case Some(i) => Some(i)
      case None => match FirstMatchIndex(b, mapping) case Some(j) => Some(|a| + j) case None => None
  {
    if a == [] {
      assert a + b == b;
    } else {
      assert (a + b)[1..] == a[1..] + b;
      FirstMatchIndexAppend(a[1..], b, mapping);
    }
  }

  /** A deck whose first two cards are both known resolves to the first one's champion. */
  lemma FirstOfTwo(x: string, y: string, n: int, m: int, mapping: map<string, string>)
    requires x in mapping && y in mapping
    ensures FirstMatch([(x, n), (y, m)], mapping) == Some(mapping[x])
  {
  }

  // ----- a new game id -----

  /** The three change flags: a different state, a new non-None id, and a deck not equal
      (as a dictionary) to the one stored before. */
  lemma ChangeFlags(t: Tracker, s: Snapshot, clock: int, mapping: map<string, string>)
    ensures var ch := TrackStateChanges(t, s, clock, mapping).1;
      && (ch.stateChanged <==> s.gameState != t.previousGameState)
      && (ch.gameIdChanged <==> s.gameId.Some? && s.gameId != t.previousGameId)
      && (ch.deckChanged <==> !SameDeck(s.deck, t.deck))
  {
  }

  /** A cycle that sees a new game id (and is not held on the post-game screen): the
      id is taken as the previous one, the cycle ends before the watchdog, a non-None
      result has started the menu timer (unless the same cycle enters a game), and a
      prior id arms the wait for the deck with a reset counter. */
  lemma NewGameIdCycle(t: Tracker, s: Snapshot, clock: int, mapping: map<string, string>)
    requires s.gameId.Some? && s.gameId != t.previousGameId
    requires !t.pause || s.deck.Some?
    ensures var r := UpdateGameState(t, s, clock, mapping);
      && r.previousGameId == s.gameId
      && r.previousChampion == r.currentChampion
      && r.previousGameWon == s.playerWon
      && !r.pause
      && (t.previousGameId.Some? ==> r.waitingForDeck && r.deckMissingCount == 0)
      && (s.playerWon.Some? && s.gameState != Some(IN_PROGRESS) ==>
            !Truthy(r.championStart) && (clock != 0 ==> Truthy(r.menuStart)))
  {
    var res := TrackStateChanges(t, s, clock, mapping);
    NewGameIdTracked(t, s, clock, mapping);
    CycleHalves(t, s, clock, mapping);
    HandledFrame(res.0, res.1, clock);
    TakeNewGameId(Handled(res.0, res.1, clock), clock);
  }

  /** Past the post-game screen (no pause, or the pause met a deck and ends), a new game
      id is taken as the previous one together with the champion and the result. */
  lemma TakeNewGameId(t: Tracker, clock: int)
    requires !t.pause || t.deck.Some?
    ensures ResolvePause(t, true, clock) == t.(pause := false, previousChampion := t.currentChampion,
                                               previousGameWon := t.playerWon, previousGameId := t.gameId)
  {
  }

  /** track_state_changes on a new game id: the wait for the deck is armed after a prior
      id, and a non-None result outside a game leaves only the menu timer running. */
  lemma NewGameIdTracked(t: Tracker, s: Snapshot, clock: int, mapping: map<string, string>)
    requires s.gameId.Some? && s.gameId != t.previousGameId
    ensures var (t1, ch) := TrackStateChanges(t, s, clock, mapping);
      && ch.gameIdChanged
      && (t.previousGameId.Some? ==> t1.waitingForDeck && t1.deckMissingCount == 0)
      && (s.playerWon.Some? && s.gameState != Some(IN_PROGRESS) ==>
            !Truthy(t1.championStart) && (clock != 0 ==> Truthy(t1.menuStart)))
  {
    var u := UpdateFields(t, s);
    var ch := ChangesOf(u);
    var u2 := OnStateChange(u, ch.stateChanged, clock);
    var u4 := OnNewGameId(u2, ch.gameIdChanged, clock);
    assert TrackStateChanges(t, s, clock, mapping).0 == if ch.deckChanged then DetermineChampion(u4, mapping) else u4;
  }

  /** The tracker between the two halves of update_game_state: a state change handled
      and taken as the previous state. */
  function Handled(t: Tracker, ch: Changes, clock: int): Tracker
  {
    if ch.stateChanged then HandleTimers(t, ch, clock).(previousGameState := t.currentState) else t
  }

  /** update_game_state is track_state_changes, the handling of a state change, then the
      pause and watchdog half. */
  lemma CycleHalves(t: Tracker, s: Snapshot, clock: int, mapping: map<string, string>)
    ensures var res := TrackStateChanges(t, s, clock, mapping);
      UpdateGameState(t, s, clock, mapping) == ResolvePause(Handled(res.0, res.1, clock), res.1.gameIdChanged, clock)
  {
  }

  /** The handling of a state change touches only the timers and the previous state;
      outside a game it never starts the champion timer or stops a running menu timer. */
  lemma HandledFrame(t: Tracker, ch: Changes, clock: int)
    ensures var h := Handled(t, ch, clock);
      && OnlyTimers(t, h.(previousGameState := t.previousGameState))
      && (t.currentState != Some(IN_PROGRESS) ==>
            && (!Truthy(t.championStart) ==> !Truthy(h.championStart))
            && (Truthy(t.menuStart) ==> Truthy(h.menuStart)))
  {
    if ch.stateChanged && t.currentState != Some(IN_PROGRESS) {
      HandleTimersOutsideGame(t, ch, clock);
    }
  }

  /** handle_timers outside a game never starts the champion timer and never stops a
      running menu timer. */
  lemma HandleTimersOutsideGame(t: Tracker, ch: Changes, clock: int)
    requires t.currentState != Some(IN_PROGRESS)
    ensures var r := HandleTimers(t, ch, clock);
      && (!Truthy(t.championStart) ==> !Truthy(r.championStart))
      && (Truthy(t.menuStart) ==> Truthy(r.menuStart))
  {
  }

  /** The next cycle without a deck and without a new id turns the wait into the pause,
      touching neither the champion nor the counter. */
  lemma WaitingThenPause(t: Tracker, s: Snapshot, clock: int, mapping: map<string, string>)
    requires t.waitingForDeck && !t.pause && s.deck.None?
    requires s.gameId.None? || s.gameId == t.previousGameId
    ensures var r := UpdateGameState(t, s, clock, mapping);
      && r.pause && !r.waitingForDeck
      && r.deckMissingCount == t.deckMissingCount && r.currentChampion == t.currentChampion
  {
  }

  /** While paused, a cycle without a deck only keeps the menu timer going. */
  lemma PausedWithoutDeck(t: Tracker, s: Snapshot, clock: int, mapping: map<string, string>)
    requires t.pause && s.deck.None?
    ensures var r := UpdateGameState(t, s, clock, mapping);
      r.pause && !Truthy(r.championStart) && r.previousGameId == t.previousGameId
  {
  }

  // ----- leaving and entering a game -----

  /** The rest of a cycle after handle_timers never restarts the champion timer and never
      touches the records or the carried-over time; a running menu timer keeps running. */
  lemma ResolveKeepsRecords(t: Tracker, gameIdChanged: bool, clock: int)
    requires !Truthy(t.championStart)
    ensures var r := ResolvePause(t, gameIdChanged, clock);
      && !Truthy(r.championStart)
      && r.gameDurations == t.gameDurations && r.pendingChampionTime == t.pendingChampionTime
      && (Truthy(t.menuStart) ==> Truthy(r.menuStart))
  {
  }

  /** With a deck, or unpaused with the counter short of the limit, the rest of a cycle
      after handle_timers leaves all four timer fields alone. */
  lemma ResolveKeepsTimers(t: Tracker, gameIdChanged: bool, clock: int)
    requires t.deck.Some? || (!t.pause && t.deckMissingCount + 1 < WATCHDOG_LIMIT)
    ensures var r := ResolvePause(t, gameIdChanged, clock);
      && r.championStart == t.championStart && r.pendingChampionTime == t.pendingChampionTime
      && r.menuStart == t.menuStart && r.menuDuration == t.menuDuration
  {
  }

  /** track_state_changes when it neither starts the champion timer nor sees a result
      with a new id: the timers are untouched and only the deck may change the champion. */
  lemma TrackWithoutTimers(t: Tracker, s: Snapshot, clock: int, mapping: map<string, string>)
    requires s.gameState != Some(IN_PROGRESS)
    requires !(s.gameId.Some? && s.gameId != t.previousGameId && s.playerWon.Some?)
    ensures var u := TrackStateChanges(t, s, clock, mapping).0;
      OnlyChampion(UpdateFields(t, s), u.(waitingForDeck := t.waitingForDeck, deckMissingCount := u.deckMissingCount))
  {
    var u := UpdateFields(t, s);
    var ch := ChangesOf(u);
    var u4 := OnNewGameId(OnStateChange(u, ch.stateChanged, clock), ch.gameIdChanged, clock);
    assert TrackStateChanges(t, s, clock, mapping).0 == if ch.deckChanged then DetermineChampion(u4, mapping) else u4;
  }

  /** handle_timers on leaving a game: the champion timer stops, recording or carrying
      its session, and the menu timer runs. */
  lemma LeaveHandled(u: Tracker, ch: Changes, clock: int)
    requires ch.stateChanged && u.previousGameState == Some(IN_PROGRESS)
    ensures var h := Handled(u, ch, clock);
      && !Truthy(h.championStart) && (clock != 0 ==> Truthy(h.menuStart))
      && h.gameDurations == StopChampionTimer(u, clock).gameDurations
      && h.pendingChampionTime == StopChampionTimer(u, clock).pendingChampionTime
  {
  }

  /** Leaving a game without a new result in the same cycle: the champion timer stops for
      the champion the deck shows now, its session is recorded or carried over as a stop
      decides, and the menu timer runs. */
  lemma LeaveGameCycle(t: Tracker, s: Snapshot, clock: int, mapping: map<string, string>)
    requires t.previousGameState == Some(IN_PROGRESS) && s.gameState != Some(IN_PROGRESS)
    requires !(s.gameId.Some? && s.gameId != t.previousGameId && s.playerWon.Some?)
    ensures var u := TrackStateChanges(t, s, clock, mapping).0;
            var r := UpdateGameState(t, s, clock, mapping);
      && !Truthy(r.championStart) && (clock != 0 ==> Truthy(r.menuStart))
      && r.gameDurations == StopChampionTimer(u, clock).gameDurations
      && r.pendingChampionTime == StopChampionTimer(u, clock).pendingChampionTime
  {
    var res := TrackStateChanges(t, s, clock, mapping);
    CycleHalves(t, s, clock, mapping);
    LeaveHandled(res.0, res.1, clock);
    ResolveKeepsRecords(Handled(res.0, res.1, clock), res.1.gameIdChanged, clock);
  }

  /** What leaving a game does with a running session of a named champion: a win appends
      it to that champion's records, anything else carries it over as pending time. */
  lemma LeaveGameOutcome(t: Tracker, s: Snapshot, clock: int, mapping: map<string, string>)
    requires t.previousGameState == Some(IN_PROGRESS) && s.gameState != Some(IN_PROGRESS)
    requires !(s.gameId.Some? && s.gameId != t.previousGameId && s.playerWon.Some?)
    requires Truthy(t.championStart) && Named(TrackStateChanges(t, s, clock, mapping).0.currentChampion)
    ensures var c := TrackStateChanges(t, s, clock, mapping).0.currentChampion.value;
            var r := UpdateGameState(t, s, clock, mapping);
            var total := t.championDuration + (clock - t.championStart.value);
      && (s.playerWon == Some(true) ==> r.gameDurations == t.gameDurations[c := Records(t, c) + [DurationRecord(total)]])
      && (s.playerWon != Some(true) ==> r.gameDurations == t.gameDurations && r.pendingChampionTime == Some(total))
  {
    var u := TrackStateChanges(t, s, clock, mapping).0;
    LeaveGameCycle(t, s, clock, mapping);
    TrackWithoutTimers(t, s, clock, mapping);
    StopOutcome(u, t, clock);
  }

  /** A stop of a running session of a named champion, on a tracker with the timers of
      `t`: a win appends the session to that champion's records, anything else carries it. */
  lemma StopOutcome(u: Tracker, t: Tracker, clock: int)
    requires SameTimers(u, t) && Truthy(u.championStart) && Named(u.currentChampion)
    ensures var r := StopChampionTimer(u, clock); var c := u.currentChampion.value;
            var total := t.championDuration + (clock - t.championStart.value);
      && (u.playerWon == Some(true) ==> r.gameDurations == t.gameDurations[c := Records(t, c) + [DurationRecord(total)]])
      && (u.playerWon != Some(true) ==> r.gameDurations == t.gameDurations && r.pendingChampionTime == Some(total))
  {
  }

  /** Leaving a game in the same cycle as its result arrives: the new-id block stops the
      champion timer before the deck is looked at, so the session goes to the champion the
      tracker held. */
  lemma LeaveGameWithResult(t: Tracker, s: Snapshot, clock: int, mapping: map<string, string>)
    requires t.previousGameState == Some(IN_PROGRESS) && s.gameState != Some(IN_PROGRESS)
    requires s.gameId.Some? && s.gameId != t.previousGameId && s.playerWon.Some?
    ensures var r := UpdateGameState(t, s, clock, mapping);
      && !Truthy(r.championStart) && (clock != 0 ==> Truthy(r.menuStart))
      && r.gameDurations == StopChampionTimer(UpdateFields(t, s), clock).gameDurations
      && r.pendingChampionTime == StopChampionTimer(UpdateFields(t, s), clock).pendingChampionTime
  {
    var u := UpdateFields(t, s);
    var ch := ChangesOf(u);
    var u4 := OnNewGameId(OnStateChange(u, ch.stateChanged, clock), ch.gameIdChanged, clock);
    assert u4.gameDurations == StopChampionTimer(u, clock).gameDurations;
    assert u4.pendingChampionTime == StopChampionTimer(u, clock).pendingChampionTime;
    var res := TrackStateChanges(t, s, clock, mapping);
    assert res.0 == if ch.deckChanged then DetermineChampion(u4, mapping) else u4;
    CycleHalves(t, s, clock, mapping);
    LeaveHandled(res.0, res.1, clock);
    ResolveKeepsRecords(Handled(res.0, res.1, clock), res.1.gameIdChanged, clock);
  }

  /** Starting the champion timer twice is starting it once, unless the first start
      resumed a carried total onto a start of exactly zero, which reads as not running. */
  lemma StartChampionTwice(t: Tracker, clock: int)
    requires !(!Truthy(t.championStart) && Truthy(t.pendingChampionTime) && clock == t.pendingChampionTime.value)
    ensures StartChampionTimer(StartChampionTimer(t, clock), clock) == StartChampionTimer(t, clock)
  {
  }

  /** The timer fields of two trackers agree. */
  predicate SameTimers(a: Tracker, b: Tracker)
  {
    && a.menuStart == b.menuStart && a.menuDuration == b.menuDuration
    && a.championStart == b.championStart && a.championDuration == b.championDuration
    && a.pendingChampionTime == b.pendingChampionTime && a.gameDurations == b.gameDurations
  }

  /** start_champion_timer reads and writes only the timer fields. */
  lemma StartChampionSameTimers(a: Tracker, b: Tracker, clock: int)
    requires SameTimers(a, b)
    ensures SameTimers(StartChampionTimer(a, clock), StartChampionTimer(b, clock))
  {
  }

  /** track_state_changes on entering a game without a new result, followed by the
      champion start of handle_timers: the menu timer is stopped with its time accumulated
      and, outside the zero-start case, the timers are as after one start on the updated
      fields, whether track_state_changes already started the champion timer or not. */
  lemma EnterTracked(t: Tracker, s: Snapshot, clock: int, mapping: map<string, string>)
    requires t.previousGameState != Some(IN_PROGRESS) && s.gameState == Some(IN_PROGRESS)
    requires !(s.gameId.Some? && s.gameId != t.previousGameId && s.playerWon.Some?)
    ensures var t1 := TrackStateChanges(t, s, clock, mapping).0;
            var r := StartChampionTimer(t1, clock);
      && !Truthy(r.menuStart) && r.menuDuration == TotalMenuTime(t, clock)
      && r.gameDurations == t.gameDurations
      && (!(!Truthy(t.championStart) && Truthy(t.pendingChampionTime) && clock == t.pendingChampionTime.value) ==>
            SameTimers(r, StartChampionTimer(UpdateFields(t, s), clock)))
      && t1.deckMissingCount <= t.deckMissingCount
  {
    var u := UpdateFields(t, s);
    var ch := ChangesOf(u);
    var u2 := OnStateChange(u, ch.stateChanged, clock);
    var u4 := OnNewGameId(u2, ch.gameIdChanged, clock);
    var t1 := TrackStateChanges(t, s, clock, mapping).0;
    assert t1 == if ch.deckChanged then DetermineChampion(u4, mapping) else u4;
    assert SameTimers(t1, u2);
    StartChampionSameTimers(t1, u2, clock);
    if Named(u.currentChampion) && !(!Truthy(t.championStart) && Truthy(t.pendingChampionTime) && clock == t.pendingChampionTime.value) {
      StartChampionTwice(u, clock);
    }
  }

  /** Entering a game from the menu (or on a tracker that never saw a state): the menu
      timer stops with its time accumulated, and the champion timer runs, resuming a
      carried-over total when one is pending. A pause that meets no deck, or a watchdog
      reset, would restart the menu timer, so those are excluded. */
  lemma EnterGameCycle(t: Tracker, s: Snapshot, clock: int, mapping: map<string, string>)
    requires t.previousGameState == Some(MENUS) || t.previousGameState.None?
    requires s.gameState == Some(IN_PROGRESS)
    requires !(s.gameId.Some? && s.gameId != t.previousGameId && s.playerWon.Some?)
    requires s.deck.Some? || (!t.pause && t.deckMissingCount + 1 < WATCHDOG_LIMIT)
    ensures var r := UpdateGameState(t, s, clock, mapping);
      && !Truthy(r.menuStart) && r.menuDuration == TotalMenuTime(t, clock)
      && (Truthy(t.championStart) ==> r.championStart == t.championStart)
      && (!Truthy(t.championStart) && Truthy(t.pendingChampionTime) && clock != t.pendingChampionTime.value ==>
            r.championStart == Some(clock - t.pendingChampionTime.value) && r.pendingChampionTime.None?)
      && (!Truthy(t.championStart) && !Truthy(t.pendingChampionTime) ==> r.championStart == Some(clock))
      && r.gameDurations == t.gameDurations
  {
    var res := TrackStateChanges(t, s, clock, mapping);
    EnterTracked(t, s, clock, mapping);
    CycleHalves(t, s, clock, mapping);
    assert Handled(res.0, res.1, clock) == StartChampionTimer(res.0, clock).(previousGameState := res.0.currentState);
    ResolveKeepsTimers(Handled(res.0, res.1, clock), res.1.gameIdChanged, clock);
  }

  // ----- the watchdog -----

  /** Once the champion is gone, absent decks no longer count and the reset cannot fire
      again: the champion stays unassigned and the counter does not grow. */
  lemma WatchdogFiresOnce(t: Tracker, s: Snapshot, clock: int, mapping: map<string, string>)
    requires !Named(t.currentChampion) && s.deck.None?
    ensures var r := UpdateGameState(t, s, clock, mapping);
      !Named(r.currentChampion) && r.deckMissingCount <= t.deckMissingCount
  {
    var res := TrackStateChanges(t, s, clock, mapping);
    TrackKeepsUnassigned(t, s, clock, mapping);
    CycleHalves(t, s, clock, mapping);
    ResolveKeepsUnassigned(Handled(res.0, res.1, clock), res.1.gameIdChanged, clock);
  }

  /** Without a deck and a champion, the rest of the cycle assigns none and does not count. */
  lemma ResolveKeepsUnassigned(t: Tracker, gameIdChanged: bool, clock: int)
    requires !Named(t.currentChampion) && t.deck.None?
    ensures var r := ResolvePause(t, gameIdChanged, clock);
      !Named(r.currentChampion) && r.deckMissingCount == t.deckMissingCount
  {
  }

  /** Without a deck, track_state_changes neither assigns a champion nor counts. */
  lemma TrackKeepsUnassigned(t: Tracker, s: Snapshot, clock: int, mapping: map<string, string>)
    requires !Named(t.currentChampion) && s.deck.None?
    ensures var t1 := TrackStateChanges(t, s, clock, mapping).0;
      t1.deck.None? && !Named(t1.currentChampion) && t1.deckMissingCount <= t.deckMissingCount
  {
    var u := UpdateFields(t, s);
    var ch := ChangesOf(u);
    var u2 := OnStateChange(u, ch.stateChanged, clock);
    var u4 := OnNewGameId(u2, ch.gameIdChanged, clock);
    assert u4.currentChampion == t.currentChampion && u4.deckMissingCount <= t.deckMissingCount;
  }

  /** A quiet cycle: same state, no new id, no deck. */
  predicate Quiet(t: Tracker, s: Snapshot)
  {
    && s.deck.None? && s.gameState == t.previousGameState
    && (s.gameId.None? || s.gameId == t.previousGameId)
    && !t.waitingForDeck && !t.pause
  }

  /** Two deck-less cycles only count; the third drops the champion, discards its running
      session and starts the menu timer. A total carried over from a loss is not cleared. */
  lemma ThreeMissingCycles(t: Tracker, s: Snapshot, c1: int, c2: int, c3: int, mapping: map<string, string>)
    requires Quiet(t, s) && Named(t.currentChampion) && t.deckMissingCount == 0 && c3 != 0
    ensures var r1 := UpdateGameState(t, s, c1, mapping);
            var r2 := UpdateGameState(r1, s, c2, mapping);
            var r3 := UpdateGameState(r2, s, c3, mapping);
      && r1.deckMissingCount == 1 && r1.currentChampion == t.currentChampion
      && r1.championStart == t.championStart && r1.menuStart == t.menuStart
      && r2.deckMissingCount == 2 && r2.currentChampion == t.currentChampion
      && r2.championStart == t.championStart && r2.menuStart == t.menuStart
      && r3.currentChampion.None? && r3.previousChampion == t.currentChampion
      && !Truthy(r3.championStart) && r3.championDuration == 0 && Truthy(r3.menuStart)
      && r3.gameDurations == t.gameDurations && r3.pendingChampionTime == t.pendingChampionTime
  {
    var r1 := UpdateGameState(t, s, c1, mapping);
    assert Quiet(r1, s) && r1 == t.(deck := None, previousDeck := t.deck, currentState := s.gameState,
                                    gameId := s.gameId, playerWon := s.playerWon, deckMissingCount := 1);
    var r2 := UpdateGameState(r1, s, c2, mapping);
    assert Quiet(r2, s) && r2 == r1.(previousDeck := None, deckMissingCount := 2);
  }

  /** The reset keeps a carried-over total, so the next champion start resumes it, moving
      that start back by the carried time. */
  lemma PendingSurvivesReset(t: Tracker, clock: int, later: int)
    requires Truthy(t.pendingChampionTime) && later != t.pendingChampionTime.value
    ensures var r := DropChampion(t, clock);
      && r.pendingChampionTime == t.pendingChampionTime
      && StartChampionTimer(r, later).championStart == Some(later - t.pendingChampionTime.value)
  {
  }

  /** A deck that returns showing the same champion leaves the counter where it was: the
      count is of deck-less cycles since the champion was assigned, not of consecutive ones. */
  lemma CountSurvivesReturningDeck(t: Tracker, s: Snapshot, d: Deck, clock: int, mapping: map<string, string>)
    requires Named(t.currentChampion) && FirstMatch(d, mapping) == t.currentChampion
    requires s.deck == Some(d) && s.gameState == t.previousGameState
    requires (s.gameId.None? || s.gameId == t.previousGameId) && !t.waitingForDeck && !t.pause
    ensures var r := UpdateGameState(t, s, clock, mapping);
      r.deckMissingCount == t.deckMissingCount && r.currentChampion == t.currentChampion
  {
    var u := UpdateFields(t, s);
    var ch := ChangesOf(u);
    assert OnNewGameId(OnStateChange(u, ch.stateChanged, clock), ch.gameIdChanged, clock) == u;
  }

  // ----- runs of cycles -----

  /** One poll cycle's input: the snapshot and the clock reading. */
  datatype Cycle = Cycle(snapshot: Snapshot, clock: int)

  /** The tracker after a run of poll cycles. */
  function Run(t: Tracker, cycles: seq<Cycle>, mapping: map<string, string>): Tracker
    decreases |cycles|
  {
    if cycles == [] then t
    else Run(UpdateGameState(t, cycles[0].snapshot, cycles[0].clock, mapping), cycles[1..], mapping)
  }

  /** From any tracker with at most one timer running, every run keeps it so. */
  lemma {:induction false} RunKeepsExclusive(t: Tracker, cycles: seq<Cycle>, mapping: map<string, string>)
    requires Exclusive(t)
    ensures Exclusive(Run(t, cycles, mapping))
    decreases |cycles|
  {
    if cycles != [] {
      RunKeepsExclusive(UpdateGameState(t, cycles[0].snapshot, cycles[0].clock, mapping), cycles[1..], mapping);
    }
  }

  /** Over any run of deck-less cycles from a tracker without a champion, the watchdog
      never fires again: no champion is assigned and the counter does not grow. */
  lemma {:induction false} WatchdogNeverRefires(t: Tracker, cycles: seq<Cycle>, mapping: map<string, string>)
    requires !Named(t.currentChampion)
    requires forall i :: 0 <= i < |cycles| ==> cycles[i].snapshot.deck.None?
    ensures var r := Run(t, cycles, mapping);
      !Named(r.currentChampion) && r.deckMissingCount <= t.deckMissingCount
    decreases |cycles|
  {
    if cycles != [] {
      WatchdogFiresOnce(t, cycles[0].snapshot, cycles[0].clock, mapping);
      WatchdogNeverRefires(UpdateGameState(t, cycles[0].snapshot, cycles[0].clock, mapping), cycles[1..], mapping);
    }
  }

  /** From construction on, at most one of the two timers runs, whatever the client
      reports and whenever it is polled. */
  lemma AlwaysExclusive(cycles: seq<Cycle>, mapping: map<string, string>)
    ensures Exclusive(Run(Initial(), cycles, mapping))
  {
    RunKeepsExclusive(Initial(), cycles, mapping);
  }
}
