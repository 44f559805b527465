# runeterra_timers in Dafny

A model of the session tracker of *runeterra_timers*, a desktop helper for Legends of
Runeterra. It polls the game client's local API and works out which champion deck is
being played. It also times the champion's sessions and the time spent in the menus, and
it keeps a record for each won game.

The project is made of these modules:

- `Tracking` (tracking.dfy) holds the `LoRTimers` state machine of LoR_Timers.py as pure
  transitions over a `Tracker` value: the two timers, the carry-over after a loss,
  champion resolution, the post-game wait and pause, and the deck-missing watchdog.
  Each poll cycle (`UpdateGameState`) is one step over a `Snapshot` of what the client
  reports, at an explicit integer clock.
- `Timers` (timers.dfy) holds the class `LoRTimers`. Its fields are updated in place.
  Each method ensures that the object's `State()` is where the matching `Tracking`
  transition takes the old state. Helper methods that write two or three fields
  each state their exact update.
- `TrackingProperties` (tracking_props.dfy) proves what the tracker guarantees about
  those transitions, up to "at most one of the two timers runs" over every run of cycles.
  `Scenarios` (scenarios.dfy) walks two whole games cycle by cycle.
- `Api` (api.dfy) covers api_caller.py. It holds the three documents the client serves,
  with every key either missing, `null` or present. It also holds the accessors
  the tracker reads through, and the client object's fetch methods, whose HTTP reply
  is given as a value.
- `DeckTracker` (deck_tracker.dfy) covers the older tracker of main.py: deck-template
  matching, deck similarity, one pass of the poll loop over already fetched documents,
  and editing the record store.
- `CardIndex` (card_index.dfy) covers the card index of Utils/indexCards.py, built
  from already parsed card lists, and its lookups.
- `Dicts` (dicts.dfy) models a Python `dict` as an insertion-ordered sequence of pairs.
  `Wrappers` (wrappers.dfy) holds `Option`.

Python truthiness is modelled exactly where the code tests it:
- a start time or a carried time of `None` or `0` is "not running";
- a champion of `None` or `""` is "no champion".

"Exclusive" means that at most one of the two timers is running in this sense. A start
of `0` may sit in a field while the other timer runs.

Where the design notes and the code differ, the model follows the code:
- The deck-missing counter restarts only when a new champion is assigned or a new game
  id arms the wait for a deck. A deck that returns with the same champion leaves it
  where it was, so the three cycles need not be consecutive (`CountSurvivesReturningDeck`).
- The watchdog's reset clears the running session and the champion total but not a
  total carried over from a loss. The next champion start resumes that total
  (`PendingSurvivesReset`).

One poll cycle reads one clock value for all its timer operations.

## Model

| member | source | states |
|---|---|---|
| Tracking.Initial | LoR_Timers.py:15-49 | A new tracker runs no timer and holds no records. |
| Timers.LoRTimers.constructor | LoR_Timers.py:15-49 | The new object's state is `Initial()` and its champion mapping is the one given. |
| Timers.LoRTimers.CurrentChampionTime | LoR_Timers.py:52-56 | Elapsed time of the running champion session, else the stored total; agrees with `Tracking.CurrentChampionTime` on the object's state. |
| Timers.LoRTimers.TotalMenuTime | LoR_Timers.py:59-63 | Menu total plus the running menu session, if any; agrees with `Tracking.TotalMenuTime`. |
| Tracking.CurrentChampionTime | LoR_Timers.py:52-56 | With a running champion session, the time since its start; otherwise the stored total. |
| Tracking.TotalMenuTime | LoR_Timers.py:59-63 | With a running menu session, the menu total plus the time since its start; otherwise the menu total. |
| Tracking.StopMenuTimer | LoR_Timers.py:219-224 | Afterwards the menu timer is stopped and `menuDuration` equals `TotalMenuTime` at `end`. A stopped timer changes nothing. Only timer fields change, and exclusivity is kept. |
| Timers.LoRTimers.StopMenuTimer | LoR_Timers.py:219-224 | The object's new state is `Tracking.StopMenuTimer` of its old state. |
| Tracking.StopChampionTimer | LoR_Timers.py:186-206 | Afterwards the champion timer is stopped. A stopped timer changes nothing. Menu fields are untouched, only timer fields change, and exclusivity is kept. |
| Timers.LoRTimers.StopChampionTimer | LoR_Timers.py:186-206 | The object's new state is `Tracking.StopChampionTimer` of its old state. |
| Timers.LoRTimers.EndSession | LoR_Timers.py:189-191 | The session length joins `championDuration` and the start time is cleared; nothing else changes. |
| Timers.LoRTimers.RecordTotal | LoR_Timers.py:198-200 | The accumulated total is appended to the champion's list (created if missing) and reset to 0; nothing else changes. |
| Tracking.StartChampionTimer | LoR_Timers.py:168-183 | The menu timer is stopped and its session added to the menu total. A running champion start is kept. Otherwise the start is `clock`, moved back by a truthy pending time, which is then cleared. Exclusivity holds. |
| Timers.LoRTimers.StartChampionTimer | LoR_Timers.py:168-183 | The object's new state is `Tracking.StartChampionTimer` of its old state. |
| Tracking.StartMenuTimer | LoR_Timers.py:208-217 | The champion timer is stopped. A running menu start is kept, otherwise the start is `clock`. Exclusivity holds. With no champion session running, only the menu start changes; with one running, the result is the champion stop followed by the menu start. |
| Timers.LoRTimers.StartMenuTimer | LoR_Timers.py:208-217 | The object's new state is `Tracking.StartMenuTimer` of its old state. |
| Tracking.FirstMatchIndex | LoR_Timers.py:84-85 | The position of the first card code, in deck order, that the mapping knows; `None` exactly when the mapping knows none. |
| Tracking.FirstMatch | LoR_Timers.py:84-96 | `None` exactly when no card code is known; otherwise the champion mapped from the first known code. |
| Tracking.DetermineChampion | LoR_Timers.py:79-98 | These cases change nothing: a `None` deck, no match, or a match equal to the current champion. A new champion becomes current, the old one becomes previous, and the counter is 0. Only those fields change. |
| Timers.LoRTimers.DetermineChampionFromDeck | LoR_Timers.py:79-98 | The early-exit scan over the deck leaves the object at `Tracking.DetermineChampion` of its old state. |
| Timers.LoRTimers.AdoptChampion | LoR_Timers.py:92-95 | The found champion becomes current, the old one previous, and the counter is 0; nothing else changes. |
| Timers.LoRTimers.UpdateFields | LoR_Timers.py:100-108 | The object's new state is `Tracking.UpdateFields` of its old state: the snapshot's values land, and the old deck becomes the previous one. |
| Timers.LoRTimers.ReadResult | LoR_Timers.py:102-103 | Only the result and the game id change, to the snapshot's. |
| Timers.LoRTimers.ReadDeckAndState | LoR_Timers.py:105-108 | The old deck becomes the previous deck. The snapshot's deck and state are stored, and nothing else changes. |
| Tracking.SnapshotOf | LoR_Timers.py:100-108 | What a cycle reads through the client. The deck is `None` exactly when `CardsInDeck` is `null`. The id and the result are `None` exactly when their keys are missing or `null`. |
| Tracking.UpdateFields | LoR_Timers.py:100-108 | The snapshot's deck, state, id and result land, the old deck becomes the previous one, and no other field changes. |
| Tracking.ChangesOf | LoR_Timers.py:115-117 | The state flag means a different state, the id flag a non-None id other than the previous one, and the deck flag a deck unequal to the previous one. |
| Tracking.TrackStateChanges | LoR_Timers.py:110-142 | The flags are those of the updated fields. The snapshot's deck, id, result and state are stored. Pause, previous id and previous state are untouched, and exclusivity is kept. |
| Timers.LoRTimers.TrackStateChanges | LoR_Timers.py:110-142 | The object's new state and the three returned flags are those of `Tracking.TrackStateChanges`. |
| Tracking.OnStateChange | LoR_Timers.py:120-125 | On a change into a game with a named champion, the champion timer starts (`StartChampionTimer`). Otherwise nothing changes. Only timer fields change, and exclusivity is kept. |
| Timers.LoRTimers.OnStateChange | LoR_Timers.py:120-125 | The object's new state is `Tracking.OnStateChange` of its old state. |
| Tracking.OnNewGameId | LoR_Timers.py:128-135 | Without a new id nothing changes. With one, a prior id arms the wait with a zero counter, and a non-None result leaves the champion timer stopped and the menu timer running. Only timers, wait and counter change. |
| Timers.LoRTimers.OnNewGameId | LoR_Timers.py:128-135 | The object's new state is `Tracking.OnNewGameId` of its old state. |
| Tracking.HandleTimers | LoR_Timers.py:144-166 | A change out of a game starts the menu timer (`StartMenuTimer`). A change into a game from the menus or from no state starts the champion timer (`StartChampionTimer`). Any other change, and no change, leaves the tracker alone. Only timer fields change, and exclusivity is kept. |
| Timers.LoRTimers.HandleTimers | LoR_Timers.py:144-166 | The object's new state is `Tracking.HandleTimers` of its old state. |
| Tracking.Watchdog | LoR_Timers.py:273-287 | Without "no deck and a champion" nothing changes. Below the limit of 3 the counter just grows. At the limit the tracker is the counted one after `DropChampion`. |
| Timers.LoRTimers.Watchdog | LoR_Timers.py:273-287 | The object's new state is `Tracking.Watchdog` of its old state. |
| Tracking.DropChampion | LoR_Timers.py:280-286 | The champion becomes previous and none is current. Wait, pause, champion start and total are cleared. The menu start is kept or set to `clock`, and every other field, including the records, the counter and the carried time, is unchanged. |
| Timers.LoRTimers.DropChampion | LoR_Timers.py:280-286 | The object's new state is `Tracking.DropChampion` of its old state. |
| Timers.LoRTimers.ForgetChampion | LoR_Timers.py:280-281 | The champion becomes the previous one and none is current; nothing else changes. |
| Timers.LoRTimers.EndWait | LoR_Timers.py:282-283 | The wait and the pause are off; nothing else changes. |
| Tracking.ResolvePause | LoR_Timers.py:245-287 | The post-game part of a cycle keeps the timers exclusive. |
| Timers.LoRTimers.ResolvePause | LoR_Timers.py:245-287 | The object's new state is `Tracking.ResolvePause` of its old state. |
| Timers.LoRTimers.TakeGameId | LoR_Timers.py:262-264 | The champion, result and id become the previous ones; nothing else changes. |
| Tracking.UpdateGameState | LoR_Timers.py:226-287 | A poll cycle keeps the two timers exclusive. |
| Timers.LoRTimers.UpdateGameState | LoR_Timers.py:226-287 | The object's new state is `Tracking.UpdateGameState` of its old state, snapshot and clock. |
| TrackingProperties.WinningStop | LoR_Timers.py:189-200 | A winning stop appends exactly one record (total plus session) at the end of that champion's list and resets the total. Every other champion's list is unchanged. |
| TrackingProperties.LosingStop | LoR_Timers.py:186-206 | A stop that is not a named win records nothing. It keeps the total, and for a named champion it also sets the pending time to that total. |
| TrackingProperties.StopIdleTimers | LoR_Timers.py:186-224 | Stopping timers that do not run changes nothing. |
| TrackingProperties.StopChampionDisplay | LoR_Timers.py:52-56 | After a non-winning stop, the displayed champion time is the old total plus what the display showed before the stop. |
| TrackingProperties.OneLoss | LoR_Timers.py:180-204 | A lost session of `len` seconds, carrying `acc`, ends carrying `2*acc + len`, with no record. |
| TrackingProperties.LossStreak | LoR_Timers.py:180-204 | A run of losses records nothing and carries `CarriedAfter(acc, lengths)`, which doubles the carry at each loss. |
| TrackingProperties.WinAfterCarry | LoR_Timers.py:180-200 | A win carrying `acc` appends exactly `2*acc + len` to the champion's list and nothing to the others. |
| TrackingProperties.LossThenWin | LoR_Timers.py:180-204 | A loss of `d1` followed by a win after `d2` records `2*d1 + d2`. |
| TrackingProperties.RestartKeepsStart | LoR_Timers.py:168-217 | Starting a timer that already runs keeps its start time. |
| TrackingProperties.FirstMatchAppend | LoR_Timers.py:84-96 | First match wins: a later part of the deck decides only when the earlier part has no known code. |
| TrackingProperties.FirstOfTwo | LoR_Timers.py:84-96 | Of two known cards, the first one's champion is chosen. |
| TrackingProperties.ChangeFlags | LoR_Timers.py:115-117 | The state flag means a different state. The id flag means a non-None id different from the previous one. The deck flag means a deck unequal, as a dictionary, to the stored one. |
| TrackingProperties.NewGameIdTracked | LoR_Timers.py:128-135 | On a new id, a prior id arms the wait with a zero counter. A result outside a game leaves only the menu timer running. |
| TrackingProperties.TakeNewGameId | LoR_Timers.py:245-265 | Without a pause, or with one that meets a deck and ends, a new id is taken as previous together with the champion and the result. |
| TrackingProperties.NewGameIdCycle | LoR_Timers.py:226-265 | Unless a pause meets no deck, a whole cycle on a new id takes it as previous and ends before the watchdog. After a prior id the wait is armed with a zero counter, and the menu timer runs after a result outside a game. |
| TrackingProperties.CycleHalves | LoR_Timers.py:226-243 | A cycle is track_state_changes, the handling of a state change taken as the previous state, then the pause and watchdog half. |
| TrackingProperties.HandledFrame | LoR_Timers.py:234-240 | Handling a state change alters only the timers and the previous state; outside a game it starts no champion session and stops no menu session. |
| TrackingProperties.HandleTimersOutsideGame | LoR_Timers.py:144-166 | Outside a game, handle_timers starts no champion session and stops no running menu session. |
| TrackingProperties.WaitingThenPause | LoR_Timers.py:267-271 | The next cycle without deck or new id turns the wait into the pause, leaving champion and counter alone. |
| TrackingProperties.PausedWithoutDeck | LoR_Timers.py:245-249 | While paused without a deck, a cycle keeps the pause, runs no champion session and keeps the previous id. |
| TrackingProperties.ResolveKeepsRecords | LoR_Timers.py:245-287 | With the champion timer stopped, the rest of a cycle keeps it stopped, keeps the records and the carried time, and keeps a running menu timer running. |
| TrackingProperties.ResolveKeepsTimers | LoR_Timers.py:245-287 | With a deck, or unpaused below the watchdog limit, the rest of a cycle leaves both timers, the menu total and the carried time alone. |
| TrackingProperties.TrackWithoutTimers | LoR_Timers.py:110-142 | Outside a game and without a new result, track_state_changes changes no timer field; only the champion, the counter and the wait may move. |
| TrackingProperties.LeaveHandled | LoR_Timers.py:146-148 | Leaving a game, handle_timers stops the champion timer as `StopChampionTimer` does and leaves the menu timer running. |
| TrackingProperties.LeaveGameCycle | LoR_Timers.py:226-287 | A whole cycle leaving a game without a new result stops the champion timer for the champion the deck now shows. Its records and carried time are those of that stop, and the menu timer runs. |
| TrackingProperties.StopOutcome | LoR_Timers.py:186-204 | A stop of a running named session records `total + session` for a win and carries it otherwise, keeping the records. |
| TrackingProperties.LeaveGameOutcome | LoR_Timers.py:186-204 | Leaving a game with a running named session appends the whole session to that champion's records on a win. On anything else it records nothing and carries the session as pending time. |
| TrackingProperties.LeaveGameWithResult | LoR_Timers.py:128-133 | Leaving a game in the cycle its result arrives stops the champion timer before the deck is read, so the stop uses the champion the tracker held. The menu timer runs. |
| TrackingProperties.StartChampionTwice | LoR_Timers.py:168-183 | Starting the champion timer twice is starting it once, except when a resumed total lands on a start of exactly 0. |
| TrackingProperties.StartChampionSameTimers | LoR_Timers.py:168-183 | start_champion_timer reads and writes only the timer fields. |
| TrackingProperties.EnterTracked | LoR_Timers.py:120-125 | Entering a game, the start in track_state_changes and the one in handle_timers together stop the menu timer with its time added. Outside the zero-start case, they start the champion timer as one start would. |
| TrackingProperties.EnterGameCycle | LoR_Timers.py:150-166 | A whole cycle entering a game from the menus stops the menu timer with its time added. The champion timer keeps a running start, resumes a carried total, or starts at `clock`. Records are untouched. |
| TrackingProperties.TrackKeepsUnassigned | LoR_Timers.py:110-142 | Without a deck, track_state_changes assigns no champion and does not count up. |
| TrackingProperties.ResolveKeepsUnassigned | LoR_Timers.py:245-287 | Without a deck and a champion, the rest of the cycle assigns none and keeps the counter. |
| TrackingProperties.WatchdogFiresOnce | LoR_Timers.py:273-287 | Once the champion is gone, deck-less cycles never assign one and never raise the counter, so the reset cannot fire again. |
| TrackingProperties.ThreeMissingCycles | LoR_Timers.py:273-287 | Two quiet deck-less cycles only count to 1 and 2. The third drops the champion, discards its session unrecorded, and starts the menu timer. The records and a carried-over total are kept. |
| TrackingProperties.PendingSurvivesReset | LoR_Timers.py:280-286 | The reset keeps a carried total, and the next champion start resumes it. |
| TrackingProperties.CountSurvivesReturningDeck | LoR_Timers.py:87-89 | A deck returning with the same champion leaves the deck-missing counter unchanged. |
| TrackingProperties.WatchdogNeverRefires | LoR_Timers.py:273-287 | Over any run of deck-less cycles from a tracker without a champion, none is assigned and the counter never grows. |
| TrackingProperties.RunKeepsExclusive | LoR_Timers.py:168-217 | From an exclusive state, every run of cycles keeps at most one timer running. |
| TrackingProperties.AlwaysExclusive | LoR_Timers.py:226-287 | From construction on, at most one of the two timers ever runs. |
| Scenarios.OpeningState | LoR_Timers.py:226-287 | Menus, then a deck, then a game: the champion is resolved and its timer runs from the entry, with the menu timer never started. |
| Scenarios.WonGame | LoR_Timers.py:186-200 | Leaving that game with a won result records exactly one session of the game's length. |
| Scenarios.LostGameStep | LoR_Timers.py:201-204 | Leaving it with a lost result records nothing and carries the session as pending time. |
| Scenarios.ReenterStep | LoR_Timers.py:180-183 | Re-entering a game moves the champion start back by the carried time. |
| Scenarios.WinStep | LoR_Timers.py:194-200 | Winning that game records the doubled carry plus the new session and arms the wait. |
| Scenarios.LostThenWonGame | LoR_Timers.py:180-204 | Over six cycles, a loss of `c4-c3` and a win of `c6-c5` record `2*(c4-c3) + (c6-c5)`. |
| Api.Read | LoR_Timers.py:102-103 | `obj.get(k)` is `Some` exactly when the key holds a non-null value. |
| Api.ReadOr | api_caller.py:87 | `obj.get(k, default)` gives the default only for a missing key and `None` only for `null`. |
| Api.GetGameState | api_caller.py:85-87 | "Unknown" for a missing `GameState`, the value when present, and `None` exactly for `null`. |
| Api.GetDeck | api_caller.py:93-95 | The empty deck for a missing `CardsInDeck`, the value when present, and `None` exactly for `null`. |
| Api.GetGameResult | api_caller.py:97-99 | An empty result reads as both keys `null`; any other result is returned as is. |
| Api.LocalOnly | api_caller.py:103 | Keeps exactly the rectangles whose `LocalPlayer` is true, and never adds one. |
| Api.LocalOnlyAppend | api_caller.py:103 | The filter distributes over concatenation, so the kept rectangles keep their order. |
| Api.LocalOnlyIdempotent | api_caller.py:103 | Filtering twice is filtering once. |
| Api.GetCardPositions | api_caller.py:101-103 | The local player's rectangles. A missing key is the empty list; `null` is the error case. |
| Api.ApiCaller.constructor | api_caller.py:4-22 | Empty documents, not in a game, no start time, no state, no deck loaded. |
| Api.ApiCaller.FetchGameData | api_caller.py:24-41 | On 200 the document is stored, the previous state is its state, and `inGame` is set exactly for "InProgress". On any other status these are untouched. The other fields are always untouched. |
| Api.ApiCaller.FetchDeckData | api_caller.py:43-61 | On 200 the document is stored, and `deckLoaded` is set exactly when `CardsInDeck` is non-null. On any other status both are untouched. The other fields are always untouched. |
| Api.ApiCaller.FetchGameResult | api_caller.py:63-73 | On 200 the result is stored; otherwise nothing changes. |
| Api.ApiCaller.UpdateAllData | api_caller.py:75-82 | The three fetches in order: each document is replaced only on its own 200 reply, with the flags and the previous state as above. The start time is untouched. |
| DeckTracker.FirstCovered | main.py:37-38 | The position of the first template, in mapping order, that the deck covers; `None` exactly when none does. |
| DeckTracker.FindChampion | main.py:36-40 | "Unknown Champion" when no template is covered, else the first covered template's champion. A missing card counts as 0. |
| DeckTracker.DecksAreSimilar | main.py:42-49 | False whenever either deck is empty. When true, the key difference alone is under a fifth of the first deck's size. |
| DeckTracker.NoChanges | main.py:45-46 | A deck whose cards the other holds with the same counts has no count changes. |
| DeckTracker.SimilarToItself | main.py:42-49 | A non-empty deck is similar to itself. |
| DeckTracker.OneNewCard | main.py:42-49 | With one card added to a deck of `n` cards, big-vs-small is similar iff `5 < n+1`, and small-vs-big iff `5 < n`. So the test is not symmetric. |
| DeckTracker.NewRecord | main.py:90-95 | The saved record has exactly the keys duration, game_id and DrewChampionTurnOne, with the given duration and id. |
| DeckTracker.FindGame | main.py:123-124 | Gives the first record whose game id equals the given one. All earlier records have a different id. A record without the key, reached first, is the KeyError case. |
| DeckTracker.UpdateMisc | main.py:121-129 | The champions stay the same. The field is set exactly when the search finds the game, and the KeyError case is exactly a record without an id reached first. Every other outcome changes nothing. |
| DeckTracker.UpdateMiscChangesOneRecord | main.py:121-129 | Only the first matching record of that champion gets the field, and every other record is unchanged. An unknown champion or id changes nothing. |
| DeckTracker.DeckStep | main.py:63-70 | Only the champion and the previous deck change. A present deck becomes the previous deck with the kept or looked-up champion. A missing or `null` deck changes nothing. |
| DeckTracker.GameEnded | main.py:85-102 | Only the record store changes, and only by appending. Other champions' lists are untouched. The current champion gains exactly one record for a valid, won result with a known start and id, and none otherwise. |
| DeckTracker.Poll | main.py:63-102 | The three documents are stored. `inGame` holds exactly when rectangles are present. Start time and champion change only on entering a game, and no champion loses its records key. |
| DeckTracker.PollDeckHandling | main.py:63-70 | A present deck becomes the previous deck. The champion is kept when the deck is similar, and looked up otherwise. A missing or `null` deck changes nothing. |
| DeckTracker.PollGameStart | main.py:73-79 | Rectangles while not in a game start it at `now` with the champion just determined. During a game, the start and the champion stay. |
| DeckTracker.PollGameEnd | main.py:80-102 | Leaving a game appends one record to the current champion's list exactly for a valid, won result with a known start and id. Otherwise nothing is recorded. |
| DeckTracker.PollAppendOnly | main.py:63-102 | A poll only appends: every old record list is a prefix of the new one. |
| DeckTracker.ApiCaller.constructor | main.py:9-34 | Unknown champions, not in a game, an empty previous deck, and the given templates and saved records. |
| DeckTracker.ApiCaller.PollStep | main.py:63-102 | The object's new poll state is `Poll` of its old one, and the templates are untouched. |
| DeckTracker.ApiCaller.HandleDeck | main.py:63-70 | The object's new poll state is `DeckStep` of its old one. |
| DeckTracker.ApiCaller.EndGame | main.py:85-102 | The object's new poll state is `GameEnded` of its old one. |
| DeckTracker.ApiCaller.UpdateMiscField | main.py:121-129 | The in-order search loop leaves the record store and outcome of `UpdateMisc`, and nothing else changes. |
| DeckTracker.ApiCaller.AddChampionDeck | main.py:131-132 | The templates become `Put(templates, name, deck)`, and the poll state is untouched. |
| DeckTracker.AddChampionDeckEffect | main.py:131-132 | The champion's template is the new one. All others are unchanged, and an existing champion keeps its place in the lookup order. |
| Dicts.Put | Utils/indexCards.py:75 | `d[k] = v`: `k` maps to `v` and other keys keep their values. An existing key keeps its place, and a new key goes last. Keys stay distinct. |
| Dicts.AsMap | LoR_Timers.py:117 | The key/value map of a dictionary: the same keys, each with its stored value. |
| CardIndex.AddCard | Utils/indexCards.py:73-78 | A card without a truthy code and name changes nothing. A loadable card is put under its code and its code is appended to its name's list. |
| CardIndex.Load | Utils/indexCards.py:69-78 | Loading only adds: no code is lost, and every name keeps its old codes as a prefix. A list without loadable cards changes nothing. |
| CardIndex.LoadConcat | Utils/indexCards.py:63-78 | Loading file after file is loading the concatenation, and the counts add up. |
| CardIndex.LastWithCode | Utils/indexCards.py:75 | A found card is loadable, has that code, and was loaded. |
| CardIndex.LoadedCard | Utils/indexCards.py:75 | A code's entry is the last loaded card with that code, or the old entry when none was loaded. |
| CardIndex.LoadedNames | Utils/indexCards.py:77 | A name's list is its old codes followed by every code loaded under it, in load order with repeats. The name is a key exactly when it was one before or got a code. |
| CardIndex.LoadedCodes | Utils/indexCards.py:75 | The code list grows by each newly seen code at its first load, and codes stay distinct. |
| CardIndex.LoadKeepsConsistent | Utils/indexCards.py:69-78 | Loading keeps every entry a loadable card filed under its own code, and every listed code resolves. |
| CardIndex.NameByCode | Utils/indexCards.py:24-26 | An unknown code gives "No card found with this code.". Any other answer is the name of the card filed under the code. |
| CardIndex.CodesByName | Utils/indexCards.py:28-30 | A known name gives its code list; an unknown one gives the message naming it. |
| CardIndex.AllCodes | Utils/indexCards.py:42-44 | One entry per stored card, and exactly the stored codes. |
| CardIndex.NameAfterLoad | Utils/indexCards.py:24-26 | After loading, a code gives the name of the last card with it, or "No card found with this code.". |
| CardIndex.CodesAfterLoad | Utils/indexCards.py:28-30 | After loading, a name gives all its codes in load order, or the message naming it when it has none. |
| CardIndex.AllCodesAfterLoad | Utils/indexCards.py:42-44 | After loading, the code list holds each loaded code once, in first-insertion order. |
| CardIndex.ListedCodesResolve | Utils/indexCards.py:24-30 | Every code listed under a name resolves to a card's name, not to the message. |
| CardIndex.LocalIndexCards.constructor | Utils/indexCards.py:13-17 | The folder is kept and both indexes are empty. |
| CardIndex.LocalIndexCards.LoadCardSets | Utils/indexCards.py:49-85 | A missing folder or a folder without JSON files is the exit case, with nothing loaded. Otherwise the indexes are `Load` of all files in order, and the total is the number of loadable cards. |
| CardIndex.LocalIndexCards.LoadFile | Utils/indexCards.py:69-78 | The loop over one file's cards leaves `Load` of them, and counts the loadable ones. |

## Left out

- HTTP and networking: `requests.get`, `urllib.request.urlopen`, timeouts and the retry sleeps are not modelled. Each reply is a value. A request that raises is treated like a reply whose status is not 200.
- `DeckTracker.ApiCaller.PollStep`: the three fetches of main.py's loop are treated as having all succeeded. An exception part-way through a pass, which skips the rest of the pass, is not modelled. The same holds for the parse failures caught at main.py:105-113.
- Threads, `stop_event` and the early return on it (LoR_Timers.py:228-229), `run_game_loop`, `stop`, and the module-level thread start of main.py are concurrency plumbing and are not modelled.
- The Tkinter display (game_durations_display.py), main_app.py and the GUI wiring at the end of LoR_Timers.py are not part of this model.
- File and JSON I/O is not modelled:
  - `load_champion_mapping` is replaced by the mapping given to the constructor. A missing or invalid file means the empty map.
  - The saved records and the deck templates of main.py are given to its constructor.
  - `save_game_durations` and the JSON write of `add_champion_deck` are left out.
  - The folder listing of `load_card_sets` is given as `folderExists` and the parsed files. `sys.exit` is the `MissingFolder`/`NoJsonFiles` outcome.
  - The exit on a file that fails to parse is not modelled.
- `fullInfo`, `get_opponent_name` and the simple getters of main.py only print or return a field, so they are left out. So are all `print` calls.
- Clocks: `time.time()` and `datetime.now()` become integer clock arguments. One value is used per poll cycle, so every timer operation of a cycle sees the same time.
- The `timestamp` field of main.py's records is omitted, since it is a wall-clock string.
- Durations are integers, not floats.
- `stop_menu_timer`'s default argument, evaluated once at definition time, is never used. `end` is always passed.
- The refresh-display callback of `update_all_data` and the `game_durations` handed to api_caller.py's constructor are not used by any modelled operation.
- `DeckTracker.DecksAreSimilar`: the test `total < len(deck1) * 0.2` is read as `5 * total < len(deck1)` over integers.
- `DeckTracker.DecksAreSimilar`: the count differences are summed over the first deck's entries that the second deck also holds. For a parsed deck, whose keys are distinct, this is the sum over the common cards.
- `DeckTracker.ApiCaller.UpdateMiscField`: `game_id` is compared as an integer. A stored boolean compares as 0 or 1, and any other stored value never matches.
- `CardIndex.NameByCode`: a card whose `name` key exists but holds `null` is not distinguished from one without the key. Loaded cards always have a non-empty name.
- `Tracking.ResolvePause` and `Tracking.UpdateGameState`: their own contracts state only that the timers stay exclusive. The lemmas of `TrackingProperties` and `Scenarios` state what a cycle does: leaving a game (`LeaveGameCycle`, `LeaveGameOutcome`, `LeaveGameWithResult`), entering one (`EnterGameCycle`), a new id (`NewGameIdCycle`), the wait and the pause (`WaitingThenPause`, `PausedWithoutDeck`) and the watchdog (`ThreeMissingCycles`).
- `TrackingProperties.EnterGameCycle`: it assumes a deck, or no pause and a counter below the limit, since otherwise the cycle ends by starting the menu timer again. It also assumes no new result in the same cycle, which would stop the champion timer. For a carried total it also excludes a resumed start of exactly 0.
- `TrackingProperties.LossThenWin`: the carry-over after a loss is modelled as the code computes it. The accumulated total is kept and also restored through the start-time offset, so a loss of `d1` followed by a win after `d2` records `2*d1 + d2`.
