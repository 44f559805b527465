/**
 * The older tracker of main.py: it names the champion by matching the deck against
 * known deck templates, keeps the champion while the deck stays similar, and on leaving
 * a won game appends a record to that champion's list. The three HTTP fetches of a poll
 * are replaced by the parsed documents; the JSON file writes are not modelled.
 */
module DeckTracker {
  import opened Wrappers
  import opened Dicts
  import Api

  const UNKNOWN_CHAMPION := "Unknown Champion"

  type Deck = Api.Deck

  /** Deck templates by champion name, in the order of the mapping file. */
  type Templates = Dict<Deck>

  /** A JSON scalar stored in a game record. */
  datatype Value = Null | Bool(b: bool) | Int(i: int) | Str(s: string)

  /** One game record: a JSON object from field name to value. */
  type GameRecord = map<string, Value>

  // ----- champion identification -----

  /** Every card count the template asks for is met by the deck (a missing card counts 0). */
  predicate Covers(deck: Deck, template: Deck)
  {
    forall i :: 0 <= i < |template| ==> Get(deck, template[i].0).GetOr(0) >= template[i].1
  }

  /** The position of the first template, in mapping order, that the deck covers. */
  function FirstCovered(templates: Templates, deck: Deck): (r: Option<nat>)
    ensures r.None? <==> forall i :: 0 <= i < |templates| ==> !Covers(deck, templates[i].1)
    ensures r.Some? ==> r.value < |templates| && Covers(deck, templates[r.value].1)
    ensures r.Some? ==> forall j :: 0 <= j < r.value ==> !Covers(deck, templates[j].1)
  {
    if templates == [] then None
    else if Covers(deck, templates[0].1) then Some(0)
    else match FirstCovered(templates[1..], deck)
      case None => None
      case Some(i) => Some(i + 1)
  }

  /** find_champion: the first champion whose template the deck covers, or "Unknown Champion". */
  function FindChampion(templates: Templates, deck: Deck): (r: string)
    ensures (forall i :: 0 <= i < |templates| ==> !Covers(deck, templates[i].1)) ==> r == UNKNOWN_CHAMPION
    ensures forall i :: (0 <= i < |templates| && Covers(deck, templates[i].1)
                         && forall j :: 0 <= j < i ==> !Covers(deck, templates[j].1)) ==> r == templates[i].0
  {
    match FirstCovered(templates, deck)
    case None => UNKNOWN_CHAMPION
    case Some(i) =>
      assert forall k :: (0 <= k < |templates| && Covers(deck, templates[k].1)
                          && forall j :: 0 <= j < k ==> !Covers(deck, templates[j].1)) ==> k == i;
      templates[i].0
  }

  function Abs(x: int): nat
  {
    if x < 0 then -x else x
  }

  /** The summed count differences over the cards both decks hold (each card of `d1` is
      visited once when its keys are distinct, as in every parsed deck). */
  function CountChanges(d1: Deck, d2: Deck): nat
  {
    if d1 == [] then 0
    else
      (match Get(d2, d1[0].0)
       case Some(n) => Abs(d1[0].1 - n)
       case None => 0)
      + CountChanges(d1[1..], d2)
  }

  /** The number of cards in exactly one of the two decks. */
  function NewCards(d1: Deck, d2: Deck): nat
  {
    |KeySet(d1) - KeySet(d2)| + |KeySet(d2) - KeySet(d1)|
  }

  /** decks_are_similar: false when either deck is empty; otherwise the changes are under
      a fifth of the first deck's size (`total < len(deck1) * 0.2`, read as `5 * total < len`). */
  function DecksAreSimilar(d1: Deck, d2: Deck): (r: bool)
    ensures d1 == [] || d2 == [] ==> !r
    ensures r ==> NewCards(d1, d2) * 5 < |KeySet(d1)|
  {
    if d1 == [] || d2 == [] then false
    else 5 * (CountChanges(d1, d2) + NewCards(d1, d2)) < |KeySet(d1)|
  }

  /** A deck has no changes against a deck that holds each of its cards with the same count. */
  lemma {:induction false} NoChanges(d1: Deck, d2: Deck)
    requires forall i :: 0 <= i < |d1| ==> Get(d2, d1[i].0) == Some(d1[i].1)
    ensures CountChanges(d1, d2) == 0
  {
    if d1 != [] {
      assert Get(d2, d1[0].0) == Some(d1[0].1);
      assert forall i :: 0 <= i < |d1[1..]| ==> d1[1..][i] == d1[i + 1];
      NoChanges(d1[1..], d2);
    }
  }

  /** A non-empty deck is similar to itself. */
  lemma SimilarToItself(d: Deck)
    requires d != [] && DistinctKeys(d)
    ensures DecksAreSimilar(d, d)
  {
    NoChanges(d, d);
    assert d[0].0 in KeySet(d);
    assert KeySet(d) - KeySet(d) == {};
  }

  /** With distinct keys, a deck holds as many different cards as entries. */
  lemma {:induction false} KeyCount(d: Deck)
    requires DistinctKeys(d)
    ensures |KeySet(d)| == |d|
  {
    if d != [] {
      var p := d[..|d| - 1];
      assert forall i :: 0 <= i < |p| ==> p[i] == d[i];
      KeyCount(p);
      assert d == p + [d[|d| - 1]];
      KeySetAppend(p, d[|d| - 1].0, d[|d| - 1].1);
      assert d[|d| - 1].0 !in KeySet(p);
    }
  }

  /** Similarity is not symmetric: only the first deck's size sets the threshold. Adding
      one new card to a deck of `n` different cards, the larger deck is similar to the
      smaller one exactly when 5 < n + 1, the smaller to the larger exactly when 5 < n;
      so with five cards the one is similar to the other and not the other way round. */
  lemma OneNewCard(d: Deck, card: string, count: int)
    requires d != [] && DistinctKeys(d) && card !in KeySet(d)
    ensures DecksAreSimilar(d + [(card, count)], d) <==> 5 < |d| + 1
    ensures DecksAreSimilar(d, d + [(card, count)]) <==> 5 < |d|
  {
    AppendedKeys(d, card, count);
    AppendedChanges(d, card, count);
  }

  /** The key-set facts of a deck with one new card appended. */
  lemma AppendedKeys(d: Deck, card: string, count: int)
    requires DistinctKeys(d) && card !in KeySet(d)
    ensures var e := d + [(card, count)];
      && NewCards(e, d) == 1 && NewCards(d, e) == 1
      && |KeySet(d)| == |d| && |KeySet(e)| == |d| + 1
  {
    var e := d + [(card, count)];
    KeySetAppend(d, card, count);
    assert KeySet(e) - KeySet(d) == {card};
    assert KeySet(d) - KeySet(e) == {};
    KeyCount(d);
    DistinctAppend(d, card, count);
    KeyCount(e);
  }

  /** Neither a deck nor the deck with one new card appended has changes against the
      other: every common card keeps its count. */
  lemma AppendedChanges(d: Deck, card: string, count: int)
    requires d != [] && DistinctKeys(d) && card !in KeySet(d)
    ensures CountChanges(d + [(card, count)], d) == 0 && CountChanges(d, d + [(card, count)]) == 0
  {
    var e := d + [(card, count)];
    forall i | 0 <= i < |d| ensures Get(e, d[i].0) == Some(d[i].1) {
      assert e[i] == d[i];
    }
    NoChanges(d, e);
    forall i | 0 <= i < |d| ensures Get(d, e[i].0) == Some(e[i].1) {
      assert e[i] == d[i];
    }
    assert e[|e| - 1] == (card, count);
    NoChangesBut(e, d);
  }

  /** The changes of `d1` against `d2` when all but `d1`'s last card are held with their
      counts and the last card is missing. */
  lemma {:induction false} NoChangesBut(d1: Deck, d2: Deck)
    requires d1 != [] && Get(d2, d1[|d1| - 1].0) == None
    requires forall i :: 0 <= i < |d1| - 1 ==> Get(d2, d1[i].0) == Some(d1[i].1)
    ensures CountChanges(d1, d2) == 0
  {
    if |d1| > 1 {
      assert forall i :: 0 <= i < |d1[1..]| ==> d1[1..][i] == d1[i + 1];
      NoChangesBut(d1[1..], d2);
    }
  }

  // ----- the record store -----

  /** The records of `champion` (none when the champion has no key). */
  function RecordsOf(durations: map<string, seq<GameRecord>>, champion: string): seq<GameRecord>
  {
    if champion in durations then durations[champion] else []
  }

  /** The record saved for a won game: its duration, the result's game id and the
      default `DrewChampionTurnOne` flag. */
  function NewRecord(duration: int, gameId: Value): (r: GameRecord)
    ensures r.Keys == {"duration", "game_id", "DrewChampionTurnOne"}
    ensures r["duration"] == Int(duration) && r["game_id"] == gameId
  {
    map["duration" := Int(duration), "game_id" := gameId, "DrewChampionTurnOne" := Bool(false)]
  }

  /** Python `value == n` for a stored JSON value and an int (booleans compare as 0 and 1). */
  predicate EqualsInt(v: Value, n: int)
  {
    match v
    case Int(i) => i == n
    case Bool(b) => (if b then 1 else 0) == n
    case _ => false
  }

  /** How the search of update_misc_field over a champion's records ends. */
  datatype Search = Found(index: nat) | NotFound | MissingGameId(index: nat)

  /** The first record whose `game_id` equals `gameId`; a record without `game_id`
      reached first raises KeyError. */
  function FindGame(recs: seq<GameRecord>, gameId: int): (r: Search)
    ensures r.Found? ==> r.index < |recs| && "game_id" in recs[r.index] && EqualsInt(recs[r.index]["game_id"], gameId)
    ensures r.MissingGameId? ==> r.index < |recs| && "game_id" !in recs[r.index]
    ensures r.Found? || r.MissingGameId? ==>
      forall j :: 0 <= j < r.index ==> "game_id" in recs[j] && !EqualsInt(recs[j]["game_id"], gameId)
    ensures r.NotFound? ==> forall j :: 0 <= j < |recs| ==> "game_id" in recs[j] && !EqualsInt(recs[j]["game_id"], gameId)
  {
    if recs == [] then NotFound
    else if "game_id" !in recs[0] then MissingGameId(0)
    else if EqualsInt(recs[0]["game_id"], gameId) then Found(0)
    else match FindGame(recs[1..], gameId)
      case Found(i) => Found(i + 1)
      case MissingGameId(i) => MissingGameId(i + 1)
      case NotFound => NotFound
  }

  /** What update_misc_field reports: the field was set, no record matched, or a record
      without a game id raised KeyError. */
  datatype MiscOutcome = Updated | RecordNotFound | KeyError

  /** update_misc_field on the record store. */
  function UpdateMisc(durations: map<string, seq<GameRecord>>, champion: string, gameId: int,
                      field: string, value: Value): (res: (map<string, seq<GameRecord>>, MiscOutcome))
    ensures res.0.Keys == durations.Keys
    ensures res.1 != Updated ==> res.0 == durations
    ensures res.1 == Updated <==> champion in durations && FindGame(durations[champion], gameId).Found?
    ensures res.1 == KeyError <==> champion in durations && FindGame(durations[champion], gameId).MissingGameId?
  {
    if champion !in durations then (durations, RecordNotFound)
    else
      var recs := durations[champion];
      match FindGame(recs, gameId)
      case Found(i) => (durations[champion := recs[i := recs[i][field := value]]], Updated)
      case NotFound => (durations, RecordNotFound)
      case MissingGameId(_) => (durations, KeyError)
  }

  /** Only the first matching record of that champion gets the field; every other record,
      of that champion or another, is unchanged. */
  lemma UpdateMiscChangesOneRecord(durations: map<string, seq<GameRecord>>, champion: string, gameId: int,
                                   field: string, value: Value)
    ensures var (d, outcome) := UpdateMisc(durations, champion, gameId, field, value);
      && d.Keys == durations.Keys
      && (outcome != Updated ==> d == durations)
      && (outcome == Updated <==> champion in durations && FindGame(durations[champion], gameId).Found?)
      && (outcome == Updated ==>
            var i := FindGame(durations[champion], gameId).index;
            && |d[champion]| == |durations[champion]|
            && d[champion][i] == durations[champion][i][field := value]
            && (forall j :: 0 <= j < |d[champion]| && j != i ==> d[champion][j] == durations[champion][j])
            && (forall c :: c in d && c != champion ==> d[c] == durations[c]))
  {
  }

  // ----- the poll step -----

  /** The tracker's fields that a poll reads or writes. */
  datatype PollState = PollState(
    gameData: Api.GameDoc,
    cardsData: Api.DeckDoc,
    gameResult: Api.ResultDoc,
    champion: string,
    currentChampion: string,
    inGame: bool,
    gameStartTime: Option<int>,
    gameDurations: map<string, seq<GameRecord>>,
    previousDeck: Deck)

  /** The truthiness of `game_data.get("Rectangles")`: a non-empty list. */
  predicate HasRectangles(g: Api.GameDoc)
  {
    g.rectangles.Present? && g.rectangles.value != []
  }

  /** The game id a new record takes from the result; `None` stands for the KeyError
      raised when `GameID` is missing. */
  function RecordGameId(r: Api.ResultDoc): Option<Value>
  {
    match r.gameId
    case Absent => None
    case Null => Some(Null)
    case Present(n) => Some(Int(n))
  }

  /** Leaving a game: append a record only for a valid, won result. A missing start time
      (a TypeError) or a missing `GameID` (a KeyError) aborts the save. */
  function GameEnded(s: PollState, r: Api.ResultDoc, now: int): (res: PollState)
    ensures res == s.(gameDurations := res.gameDurations)
    ensures s.gameDurations.Keys <= res.gameDurations.Keys
    ensures forall c :: c in s.gameDurations ==> s.gameDurations[c] <= res.gameDurations[c]
    ensures forall c :: c in res.gameDurations && c != s.currentChampion ==>
      c in s.gameDurations && res.gameDurations[c] == s.gameDurations[c]
    ensures var saves := Api.Read(r.gameId) != Some(-1) && r.localPlayerWon == Api.Present(true)
                         && s.gameStartTime.Some? && !r.gameId.Absent?;
      |RecordsOf(res.gameDurations, s.currentChampion)| == |RecordsOf(s.gameDurations, s.currentChampion)| + (if saves then 1 else 0)
  {
    if Api.Read(r.gameId) != Some(-1) && Api.Read(r.localPlayerWon).Some? then
      if r.localPlayerWon.value then
        match (s.gameStartTime, RecordGameId(r))
        case (Some(start), Some(id)) =>
          var c := s.currentChampion;
          s.(gameDurations := s.gameDurations[c := RecordsOf(s.gameDurations, c) + [NewRecord(now - start, id)]])
        case _ => s
      else s
    else s
  }

  /** The deck part of a poll: a present deck sets the champion (kept when similar to
      the previous deck, looked up otherwise) and becomes the previous deck. */
  function DeckStep(s: PollState, templates: Templates, d: Api.DeckDoc): (res: PollState)
    ensures res == s.(champion := res.champion, previousDeck := res.previousDeck)
    ensures d.cardsInDeck.Present? ==> res.previousDeck == d.cardsInDeck.value
    ensures d.cardsInDeck.Present? ==>
      res.champion == s.currentChampion || res.champion == FindChampion(templates, d.cardsInDeck.value)
    ensures !d.cardsInDeck.Present? ==> res == s
  {
    match Api.Read(d.cardsInDeck)
    case Some(cards) =>
      s.(champion := if DecksAreSimilar(cards, s.previousDeck) then s.currentChampion else FindChampion(templates, cards),
         previousDeck := cards)
    case None => s
  }

  /** One pass of the loop in call_api, after the three documents were fetched at `now`. */
  function Poll(s: PollState, templates: Templates, g: Api.GameDoc, d: Api.DeckDoc, r: Api.ResultDoc, now: int): (res: PollState)
    ensures res.gameData == g && res.cardsData == d && res.gameResult == r
    ensures res.inGame <==> HasRectangles(g)
    ensures !(HasRectangles(g) && !s.inGame) ==>
      res.gameStartTime == s.gameStartTime && res.currentChampion == s.currentChampion
    ensures s.gameDurations.Keys <= res.gameDurations.Keys
  {
    var s1 := DeckStep(s.(gameData := g, cardsData := d, gameResult := r), templates, d);
    if HasRectangles(g) then
      if !s1.inGame then s1.(inGame := true, gameStartTime := Some(now), currentChampion := s1.champion)
      else s1
    else if s1.inGame then GameEnded(s1.(inGame := false), r, now)
    else s1
  }

  /** A present deck sets the champion and the previous deck; a missing or `null`
      deck leaves both alone. */
  lemma PollDeckHandling(s: PollState, templates: Templates, g: Api.GameDoc, d: Api.DeckDoc, r: Api.ResultDoc, now: int)
    ensures var s' := DeckStep(s, templates, d);
      && (d.cardsInDeck.Present? ==>
            && s'.previousDeck == d.cardsInDeck.value
            && (DecksAreSimilar(d.cardsInDeck.value, s.previousDeck) ==> s'.champion == s.currentChampion)
            && (!DecksAreSimilar(d.cardsInDeck.value, s.previousDeck) ==> s'.champion == FindChampion(templates, d.cardsInDeck.value)))
      && (!d.cardsInDeck.Present? ==> s' == s)
  {
  }

  /** Entering a game (rectangles while not in a game) starts it with the champion just
      determined; while the game lasts, the start and the champion stay. */
  lemma PollGameStart(s: PollState, templates: Templates, g: Api.GameDoc, d: Api.DeckDoc, r: Api.ResultDoc, now: int)
    requires HasRectangles(g)
    ensures var s' := Poll(s, templates, g, d, r, now);
      && s'.inGame && s'.gameDurations == s.gameDurations
      && (!s.inGame ==> s'.gameStartTime == Some(now) && s'.currentChampion == DeckStep(s, templates, d).champion)
      && (s.inGame ==> s'.gameStartTime == s.gameStartTime && s'.currentChampion == s.currentChampion)
  {
  }

  /** Leaving a game appends one record to the current champion's list exactly when the
      result is valid (id not -1, outcome present) and won, the start time is known and the
      id key exists; otherwise no record is written. Outside a game nothing is recorded. */
  lemma PollGameEnd(s: PollState, templates: Templates, g: Api.GameDoc, d: Api.DeckDoc, r: Api.ResultDoc, now: int)
    requires !HasRectangles(g)
    ensures var s' := Poll(s, templates, g, d, r, now); var c := s.currentChampion;
      var saves := s.inGame && Api.Read(r.gameId) != Some(-1) && r.localPlayerWon == Api.Present(true)
                   && s.gameStartTime.Some? && !r.gameId.Absent?;
      && !s'.inGame && s'.currentChampion == s.currentChampion
      && (saves ==> s'.gameDurations == s.gameDurations[c := RecordsOf(s.gameDurations, c)
                      + [NewRecord(now - s.gameStartTime.value, RecordGameId(r).value)]])
      && (!saves ==> s'.gameDurations == s.gameDurations)
  {
  }

  /** A poll only ever appends: every champion's old records are a prefix of its new ones. */
  lemma PollAppendOnly(s: PollState, templates: Templates, g: Api.GameDoc, d: Api.DeckDoc, r: Api.ResultDoc, now: int)
    ensures var s' := Poll(s, templates, g, d, r, now);
      && s.gameDurations.Keys <= s'.gameDurations.Keys
      && forall c :: c in s.gameDurations ==> s.gameDurations[c] <= s'.gameDurations[c]
  {
  }

  /** The tracker object of main.py. */
  class ApiCaller {
    var gameData: Api.GameDoc
    var cardsData: Api.DeckDoc
    var gameResult: Api.ResultDoc
    var champion: string
    var currentChampion: string
    var inGame: bool
    var gameStartTime: Option<int>
    var gameDurations: map<string, seq<GameRecord>>
    var previousDeck: Deck
    var championDeckMapping: Templates

    function State(): PollState
      reads this
    {
      PollState(gameData, cardsData, gameResult, champion, currentChampion, inGame,
                gameStartTime, gameDurations, previousDeck)
    }

    /** The two JSON files are read by the caller: the deck templates, and the saved
        records (empty when that file does not exist). */
    constructor (templates: Templates, saved: map<string, seq<GameRecord>>)
      ensures championDeckMapping == templates && gameDurations == saved
      ensures champion == UNKNOWN_CHAMPION && currentChampion == UNKNOWN_CHAMPION
      ensures !inGame && gameStartTime.None? && previousDeck == []
      ensures gameData == Api.GameDoc(Api.Absent, Api.Absent) && cardsData == Api.DeckDoc(Api.Absent)
      ensures gameResult == Api.ResultDoc(Api.Absent, Api.Absent)
    {
      gameData := Api.GameDoc(Api.Absent, Api.Absent);
      cardsData := Api.DeckDoc(Api.Absent);
      gameResult := Api.ResultDoc(Api.Absent, Api.Absent);
      champion, currentChampion := UNKNOWN_CHAMPION, UNKNOWN_CHAMPION;
      inGame := false;
      gameStartTime := None;
      gameDurations := saved;
      previousDeck := [];
      championDeckMapping := templates;
    }

    /** One pass of call_api's loop over the fetched documents, at time `now`. */
    method PollStep(g: Api.GameDoc, d: Api.DeckDoc, r: Api.ResultDoc, now: int)
      modifies this
      ensures State() == Poll(old(State()), championDeckMapping, g, d, r, now)
      ensures championDeckMapping == old(championDeckMapping)
    {
      gameData, cardsData, gameResult := g, d, r;
      HandleDeck(d);
      ghost var s1 := State();
      assert s1 == DeckStep(old(State()).(gameData := g, cardsData := d, gameResult := r), championDeckMapping, d);
      if HasRectangles(gameData) {
        if !inGame {
          inGame := true;
          gameStartTime := Some(now);
          currentChampion := champion;
        }
      } else if inGame {
        inGame := false;
        EndGame(r, now);
      }
    }

    /** The deck part of call_api's loop. */
    method HandleDeck(d: Api.DeckDoc)
      modifies this
      ensures State() == DeckStep(old(State()), championDeckMapping, d)
      ensures championDeckMapping == old(championDeckMapping)
    {
      var cardsInDeck := Api.Read(d.cardsInDeck);
      if cardsInDeck.Some? {
        if DecksAreSimilar(cardsInDeck.value, previousDeck) {
          champion := currentChampion;
        } else {
          champion := FindChampion(championDeckMapping, cardsInDeck.value);
        }
        previousDeck := cardsInDeck.value;
      }
    }

    /** The save attempted when a game is left. */
    method EndGame(r: Api.ResultDoc, now: int)
      modifies this
      ensures State() == GameEnded(old(State()), r, now)
      ensures championDeckMapping == old(championDeckMapping)
    {
      if Api.Read(r.gameId) != Some(-1) && Api.Read(r.localPlayerWon).Some? && r.localPlayerWon.value {
        var id := RecordGameId(r);
        if gameStartTime.Some? && id.Some? {
          var record := NewRecord(now - gameStartTime.value, id.value);
          var c := currentChampion;
          gameDurations := gameDurations[c := RecordsOf(gameDurations, c) + [record]];
        }
      }
    }

    /** update_misc_field: set `field` on the first record of `championName` whose game id
        is `gameId`, scanning the records in order. */
    method UpdateMiscField(championName: string, gameId: int, field: string, value: Value)
      returns (outcome: MiscOutcome)
      modifies this
      ensures (gameDurations, outcome) == UpdateMisc(old(gameDurations), championName, gameId, field, value)
      ensures State() == old(State()).(gameDurations := gameDurations)
      ensures championDeckMapping == old(championDeckMapping)
    {
      if championName in gameDurations {
        var recs := gameDurations[championName];
        var i := 0;
        while i < |recs|
          invariant 0 <= i <= |recs|
          invariant forall j :: 0 <= j < i ==> "game_id" in recs[j] && !EqualsInt(recs[j]["game_id"], gameId)
          invariant State() == old(State()) && championDeckMapping == old(championDeckMapping)
        {
          if "game_id" !in recs[i] {
            FindGameAt(recs, gameId, i);
            return KeyError;
          }
          if EqualsInt(recs[i]["game_id"], gameId) {
            FindGameAt(recs, gameId, i);
            gameDurations := gameDurations[championName := recs[i := recs[i][field := value]]];
            return Updated;
          }
          i := i + 1;
        }
      }
      return RecordNotFound;
    }

    /** add_champion_deck: set or replace the one template of `championName`. */
    method AddChampionDeck(championName: string, deck: Deck)
      modifies this
      ensures championDeckMapping == Put(old(championDeckMapping), championName, deck)
      ensures State() == old(State())
    {
      championDeckMapping := Put(championDeckMapping, championName, deck);
    }
  }

  /** The search stops at the first record that has no game id or has the wanted one. */
  lemma {:induction false} FindGameAt(recs: seq<GameRecord>, gameId: int, i: nat)
    requires i < |recs|
    requires forall j :: 0 <= j < i ==> "game_id" in recs[j] && !EqualsInt(recs[j]["game_id"], gameId)
    ensures "game_id" !in recs[i] ==> FindGame(recs, gameId) == MissingGameId(i)
    ensures "game_id" in recs[i] && EqualsInt(recs[i]["game_id"], gameId) ==> FindGame(recs, gameId) == Found(i)
  {
    if i > 0 {
      FindGameAt(recs[1..], gameId, i - 1);
    }
  }

  /** add_champion_deck replaces exactly one entry: the champion's template is the new
      one, every other champion's template is unchanged, an existing champion keeps its
      place in the lookup order and a new one is tried last. */
  lemma AddChampionDeckEffect(templates: Templates, championName: string, deck: Deck)
    ensures var t := Put(templates, championName, deck);
      && Get(t, championName) == Some(deck)
      && (forall c :: c != championName ==> Get(t, c) == Get(templates, c))
      && Keys(t) == (if championName in KeySet(templates) then Keys(templates) else Keys(templates) + [championName])
  {
  }
}
