/**
 * The snapshot source of api_caller.py: the three documents the game client serves
 * (positional rectangles, static deck list, game result), the accessors the trackers
 * read them through, and the client object that stores the latest successful reply.
 * The HTTP request itself is not modelled: each fetch receives the reply as a value.
 */
module Api {
  import opened Wrappers
  import Dicts

  /** A key of a JSON object: missing, present with `null`, or present with a value. */
  datatype Field<T> = Absent | Null | Present(value: T)

  /** `obj.get(key)`: `None` both for a missing key and for `null`. */
  function Read<T>(f: Field<T>): (r: Option<T>)
    ensures r.Some? <==> f.Present?
  {
    match f
    case Present(v) => Some(v)
    case _ => None
  }

  /** `obj.get(key, default)`: the default only for a missing key; `null` still reads as `None`. */
  function ReadOr<T>(f: Field<T>, default: T): (r: Option<T>)
    ensures r.None? <==> f.Null?
    ensures f.Absent? ==> r == Some(default)
    ensures f.Present? ==> r == Read(f)
  {
    match f
    case Absent => Some(default)
    case Null => None
    case Present(v) => Some(v)
  }

  /** The card counts of a deck, keyed by card code, in the order the client lists them. */
  type Deck = Dicts.Dict<int>

  /** One card rectangle on the board. */
  datatype Rectangle = Rectangle(cardCode: string, localPlayer: Field<bool>)

  /** The positional-rectangles document. */
  datatype GameDoc = GameDoc(gameState: Field<string>, rectangles: Field<seq<Rectangle>>)

  /** The static-decklist document. */
  datatype DeckDoc = DeckDoc(cardsInDeck: Field<Deck>)

  /** The game-result document; it is the empty object `{}` when both keys are missing. */
  datatype ResultDoc = ResultDoc(gameId: Field<int>, localPlayerWon: Field<bool>)

  /** An HTTP reply whose body has already been parsed. A request that raises is handled
      like a reply whose status is not 200: nothing is stored. */
  datatype Response<T> = Response(statusCode: int, body: T)

  const OK_STATUS := 200
  const IN_PROGRESS := "InProgress"
  const UNKNOWN_STATE := "Unknown"

  predicate IsEmptyResult(r: ResultDoc)
  {
    r.gameId.Absent? && r.localPlayerWon.Absent?
  }

  /** get_game_state: the `GameState` value, "Unknown" when the key is missing. */
  function GetGameState(g: GameDoc): (r: Option<string>)
    ensures g.gameState.Absent? ==> r == Some(UNKNOWN_STATE)
    ensures g.gameState.Present? ==> r == Some(g.gameState.value)
    ensures r.None? <==> g.gameState.Null?
  {
    ReadOr(g.gameState, UNKNOWN_STATE)
  }

  /** get_deck: the empty deck when `CardsInDeck` is missing; `None` only for `null`. */
  function GetDeck(d: DeckDoc): (r: Option<Deck>)
    ensures d.cardsInDeck.Absent? ==> r == Some([])
    ensures d.cardsInDeck.Present? ==> r == Some(d.cardsInDeck.value)
    ensures r.None? <==> d.cardsInDeck.Null?
  {
    ReadOr(d.cardsInDeck, [])
  }

  /** get_game_result: an empty result reads as a result whose two keys are `null`. */
  function GetGameResult(r: ResultDoc): (res: ResultDoc)
    ensures IsEmptyResult(r) ==> res == ResultDoc(Null, Null)
    ensures !IsEmptyResult(r) ==> res == r
    ensures !IsEmptyResult(res)
  {
    if IsEmptyResult(r) then ResultDoc(Null, Null) else r
  }

  /** The truthiness of `card.get("LocalPlayer", False)`. */
  predicate IsLocal(rect: Rectangle)
  {
    rect.localPlayer == Present(true)
  }

  /** The rectangles of the local player, in their order. */
  function LocalOnly(rects: seq<Rectangle>): (r: seq<Rectangle>)
    ensures |r| <= |rects|
    ensures forall x :: x in r <==> x in rects && IsLocal(x)
  {
    if rects == [] then []
    else if IsLocal(rects[0]) then [rects[0]] + LocalOnly(rects[1..])
    else LocalOnly(rects[1..])
  }

  /** Filtering distributes over concatenation, so it keeps the relative order of the
      rectangles it keeps. */
  lemma {:induction false} LocalOnlyAppend(a: seq<Rectangle>, b: seq<Rectangle>)
    ensures LocalOnly(a + b) == LocalOnly(a) + LocalOnly(b)
  {
    if a != [] {
      assert (a + b)[1..] == a[1..] + b;
      LocalOnlyAppend(a[1..], b);
    } else {
      assert a + b == b;
    }
  }

  /** Filtering twice is filtering once. */
  lemma {:induction false} LocalOnlyIdempotent(rects: seq<Rectangle>)
    ensures LocalOnly(LocalOnly(rects)) == LocalOnly(rects)
  {
    if rects != [] {
      LocalOnlyIdempotent(rects[1..]);
    }
  }

  /** get_card_positions: `None` stands for the TypeError raised when `Rectangles` is
      `null` (iterating over `None`); a missing key reads as the empty list. */
  function GetCardPositions(g: GameDoc): (r: Option<seq<Rectangle>>)
    ensures r.None? <==> g.rectangles.Null?
    ensures g.rectangles.Absent? ==> r == Some([])
    ensures g.rectangles.Present? ==> r == Some(LocalOnly(g.rectangles.value))
  {
    match ReadOr(g.rectangles, [])
    case None => None
    case Some(rects) => Some(LocalOnly(rects))
  }

  /** The client of api_caller.py. The display callback it calls after each update and
      the `game_durations` it is handed are not used by any modelled operation. */
  class ApiCaller {
    var gameData: GameDoc
    var cardsData: DeckDoc
    var gameResult: ResultDoc
    var inGame: bool
    var gameStartTime: Option<int>
    var previousGameState: Option<string>
    var deckLoaded: bool

    constructor ()
      ensures gameData == GameDoc(Absent, Absent) && cardsData == DeckDoc(Absent)
      ensures gameResult == ResultDoc(Absent, Absent)
      ensures !inGame && gameStartTime.None? && previousGameState.None? && !deckLoaded
    {
      gameData := GameDoc(Absent, Absent);
      cardsData := DeckDoc(Absent);
      gameResult := ResultDoc(Absent, Absent);
      inGame := false;
      gameStartTime := None;
      previousGameState := None;
      deckLoaded := false;
    }

    /** fetch_game_data: on status 200 store the document, record its state and set
        `inGame` exactly when that state is "InProgress"; otherwise change nothing. */
    method FetchGameData(resp: Response<GameDoc>)
      modifies this
      ensures resp.statusCode == OK_STATUS ==>
        && gameData == resp.body
        && previousGameState == GetGameState(resp.body)
        && (inGame <==> GetGameState(resp.body) == Some(IN_PROGRESS))
      ensures resp.statusCode != OK_STATUS ==>
        gameData == old(gameData) && previousGameState == old(previousGameState) && inGame == old(inGame)
      ensures cardsData == old(cardsData) && gameResult == old(gameResult)
      ensures deckLoaded == old(deckLoaded) && gameStartTime == old(gameStartTime)
    {
      if resp.statusCode == OK_STATUS {
        gameData := resp.body;
        var currentState := GetGameState(gameData);
        if currentState != previousGameState {
          previousGameState := currentState;
        }
        inGame := currentState == Some(IN_PROGRESS);
      }
    }

    /** fetch_deck_data: on status 200 store the document and set `deckLoaded` exactly
        when `CardsInDeck` is neither missing nor `null`; otherwise change nothing. */
    method FetchDeckData(resp: Response<DeckDoc>)
      modifies this
      ensures resp.statusCode == OK_STATUS ==>
        cardsData == resp.body && (deckLoaded <==> Read(resp.body.cardsInDeck).Some?)
      ensures resp.statusCode != OK_STATUS ==>
        cardsData == old(cardsData) && deckLoaded == old(deckLoaded)
      ensures gameData == old(gameData) && gameResult == old(gameResult) && inGame == old(inGame)
      ensures previousGameState == old(previousGameState) && gameStartTime == old(gameStartTime)
    {
      if resp.statusCode == OK_STATUS {
        cardsData := resp.body;
        if Read(cardsData.cardsInDeck).Some? {
          if !deckLoaded {
            deckLoaded := true;
          }
        } else {
          deckLoaded := false;
        }
      }
    }

    /** fetch_game_result: on status 200 store the document; otherwise change nothing. */
    method FetchGameResult(resp: Response<ResultDoc>)
      modifies this
      ensures gameResult == if resp.statusCode == OK_STATUS then resp.body else old(gameResult)
      ensures gameData == old(gameData) && cardsData == old(cardsData) && inGame == old(inGame)
      ensures previousGameState == old(previousGameState) && deckLoaded == old(deckLoaded)
      ensures gameStartTime == old(gameStartTime)
    {
      if resp.statusCode == OK_STATUS {
        gameResult := resp.body;
      }
    }

    /** update_all_data: the three fetches in order. */
    method UpdateAllData(game: Response<GameDoc>, deck: Response<DeckDoc>, result: Response<ResultDoc>)
      modifies this
      ensures gameData == if game.statusCode == OK_STATUS then game.body else old(gameData)
      ensures cardsData == if deck.statusCode == OK_STATUS then deck.body else old(cardsData)
      ensures gameResult == if result.statusCode == OK_STATUS then result.body else old(gameResult)
      ensures game.statusCode == OK_STATUS ==> (inGame <==> GetGameState(game.body) == Some(IN_PROGRESS))
      ensures game.statusCode != OK_STATUS ==> inGame == old(inGame)
      ensures deck.statusCode == OK_STATUS ==> (deckLoaded <==> Read(deck.body.cardsInDeck).Some?)
      ensures deck.statusCode != OK_STATUS ==> deckLoaded == old(deckLoaded)
      ensures previousGameState == if game.statusCode == OK_STATUS then GetGameState(game.body) else old(previousGameState)
      ensures gameStartTime == old(gameStartTime)
    {
      FetchGameData(game);
      FetchDeckData(deck);
      FetchGameResult(result);
    }
  }
}
