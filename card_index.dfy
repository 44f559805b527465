/**
 * The card index of Utils/indexCards.py: cards loaded from the JSON card-set files are
 * indexed by card code (the full card, the last one with that code winning, codes kept in
 * first-insertion order) and by name (every code loaded under that name, in load order).
 * The files' contents are given as parsed card lists; reading the folder is not modelled.
 */
module CardIndex {
  import opened Wrappers
  import opened Dicts

  const NO_CARD_MESSAGE := "No card found with this code."
  const NO_CODES_PREFIX := "No codes found for card name: "

  /** A card object of a card-set file: the two fields the index reads, and the rest of
      the object, carried along unchanged. */
  datatype Card = Card(cardCode: Option<string>, name: Option<string>, rest: map<string, string>)

  /** The test `if code and name`: both fields present and non-empty. */
  predicate Loadable(c: Card)
  {
    c.cardCode.Some? && c.cardCode.value != "" && c.name.Some? && c.name.value != ""
  }

  /** The two indexes of an `IndexCards` object. */
  datatype Catalog = Catalog(codeToInfo: Dict<Card>, nameToCodes: map<string, seq<string>>)

  const EMPTY: Catalog := Catalog([], map[])

  /** The codes recorded under `name` (a `defaultdict(list)` gives none for a new name). */
  function CodesUnder(names: map<string, seq<string>>, name: string): seq<string>
  {
    if name in names then names[name] else []
  }

  /** The body of the inner loop of load_card_sets for one card. */
  function AddCard(c: Catalog, card: Card): (r: Catalog)
    ensures !Loadable(card) ==> r == c
    ensures Loadable(card) ==>
      && r.codeToInfo == Put(c.codeToInfo, card.cardCode.value, card)
      && r.nameToCodes == c.nameToCodes[card.name.value := CodesUnder(c.nameToCodes, card.name.value) + [card.cardCode.value]]
  {
    if Loadable(card) then
      var code, name := card.cardCode.value, card.name.value;
      Catalog(Put(c.codeToInfo, code, card), c.nameToCodes[name := CodesUnder(c.nameToCodes, name) + [code]])
    else c
  }

  /** The catalog after adding `cards` in order. */
  function Load(c: Catalog, cards: seq<Card>): (r: Catalog)
    ensures KeySet(c.codeToInfo) <= KeySet(r.codeToInfo)
    ensures forall name :: name in c.nameToCodes ==> name in r.nameToCodes && c.nameToCodes[name] <= r.nameToCodes[name]
    ensures (forall i :: 0 <= i < |cards| ==> !Loadable(cards[i])) ==> r == c
    decreases |cards|
  {
    if cards == [] then c else AddCard(Load(c, cards[..|cards| - 1]), cards[|cards| - 1])
  }

  /** The number of loadable cards (`total_cards_loaded`). */
  function CountLoadable(cards: seq<Card>): nat
    decreases |cards|
  {
    if cards == [] then 0
    else CountLoadable(cards[..|cards| - 1]) + (if Loadable(cards[|cards| - 1]) then 1 else 0)
  }

  /** The cards of all files, file after file. */
  function Flatten(files: seq<seq<Card>>): seq<Card>
    decreases |files|
  {
    if files == [] then [] else Flatten(files[..|files| - 1]) + files[|files| - 1]
  }

  /** Loading two lists one after the other is loading their concatenation. */
  lemma {:induction false} LoadConcat(c: Catalog, a: seq<Card>, b: seq<Card>)
    ensures Load(c, a + b) == Load(Load(c, a), b)
    ensures CountLoadable(a + b) == CountLoadable(a) + CountLoadable(b)
    decreases |b|
  {
    if b == [] {
      assert a + b == a;
    } else {
      var b' := b[..|b| - 1];
      assert (a + b)[..|a + b| - 1] == a + b';
      assert (a + b)[|a + b| - 1] == b[|b| - 1];
      LoadConcat(c, a, b');
    }
  }

  // ----- what the loaded indexes hold -----

  /** The last loadable card with code `code`, if any. */
  function LastWithCode(cards: seq<Card>, code: string): (r: Option<Card>)
    ensures r.Some? ==> r.value in cards && Loadable(r.value) && r.value.cardCode == Some(code)
    decreases |cards|
  {
    if cards == [] then None
    else
      var last := cards[|cards| - 1];
      if Loadable(last) && last.cardCode == Some(code) then Some(last)
      else LastWithCode(cards[..|cards| - 1], code)
  }

  /** The codes of the loadable cards named `name`, in order, repeats included. */
  function CodesNamed(cards: seq<Card>, name: string): seq<string>
    decreases |cards|
  {
    if cards == [] then []
    else
      var last := cards[|cards| - 1];
      CodesNamed(cards[..|cards| - 1], name) + (if Loadable(last) && last.name == Some(name) then [last.cardCode.value] else [])
  }

  /** The codes of the loadable cards, in order. */
  function LoadableCodes(cards: seq<Card>): seq<string>
    decreases |cards|
  {
    if cards == [] then []
    else
      var last := cards[|cards| - 1];
      LoadableCodes(cards[..|cards| - 1]) + (if Loadable(last) then [last.cardCode.value] else [])
  }

  /** `ks` followed by the elements of `s` not seen before, each at its first occurrence. */
  function AppendNew(ks: seq<string>, s: seq<string>): seq<string>
    decreases |s|
  {
    if s == [] then ks
    else
      var p := AppendNew(ks, s[..|s| - 1]);
      if s[|s| - 1] in p then p else p + [s[|s| - 1]]
  }

  /** A code's entry is its last loaded card, or what it was before when no card loaded
      has that code. */
  lemma {:induction false} LoadedCard(c: Catalog, cards: seq<Card>, code: string)
    ensures Get(Load(c, cards).codeToInfo, code) ==
      (match LastWithCode(cards, code) case Some(card) => Some(card) case None => Get(c.codeToInfo, code))
    decreases |cards|
  {
    if cards != [] {
      LoadedCard(c, cards[..|cards| - 1], code);
    }
  }

  /** A name's codes are its old ones followed by the codes of the cards loaded under
      that name, in load order with repeats; a name is indexed exactly when it was before
      or some loaded card has it. */
  lemma {:induction false} LoadedNames(c: Catalog, cards: seq<Card>, name: string)
    ensures CodesUnder(Load(c, cards).nameToCodes, name) == CodesUnder(c.nameToCodes, name) + CodesNamed(cards, name)
    ensures name in Load(c, cards).nameToCodes <==> name in c.nameToCodes || CodesNamed(cards, name) != []
    decreases |cards|
  {
    if cards != [] {
      LoadedNames(c, cards[..|cards| - 1], name);
    }
  }

  /** Set membership in the keys and sequence membership in the key list agree. */
  lemma KeysAndKeySet<V>(d: Dict<V>, k: string)
    ensures k in Keys(d) <==> k in KeySet(d)
  {
    if k in KeySet(d) {
      var i :| 0 <= i < |d| && d[i].0 == k;
      assert Keys(d)[i] == k;
    }
  }

  /** The code list (list_all_codes) grows by each newly seen code, at its first load;
      codes stay distinct. */
  lemma {:induction false} LoadedCodes(c: Catalog, cards: seq<Card>)
    ensures Keys(Load(c, cards).codeToInfo) == AppendNew(Keys(c.codeToInfo), LoadableCodes(cards))
    ensures DistinctKeys(c.codeToInfo) ==> DistinctKeys(Load(c, cards).codeToInfo)
    decreases |cards|
  {
    if cards != [] {
      var p := cards[..|cards| - 1];
      var last := cards[|cards| - 1];
      LoadedCodes(c, p);
      assert Load(c, cards) == AddCard(Load(c, p), last);
      if Loadable(last) {
        var s := LoadableCodes(cards);
        assert s == LoadableCodes(p) + [last.cardCode.value];
        assert s[..|s| - 1] == LoadableCodes(p) && s[|s| - 1] == last.cardCode.value;
        KeysAndKeySet(Load(c, p).codeToInfo, last.cardCode.value);
      } else {
        assert LoadableCodes(p) + [] == LoadableCodes(p);
        assert LoadableCodes(cards) == LoadableCodes(p);
        assert Load(c, cards) == Load(c, p);
      }
    }
  }

  /** A catalog whose entries are all loadable cards filed under their own code, and whose
      name lists only name codes that have an entry. */
  ghost predicate Consistent(c: Catalog)
  {
    && DistinctKeys(c.codeToInfo)
    && (forall i :: 0 <= i < |c.codeToInfo| ==>
          Loadable(c.codeToInfo[i].1) && c.codeToInfo[i].1.cardCode == Some(c.codeToInfo[i].0))
    && (forall name, code :: name in c.nameToCodes && code in c.nameToCodes[name] ==> code in KeySet(c.codeToInfo))
  }

  /** Loading keeps a catalog consistent. */
  lemma {:induction false} LoadKeepsConsistent(c: Catalog, cards: seq<Card>)
    requires Consistent(c)
    ensures Consistent(Load(c, cards))
    decreases |cards|
  {
    if cards != [] {
      var p := cards[..|cards| - 1];
      LoadKeepsConsistent(c, p);
      AddCardKeepsConsistent(Load(c, p), cards[|cards| - 1]);
    }
  }

  lemma AddCardKeepsConsistent(c: Catalog, card: Card)
    requires Consistent(c)
    ensures Consistent(AddCard(c, card))
  {
    if Loadable(card) {
      var r := AddCard(c, card);
      var code := card.cardCode.value;
      forall i | 0 <= i < |r.codeToInfo|
        ensures Loadable(r.codeToInfo[i].1) && r.codeToInfo[i].1.cardCode == Some(r.codeToInfo[i].0)
      {
        var k := r.codeToInfo[i].0;
        IndexOfDistinct(r.codeToInfo, i);
        if k != code {
          var j := IndexOf(c.codeToInfo, k).value;
          IndexOfDistinct(c.codeToInfo, j);
        }
      }
      PutKeySet(c.codeToInfo, code, card);
    }
  }

  /** Putting a key adds exactly that key. */
  lemma PutKeySet<V>(d: Dict<V>, k: string, v: V)
    ensures KeySet(Put(d, k, v)) == KeySet(d) + {k}
  {
    var r := Put(d, k, v);
    forall x ensures x in KeySet(r) <==> x in KeySet(d) || x == k {
      KeysAndKeySet(r, x);
      KeysAndKeySet(d, x);
      KeysAndKeySet(d, k);
    }
  }

  /** In a dictionary with distinct keys, an entry's key is found at that entry. */
  lemma IndexOfDistinct<V>(d: Dict<V>, i: nat)
    requires DistinctKeys(d) && i < |d|
    ensures IndexOf(d, d[i].0) == Some(i) && Get(d, d[i].0) == Some(d[i].1)
  {
    var r := IndexOf(d, d[i].0);
    assert d[i].0 in KeySet(d);
  }

  // ----- queries -----

  /** get_name_by_code: the name of the card filed under `code`, or the not-found message. */
  function NameByCode(codes: Dict<Card>, code: string): (r: string)
    ensures code !in KeySet(codes) ==> r == NO_CARD_MESSAGE
    ensures r != NO_CARD_MESSAGE ==> Get(codes, code).Some? && Get(codes, code).value.name == Some(r)
    ensures Get(codes, code).Some? && Get(codes, code).value.name.Some? ==> r == Get(codes, code).value.name.value
  {
    match Get(codes, code)
    case Some(card) => card.name.GetOr(NO_CARD_MESSAGE)
    case None => NO_CARD_MESSAGE
  }

  /** What get_codes_by_name returns: the code list, or a message string. */
  datatype CodesLookup = Codes(codes: seq<string>) | Message(text: string)

  /** get_codes_by_name. */
  function CodesByName(names: map<string, seq<string>>, name: string): (r: CodesLookup)
    ensures r.Codes? <==> name in names
    ensures r.Codes? ==> r.codes == names[name]
    ensures r.Message? ==> r.text == NO_CODES_PREFIX + name
  {
    if name in names then Codes(names[name]) else Message(NO_CODES_PREFIX + name)
  }

  /** list_all_codes. */
  function AllCodes(codes: Dict<Card>): (r: seq<string>)
    ensures |r| == |codes|
    ensures forall k :: k in r <==> k in KeySet(codes)
  {
    Keys(codes)
  }

  /** After loading into the empty index, a code gives the name of the last card loaded
      with it, and the not-found message for a code no loadable card has. */
  lemma NameAfterLoad(cards: seq<Card>, code: string)
    ensures NameByCode(Load(EMPTY, cards).codeToInfo, code) ==
      (match LastWithCode(cards, code) case Some(card) => card.name.value case None => NO_CARD_MESSAGE)
  {
    LoadedCard(EMPTY, cards, code);
  }

  /** After loading into the empty index, a name gives every code loaded under it, in
      order, or the not-found message naming it when no loadable card has that name. */
  lemma CodesAfterLoad(cards: seq<Card>, name: string)
    ensures CodesByName(Load(EMPTY, cards).nameToCodes, name) ==
      (if CodesNamed(cards, name) == [] then Message(NO_CODES_PREFIX + name) else Codes(CodesNamed(cards, name)))
  {
    LoadedNames(EMPTY, cards, name);
  }

  /** After loading into the empty index, the code list holds each loadable card's code
      once, in the order of first appearance. */
  lemma AllCodesAfterLoad(cards: seq<Card>)
    ensures AllCodes(Load(EMPTY, cards).codeToInfo) == AppendNew([], LoadableCodes(cards))
    ensures DistinctKeys(Load(EMPTY, cards).codeToInfo)
  {
    LoadedCodes(EMPTY, cards);
  }

  /** In a consistent catalog every code listed under a name resolves to a card's name,
      never to the not-found message's branch. */
  lemma ListedCodesResolve(c: Catalog, name: string, code: string)
    requires Consistent(c) && name in c.nameToCodes && code in c.nameToCodes[name]
    ensures Get(c.codeToInfo, code).Some? && NameByCode(c.codeToInfo, code) == Get(c.codeToInfo, code).value.name.value
  {
    var i := IndexOf(c.codeToInfo, code).value;
    IndexOfDistinct(c.codeToInfo, i);
  }

  /** How load_card_sets ends: the number of cards loaded, or the exit for a missing
      folder or a folder without JSON files. */
  datatype LoadOutcome = Loaded(total: nat) | MissingFolder | NoJsonFiles

  /** The concrete `LocalIndexCards`. */
  class LocalIndexCards {
    const folder: string
    var codeToInfo: Dict<Card>
    var nameToCodes: map<string, seq<string>>

    function Contents(): Catalog
      reads this
    {
      Catalog(codeToInfo, nameToCodes)
    }

    constructor (folder: string)
      ensures this.folder == folder && Contents() == EMPTY
    {
      this.folder := folder;
      codeToInfo := [];
      nameToCodes := map[];
    }

    /** load_card_sets over the parsed files of the folder, in listing order. */
    method LoadCardSets(folderExists: bool, files: seq<seq<Card>>) returns (outcome: LoadOutcome)
      modifies this
      ensures !folderExists ==> outcome == MissingFolder && Contents() == old(Contents())
      ensures folderExists && files == [] ==> outcome == NoJsonFiles && Contents() == old(Contents())
      ensures folderExists && files != [] ==>
        outcome == Loaded(CountLoadable(Flatten(files))) && Contents() == Load(old(Contents()), Flatten(files))
    {
      if !folderExists {
        return MissingFolder;
      }
      if files == [] {
        return NoJsonFiles;
      }
      var total := 0;
      var i := 0;
      while i < |files|
        invariant 0 <= i <= |files|
        invariant Contents() == Load(old(Contents()), Flatten(files[..i]))
        invariant total == CountLoadable(Flatten(files[..i]))
      {
        var before := Contents();
        var added := LoadFile(files[i]);
        LoadConcat(old(Contents()), Flatten(files[..i]), files[i]);
        assert files[..i + 1][..i] == files[..i];
        total := total + added;
        i := i + 1;
      }
      assert files[..|files|] == files;
      return Loaded(total);
    }

    /** The inner loop of load_card_sets over the cards of one file. */
    method LoadFile(cards: seq<Card>) returns (added: nat)
      modifies this
      ensures Contents() == Load(old(Contents()), cards) && added == CountLoadable(cards)
    {
      added := 0;
      var j := 0;
      while j < |cards|
        invariant 0 <= j <= |cards|
        invariant Contents() == Load(old(Contents()), cards[..j])
        invariant added == CountLoadable(cards[..j])
      {
        var card := cards[j];
        assert cards[..j + 1][..j] == cards[..j];
        if card.cardCode.Some? && card.cardCode.value != "" && card.name.Some? && card.name.value != "" {
          var code, name := card.cardCode.value, card.name.value;
          codeToInfo := Put(codeToInfo, code, card);
          nameToCodes := nameToCodes[name := CodesUnder(nameToCodes, name) + [code]];
          added := added + 1;
        }
        j := j + 1;
      }
      assert cards[..|cards|] == cards;
    }
  }
}
