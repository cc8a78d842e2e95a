// The documents kept by the card-pack backend (cards, card collections,
// per-user collections), the two explicit error responses of its handlers,
// and the store queries the handlers are built from.
module Records {

  datatype Option<+T> = None | Some(value: T)

  /** The error responses a handler raises on purpose: 404 and 400. */
  datatype Failure = NotFound | BadRequest

  /** A handler's answer: a value, or one of the explicit error responses. */
  datatype Result<+T> = Ok(value: T) | Err(failure: Failure)

  /** A handler that answers with a message only. */
  datatype Outcome = Success | Fail(failure: Failure)

  /** A card definition. The three fields that the server reads with a
      default when they are missing (rarity, collection_id, card_number)
      are optional here; the store only ever holds cards that have them. */
  datatype Card = Card(
    id: string,
    name: string,
    rarity: Option<string>,
    cardType: string,
    collectionId: Option<string>,
    cardNumber: Option<int>,
    imageUrl: string)

  /** A card set with the number of cards it should eventually hold. */
  datatype CardCollection = CardCollection(
    id: string,
    name: string,
    description: string,
    totalCardsInSet: Option<int>)

  /** One pulled copy of a card, tagged when it was added to a user. */
  datatype OwnedCard = OwnedCard(card: Card, collectedAt: string)

  /** Everything a user has pulled, in pull order, and how many packs. */
  datatype UserCollection = UserCollection(
    userId: string,
    collectedCards: seq<OwnedCard>,
    totalPacksOpened: nat,
    createdAt: string)

  const CardsPerPack: nat := 6

  /** The rarity tiers a pack slot can be drawn for, most common first. */
  const Rarities: seq<string> :=
    ["Common", "Uncommon", "Rare", "Holo", "Ultra Rare", "Secret Rare"]

  const DefaultTotalCardsInSet: int := 50

  /** The elements of `s` that satisfy `p`, in their original order. */
  function Filter<T(!new)>(s: seq<T>, p: T -> bool): (r: seq<T>)
    ensures |r| <= |s|
    ensures forall x :: x in r <==> x in s && p(x)
  {
    if s == [] then []
    else
      assert s == s[..|s| - 1] + [s[|s| - 1]];
      Filter(s[..|s| - 1], p) + (if p(s[|s| - 1]) then [s[|s| - 1]] else [])
  }

  /** The filter keeps every element that satisfies `p` exactly as often as
      it occurs in `s`, and drops every other element. */
  lemma {:induction false} FilterMultiset<T(!new)>(s: seq<T>, p: T -> bool)
    ensures forall x :: multiset(Filter(s, p))[x] == if p(x) then multiset(s)[x] else 0
  {
    if s != [] {
      var init, last := s[..|s| - 1], s[|s| - 1];
      assert s == init + [last];
      FilterMultiset(init, p);
      assert multiset(s) == multiset(init) + multiset{last};
    }
  }

  lemma FilterAppend<T(!new)>(s: seq<T>, x: T, p: T -> bool)
    ensures Filter(s + [x], p) == Filter(s, p) + (if p(x) then [x] else [])
  {
    assert (s + [x])[..|s + [x]| - 1] == s;
  }

  /** Filtering keeps the order of the elements: filtering a concatenation
      is concatenating the filtered parts. */
  lemma {:induction false} FilterConcat<T(!new)>(s: seq<T>, t: seq<T>, p: T -> bool)
    ensures Filter(s + t, p) == Filter(s, p) + Filter(t, p)
  {
    if t != [] {
      var init, last := t[..|t| - 1], t[|t| - 1];
      assert t == init + [last];
      assert s + t == (s + init) + [last];
      FilterConcat(s, init, p);
      FilterAppend(s + init, last, p);
      FilterAppend(init, last, p);
    } else {
      assert s + t == s;
    }
  }

  /** The query `{"collection_id": collectionId}` on the card store. */
  function CardsOf(cards: seq<Card>, collectionId: string): (r: seq<Card>)
    ensures forall c :: c in r <==> c in cards && c.collectionId == Some(collectionId)
    ensures r == [] <==> forall c :: c in cards ==> c.collectionId != Some(collectionId)
  {
    var r := Filter(cards, (c: Card) => c.collectionId == Some(collectionId));
    assert r != [] ==> r[0] in r;
    r
  }

  /** Each card of the collection occurs in `CardsOf` as often as in the
      store, and no other card occurs, so `len(cards)` counts exactly the
      stored cards of the collection. */
  lemma CardsOfMultiset(cards: seq<Card>, collectionId: string)
    ensures forall c :: multiset(CardsOf(cards, collectionId))[c] ==
                        if c.collectionId == Some(collectionId) then multiset(cards)[c] else 0
  {
    FilterMultiset(cards, (c: Card) => c.collectionId == Some(collectionId));
  }

  /** The cards of a collection come in store order: the query over two
      parts of the store is the query over the first part followed by the
      query over the second. */
  lemma CardsOfConcat(a: seq<Card>, b: seq<Card>, collectionId: string)
    ensures CardsOf(a + b, collectionId) == CardsOf(a, collectionId) + CardsOf(b, collectionId)
  {
    FilterConcat(a, b, (c: Card) => c.collectionId == Some(collectionId));
  }

  /** The position of the first element of `s` that satisfies `p`, if any. */
  function FirstIndex<T>(s: seq<T>, p: T -> bool): (r: Option<nat>)
    ensures r.None? <==> forall j :: 0 <= j < |s| ==> !p(s[j])
    ensures r.Some? ==> r.value < |s| && p(s[r.value])
    ensures r.Some? ==> forall j :: 0 <= j < r.value ==> !p(s[j])
  {
    if s == [] then None
    else if p(s[0]) then Some(0)
    else
      match FirstIndex(s[1..], p)
      case None => None
      case Some(k) => Some(k + 1)
  }

  /** The position of the first collection with the given id (what
      `find_one` and `delete_one` match), if any. */
  function IndexOfCollection(collections: seq<CardCollection>, id: string): (r: Option<nat>)
    ensures r.None? <==> forall c :: c in collections ==> c.id != id
    ensures r.Some? ==> r.value < |collections| && collections[r.value].id == id
    ensures r.Some? ==> forall j :: 0 <= j < r.value ==> collections[j].id != id
  {
    FirstIndex(collections, (c: CardCollection) => c.id == id)
  }

  /** The position of the first card with the given id, if any. */
  function IndexOfCard(cards: seq<Card>, id: string): (r: Option<nat>)
    ensures r.None? <==> forall c :: c in cards ==> c.id != id
    ensures r.Some? ==> r.value < |cards| && cards[r.value].id == id
    ensures r.Some? ==> forall j :: 0 <= j < r.value ==> cards[j].id != id
  {
    FirstIndex(cards, (c: Card) => c.id == id)
  }

  /** `s` without its element at position `i`; the rest keep their order. */
  function RemoveAt<T>(s: seq<T>, i: nat): (r: seq<T>)
    requires i < |s|
    ensures |r| == |s| - 1
    ensures forall j :: 0 <= j < i ==> r[j] == s[j]
    ensures forall j :: i <= j < |r| ==> r[j] == s[j + 1]
  {
    s[..i] + s[i + 1..]
  }
}
