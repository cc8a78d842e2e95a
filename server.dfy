// The HTTP handlers of the backend over an in-memory store: card
// collections, cards and per-user collections, each held in a field that the
// handlers reassign. Every generated uuid (card id, `collected_at`,
// `created_at`) is a parameter the caller supplies.
module Server {
  import opened Records
  import opened Overview
  import opened Pack
  import opened Stats

  /** A collection as `get_collections` lists it, with its real card count. */
  datatype CollectionSummary = CollectionSummary(collection: CardCollection, actualCards: nat)

  /** The answer of `open_pack`. */
  datatype PackOpened = PackOpened(collectionName: string, cards: seq<Card>)

  /** A card as the create handlers store it: every field is present. */
  ghost predicate Complete(c: Card) {
    c.rarity.Some? && c.collectionId.Some? && c.cardNumber.Some?
  }

  ghost predicate IdsDistinct(cards: seq<Card>) {
    forall i, j :: 0 <= i < j < |cards| ==> cards[i].id != cards[j].id
  }

  /** No two cards share a (collection_id, card_number) pair. */
  ghost predicate NumbersDistinct(cards: seq<Card>) {
    forall i, j :: 0 <= i < j < |cards| ==>
      cards[i].collectionId != cards[j].collectionId || cards[i].cardNumber != cards[j].cardNumber
  }

  /** The duplicate lookup `find_one({"collection_id": ..., "card_number": ...})`. */
  function NumberTaken(cards: seq<Card>, collectionId: string, cardNumber: int): (taken: bool)
    ensures taken <==> exists c :: c in CardsOf(cards, collectionId) && c.cardNumber == Some(cardNumber)
  {
    exists c :: c in cards && c.collectionId == Some(collectionId) && c.cardNumber == Some(cardNumber)
  }

  /** Appending a card to a store whose `(collection_id, card_number)` pairs
      are distinct keeps them distinct exactly when the duplicate lookup
      finds nothing. */
  lemma AppendKeepsNumbersDistinct(cards: seq<Card>, card: Card)
    requires NumbersDistinct(cards) && Complete(card)
    ensures NumbersDistinct(cards + [card]) <==>
            !NumberTaken(cards, card.collectionId.value, card.cardNumber.value)
  {
    var s := cards + [card];
    if NumberTaken(cards, card.collectionId.value, card.cardNumber.value) {
      var c :| c in cards && c.collectionId == card.collectionId && c.cardNumber == card.cardNumber;
      var i :| 0 <= i < |cards| && cards[i] == c;
      assert s[i] == c && s[|cards|] == card;
    } else {
      forall i, j | 0 <= i < j < |s|
        ensures s[i].collectionId != s[j].collectionId || s[i].cardNumber != s[j].cardNumber
      {
        if j == |cards| {
          assert s[i] in cards;
        } else {
          assert s[i] == cards[i] && s[j] == cards[j];
        }
      }
    }
  }

  /** `filename.split('.')[-1]`: the text after the last dot, or all of it. */
  function AfterLastDot(s: string): (r: string)
    ensures '.' !in r
    ensures |r| <= |s| && r == s[|s| - |r|..]
    ensures |r| < |s| ==> s[|s| - |r| - 1] == '.'
  {
    if s == [] then []
    else if s[|s| - 1] == '.' then []
    else
      var r := AfterLastDot(s[..|s| - 1]);
      assert s[..|s| - 1][|s| - 1 - |r|..] + [s[|s| - 1]] == s[|s| - |r| - 1..];
      r + [s[|s| - 1]]
  }

  /** The file extension of an uploaded image, `jpg` when the name has no dot. */
  function Extension(filename: string): (e: string)
    ensures '.' in filename ==> '.' !in e && |e| < |filename| && filename == filename[..|filename| - |e| - 1] + "." + e
    ensures '.' !in filename ==> e == "jpg"
  {
    if '.' in filename then
      var e := AfterLastDot(filename);
      assert filename == filename[..|filename| - |e| - 1] + [filename[|filename| - |e| - 1]] + filename[|filename| - |e|..];
      e
    else "jpg"
  }

  /** The timestamping loop of `add_cards_to_collection`: a copy of every
      pulled card, tagged with its own `collected_at`. */
  method Stamp(pulled: seq<Card>, stamps: seq<string>) returns (owned: seq<OwnedCard>)
    requires |stamps| == |pulled|
    ensures |owned| == |pulled|
    ensures forall k :: 0 <= k < |owned| ==> owned[k].card == pulled[k] && owned[k].collectedAt == stamps[k]
  {
    owned := [];
    var i := 0;
    while i < |pulled|
      invariant 0 <= i <= |pulled|
      invariant |owned| == i
      invariant forall k :: 0 <= k < i ==> owned[k] == OwnedCard(pulled[k], stamps[k])
    {
      owned := owned + [OwnedCard(pulled[i], stamps[i])];
      i := i + 1;
    }
  }

  /** How `add_cards_to_collection` changes the user records: the user's
      record (an empty one with 0 packs if there was none) gets the pulled
      cards appended in pull order and one more pack; nobody else changes. */
  ghost predicate RecordsPull(before: map<string, UserCollection>, after: map<string, UserCollection>,
                              userId: string, pulled: seq<Card>, stamps: seq<string>, createdAt: string)
    requires |stamps| == |pulled|
  {
    var prior := if userId in before then before[userId] else UserCollection(userId, [], 0, createdAt);
    var n := |prior.collectedCards|;
    && after.Keys == before.Keys + {userId}
    && (forall u :: u in before && u != userId ==> after[u] == before[u])
    && after[userId].userId == userId
    && after[userId].createdAt == prior.createdAt
    && after[userId].totalPacksOpened == prior.totalPacksOpened + 1
    && |after[userId].collectedCards| == n + |pulled|
    && after[userId].collectedCards[..n] == prior.collectedCards
    && (forall k :: 0 <= k < |pulled| ==>
          after[userId].collectedCards[n + k] == OwnedCard(pulled[k], stamps[k]))
  }

  class CardStore {
    var cards: seq<Card>
    var collections: seq<CardCollection>
    var users: map<string, UserCollection>

    /** What the handlers keep true of the store when it is used sequentially. */
    ghost predicate Valid()
      reads this
    {
      && (forall c :: c in cards ==> Complete(c))
      && IdsDistinct(cards)
      && NumbersDistinct(cards)
      && (forall u :: u in users ==> users[u].userId == u)
    }

    constructor ()
      ensures Valid()
      ensures cards == [] && collections == [] && users == map[]
    {
      cards, collections, users := [], [], map[];
    }

    /** `create_collection`: stored as given; ids are not checked. */
    method CreateCollection(collection: CardCollection)
      requires Valid()
      modifies this
      ensures Valid()
      ensures collections == old(collections) + [collection]
      ensures cards == old(cards) && users == old(users)
    {
      collections := collections + [collection];
    }

    /** `get_collections`: every collection with the number of cards that
        reference it. */
    method GetCollections() returns (summaries: seq<CollectionSummary>)
      ensures |summaries| == |collections|
      ensures forall k :: 0 <= k < |summaries| ==>
                summaries[k].collection == collections[k]
                && summaries[k].actualCards == |CardsOf(cards, collections[k].id)|
      ensures forall k :: 0 <= k < |summaries| ==>
                (summaries[k].actualCards == 0 <==>
                 forall c :: c in cards ==> c.collectionId != Some(collections[k].id))
    {
      summaries := [];
      var i := 0;
      while i < |collections|
        invariant 0 <= i <= |collections|
        invariant |summaries| == i
        invariant forall k :: 0 <= k < i ==>
                    summaries[k] == CollectionSummary(collections[k], |CardsOf(cards, collections[k].id)|)
      {
        var collection := collections[i];
        summaries := summaries + [CollectionSummary(collection, |CardsOf(cards, collection.id)|)];
        i := i + 1;
      }
    }

    /** `delete_collection`: 404 when no collection has the id, 400 while a
        card still references it, otherwise the first collection with that
        id is removed and nothing else changes. */
    method DeleteCollection(id: string) returns (r: Outcome)
      requires Valid()
      modifies this
      ensures Valid()
      ensures cards == old(cards) && users == old(users)
      ensures IndexOfCollection(old(collections), id).None? ==>
                r == Fail(NotFound) && collections == old(collections)
      ensures IndexOfCollection(old(collections), id).Some? && CardsOf(cards, id) != [] ==>
                r == Fail(BadRequest) && collections == old(collections)
      ensures IndexOfCollection(old(collections), id).Some? && CardsOf(cards, id) == [] ==>
                r == Success
                && collections == RemoveAt(old(collections), IndexOfCollection(old(collections), id).value)
    {
      var found := IndexOfCollection(collections, id);
      if found.None? {
        return Fail(NotFound);
      }
      var cardCount := |CardsOf(cards, id)|;
      if cardCount > 0 {
        return Fail(BadRequest);
      }
      collections := RemoveAt(collections, found.value);
      r := Success;
    }

    /** The duplicate check and insert shared by both card-creating handlers:
        400 when a card with the same collection and number exists. */
    method InsertCard(card: Card) returns (r: Result<Card>)
      requires Valid()
      requires Complete(card)
      requires forall c :: c in cards ==> c.id != card.id
      modifies this
      ensures Valid()
      ensures collections == old(collections) && users == old(users)
      ensures NumberTaken(old(cards), card.collectionId.value, card.cardNumber.value) ==>
                r == Err(BadRequest) && cards == old(cards)
      ensures !NumberTaken(old(cards), card.collectionId.value, card.cardNumber.value) ==>
                r == Ok(card) && cards == old(cards) + [card]
    {
      if NumberTaken(cards, card.collectionId.value, card.cardNumber.value) {
        return Err(BadRequest);
      }
      AppendKeepsNumbersDistinct(cards, card);
      cards := cards + [card];
      r := Ok(card);
    }

    /** `create_card_from_url`: the card keeps the given image URL. */
    method CreateCardFromUrl(freshId: string, name: string, rarity: string, cardType: string,
                             collectionId: string, cardNumber: int, imageUrl: string)
      returns (r: Result<Card>)
      requires Valid()
      requires forall c :: c in cards ==> c.id != freshId
      modifies this
      ensures Valid()
      ensures collections == old(collections) && users == old(users)
      ensures NumberTaken(old(cards), collectionId, cardNumber) ==>
                r == Err(BadRequest) && cards == old(cards)
      ensures !NumberTaken(old(cards), collectionId, cardNumber) ==>
                r == Ok(Card(freshId, name, Some(rarity), cardType, Some(collectionId), Some(cardNumber), imageUrl))
                && cards == old(cards) + [r.value]
    {
      var card := Card(freshId, name, Some(rarity), cardType, Some(collectionId), Some(cardNumber), imageUrl);
      r := InsertCard(card);
    }

    /** `create_card` with an uploaded image: the card's image URL is
        `/uploads/<id>.<extension of the uploaded file name>`. */
    method CreateCard(freshId: string, name: string, rarity: string, cardType: string,
                      collectionId: string, cardNumber: int, imageFilename: string)
      returns (r: Result<Card>)
      requires Valid()
      requires forall c :: c in cards ==> c.id != freshId
      modifies this
      ensures Valid()
      ensures collections == old(collections) && users == old(users)
      ensures NumberTaken(old(cards), collectionId, cardNumber) ==>
                r == Err(BadRequest) && cards == old(cards)
      ensures !NumberTaken(old(cards), collectionId, cardNumber) ==>
                r == Ok(Card(freshId, name, Some(rarity), cardType, Some(collectionId), Some(cardNumber),
                             "/uploads/" + freshId + "." + Extension(imageFilename)))
                && cards == old(cards) + [r.value]
    {
      if NumberTaken(cards, collectionId, cardNumber) {
        return Err(BadRequest);
      }
      var imageUrl := "/uploads/" + freshId + "." + Extension(imageFilename);
      var card := Card(freshId, name, Some(rarity), cardType, Some(collectionId), Some(cardNumber), imageUrl);
      r := InsertCard(card);
    }

    /** `delete_card`: 404 when no card has the id, otherwise that card is
        removed and the others keep their order. */
    method DeleteCard(id: string) returns (r: Outcome)
      requires Valid()
      modifies this
      ensures Valid()
      ensures collections == old(collections) && users == old(users)
      ensures IndexOfCard(old(cards), id).None? ==> r == Fail(NotFound) && cards == old(cards)
      ensures IndexOfCard(old(cards), id).Some? ==>
                r == Success && cards == RemoveAt(old(cards), IndexOfCard(old(cards), id).value)
      ensures forall c :: c in cards ==> c.id != id
    {
      var found := IndexOfCard(cards, id);
      if found.None? {
        return Fail(NotFound);
      }
      ghost var before := cards;
      cards := RemoveAt(cards, found.value);
      forall i, j | 0 <= i < j < |cards|
        ensures cards[i].id != cards[j].id
        ensures cards[i].collectionId != cards[j].collectionId || cards[i].cardNumber != cards[j].cardNumber
      {
        var i', j' := if i < found.value then i else i + 1, if j < found.value then j else j + 1;
        assert cards[i] == before[i'] && cards[j] == before[j'] && i' < j';
      }
      forall c | c in cards ensures c.id != id && Complete(c) {
        var k :| 0 <= k < |cards| && cards[k] == c;
        var k' := if k < found.value then k else k + 1;
        assert c == before[k'] && k' != found.value;
      }
      r := Success;
    }

    /** `get_collection_overview`: 404 for an unknown collection; otherwise
        one slot per number 1..total (total 50 when unset), each holding the
        first card of the collection with that number. */
    method GetCollectionOverview(id: string) returns (r: Result<CollectionOverview>)
      ensures r.Err? <==> IndexOfCollection(collections, id).None?
      ensures r.Err? ==> r.failure == NotFound
      ensures r.Ok? ==>
                var ov, cs := r.value, CardsOf(cards, id);
                && ov.collection == collections[IndexOfCollection(collections, id).value]
                && ov.totalCardsInSet == TotalOf(ov.collection)
                && ov.actualCardsCreated == |cs|
                && CompleteSetOf(ov.completeSet, cs, ov.totalCardsInSet)
    {
      var found := IndexOfCollection(collections, id);
      if found.None? {
        return Err(NotFound);
      }
      var collection := collections[found.value];
      var inCollection := CardsOf(cards, id);
      var sorted := SortByNumber(inCollection);
      var total := TotalOf(collection);
      var slots := BuildCompleteSet(sorted, total);
      SortedCompleteSet(inCollection, slots, total);
      r := Ok(CollectionOverview(collection, slots, total, |inCollection|));
    }

    /** `add_cards_to_collection`: get or create the user's record, append a
        stamped copy of every pulled card, count one more pack, upsert. */
    method AddCardsToCollection(userId: string, pulled: seq<Card>, stamps: seq<string>, createdAt: string)
      requires Valid()
      requires |stamps| == |pulled|
      modifies this
      ensures Valid()
      ensures cards == old(cards) && collections == old(collections)
      ensures RecordsPull(old(users), users, userId, pulled, stamps, createdAt)
    {
      var record := if userId in users then users[userId] else UserCollection(userId, [], 0, createdAt);
      var stamped := Stamp(pulled, stamps);
      record := record.(collectedCards := record.collectedCards + stamped,
                        totalPacksOpened := record.totalPacksOpened + 1);
      users := users[userId := record];
    }

    /** `open_pack`: 404 for an unknown collection, 400 for one without
        cards; otherwise six cards of that collection, an Energy card first
        and a Trainer card second whenever the collection has one, and four
        filler cards, each of its drawn rarity (`draws`) whenever the
        collection has a card of that rarity; the pack is then added to the
        user's collection. */
    method OpenPack(collectionId: string, userId: string, stamps: seq<string>, createdAt: string)
      returns (r: Result<PackOpened>, ghost draws: seq<string>)
      requires Valid()
      requires |stamps| == CardsPerPack
      modifies this
      ensures Valid()
      ensures cards == old(cards) && collections == old(collections)
      ensures IndexOfCollection(collections, collectionId).None? ==>
                r == Err(NotFound) && users == old(users)
      ensures IndexOfCollection(collections, collectionId).Some? && CardsOf(cards, collectionId) == [] ==>
                r == Err(BadRequest) && users == old(users)
      ensures IndexOfCollection(collections, collectionId).Some? && CardsOf(cards, collectionId) != [] ==>
                r.Ok?
      ensures r.Ok? ==>
                var pack := r.value.cards;
                && r.value.collectionName == collections[IndexOfCollection(collections, collectionId).value].name
                && |pack| == CardsPerPack
                && (forall c :: c in pack ==> c in cards && c.collectionId == Some(collectionId))
                && ((exists c :: c in cards && c.collectionId == Some(collectionId) && c.cardType == "Energy") ==>
                      pack[0].cardType == "Energy")
                && ((exists c :: c in cards && c.collectionId == Some(collectionId) && c.cardType == "Trainer") ==>
                      pack[1].cardType == "Trainer")
                && |draws| == CardsPerPack - 2
                && (forall k :: 0 <= k < |draws| ==> FillerFor(pack[2 + k], draws[k], CardsOf(cards, collectionId)))
                && RecordsPull(old(users), users, userId, pack, stamps, createdAt)
    {
      draws := [];
      var found := IndexOfCollection(collections, collectionId);
      if found.None? {
        return Err(NotFound), draws;
      }
      var collection := collections[found.value];
      var available := CardsOf(cards, collectionId);
      if available == [] {
        return Err(BadRequest), draws;
      }
      var pulled, drawn := AssemblePack(available);
      draws := drawn;
      AddCardsToCollection(userId, pulled, stamps, createdAt);
      r := Ok(PackOpened(collection.name, pulled));
    }

    /** `get_user_collection`: the empty answer for a user without a record,
        otherwise the record with its statistics. */
    method GetUserCollection(userId: string) returns (r: UserStats)
      requires Valid()
      ensures userId !in users ==> r == EmptyStats(userId)
      ensures userId in users ==> Summarizes(r, users[userId]) && r.userId == userId
    {
      if userId !in users {
        return EmptyStats(userId);
      }
      r := Summarize(users[userId]);
    }
  }
}
