// Pack assembly for `open_pack`: one guaranteed Energy slot, one guaranteed
// Trainer slot, and the remaining slots drawn by rarity. Every random choice
// is a nondeterministic pick (`:|`) from the set the source picks from, so
// the contracts hold whatever is picked.
module Pack {
  import opened Records

  /** The `[card for card in available_cards if card["card_type"] == t]` filter. */
  function OfType(cards: seq<Card>, t: string): (r: seq<Card>)
    ensures forall c :: c in r <==> c in cards && c.cardType == t
  {
    Filter(cards, (c: Card) => c.cardType == t)
  }

  /** The cards filed under rarity `rarity` in `cards_by_rarity`. */
  function WithRarity(cards: seq<Card>, rarity: string): (r: seq<Card>)
    ensures forall c :: c in r <==> c in cards && c.rarity == Some(rarity)
    ensures r == [] <==> !HasRarity(cards, rarity)
  {
    var r := Filter(cards, (c: Card) => c.rarity == Some(rarity));
    assert r != [] ==> r[0] in r;
    r
  }

  lemma WithRarityAppend(cards: seq<Card>, c: Card, rarity: string)
    ensures WithRarity(cards + [c], rarity) ==
            WithRarity(cards, rarity) + (if c.rarity == Some(rarity) then [c] else [])
  {
    FilterAppend(cards, c, (c: Card) => c.rarity == Some(rarity));
  }

  ghost predicate HasRarity(cards: seq<Card>, rarity: string) {
    exists c :: c in cards && c.rarity == Some(rarity)
  }

  ghost predicate AllRated(cards: seq<Card>) {
    forall c :: c in cards ==> c.rarity.Some?
  }

  /** The loop that files every card under its rarity. The source reads
      `card["rarity"]` without a default, so every card must have one. */
  method GroupByRarity(cards: seq<Card>) returns (buckets: map<string, seq<Card>>)
    requires AllRated(cards)
    ensures forall r :: r in buckets <==> HasRarity(cards, r)
    ensures forall r :: r in buckets ==> buckets[r] == WithRarity(cards, r) && buckets[r] != []
  {
    buckets := map[];
    var i := 0;
    while i < |cards|
      invariant 0 <= i <= |cards|
      invariant forall r :: r in buckets <==> HasRarity(cards[..i], r)
      invariant forall r :: r in buckets ==> buckets[r] == WithRarity(cards[..i], r) && buckets[r] != []
    {
      var card := cards[i];
      var rarity := card.rarity.value;
      ghost var before := buckets;
      var bucket := if rarity in buckets then buckets[rarity] else [];
      buckets := buckets[rarity := bucket + [card]];
      GroupStep(cards, i, before, buckets);
      i := i + 1;
    }
    assert cards[..i] == cards;
  }

  /** One step of the grouping loop keeps the buckets equal to the filters. */
  lemma GroupStep(cards: seq<Card>, i: nat, before: map<string, seq<Card>>,
                  after: map<string, seq<Card>>)
    requires i < |cards| && cards[i].rarity.Some?
    requires forall r :: r in before <==> HasRarity(cards[..i], r)
    requires forall r :: r in before ==> before[r] == WithRarity(cards[..i], r)
    requires after == before[cards[i].rarity.value :=
               (if cards[i].rarity.value in before then before[cards[i].rarity.value] else []) + [cards[i]]]
    ensures forall r :: r in after <==> HasRarity(cards[..i + 1], r)
    ensures forall r :: r in after ==> after[r] == WithRarity(cards[..i + 1], r) && after[r] != []
  {
    var done, card := cards[..i], cards[i];
    assert cards[..i + 1] == done + [card];
    forall r ensures r in after <==> HasRarity(done + [card], r)
      ensures r in after ==> after[r] == WithRarity(done + [card], r) && after[r] != []
    {
      GroupStepAt(done, card, before, after, r);
    }
  }

  lemma GroupStepAt(done: seq<Card>, card: Card, before: map<string, seq<Card>>,
                    after: map<string, seq<Card>>, r: string)
    requires card.rarity.Some?
    requires r in before <==> HasRarity(done, r)
    requires r in before ==> before[r] == WithRarity(done, r)
    requires after == before[card.rarity.value :=
               (if card.rarity.value in before then before[card.rarity.value] else []) + [card]]
    ensures r in after <==> HasRarity(done + [card], r)
    ensures r in after ==> after[r] == WithRarity(done + [card], r) && after[r] != []
  {
    WithRarityAppend(done, card, r);
  }

  /** One guaranteed slot for card type `t`: a random card of that type
      when there is one, otherwise (`elif available_cards`) a random card of
      any type. */
  method GuaranteedSlot(available: seq<Card>, t: string) returns (slot: seq<Card>)
    ensures available != [] <==> |slot| == 1
    ensures available == [] ==> slot == []
    ensures forall c :: c in slot ==> c in available
    ensures (exists c :: c in available && c.cardType == t) ==> |slot| == 1 && slot[0].cardType == t
  {
    var wanted := OfType(available, t);
    if wanted != [] {
      assert wanted[0] in wanted;
      var c :| c in wanted;
      slot := [c];
    } else if available != [] {
      assert available[0] in available;
      var c :| c in available;
      slot := [c];
    } else {
      slot := [];
    }
  }

  /** `c` fills a slot drawn for `rarity`: it is a card of the collection,
      the rarity is one of the six drawable ones, and `c` has that rarity
      whenever the collection has a card of it. */
  ghost predicate FillerFor(c: Card, rarity: string, available: seq<Card>) {
    && c in available
    && rarity in Rarities
    && (HasRarity(available, rarity) ==> c.rarity == Some(rarity))
  }

  /** One filler slot for the drawn rarity `selected`: a random card of that
      rarity when the collection has one, otherwise a random card. */
  method FillerSlot(available: seq<Card>, buckets: map<string, seq<Card>>, selected: string)
    returns (slot: seq<Card>)
    requires selected in Rarities
    requires forall r :: r in buckets <==> HasRarity(available, r)
    requires forall r :: r in buckets ==> buckets[r] == WithRarity(available, r) && buckets[r] != []
    ensures available != [] <==> |slot| == 1
    ensures available == [] ==> slot == []
    ensures forall c :: c in slot ==> c in available
    ensures HasRarity(available, selected) ==> |slot| == 1 && slot[0].rarity == Some(selected)
    ensures available != [] ==> FillerFor(slot[0], selected, available)
  {
    if selected in buckets && buckets[selected] != [] {
      assert buckets[selected][0] in buckets[selected];
      var c :| c in buckets[selected];
      slot := [c];
    } else if available != [] {
      assert !HasRarity(available, selected);
      assert available[0] in available;
      var c :| c in available;
      slot := [c];
    } else {
      slot := [];
    }
  }

  /** The `for _ in range(remaining_slots)` loop: one filler slot per
      remaining position, each for an arbitrarily drawn rarity. The drawn
      rarities are returned in `draws`, one per position. */
  method FillerSlots(available: seq<Card>, buckets: map<string, seq<Card>>, remaining: nat)
    returns (fill: seq<Card>, draws: seq<string>)
    requires forall r :: r in buckets <==> HasRarity(available, r)
    requires forall r :: r in buckets ==> buckets[r] == WithRarity(available, r) && buckets[r] != []
    ensures |draws| == remaining
    ensures available != [] ==> |fill| == remaining
    ensures available == [] ==> fill == []
    ensures forall k :: 0 <= k < |fill| ==> FillerFor(fill[k], draws[k], available)
  {
    fill, draws := [], [];
    var i := 0;
    while i < remaining
      invariant 0 <= i <= remaining
      invariant |draws| == i
      invariant available != [] ==> |fill| == i
      invariant available == [] ==> fill == []
      invariant forall k :: 0 <= k < |fill| ==> FillerFor(fill[k], draws[k], available)
    {
      assert Rarities[0] in Rarities;
      var selected :| selected in Rarities;
      var slot := FillerSlot(available, buckets, selected);
      if slot != [] {
        fill := fill + [slot[0]];
      }
      draws := draws + [selected];
      i := i + 1;
    }
  }

  /** The cards `open_pack` pulls from the cards of one collection, with the
      rarity drawn for each filler position. The `elif available_cards`
      fallbacks are modelled as written, so an empty collection would yield
      an empty pack; `open_pack` rejects it first. */
  method AssemblePack(available: seq<Card>) returns (pulled: seq<Card>, draws: seq<string>)
    requires AllRated(available)
    ensures available != [] ==> |pulled| == CardsPerPack
    ensures available == [] ==> pulled == []
    ensures forall c :: c in pulled ==> c in available
    ensures (exists c :: c in available && c.cardType == "Energy") ==> pulled[0].cardType == "Energy"
    ensures (exists c :: c in available && c.cardType == "Trainer") ==> pulled[1].cardType == "Trainer"
    ensures available != [] ==> |draws| == CardsPerPack - 2
    ensures available != [] ==> forall k :: 0 <= k < |draws| ==> FillerFor(pulled[2 + k], draws[k], available)
  {
    var first := GuaranteedSlot(available, "Energy");
    var second := GuaranteedSlot(available, "Trainer");
    var guaranteed := first + second;
    var buckets := GroupByRarity(available);
    var fill;
    fill, draws := FillerSlots(available, buckets, CardsPerPack - |guaranteed|);
    pulled := guaranteed + fill;
    forall c | c in pulled ensures c in available {
      if c !in guaranteed {
        var k :| 0 <= k < |fill| && fill[k] == c;
        assert FillerFor(fill[k], draws[k], available);
      }
    }
    assert available != [] ==> forall k :: 0 <= k < |draws| ==> pulled[2 + k] == fill[k];
  }
}
