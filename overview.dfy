// The collection overview: a collection's cards laid out over the numbered
// slots 1..total_cards_in_set, with a marker for every slot that has no card.
module Overview {
  import opened Records

  /** One numbered slot of the overview; `present` is the source's `exists`. */
  datatype Slot = Slot(cardNumber: int, present: bool, card: Option<Card>)

  datatype CollectionOverview = CollectionOverview(
    collection: CardCollection,
    completeSet: seq<Slot>,
    totalCardsInSet: int,
    actualCardsCreated: nat)

  /** The sort key of the overview: the card number, 0 when it is missing. */
  function SortKey(c: Card): (k: int)
  {
    match c.cardNumber
    case Some(n) => n
    case None => 0
  }

  /** The set size the overview is built for, 50 when the field is missing. */
  function TotalOf(collection: CardCollection): (total: int)
  {
    match collection.totalCardsInSet
    case Some(n) => n
    case None => DefaultTotalCardsInSet
  }

  /** How many slots `range(1, total + 1)` walks. */
  function SlotCount(total: int): nat {
    if total > 0 then total else 0
  }

  ghost predicate SortedByKey(s: seq<Card>) {
    forall i, j :: 0 <= i < j < |s| ==> SortKey(s[i]) <= SortKey(s[j])
  }

  /** Puts `c` in front of the first card whose key is not smaller, so that
      `c` stays ahead of the cards of equal key that follow it. */
  function Insert(c: Card, s: seq<Card>): (r: seq<Card>)
    ensures multiset(r) == multiset(s) + multiset{c}
    ensures |r| == |s| + 1
    ensures r[0] == c || (s != [] && r[0] == s[0])
  {
    if s == [] || SortKey(c) <= SortKey(s[0]) then [c] + s
    else
      assert s == [s[0]] + s[1..];
      [s[0]] + Insert(c, s[1..])
  }

  lemma {:induction false} InsertSorted(c: Card, s: seq<Card>)
    requires SortedByKey(s)
    ensures SortedByKey(Insert(c, s))
  {
    if s != [] && SortKey(c) > SortKey(s[0]) {
      var t := Insert(c, s[1..]);
      assert SortedByKey(s[1..]) by {
        forall i, j | 0 <= i < j < |s[1..]| ensures SortKey(s[1..][i]) <= SortKey(s[1..][j]) {
          assert s[1..][i] == s[i + 1] && s[1..][j] == s[j + 1];
        }
      }
      InsertSorted(c, s[1..]);
      assert SortKey(s[0]) <= SortKey(t[0]) by {
        if t[0] != c { assert t[0] == s[1..][0] == s[1]; }
      }
      var r := [s[0]] + t;
      assert r == Insert(c, s);
      forall i, j | 0 <= i < j < |r| ensures SortKey(r[i]) <= SortKey(r[j]) {
        if i == 0 {
          assert r[j] == t[j - 1];
          assert SortKey(t[0]) <= SortKey(t[j - 1]);
        } else {
          assert r[i] == t[i - 1] && r[j] == t[j - 1];
        }
      }
    }
  }

  /** The stable sort of `cards.sort(key=lambda x: x.get("card_number", 0))`,
      written as an insertion sort. */
  function SortByNumber(s: seq<Card>): (r: seq<Card>)
    ensures multiset(r) == multiset(s)
    ensures |r| == |s|
    ensures SortedByKey(r)
  {
    if s == [] then []
    else
      assert s == [s[0]] + s[1..];
      InsertSorted(s[0], SortByNumber(s[1..]));
      Insert(s[0], SortByNumber(s[1..]))
  }

  /** What `next((card for card in cards if card.get("card_number") == n), None)`
      finds: the first card numbered `n`, if any. */
  function FirstNumbered(s: seq<Card>, n: int): (r: Option<Card>)
    ensures r.None? <==> forall c :: c in s ==> c.cardNumber != Some(n)
    ensures r.Some? ==> exists j :: 0 <= j < |s| && s[j] == r.value
                                  && forall i :: 0 <= i < j ==> s[i].cardNumber != Some(n)
    ensures r.Some? ==> r.value in s && r.value.cardNumber == Some(n)
  {
    if s == [] then None
    else if s[0].cardNumber == Some(n) then Some(s[0])
    else
      var r := FirstNumbered(s[1..], n);
      assert r.Some? ==> exists j :: 0 <= j < |s| && s[j] == r.value
                                  && forall i :: 0 <= i < j ==> s[i].cardNumber != Some(n) by {
        if r.Some? {
          var j :| 0 <= j < |s[1..]| && s[1..][j] == r.value
                   && forall i :: 0 <= i < j ==> s[1..][i].cardNumber != Some(n);
          assert forall i :: 0 <= i < j + 1 ==> s[i].cardNumber != Some(n) by {
            forall i | 0 <= i < j + 1 ensures s[i].cardNumber != Some(n) {
              if i > 0 { assert s[i] == s[1..][i - 1]; }
            }
          }
          assert s[j + 1] == r.value;
        }
      }
      r
  }

  /** Inserting `c` changes the first card numbered `n` only when `c` itself
      is numbered `n`, and then `c` becomes it. */
  lemma {:induction false} InsertFirstNumbered(c: Card, s: seq<Card>, n: int)
    ensures FirstNumbered(Insert(c, s), n) == if c.cardNumber == Some(n) then Some(c) else FirstNumbered(s, n)
  {
    if s == [] || SortKey(c) <= SortKey(s[0]) {
      assert ([c] + s)[1..] == s;
    } else {
      InsertFirstNumbered(c, s[1..], n);
      assert ([s[0]] + Insert(c, s[1..]))[1..] == Insert(c, s[1..]);
    }
  }

  /** Sorting by card number is stable, so the first card numbered `n` in
      the sorted list is the first one in the original order. */
  lemma {:induction false} SortKeepsFirstNumbered(s: seq<Card>, n: int)
    ensures FirstNumbered(SortByNumber(s), n) == FirstNumbered(s, n)
  {
    if s != [] {
      SortKeepsFirstNumbered(s[1..], n);
      InsertFirstNumbered(s[0], SortByNumber(s[1..]), n);
    }
  }

  /** Slot `slot` is the entry for number `n`: it holds the first card with
      that number, and is marked present exactly when it holds one. */
  ghost predicate SlotOf(slot: Slot, cards: seq<Card>, n: int) {
    && slot.cardNumber == n
    && slot.card == FirstNumbered(cards, n)
    && (slot.present <==> slot.card.Some?)
  }

  /** `slots` is the complete set of `cards` for a set of size `total`: one
      slot per number 1..total, in order. */
  ghost predicate CompleteSetOf(slots: seq<Slot>, cards: seq<Card>, total: int) {
    && |slots| == SlotCount(total)
    && forall k :: 0 <= k < |slots| ==> SlotOf(slots[k], cards, k + 1)
  }

  /** What a complete set tells about each numbered slot: it is marked
      present exactly when some card has that number, and then it holds such
      a card, the first one in `cards`. */
  lemma CompleteSetSlots(slots: seq<Slot>, cards: seq<Card>, total: int, k: int)
    requires CompleteSetOf(slots, cards, total)
    requires 0 <= k < |slots|
    ensures k < total && slots[k].cardNumber == k + 1
    ensures slots[k].present <==> exists c :: c in cards && c.cardNumber == Some(k + 1)
    ensures slots[k].present ==> slots[k].card.Some? && slots[k].card.value in cards
                                  && slots[k].card.value.cardNumber == Some(k + 1)
    ensures slots[k].present ==> exists j :: 0 <= j < |cards| && cards[j] == slots[k].card.value
                                           && forall i :: 0 <= i < j ==> cards[i].cardNumber != Some(k + 1)
    ensures !slots[k].present ==> slots[k].card.None?
  {
    assert SlotOf(slots[k], cards, k + 1);
  }

  /** The complete set built from the sorted cards is the complete set of
      the cards in their original order. */
  lemma SortedCompleteSet(cards: seq<Card>, slots: seq<Slot>, total: int)
    requires CompleteSetOf(slots, SortByNumber(cards), total)
    ensures CompleteSetOf(slots, cards, total)
  {
    forall k | 0 <= k < |slots| ensures SlotOf(slots[k], cards, k + 1) {
      SortedSlot(cards, slots[k], k + 1);
    }
  }

  lemma SortedSlot(cards: seq<Card>, slot: Slot, n: int)
    requires SlotOf(slot, SortByNumber(cards), n)
    ensures SlotOf(slot, cards, n)
  {
    SortKeepsFirstNumbered(cards, n);
  }

  /** The `for i in range(1, total + 1)` loop that builds `complete_set`. */
  method BuildCompleteSet(cards: seq<Card>, total: int) returns (slots: seq<Slot>)
    ensures CompleteSetOf(slots, cards, total)
  {
    slots := [];
    var i := 1;
    while i <= total
      invariant 1 <= i <= SlotCount(total) + 1
      invariant |slots| == i - 1
      invariant forall k :: 0 <= k < |slots| ==> SlotOf(slots[k], cards, k + 1)
    {
      var found := FirstNumbered(cards, i);
      if found.Some? {
        slots := slots + [Slot(i, true, found)];
      } else {
        slots := slots + [Slot(i, false, None)];
      }
      i := i + 1;
    }
  }
}
