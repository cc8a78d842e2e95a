// The statistics `get_user_collection` reports about a user's pulls:
// distinct card ids, a tally per rarity and, per collection, how many
// cards and how many distinct ones.
module Stats {
  import opened Records

  datatype CollectionStat = CollectionStat(count: nat, unique: nat)

  datatype UserStats = UserStats(
    userId: string,
    collectedCards: seq<OwnedCard>,
    totalPacksOpened: nat,
    uniqueCards: nat,
    totalCards: Option<nat>,   // the empty answer has no `total_cards`
    rarityCounts: map<string, nat>,
    collectionStats: map<string, CollectionStat>)

  /** `card.get("rarity", "Unknown")` */
  function RarityKey(o: OwnedCard): (k: string)
  {
    match o.card.rarity
    case Some(r) => r
    case None => "Unknown"
  }

  /** `card.get("collection_id", "Unknown")` */
  function CollectionKey(o: OwnedCard): (k: string)
  {
    match o.card.collectionId
    case Some(c) => c
    case None => "Unknown"
  }

  /** How many pulled cards have key `k`. */
  function Count(s: seq<OwnedCard>, key: OwnedCard -> string, k: string): (n: nat)
    ensures n <= |s|
    ensures n > 0 <==> exists o :: o in s && key(o) == k
  {
    if s == [] then 0
    else
      var init, last := s[..|s| - 1], s[|s| - 1];
      assert s == init + [last];
      Count(init, key, k) + (if key(last) == k then 1 else 0)
  }

  /** The distinct card ids among the pulled cards that have key `k`. */
  function IdsWhere(s: seq<OwnedCard>, key: OwnedCard -> string, k: string): (ids: set<string>)
    ensures |ids| <= Count(s, key, k)
    ensures forall id :: id in ids <==> exists o :: o in s && key(o) == k && o.card.id == id
  {
    if s == [] then {}
    else
      var init, last := s[..|s| - 1], s[|s| - 1];
      assert s == init + [last];
      var before := IdsWhere(init, key, k);
      if key(last) == k then
        assert |before + {last.card.id}| <= |before| + 1;
        before + {last.card.id}
      else before
  }

  /** The counter `m[k] = m.get(k, 0) + 1`, applied to every pulled card. */
  function Tally(s: seq<OwnedCard>, key: OwnedCard -> string): map<string, nat> {
    if s == [] then map[]
    else
      var init, last := s[..|s| - 1], s[|s| - 1];
      var m := Tally(init, key);
      var k := key(last);
      m[k := (if k in m then m[k] else 0) + 1]
  }

  /** Unfolding the count and the id set of key `k` at the last pulled card. */
  lemma AppendUnfold(s: seq<OwnedCard>, o: OwnedCard, key: OwnedCard -> string, k: string)
    ensures Count(s + [o], key, k) == Count(s, key, k) + (if key(o) == k then 1 else 0)
    ensures IdsWhere(s + [o], key, k) == IdsWhere(s, key, k) + (if key(o) == k then {o.card.id} else {})
  {
    assert (s + [o])[..|s + [o]| - 1] == s;
  }

  /** Unfolding the tally at the last pulled card. */
  lemma TallyAppend(s: seq<OwnedCard>, o: OwnedCard, key: OwnedCard -> string)
    ensures Tally(s + [o], key) ==
            Tally(s, key)[key(o) := (if key(o) in Tally(s, key) then Tally(s, key)[key(o)] else 0) + 1]
  {
    assert (s + [o])[..|s + [o]| - 1] == s;
  }

  lemma TallyStep(s: seq<OwnedCard>, i: nat, key: OwnedCard -> string)
    requires i < |s|
    ensures Tally(s[..i + 1], key) ==
            Tally(s[..i], key)[key(s[i]) := (if key(s[i]) in Tally(s[..i], key) then Tally(s[..i], key)[key(s[i])] else 0) + 1]
  {
    assert s[..i + 1] == s[..i] + [s[i]];
    TallyAppend(s[..i], s[i], key);
  }

  /** The sum of a map's values. */
  ghost function MapSum(m: map<string, nat>): nat
    decreases |m|
  {
    if m == map[] then 0
    else
      var k :| k in m;
      assert |m - {k}| < |m| by {
        assert (m - {k}).Keys == m.Keys - {k};
      }
      m[k] + MapSum(m - {k})
  }

  lemma {:induction false} MapSumRemove(m: map<string, nat>, k: string)
    requires k in m
    ensures MapSum(m) == m[k] + MapSum(m - {k})
    decreases |m|
  {
    var j :| j in m && MapSum(m) == m[j] + MapSum(m - {j});
    if j != k {
      assert (m - {j}).Keys == m.Keys - {j};
      assert (m - {k}).Keys == m.Keys - {k};
      MapSumRemove(m - {j}, k);
      MapSumRemove(m - {k}, j);
      assert m - {j} - {k} == m - {k} - {j};
    }
  }

  lemma MapSumUpdate(m: map<string, nat>, k: string, v: nat)
    ensures MapSum(m[k := v]) + (if k in m then m[k] else 0) == MapSum(m) + v
  {
    MapSumRemove(m[k := v], k);
    assert m[k := v] - {k} == m - {k};
    if k in m {
      MapSumRemove(m, k);
    } else {
      assert m - {k} == m;
    }
  }

  /** The tally's values add up to the number of pulled cards. */
  lemma {:induction false} TallySum(s: seq<OwnedCard>, key: OwnedCard -> string)
    ensures MapSum(Tally(s, key)) == |s|
  {
    if s != [] {
      var init, last := s[..|s| - 1], s[|s| - 1];
      assert s == init + [last];
      TallySum(init, key);
      TallyAppend(init, last, key);
      var m := Tally(init, key);
      MapSumUpdate(m, key(last), (if key(last) in m then m[key(last)] else 0) + 1);
    }
  }

  /** `set(card["id"] for card in collected_cards)` */
  function DistinctIds(s: seq<OwnedCard>): (ids: set<string>)
  {
    set o | o in s :: o.card.id
  }

  /** There are never more distinct ids than pulled cards, and none exactly
      when nothing was pulled. */
  lemma {:induction false} DistinctIdsBound(s: seq<OwnedCard>)
    ensures |DistinctIds(s)| <= |s|
    ensures |DistinctIds(s)| == 0 <==> s == []
  {
    if s != [] {
      var init, last := s[..|s| - 1], s[|s| - 1];
      assert s == init + [last];
      DistinctIdsBound(init);
      assert DistinctIds(s) == DistinctIds(init) + {last.card.id};
    }
  }

  /** The `rarity_counts` loop. */
  method TallyRarities(collected: seq<OwnedCard>) returns (counts: map<string, nat>)
    ensures forall k :: k in counts <==> exists o :: o in collected && RarityKey(o) == k
    ensures forall k :: k in counts ==> counts[k] == Count(collected, RarityKey, k)
    ensures MapSum(counts) == |collected|
  {
    counts := map[];
    var i := 0;
    while i < |collected|
      invariant 0 <= i <= |collected|
      invariant counts == Tally(collected[..i], RarityKey)
    {
      var rarity := RarityKey(collected[i]);
      TallyStep(collected, i, RarityKey);
      counts := counts[rarity := (if rarity in counts then counts[rarity] else 0) + 1];
      i := i + 1;
    }
    assert collected[..i] == collected;
    TallyMeaning(collected, RarityKey, counts);
  }

  /** A tally has a key for every key value present, maps it to its count,
      and its values add up to the number of pulled cards. */
  lemma TallyMeaning(s: seq<OwnedCard>, key: OwnedCard -> string, m: map<string, nat>)
    requires m == Tally(s, key)
    ensures forall k :: k in m <==> exists o :: o in s && key(o) == k
    ensures forall k :: k in m ==> m[k] == Count(s, key, k)
    ensures MapSum(m) == |s|
  {
    TallyCounts(s, key);
    TallySum(s, key);
  }

  /** The tally maps exactly the keys that occur to their counts. */
  lemma {:induction false} TallyCounts(s: seq<OwnedCard>, key: OwnedCard -> string)
    ensures forall k :: k in Tally(s, key) <==> Count(s, key, k) > 0
    ensures forall k :: k in Tally(s, key) ==> Tally(s, key)[k] == Count(s, key, k)
  {
    if s != [] {
      var init, last := s[..|s| - 1], s[|s| - 1];
      assert s == init + [last];
      TallyCounts(init, key);
      TallyAppend(init, last, key);
      forall k ensures k in Tally(s, key) <==> Count(s, key, k) > 0
        ensures k in Tally(s, key) ==> Tally(s, key)[k] == Count(s, key, k)
      {
        AppendUnfold(init, last, key, k);
      }
    }
  }

  /** The per-collection counts of a `collection_stats` map. */
  function CountsOf(stats: map<string, CollectionStat>): map<string, nat> {
    map k | k in stats :: stats[k].count
  }

  /** The `collection_stats` loop: per collection key, a counter and the set
      of card ids seen. */
  method GroupByCollection(collected: seq<OwnedCard>) returns (acc: map<string, (nat, set<string>)>)
    ensures forall k :: k in acc <==> Count(collected, CollectionKey, k) > 0
    ensures forall k :: k in acc ==>
              acc[k].0 == Count(collected, CollectionKey, k)
              && acc[k].1 == IdsWhere(collected, CollectionKey, k)
  {
    acc := map[];
    var i := 0;
    while i < |collected|
      invariant 0 <= i <= |collected|
      invariant forall k :: k in acc <==> Count(collected[..i], CollectionKey, k) > 0
      invariant forall k :: k in acc ==>
                  acc[k].0 == Count(collected[..i], CollectionKey, k)
                  && acc[k].1 == IdsWhere(collected[..i], CollectionKey, k)
    {
      var card := collected[i];
      var collId := CollectionKey(card);
      ghost var before := acc;
      var entry := if collId in acc then acc[collId] else (0, {});
      acc := acc[collId := (entry.0 + 1, entry.1 + {card.card.id})];
      CollectionStep(collected, i, before, acc);
      i := i + 1;
    }
    assert collected[..i] == collected;
  }

  /** One step of the `collection_stats` loop keeps every entry equal to the
      count and the id set of the cards seen so far. */
  lemma CollectionStep(collected: seq<OwnedCard>, i: nat,
                       before: map<string, (nat, set<string>)>, after: map<string, (nat, set<string>)>)
    requires i < |collected|
    requires forall k :: k in before <==> Count(collected[..i], CollectionKey, k) > 0
    requires forall k :: k in before ==>
               before[k].0 == Count(collected[..i], CollectionKey, k)
               && before[k].1 == IdsWhere(collected[..i], CollectionKey, k)
    requires var o := collected[i]; var k := CollectionKey(o);
             var entry := if k in before then before[k] else (0, {});
             after == before[k := (entry.0 + 1, entry.1 + {o.card.id})]
    ensures forall k :: k in after <==> Count(collected[..i + 1], CollectionKey, k) > 0
    ensures forall k :: k in after ==>
              after[k].0 == Count(collected[..i + 1], CollectionKey, k)
              && after[k].1 == IdsWhere(collected[..i + 1], CollectionKey, k)
  {
    var done, o := collected[..i], collected[i];
    assert collected[..i + 1] == done + [o];
    forall k ensures k in after <==> Count(done + [o], CollectionKey, k) > 0
      ensures k in after ==> after[k].0 == Count(done + [o], CollectionKey, k)
                             && after[k].1 == IdsWhere(done + [o], CollectionKey, k)
    {
      CollectionStepAt(done, o, before, after, k);
    }
  }

  lemma CollectionStepAt(done: seq<OwnedCard>, o: OwnedCard,
                         before: map<string, (nat, set<string>)>, after: map<string, (nat, set<string>)>,
                         k: string)
    requires k in before <==> Count(done, CollectionKey, k) > 0
    requires k in before ==>
               before[k].0 == Count(done, CollectionKey, k)
               && before[k].1 == IdsWhere(done, CollectionKey, k)
    requires var key := CollectionKey(o);
             var entry := if key in before then before[key] else (0, {});
             after == before[key := (entry.0 + 1, entry.1 + {o.card.id})]
    ensures k in after <==> Count(done + [o], CollectionKey, k) > 0
    ensures k in after ==>
              after[k].0 == Count(done + [o], CollectionKey, k)
              && after[k].1 == IdsWhere(done + [o], CollectionKey, k)
  {
    AppendUnfold(done, o, CollectionKey, k);
    if k == CollectionKey(o) && k !in before {
      var ids := IdsWhere(done, CollectionKey, k);
      assert |ids| <= 0;
    }
  }

  /** The pass that replaces every id set by its size. */
  method CountDistinct(acc: map<string, (nat, set<string>)>) returns (stats: map<string, CollectionStat>)
    ensures stats.Keys == acc.Keys
    ensures forall k :: k in stats ==> stats[k] == CollectionStat(acc[k].0, |acc[k].1|)
  {
    stats := map[];
    var todo := acc.Keys;
    while todo != {}
      invariant todo <= acc.Keys
      invariant stats.Keys == acc.Keys - todo
      invariant forall k :: k in stats ==> stats[k] == CollectionStat(acc[k].0, |acc[k].1|)
      decreases |todo|
    {
      var collId :| collId in todo;
      stats := stats[collId := CollectionStat(acc[collId].0, |acc[collId].1|)];
      todo := todo - {collId};
    }
  }

  /** The per-collection statistics: how many cards and how many distinct
      ones, which never exceeds the former; the counts add up to the number
      of pulled cards. */
  method TallyCollections(collected: seq<OwnedCard>) returns (stats: map<string, CollectionStat>)
    ensures forall k :: k in stats <==> exists o :: o in collected && CollectionKey(o) == k
    ensures forall k :: k in stats ==>
              stats[k].count == Count(collected, CollectionKey, k)
              && stats[k].unique == |IdsWhere(collected, CollectionKey, k)|
    ensures forall k :: k in stats ==> 0 < stats[k].unique <= stats[k].count
    ensures MapSum(CountsOf(stats)) == |collected|
  {
    var acc := GroupByCollection(collected);
    stats := CountDistinct(acc);
    forall k | k in stats ensures 0 < stats[k].unique {
      var o :| o in collected && CollectionKey(o) == k;
      assert o.card.id in IdsWhere(collected, CollectionKey, k);
    }
    CountsSum(collected, stats);
  }

  lemma CountsSum(collected: seq<OwnedCard>, stats: map<string, CollectionStat>)
    requires forall k :: k in stats <==> Count(collected, CollectionKey, k) > 0
    requires forall k :: k in stats ==> stats[k].count == Count(collected, CollectionKey, k)
    ensures MapSum(CountsOf(stats)) == |collected|
  {
    CountsAreTally(collected, stats);
    TallySum(collected, CollectionKey);
  }

  lemma CountsAreTally(collected: seq<OwnedCard>, stats: map<string, CollectionStat>)
    requires forall k :: k in stats <==> Count(collected, CollectionKey, k) > 0
    requires forall k :: k in stats ==> stats[k].count == Count(collected, CollectionKey, k)
    ensures CountsOf(stats) == Tally(collected, CollectionKey)
  {
    var tally, counts := Tally(collected, CollectionKey), CountsOf(stats);
    TallyCounts(collected, CollectionKey);
    assert counts.Keys == tally.Keys;
    forall k | k in counts ensures counts[k] == tally[k] {
      assert counts[k] == stats[k].count;
    }
  }

  /** What the answer for a user with a record reports: the record itself,
      its size, its distinct ids, and the two tallies with their sums. */
  ghost predicate Summarizes(r: UserStats, record: UserCollection) {
    var s := record.collectedCards;
    && r.userId == record.userId && r.collectedCards == s
    && r.totalPacksOpened == record.totalPacksOpened
    && r.totalCards == Some(|s|)
    && r.uniqueCards == |DistinctIds(s)| <= |s|
    && (r.uniqueCards == 0 <==> s == [])
    && (forall k :: k in r.rarityCounts <==> exists o :: o in s && RarityKey(o) == k)
    && (forall k :: k in r.rarityCounts ==> r.rarityCounts[k] == Count(s, RarityKey, k))
    && MapSum(r.rarityCounts) == |s|
    && (forall k :: k in r.collectionStats <==> exists o :: o in s && CollectionKey(o) == k)
    && (forall k :: k in r.collectionStats ==>
          r.collectionStats[k].count == Count(s, CollectionKey, k)
          && r.collectionStats[k].unique == |IdsWhere(s, CollectionKey, k)|
          && 0 < r.collectionStats[k].unique <= r.collectionStats[k].count)
    && MapSum(CountsOf(r.collectionStats)) == |s|
  }

  /** The answer for a user that has a record. */
  method Summarize(record: UserCollection) returns (r: UserStats)
    ensures Summarizes(r, record)
  {
    var collected := record.collectedCards;
    DistinctIdsBound(collected);
    var unique := |DistinctIds(collected)|;
    var rarityCounts := TallyRarities(collected);
    var collectionStats := TallyCollections(collected);
    r := UserStats(record.userId, collected, record.totalPacksOpened, unique,
                   Some(|collected|), rarityCounts, collectionStats);
  }

  /** The answer for a user without a record: nothing pulled, nothing counted. */
  function EmptyStats(userId: string): (r: UserStats)
    ensures r.userId == userId
    ensures r.collectedCards == [] && r.totalPacksOpened == 0 && r.uniqueCards == 0
    ensures r.rarityCounts == map[] && r.collectionStats == map[] && r.totalCards.None?
  {
    UserStats(userId, [], 0, 0, None, map[], map[])
  }
}
