# Card-pack backend, modelled in Dafny

This project models the backend of a trading-card "pack opening" service.
Administrators create card collections (sets) and cards. Each card has a
rarity, a type (Pokemon, Trainer, Energy) and a number within its
collection. Players open six-card packs drawn from one collection. The
backend keeps every pulled card in the player's collection and reports
statistics about it.

The database is replaced by an in-memory store, the class
`Server.CardStore`. It holds three fields:

- the cards, as a `seq<Card>`;
- the card collections, as a `seq<CardCollection>`;
- the per-user records, as a `map<string, UserCollection>`.

Each HTTP handler is a method of the store. It returns a value or one of
the two explicit error responses, 404 (`NotFound`) or 400 (`BadRequest`).

The modules follow the handlers:

- `Records`: the documents and the store queries (filter by collection,
  first match by id, positional removal).
- `Overview`: the collection overview, meaning the stable sort by card
  number and the slots `1..total_cards_in_set`, each holding the first
  card with that number.
- `Pack`: how `open_pack` assembles a pack. There is one Energy slot, one
  Trainer slot, and filler slots drawn by rarity. Every
  `random.choice` is a nondeterministic pick (`:|`) from the list the
  source picks from, so every contract holds whatever is picked.
- `Stats`: the statistics of `get_user_collection` (distinct ids, the
  rarity tally, per-collection count and distinct count), each with a
  recursive reference definition (`Count`, `IdsWhere`, `Tally`, `MapSum`).
- `Server`: the store and its handlers.

`CardStore.Valid()` is the invariant that every state-changing handler
keeps:

- every stored card has a rarity, a collection id and a number;
- card ids are distinct;
- no two cards share a `(collection_id, card_number)` pair;
- every user record is filed under its own user id.

The source reads `rarity`, `collection_id` and `card_number` with a default
(`.get(..., default)`). So the model gives those fields an `Option` type
and models the default wherever the source applies one. The overview's
`total_cards_in_set` is optional too, with a default of 50. `None` stands
for an absent key only. Python's `.get` returns a present `null` as `None`
rather than the default, and the model has no value for that case (see
`Server.CardStore.CreateCardFromUrl` under "## Left out").

## Model

| member | source | states |
|---|---|---|
| Records.FilterMultiset | backend/server.py:288 | a filter keeps each element that satisfies the predicate exactly as often as it occurs, and no other element |
| Records.FilterConcat | backend/server.py:288 | a filter keeps the order: filtering a concatenation concatenates the filtered parts |
| Records.CardsOf | backend/server.py:288 | the cards of a collection are exactly the stored cards with that `collection_id`; the result is empty iff no card references the collection |
| Records.CardsOfMultiset | backend/server.py:118 | each card of the collection occurs in the query result exactly as often as in the store, and no other card occurs, so its length is the number of the collection's stored cards |
| Records.CardsOfConcat | backend/server.py:288 | the query result is in store order: over two parts of the store, it is the result over the first part followed by the result over the second |
| Records.FirstIndex | backend/server.py:129 | `find_one` in store order: the first position whose element satisfies the predicate: absent iff there is none, otherwise no earlier element satisfies it |
| Records.IndexOfCollection | backend/server.py:129-131 | `find_one` by id: absent iff no collection has the id, otherwise the position of the first collection with that id |
| Records.IndexOfCard | backend/server.py:328-330 | `find_one` by id on cards: absent iff no card has the id, otherwise the position of the first such card |
| Records.RemoveAt | backend/server.py:139 | `delete_one` removes exactly one element; the ones before keep their position and the ones after shift down by one |
| Overview.SortKey | backend/server.py:291 | the `.get("card_number", 0)` key; the sort by it is stated by Overview.SortByNumber, InsertSorted and SortKeepsFirstNumbered |
| Overview.TotalOf | backend/server.py:294 | the `.get("total_cards_in_set", 50)` set size; the overview built for it is stated by Overview.BuildCompleteSet and Server.CardStore.GetCollectionOverview |
| Overview.Insert | backend/server.py:291 | one insertion step of the sort: the result has the cards of the input plus the inserted card, one more element, and starts with the inserted card or the input's first card |
| Overview.SortByNumber | backend/server.py:291 | the sort by `card_number` (0 when missing) is a permutation of its input, of the same length, and sorted by that key |
| Overview.InsertSorted | backend/server.py:291 | inserting a card into a sorted list keeps it sorted |
| Overview.FirstNumbered | backend/server.py:299 | the `next(...)` lookup is None iff no card has number n; otherwise it is a card numbered n that no earlier card with that number precedes |
| Overview.InsertFirstNumbered | backend/server.py:291 | inserting a card changes the first card numbered n only when the inserted card has number n |
| Overview.SortKeepsFirstNumbered | backend/server.py:291-299 | because the sort is stable, the first card numbered n after sorting is the first one in the original order |
| Overview.CompleteSetSlots | backend/server.py:297-311 | slot k of a complete set has number k+1 with k < total; it is marked present iff some card has that number, and then it holds the first such card; otherwise it holds None |
| Overview.SortedCompleteSet | backend/server.py:290-311 | the complete set built from the sorted cards is the complete set of the cards in their original order |
| Overview.BuildCompleteSet | backend/server.py:295-311 | the loop builds one slot per number 1..total (none when total <= 0); each slot holds the first card with its number and `exists` says whether there is one |
| Pack.OfType | backend/server.py:371-373 | the type filter keeps exactly the cards of that type |
| Pack.WithRarity | backend/server.py:394-400 | a rarity bucket holds exactly the cards of that rarity, and is empty iff no card has it |
| Pack.GroupByRarity | backend/server.py:394-400 | after the grouping loop, the keys are exactly the rarities present; each bucket is that rarity's filter and is nonempty |
| Pack.GuaranteedSlot | backend/server.py:377-389 | a guaranteed slot holds one card of `available` when there is any; it has the wanted type whenever `available` has a card of that type |
| Pack.FillerSlot | backend/server.py:414-422 | a filler slot holds one card of `available` when there is any; it has the drawn rarity whenever some card has that rarity, and is a random card of `available` otherwise |
| Pack.FillerSlots | backend/server.py:402-423 | the loop draws `remaining` rarities, each one of the six; it adds one card of `available` per draw, and that card has the drawn rarity whenever the collection has a card of it |
| Pack.AssemblePack | backend/server.py:370-423 | six cards, all from the collection; the first is Energy and the second is Trainer whenever the collection has such a card; the four fillers come with their four drawn rarities, and each filler has its drawn rarity whenever the collection has a card of it; nothing when the collection is empty |
| Stats.RarityKey | backend/server.py:495 | the `.get("rarity", "Unknown")` key; the tally over it is stated by Stats.TallyRarities |
| Stats.CollectionKey | backend/server.py:501 | the `.get("collection_id", "Unknown")` key; the per-collection figures over it are stated by Stats.GroupByCollection and Stats.TallyCollections |
| Stats.Tally | backend/server.py:493-496 | the reference counter dictionary; its keys and counts are stated by Stats.TallyCounts and its sum by Stats.TallySum |
| Stats.Count | backend/server.py:493-505 | the number of pulled cards with a given key is at most the number pulled, and positive iff some pulled card has that key |
| Stats.IdsWhere | backend/server.py:503-505 | the distinct ids among the pulled cards with a key are exactly their ids, and are no more than their count |
| Stats.TallyCounts | backend/server.py:493-496 | the counter dictionary maps exactly the keys that occur to their counts |
| Stats.TallyMeaning | backend/server.py:493-496 | a tally has a key iff some pulled card has that key, maps it to its count, and its values sum to the number of pulled cards |
| Stats.TallySum | backend/server.py:493-496 | the values of a tally add up to the number of pulled cards |
| Stats.MapSumUpdate | backend/server.py:496 | raising one counter raises the sum of all counters by the same amount |
| Stats.DistinctIds | backend/server.py:490 | the set of the pulled cards' ids; its size is bounded by Stats.DistinctIdsBound and reported by Stats.Summarize |
| Stats.DistinctIdsBound | backend/server.py:490 | `unique_cards` is at most the number of pulled cards, and 0 iff nothing was pulled |
| Stats.TallyRarities | backend/server.py:492-496 | `rarity_counts` has a key iff some pulled card has that rarity ("Unknown" when missing), maps it to its count, and the counts sum to `total_cards` |
| Stats.GroupByCollection | backend/server.py:498-505 | after the loop, each collection key that occurs ("Unknown" when missing) has its count and the set of its card ids |
| Stats.CountDistinct | backend/server.py:507-509 | the pass that replaces every id set by its size keeps the keys and the counts |
| Stats.CountsSum | backend/server.py:498-509 | the per-collection counts add up to the number of pulled cards |
| Stats.TallyCollections | backend/server.py:498-509 | `collection_stats` has a key iff some pulled card has that collection; its `count` and `unique` are the reference counts, with 0 < unique <= count; the counts sum to `total_cards` |
| Stats.Summarize | backend/server.py:488-519 | the answer for a user with a record: the record's cards and packs, `total_cards`, distinct ids, and both tallies with the properties above |
| Stats.EmptyStats | backend/server.py:478-486 | the answer for a user without a record: the requested user id, no cards, 0 packs, 0 unique, empty maps and no `total_cards` |
| Server.NumberTaken | backend/server.py:173-179 | the duplicate lookup is true iff some card of that collection, as `CardsOf` finds it, has that number |
| Server.AppendKeepsNumbersDistinct | backend/server.py:173-182 | in a store whose `(collection_id, card_number)` pairs are distinct, appending a card keeps them distinct iff the duplicate lookup finds nothing |
| Server.AfterLastDot | backend/server.py:223 | `split('.')[-1]` is the dot-free suffix that follows the last dot |
| Server.Extension | backend/server.py:223 | with a dot in the name, the extension is dot-free and the name is its prefix, a dot and the extension; otherwise it is `jpg` |
| Server.Stamp | backend/server.py:453-458 | one stamped copy per pulled card, in pull order, each with its own `collected_at` |
| Server.CardStore.constructor | backend/server.py:32-36 | the store starts empty and valid |
| Server.CardStore.CreateCollection | backend/server.py:98-109 | the collection is appended as given; cards and users are unchanged |
| Server.CardStore.GetCollections | backend/server.py:111-123 | every collection, in order, with `actual_cards` equal to the number of cards referencing it, which is 0 iff none does |
| Server.CardStore.DeleteCollection | backend/server.py:125-143 | 404 and no change when no collection has the id; 400 and no change while a card references it; otherwise only the first collection with that id is removed |
| Server.CardStore.InsertCard | backend/server.py:173-182 | 400 and no change when the `(collection_id, card_number)` pair is taken, otherwise the card is appended; the store stays valid, so pairs stay unique |
| Server.CardStore.CreateCardFromUrl | backend/server.py:149-192 | the duplicate check gives 400 with no change; otherwise the card with the given fields and URL is appended |
| Server.CardStore.CreateCard | backend/server.py:194-256 | the duplicate check gives 400 with no change; otherwise the card with the given name, rarity, type, collection and number is appended, with image URL `/uploads/<id>.<extension>` |
| Server.CardStore.DeleteCard | backend/server.py:324-335 | 404 and no change when no card has the id; otherwise that card is removed, the others keep their order, and no card with the id remains |
| Server.CardStore.GetCollectionOverview | backend/server.py:279-318 | 404 iff the collection is unknown; otherwise the collection, the set size (default 50), `actual_cards_created` equal to the number of its cards, and the complete set of those cards |
| Server.CardStore.AddCardsToCollection | backend/server.py:438-472 | get or create the record (empty, 0 packs); the old prefix is unchanged, the stamped cards follow in pull order, there is one more pack, and other users are unchanged |
| Server.CardStore.OpenPack | backend/server.py:353-431 | 404 for an unknown collection and 400 for an empty one, both without change; otherwise six cards of that collection with the Energy and Trainer guarantees, four drawn rarities (ghost `draws`) with each filler of its drawn rarity whenever the collection has a card of it, and the pack recorded for the user as above |
| Server.CardStore.GetUserCollection | backend/server.py:474-519 | the empty answer without a record, otherwise the record's summary |

## Left out

- MongoDB, FastAPI routing, CORS, the static mount and the `uvicorn` startup (backend/server.py:14-43, 553-555) are replaced by the in-memory store. Each handler runs alone and to completion. So the race between the duplicate check and the insert (backend/server.py:174-182) is not modelled.
- Image files are not modelled. Saving the upload and unlinking the image on delete (backend/server.py:225-228, 337-345) are file-system I/O. Only the image URL is modelled.
- `uuid.uuid4()` is not modelled (backend/server.py:153, 220, 450, 457). The fresh card id, the `collected_at` stamps and `created_at` are parameters. Freshness of the card id is a precondition of the create handlers.
- The rarity draw is not modelled: the `RARITY_PROBABILITIES` table, `random.random()` and the cumulative floating-point loop (backend/server.py:46-53, 403-412). Each filler slot's rarity is an arbitrary element of the six drawable rarities. That loop can only ever pick one of them, `Common` included.
- Pack.AssemblePack: the contract does not say how often each rarity appears. The probabilities are floating point and random.
- The `pokemon_cards` list (backend/server.py:371) is not modelled, because nothing reads it.
- The `except Exception` → 500 wrappers and `async` are not modelled. So is the silent `except` of `add_cards_to_collection` (backend/server.py:471-472). Only the explicit 404 and 400 branches carry behaviour.
- The `KeyError` on `card["rarity"]` in the pack grouping (backend/server.py:397) is excluded by `CardStore.Valid()`, which gives every stored card a rarity.
- The `KeyError` on `card["id"]` in the statistics (backend/server.py:490, 505) cannot arise in the model: `Card.id` is a required field of the datatype, and collected cards are stamped copies of stored cards (`Server.Stamp`).
- Server.CardStore.CreateCardFromUrl: a request that lacks a field raises `KeyError` (500) in the source. The model takes every field as a parameter.
- Server.CardStore.CreateCardFromUrl: the source's body is an untyped `dict` (backend/server.py:150-170), so a field may be JSON `null` or of another type; the model's typed, non-null parameters exclude this. Two behaviours follow that the model does not show. A stored `"rarity": null` or `"collection_id": null` is tallied under a `None` key, not under "Unknown" (backend/server.py:495, 501). A stored `"card_number": null` or `"3"` is missed by the duplicate lookup of a later request whose number is an int (backend/server.py:174-177, 212-215); a second `null` request does match it. In the overview, the sort raises `TypeError`, answered with 500, only when the same collection holds another card whose key cannot be ordered against this one, such as an int against `"3"`, or `None` against an int or another `None` (backend/server.py:291). Otherwise a `"3"` card never equals a slot number, so its slot shows as missing (backend/server.py:299).
- The second `deleted_count == 0` → 404 in `delete_collection` and `delete_card` (backend/server.py:140-141, 334-335) is not modelled. It cannot fire when there is no concurrent delete.
- The pass-through card fields are not modelled (`hp`, `attack_1`, `attack_2`, `weakness`, `resistance`, `description`, `set_name`), and neither are the collection's `release_date` and `image_url`. The handlers copy them without looking at them.
- These read-only endpoints are not modelled, because each returns a store query or a constant with no logic: `get_cards`, `get_cards_by_collection`, `health_check`, `get_rarities`, `get_card_types` and `get_pack_probabilities`.
- The `user_id` default `"default_user"` of the pack request (backend/server.py:84) is not modelled. The user id is a parameter.
- frontend/src/App.js is not part of this model. It is React UI and `fetch` calls, and it contains no collection-display logic (no grouping of owned copies, no rarity ranking, no missing-card padding).
- backend_test.py is not part of this model. It is an HTTP client that checks only status codes.
