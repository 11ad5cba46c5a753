# Quest-script router model

This project models `QuestParserCollection`, the zone server's quest-script router, in Dafny.
The router keeps a registry of scripting backends ("quest interfaces"), each with a
file-extension tag. The registration order is the load precedence.

When a query (`*HasQuestSub*`) or an event (`Event*`) arrives for an NPC, a player, an item or a spell, the router:
- consults a per-class load-status cache;
- on a miss, finds the script file by walking a fixed ladder of path stems and, for each stem, trying every backend's extension in precedence order;
- records the outcome;
- asks the backend that won to load the file;
- forwards the query or event to that backend.

Module layout:

- `Decimal` (decimal.dfy): the decimal spelling `itoa` produces, with its injectivity.
- `QuestPaths` (paths.dfy):
  - the stem ladders of the six resolvers;
  - the backtick-to-hyphen rewrite of NPC names, as a specification function and as the in-place loop;
  - the item script key, derived once from a query name and once from an event identifier.
- `Resolver` (resolver.dfy): the probing engine shared by the resolvers.
  - `ResolveStem` and `ResolveLadder` are the specification.
  - `ProbeStem` is the precedence-list loop with its early return, proved equal to `ResolveStem`.
  - Lemmas characterise the result against an independent description: the probe order (`ProbeOrder`) and the first existing candidate in it (`FirstExisting`).
- `Router` (router.dfy): the class `QuestParserCollection`.
  - Its fields are the registry (`interfaces`, `extensions`, `precedence`), the keyed caches (`npcStatus`, `spellStatus`, `itemStatus`) and the singleton slots (`playerStatus`, `globalPlayerStatus`, `globalNpcStatus`).
  - A ghost `trace` records every file probe, every call into a backend (load, query, event, variable export, reload), and the timer reset on `quest_manager`.
  - Every dispatch method states its new cache state and the calls it appends to `trace`. Both are given as functions of the old state and of what the resolver returns (`DispatchCalls`, `DispatchAnswer`, `Settle`, `KeepOnMiss`, `Reprobed`).
  - `Valid()` requires a consistent registry and that every cached backend identifier is registered. That is what makes the unchecked `_interfaces.find` lookups safe.
- `LadderExamples` (ladder_examples.dfy): a concrete run of the NPC ladder.

The outside world is passed in as a `World` value:
- the set of files that exist;
- the zone global, as an `Option`;
- the NPC type table, as a partial map from type id to display name.

The backends' answers to `*HasQuestSub` come from an `Oracle` parameter.

Quirks of the code that the model keeps:

- Re-registering a backend identifier adds a second precedence entry. Both entries are probed with the identifier's latest extension, because the extension is looked up by identifier at probe time (zone/QuestParserCollection.cpp:364). See `Resolver.DuplicateRegistrationProbesTwice`.
- The keyed caches (NPC, spell, item) and `EventNPCGlobal` record a failure; the other singleton paths never do.
  - `HasQuestSubGlobal`, both `PlayerHasQuestSub*` methods and both `EventPlayer*` methods leave their slot Unloaded after their own miss, so their next call probes again.
  - `EventNPCGlobal`'s guard probes again after a recorded failure. `HasQuestSubGlobal` shares that slot and treats the failure as settled: after an `EventNPCGlobal` miss it answers false without probing, until a reload or a later event hit. See `Router.QuestParserCollection.GlobalNpcEventFailureSilencesQuery`.
- `PlayerHasQuestSubGlobal` resolves with the local-player ladder and `LoadPlayerScript`, not with the global-player ladder. It shares `_global_player_quest_status` with `EventPlayerGlobal`, so whichever hits first picks the backend for both. After a `PlayerHasQuestSubGlobal` hit, `EventPlayerGlobal` forwards its event to a backend that only ran `LoadPlayerScript`, and never probes global_player. See `Router.QuestParserCollection.GlobalPlayerSlotIsShared`.
- `HasQuestSub` and `PlayerHasQuestSub` short-circuit: when the local part answers true, the global part is not run and its slot is untouched.

## Model

| member | source | states |
|---|---|---|
| Router.QuestParserCollection.constructor | zone/QuestParserCollection.cpp:33-37 | an empty registry, empty caches, all three singleton slots Unloaded, and the class invariant established |
| Router.QuestParserCollection.RegisterQuestInterface | zone/QuestParserCollection.cpp:42-46 | the identifier's entries in the interface and extension maps are overwritten and the backend is appended to the precedence list; the invariant is kept |
| Router.QuestParserCollection.AddVar | zone/QuestParserCollection.cpp:48-54 | exactly one variable export per precedence entry, in precedence order, and no other state change |
| Router.QuestParserCollection.ReloadQuests | zone/QuestParserCollection.cpp:56-72 | the timer reset comes first and only when asked; then all three maps are empty, all three slots Unloaded, and one reload call goes to each backend in precedence order |
| Router.QuestParserCollection.ReloadedKeyIsReprobed | zone/QuestParserCollection.cpp:61-66 | after a reload every key reads Unloaded, and its next dispatch is a full miss path: probes, then load and forward on a hit |
| Router.QuestParserCollection.HasQuestSub | zone/QuestParserCollection.cpp:74-76 | the answer is local-or-global with short-circuit; when the local part is true the global slot and calls are untouched |
| Router.QuestParserCollection.HasQuestSubLocal | zone/QuestParserCollection.cpp:78-104 | a cached key forwards to its registered backend (or, failed, answers false with no call); an uncached key records Loaded or FailedToLoad, and on a hit it loads and then asks |
| Router.QuestParserCollection.HasQuestSubGlobal | zone/QuestParserCollection.cpp:106-126 | resolves only while Unloaded; a miss leaves the slot Unloaded and answers false; a hit loads, records Loaded and asks |
| Router.QuestParserCollection.PlayerHasQuestSub | zone/QuestParserCollection.cpp:128-130 | local-or-global with short-circuit, the global slot untouched when the local part is true |
| Router.QuestParserCollection.PlayerHasQuestSubLocal | zone/QuestParserCollection.cpp:132-146 | resolves through the player ladder only while Unloaded; a miss is not recorded |
| Router.QuestParserCollection.PlayerHasQuestSubGlobal | zone/QuestParserCollection.cpp:148-162 | uses the local-player ladder and `LoadPlayerScript`, then asks the global-player question; a miss is not recorded |
| Router.QuestParserCollection.SpellHasQuestSub | zone/QuestParserCollection.cpp:164-184 | the keyed-cache protocol on spell ids with the spell ladder |
| Router.QuestParserCollection.ItemHasQuestSub | zone/QuestParserCollection.cpp:186-216 | the keyed-cache protocol on the item script key derived from the query name |
| QuestPaths.ItemScriptKey | zone/QuestParserCollection.cpp:187-195 | charm file for the scale-calc and enter-zone names; `script_` then the decimal script file id for the two click names; the decimal item id for every other name |
| QuestPaths.ItemEventScriptKey | zone/QuestParserCollection.cpp:302-309 | charm file for the scale-calc and enter-zone events; `script_` then the decimal script file id for the two click events; the decimal item id for every other event |
| QuestPaths.ItemKeysAgree | zone/QuestParserCollection.cpp:300-309 | the key `EventItem` derives from an event is the key `ItemHasQuestSub` derives from that event's name |
| QuestPaths.ClickKeyIsNotIdKey | zone/QuestParserCollection.cpp:304-308 | the key of either click event never equals the id key of any other event, for any two items |
| QuestPaths.IdKeysDistinct | zone/QuestParserCollection.cpp:193-194 | two items with different ids never share an id-keyed slot |
| QuestPaths.ItemKeyExample | zone/QuestParserCollection.cpp:190-194 | script file 42 clicks to `script_42`; item 7 under any other event is keyed `7` |
| Decimal.NatToString | zone/QuestParserCollection.cpp:192 | a non-empty string of decimal digits, at least two for values of ten or more |
| Decimal.NatToStringInjective | zone/QuestParserCollection.cpp:194 | different numbers have different decimal spellings |
| Router.QuestParserCollection.EventNPC | zone/QuestParserCollection.cpp:218-221 | always the local dispatch and then the global one, with both new statuses and both call sequences in that order |
| Router.QuestParserCollection.EventNPCLocal | zone/QuestParserCollection.cpp:223-242 | the keyed-cache protocol on NPC type ids, forwarding the event instead of asking |
| Router.QuestParserCollection.EventNPCGlobal | zone/QuestParserCollection.cpp:244-259 | only a Loaded slot is used as is; Unloaded and FailedToLoad both resolve again; a miss records FailedToLoad |
| Router.GlobalNpcEventReprobesFailure | zone/QuestParserCollection.cpp:245-257 | after a miss the slot is FailedToLoad, which the guard reads as Unloaded, so the next event resolves again |
| Router.QuestParserCollection.EventPlayer | zone/QuestParserCollection.cpp:261-264 | always the local player dispatch and then the global-player one |
| Router.QuestParserCollection.EventPlayerLocal | zone/QuestParserCollection.cpp:266-281 | resolves only while Unloaded; a miss is not recorded; a cached backend receives the event |
| Router.QuestParserCollection.EventPlayerGlobal | zone/QuestParserCollection.cpp:283-298 | the same with the global-player ladder and `LoadGlobalPlayerScript` |
| Router.QuestParserCollection.EventItem | zone/QuestParserCollection.cpp:300-329 | the keyed-cache protocol on the item script key derived from the event |
| Router.QuestParserCollection.EventSpell | zone/QuestParserCollection.cpp:331-350 | the keyed-cache protocol on spell ids, forwarding the event |
| Router.Settle | zone/QuestParserCollection.cpp:91-101 | a keyed cache gains exactly the queried key; an already cached key leaves the map as it is; a new key records Loaded(id of the backend found) on a hit and FailedToLoad on a miss; every other entry is kept |
| Router.KeepOnMiss | zone/QuestParserCollection.cpp:107-116 | a singleton slot changes only from Unloaded to Loaded(id) on a hit; a miss, or a slot already set, leaves it as it was, so it never becomes FailedToLoad |
| Router.Reprobed | zone/QuestParserCollection.cpp:245-257 | a Loaded global NPC slot is kept; otherwise it becomes Loaded(id) on a hit and FailedToLoad on a miss, so it is never left Unloaded |
| Router.QuestParserCollection.GlobalNpcEventFailureSilencesQuery | zone/QuestParserCollection.cpp:106-126 | after an `EventNPCGlobal` miss the shared slot holds FailedToLoad, and `HasQuestSubGlobal` then answers false with no call and no probe |
| Router.QuestParserCollection.GlobalPlayerSlotIsShared | zone/QuestParserCollection.cpp:148-156 | after a `PlayerHasQuestSubGlobal` hit through the player ladder, the shared slot is Loaded with that backend, and `EventPlayerGlobal` makes a single forward to it, with no probe of global_player and no load |
| Router.MissCallsShape | zone/QuestParserCollection.cpp:91-98 | on a miss with a hit, the backend found is loaded exactly once with the resolved file and the key, right before the request goes to that same backend; everything earlier is a probe |
| Router.QuestParserCollection.SettledKeyIsNotReprobed | zone/QuestParserCollection.cpp:79-88 | once a key is cached, a later dispatch for it makes at most one call, a forward: no probe and no load |
| Router.QuestParserCollection.FailedSlotIsSilent | zone/QuestParserCollection.cpp:81-88 | a cached failure answers false and makes no call |
| Router.QuestParserCollection.LoadedSlotIsNotReprobed | zone/QuestParserCollection.cpp:117-123 | a singleton slot that hit forwards to the registered backend from then on, without probing |
| Router.QuestParserCollection.MissedSlotIsReprobed | zone/QuestParserCollection.cpp:133-140 | a singleton slot that missed stays Unloaded, so the next dispatch runs the full miss path again |
| QuestPaths.NpcLadder | zone/QuestParserCollection.cpp:352-496 | the NPC tiers in probe order: zone/id, zone/name, templates/id, templates/name, zone/default, templates/default, with the name rewritten; an unknown NPC type leaves only the zone/id tier |
| QuestPaths.PlayerLadder | zone/QuestParserCollection.cpp:498-572 | no tier without a zone; otherwise zone/player_v<instance version>, zone/player, templates/player in that order |
| QuestPaths.GlobalNpcLadder | zone/QuestParserCollection.cpp:576-579 | the single tier templates/global_npc |
| QuestPaths.GlobalPlayerLadder | zone/QuestParserCollection.cpp:604-607 | the single tier templates/global_player |
| QuestPaths.SpellLadder | zone/QuestParserCollection.cpp:632-633 | the single tier `quests/spells/` followed by the decimal spell id |
| QuestPaths.ItemLadder | zone/QuestParserCollection.cpp:658-659 | the single tier `quests/items/` followed by the item script key |
| Router.QuestParserCollection.GetQIByNPCQuest | zone/QuestParserCollection.cpp:352-496 | the result is the NPC ladder resolved under the current precedence; it returns early after the zone/id tier when the NPC type is unknown |
| Router.QuestParserCollection.UnknownNpcProbesOneTier | zone/QuestParserCollection.cpp:378-381 | with an unknown NPC type only zone/id candidates are probed, all of them on a miss |
| Router.QuestParserCollection.KnownNpcMissProbesSixTiers | zone/QuestParserCollection.cpp:352-496 | a known NPC with no file anywhere misses after six tiers times the number of backends probes |
| QuestPaths.Sanitized | zone/QuestParserCollection.cpp:382-388 | same length, every backtick replaced by a hyphen, every other character unchanged, no backtick left |
| QuestPaths.SanitizeName | zone/QuestParserCollection.cpp:382-388 | the in-place loop yields exactly the rewritten name |
| QuestPaths.SanitizedExample | zone/QuestParserCollection.cpp:384-388 | ``Bob`Smith`` becomes `Bob-Smith` |
| Resolver.ResolveStem | zone/QuestParserCollection.cpp:361-375 | a hit names a registered backend and an existing path |
| Resolver.ResolveLadder | zone/QuestParserCollection.cpp:352-496 | a hit names a registered backend and an existing path |
| Resolver.ProbeStem | zone/QuestParserCollection.cpp:361-375 | the precedence loop with early return computes exactly `ResolveStem` |
| Resolver.ProbeOrderAt | zone/QuestParserCollection.cpp:361-375 | position i·n+j of the probe order is backend j's candidate for stem i |
| Resolver.StemHitIsFirst | zone/QuestParserCollection.cpp:361-375 | a tier hit is the first backend in precedence whose candidate exists |
| Resolver.StemFindsFirst | zone/QuestParserCollection.cpp:361-375 | conversely, the first existing candidate is found after exactly j+1 probes |
| Resolver.StemMiss | zone/QuestParserCollection.cpp:361-375 | a tier misses exactly when no candidate exists, and then every candidate was probed |
| Resolver.StemTrail | zone/QuestParserCollection.cpp:361-375 | the probes are a prefix of the tier's candidates, all missing except a final hit |
| Resolver.LadderHitIsFirst | zone/QuestParserCollection.cpp:352-496 | a ladder hit is the first existing (stem, backend) pair in probe order |
| Resolver.LadderFindsFirst | zone/QuestParserCollection.cpp:352-496 | conversely, the first existing pair is found after exactly i·n+j+1 probes |
| Resolver.LadderMiss | zone/QuestParserCollection.cpp:495 | the ladder returns null exactly when no candidate of any stem exists |
| Resolver.LadderTrail | zone/QuestParserCollection.cpp:352-496 | the probes are a prefix of the probe order, the whole of it on a miss |
| Resolver.LadderTrailMisses | zone/QuestParserCollection.cpp:352-496 | every probed path misses except a hit, which is the last one probed |
| Resolver.LadderProbesFirstCandidate | zone/QuestParserCollection.cpp:361-367 | with a backend registered, the first probe is the first stem with the first backend's extension |
| Resolver.PrecedenceExample | zone/QuestParserCollection.cpp:361-375 | with `.pl` registered before `.lua` and both files present, the `.pl` backend wins after one probe |
| Resolver.DuplicateRegistrationProbesTwice | zone/QuestParserCollection.cpp:364-366 | a backend registered twice under one identifier is probed twice with its latest extension |
| Router.QuestParserCollection.GetQIByPlayerQuest | zone/QuestParserCollection.cpp:498-572 | the player ladder resolved under the current precedence; without a zone, null with no probe |
| Router.QuestParserCollection.GetQIByGlobalNPCQuest | zone/QuestParserCollection.cpp:574-600 | the single templates/global_npc tier resolved |
| Router.QuestParserCollection.GetQIByGlobalPlayerQuest | zone/QuestParserCollection.cpp:602-628 | the single templates/global_player tier resolved |
| Router.QuestParserCollection.GetQIBySpellQuest | zone/QuestParserCollection.cpp:630-654 | the single spells/id tier resolved |
| Router.QuestParserCollection.GetQIByItemQuest | zone/QuestParserCollection.cpp:656-680 | the single items/key tier resolved |
| LadderExamples.TemplatesDefaultIsFirst | zone/QuestParserCollection.cpp:474-493 | with only templates/default.pl present, the five earlier NPC tiers miss and the sixth is the first hit |
| LadderExamples.TemplatesDefaultExample | zone/QuestParserCollection.cpp:474-493 | that file is then found by the Perl backend after six probes |

## Left out

- File probing with `fopen`/`fclose` is replaced by membership in a set of existing paths.
- Out-parameter `filename`: a resolver returns its hit path in a `Resolution` value. On a miss the model does not store the stem the C++ leaves behind in `filename`, because no caller reads it.
- `database.GetNPCType`, the `zone` global and `quest_manager.ClearAllTimers` are outside the router. They are modelled as a partial map of display names, an `Option<ZoneInfo>` and a `ClearTimers` trace entry.
  - `GetQIByNPCQuest` dereferences `zone` without a check, so NPC dispatch requires a zone whenever the key is not yet cached.
- The backends (script loading, handler execution, the `double` values returned by their `Event*` calls) are outside the model. Loads, forwards, exports and reloads are trace entries, and query answers come from an oracle fixed for the call.
- zone/embparser.h only declares the embedded-Perl backend. Only its identifier `0xf8b05c11` is used, as `Resolver.PerlBackendId`.
- Decimal.NatToString: models `itoa` on unbounded naturals. Ids are `uint32` in the C++. An `itoa` taking a signed int would print values of 2^31 and above as negative numbers, and that is not modelled.
- Status sentinels: the C++ stores `QuestUnloaded` and `QuestFailedToLoad` as `uint32` values in the same maps as backend identifiers. Their values live in a header that is not part of this model. The model uses a separate `Status` datatype, so it cannot capture a backend whose identifier equals a sentinel.
- `QUEST_TEMPLATES_DIRECTORY` is defined in a header that is not part of this model. It is the constant `TemplatesDir`, set to `"templates"` as the resolvers' comments name it.
- Object identity: a backend is an identifier plus an instance tag, not a pointer, and the destructor is not modelled.
