/**
  The pure parts of quest-script lookup: the candidate path stems each event class tries,
  in order, the backtick rewrite for NPC names, and the item script key.
*/
module QuestPaths {
  import opened Wrappers
  import opened Decimal

  /** Directory under `quests/` that holds the zone-independent templates. */
  const TemplatesDir: string := "templates"

  /** The current zone, as the router reads it from the zone global. */
  datatype ZoneInfo = ZoneInfo(shortName: string, instanceVersion: nat)

  /** The item record fields the router reads through `ItemInst::GetItem()`. */
  datatype Item = Item(id: nat, charmFile: string, scriptFileId: nat)

  /**
    Quest events. Only the four item events the key derivation tests for are named;
    every other member of the enumeration is an `OtherEvent` carrying its identifier.
  */
  datatype QuestEvent =
    | ScaleCalc
    | ItemEnterZone
    | ItemClick
    | ItemClickCast
    | OtherEvent(name: string)

  const ScaleCalcName: string := "EVENT_SCALE_CALC"
  const ItemEnterZoneName: string := "EVENT_ITEM_ENTERZONE"
  const ItemClickName: string := "EVENT_ITEM_CLICK"
  const ItemClickCastName: string := "EVENT_ITEM_CLICK_CAST"

  /** The identifier of an event, the string handed to the `*HasQuestSub` queries. */
  function EventName(e: QuestEvent): (name: string) {
    match e
    case ScaleCalc => ScaleCalcName
    case ItemEnterZone => ItemEnterZoneName
    case ItemClick => ItemClickName
    case ItemClickCast => ItemClickCastName
    case OtherEvent(name) => name
  }

  /** Enumeration members are distinct: an `OtherEvent` is never named like one of the four. */
  predicate WellNamed(e: QuestEvent) {
    e.OtherEvent? ==>
      e.name != ScaleCalcName && e.name != ItemEnterZoneName &&
      e.name != ItemClickName && e.name != ItemClickCastName
  }

  /** `quests/<dir>/<leaf>`, the stem shape of every zone or template candidate. */
  function DirStem(dir: string, leaf: string): (stem: string) {
    "quests/" + dir + "/" + leaf
  }

  // ---------------------------------------------------------------------------
  // NPC name rewrite

  function Unbacktick(c: char): (d: char) {
    if c == '`' then '-' else c
  }

  /** An NPC display name with every backtick replaced by a hyphen. */
  function Sanitized(name: string): (r: string)
    ensures |r| == |name|
    ensures forall i :: 0 <= i < |name| ==> r[i] == (if name[i] == '`' then '-' else name[i])
    ensures '`' !in r
  {
    if name == [] then [] else [Unbacktick(name[0])] + Sanitized(name[1..])
  }

  /** The in-place character loop of the NPC resolver. */
  method SanitizeName(name: string) returns (s: string)
    ensures s == Sanitized(name)
  {
    s := name;
    var i := 0;
    while i < |s|
      invariant i <= |s| == |name|
      invariant forall k :: 0 <= k < i ==> s[k] == Unbacktick(name[k])
      invariant forall k :: i <= k < |s| ==> s[k] == name[k]
    {
      if s[i] == '`' {
        s := s[i := '-'];
      }
      i := i + 1;
    }
  }

  lemma SanitizedExample()
    ensures Sanitized("Bob`Smith") == "Bob-Smith"
  {
  }

  // ---------------------------------------------------------------------------
  // Resolution ladders: stems in the order the resolvers try them

  /**
    zone/id, then (only when the NPC type is known) zone/name, templates/id,
    templates/name, zone/default, templates/default.
  */
  function NpcLadder(zoneName: string, npcid: nat, name: Option<string>): (r: seq<string>)
    ensures |r| == (if name.None? then 1 else 6)
    ensures r[0] == DirStem(zoneName, NatToString(npcid))
    ensures name.Some? ==>
      && r[1] == DirStem(zoneName, Sanitized(name.value))
      && r[2] == DirStem(TemplatesDir, NatToString(npcid))
      && r[3] == DirStem(TemplatesDir, Sanitized(name.value))
      && r[4] == DirStem(zoneName, "default")
      && r[5] == DirStem(TemplatesDir, "default")
  {
    var id := NatToString(npcid);
    match name
    case None => [DirStem(zoneName, id)]
    case Some(raw) =>
      var n := Sanitized(raw);
      [DirStem(zoneName, id), DirStem(zoneName, n),
       DirStem(TemplatesDir, id), DirStem(TemplatesDir, n),
       DirStem(zoneName, "default"), DirStem(TemplatesDir, "default")]
  }

  /** zone/player_v<version>, zone/player, templates/player; nothing at all without a zone. */
  function PlayerLadder(zone: Option<ZoneInfo>): (r: seq<string>)
    ensures zone.None? <==> r == []
    ensures zone.Some? ==>
      && |r| == 3
      && r[0] == DirStem(zone.value.shortName, "player_v" + NatToString(zone.value.instanceVersion))
      && r[1] == DirStem(zone.value.shortName, "player")
      && r[2] == DirStem(TemplatesDir, "player")
  {
    match zone
    case None => []
    case Some(z) =>
      [DirStem(z.shortName, "player_v" + NatToString(z.instanceVersion)),
       DirStem(z.shortName, "player"),
       DirStem(TemplatesDir, "player")]
  }

  /** The one templates/global_npc tier. */
  function GlobalNpcLadder(): (r: seq<string>)
    ensures |r| == 1 && r[0] == DirStem(TemplatesDir, "global_npc")
  {
    [DirStem(TemplatesDir, "global_npc")]
  }

  /** The one templates/global_player tier. */
  function GlobalPlayerLadder(): (r: seq<string>)
    ensures |r| == 1 && r[0] == DirStem(TemplatesDir, "global_player")
  {
    [DirStem(TemplatesDir, "global_player")]
  }

  /** The one spells/<id> tier. */
  function SpellLadder(spellId: nat): (r: seq<string>)
    ensures |r| == 1 && r[0] == "quests/spells/" + NatToString(spellId)
  {
    ["quests/spells/" + NatToString(spellId)]
  }

  /** The one items/<key> tier. */
  function ItemLadder(itemScript: string): (r: seq<string>)
    ensures |r| == 1 && r[0] == "quests/items/" + itemScript
  {
    ["quests/items/" + itemScript]
  }

  // ---------------------------------------------------------------------------
  // Item script key

  /** The cache key and file stem of an item, as `ItemHasQuestSub` derives it from the query name. */
  function ItemScriptKey(subname: string, item: Item): (key: string)
    ensures subname == ScaleCalcName || subname == ItemEnterZoneName ==> key == item.charmFile
    ensures subname == ItemClickName || subname == ItemClickCastName ==>
      |key| > 7 && key[..7] == "script_" && key[7..] == NatToString(item.scriptFileId)
    ensures subname !in {ScaleCalcName, ItemEnterZoneName, ItemClickName, ItemClickCastName} ==>
      key == NatToString(item.id)
  {
    if subname == ScaleCalcName || subname == ItemEnterZoneName then
      item.charmFile
    else if subname == ItemClickName || subname == ItemClickCastName then
      "script_" + NatToString(item.scriptFileId)
    else
      NatToString(item.id)
  }

  /** The same key as `EventItem` derives it from the event identifier. */
  function ItemEventScriptKey(evt: QuestEvent, item: Item): (key: string)
    ensures evt == ScaleCalc || evt == ItemEnterZone ==> key == item.charmFile
    ensures evt == ItemClick || evt == ItemClickCast ==>
      |key| > 7 && key[..7] == "script_" && key[7..] == NatToString(item.scriptFileId)
    ensures evt.OtherEvent? ==> key == NatToString(item.id)
  {
    match evt
    case ScaleCalc => item.charmFile
    case ItemEnterZone => item.charmFile
    case ItemClick => "script_" + NatToString(item.scriptFileId)
    case ItemClickCast => "script_" + NatToString(item.scriptFileId)
    case OtherEvent(_) => NatToString(item.id)
  }

  /** Querying and delivering an event address the same cache slot. */
  lemma ItemKeysAgree(evt: QuestEvent, item: Item)
    requires WellNamed(evt)
    ensures ItemEventScriptKey(evt, item) == ItemScriptKey(EventName(evt), item)
  {
  }

  /** A click key never collides with an id key, whatever the two items are. */
  lemma ClickKeyIsNotIdKey(c: QuestEvent, e: string, clicked: Item, other: Item)
    requires c == ItemClick || c == ItemClickCast
    ensures ItemEventScriptKey(c, clicked) != ItemEventScriptKey(OtherEvent(e), other)
  {
    var k := ItemEventScriptKey(c, clicked);
    assert k[0] == 's';
    assert IsDigit(NatToString(other.id)[0]);
  }

  /** Id-keyed events of two different items never share a slot. */
  lemma IdKeysDistinct(a: Item, b: Item, e: string, f: string)
    requires a.id != b.id
    ensures ItemEventScriptKey(OtherEvent(e), a) != ItemEventScriptKey(OtherEvent(f), b)
  {
    if NatToString(a.id) == NatToString(b.id) {
      NatToStringInjective(a.id, b.id);
    }
  }

  lemma ItemKeyExample()
    ensures ItemEventScriptKey(ItemClick, Item(42, "", 42)) == "script_42"
    ensures ItemEventScriptKey(OtherEvent("EVENT_SAY"), Item(7, "", 42)) == "7"
  {
    assert NatToString(42) == NatToString(4) + [DigitChar(2)];
  }
}
