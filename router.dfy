/**
  The quest-script router: a registry of scripting backends, per-event-class load-status
  caches, and the dispatch methods that resolve, load once and forward queries and events.
*/
module Router {
  import opened Wrappers
  import opened Decimal
  import opened QuestPaths
  import opened Resolver

  /** What the process can see when a call arrives: the quest files, the zone global, the NPC type table. */
  datatype World = World(files: set<string>, zone: Option<ZoneInfo>, npcNames: map<nat, string>)

  /** `database.GetNPCType(npcid)`, reduced to the display name it yields. */
  function NpcName(world: World, npcid: nat): (name: Option<string>) {
    if npcid in world.npcNames then Some(world.npcNames[npcid]) else None
  }

  /** The load status of one cache slot. */
  datatype Status = Unloaded | FailedToLoad | Loaded(id: BackendId)

  /** Opaque handles on the mobs (NPCs, clients, initiators) the router only passes along. */
  datatype Mob = NoMob | Mob(handle: nat)
  datatype Npc = Npc(handle: nat, typeId: nat)

  /** Which `Load*Script` a backend is asked to run, with the entity key it files the script under. */
  datatype Script =
    | NpcScript(npcid: nat)
    | GlobalNpcScript
    | PlayerScript
    | GlobalPlayerScript
    | ItemScript(itemScript: string)
    | SpellScript(spellId: nat)

  /** The `*HasQuestSub` questions a backend answers. */
  datatype Query =
    | HasSub(npcid: nat, subname: string)
    | HasGlobalSub(subname: string)
    | PlayerHasSub(subname: string)
    | GlobalPlayerHasSub(subname: string)
    | SpellHasSub(spellId: nat, subname: string)
    | ItemHasSub(item: Item, subname: string)

  /** The `Event*` deliveries a backend receives. */
  datatype Delivery =
    | NpcEvent(evt: QuestEvent, npc: Npc, init: Mob, data: string, extra: nat)
    | GlobalNpcEvent(evt: QuestEvent, npc: Npc, init: Mob, data: string, extra: nat)
    | PlayerEvent(evt: QuestEvent, client: Mob, data: string, extra: nat)
    | GlobalPlayerEvent(evt: QuestEvent, client: Mob, data: string, extra: nat)
    | ItemEvent(evt: QuestEvent, client: Mob, item: Item, objid: nat, extra: nat)
    | SpellEvent(evt: QuestEvent, caster: Mob, client: Mob, spellId: nat, extra: nat)

  datatype Request = Ask(query: Query) | Send(delivery: Delivery)

  /** One observable step: a file probe, a call into a backend, or the timer reset. */
  datatype Call =
    | Probe(path: string)
    | Load(backend: Backend, script: Script, file: string)
    | Forward(backend: Backend, request: Request)
    | SetVar(backend: Backend, name: string, value: string)
    | ReloadBackend(backend: Backend)
    | ClearTimers

  /** The answers the backends give to `*HasQuestSub` questions. */
  type Oracle = (Backend, Query) -> bool

  function ProbeCalls(paths: seq<string>): (c: seq<Call>)
    ensures |c| == |paths|
    ensures forall k :: 0 <= k < |paths| ==> c[k] == Probe(paths[k])
  {
    seq(|paths|, k requires 0 <= k < |paths| => Probe(paths[k]))
  }

  /** `AddVar` handed to every backend, in precedence order. */
  function SetVarCalls(prec: seq<Backend>, name: string, value: string): (c: seq<Call>)
    ensures |c| == |prec|
    ensures forall k :: 0 <= k < |prec| ==> c[k] == SetVar(prec[k], name, value)
  {
    seq(|prec|, k requires 0 <= k < |prec| => SetVar(prec[k], name, value))
  }

  /** `ReloadQuests` handed to every backend, in precedence order. */
  function ReloadCalls(prec: seq<Backend>): (c: seq<Call>)
    ensures |c| == |prec|
    ensures forall k :: 0 <= k < |prec| ==> c[k] == ReloadBackend(prec[k])
  {
    seq(|prec|, k requires 0 <= k < |prec| => ReloadBackend(prec[k]))
  }

  /** A cache-miss call: the probes, then on a hit the load and the forward to the backend found. */
  function MissCalls(res: Resolution, script: Script, req: Request): (c: seq<Call>) {
    ProbeCalls(res.trail) +
      match res.hit
      case None => []
      case Some(h) => [Load(h.backend, script, h.path), Forward(h.backend, req)]
  }

  function MissAnswer(res: Resolution, q: Query, ask: Oracle): (b: bool) {
    res.hit.Some? && ask(res.hit.value.backend, q)
  }

  function Lookup<K>(m: map<K, Status>, k: K): (st: Status) {
    if k in m then m[k] else Unloaded
  }

  /** A keyed cache records the outcome of the first resolution of a key, hit or miss. */
  function Settle<K>(m: map<K, Status>, k: K, res: Resolution): (r: map<K, Status>)
    ensures r.Keys == m.Keys + {k}
    ensures forall k' :: k' in m ==> r[k'] == m[k']
    ensures k in m ==> r == m
    ensures k !in m ==> r[k] == (if res.hit.Some? then Loaded(res.hit.value.backend.id) else FailedToLoad)
  {
    if k in m then m
    else m[k := match res.hit case None => FailedToLoad case Some(h) => Loaded(h.backend.id)]
  }

  /** A singleton slot that records only hits: a miss leaves it Unloaded. */
  function KeepOnMiss(st: Status, res: Resolution): (r: Status)
    ensures res.hit.None? || !st.Unloaded? ==> r == st
    ensures st.Unloaded? && res.hit.Some? ==> r == Loaded(res.hit.value.backend.id)
    ensures r == FailedToLoad <==> st == FailedToLoad
  {
    if st.Unloaded? && res.hit.Some? then Loaded(res.hit.value.backend.id) else st
  }

  /**
    On a miss the backend found is loaded exactly once, with the resolved file, right before
    the request is forwarded to that same backend; everything before is a probe of the trail.
  */
  lemma MissCallsShape(res: Resolution, script: Script, req: Request)
    ensures var c := MissCalls(res, script, req);
      && (res.hit.None? ==> c == ProbeCalls(res.trail))
      && (res.hit.Some? ==>
            && |c| == |res.trail| + 2
            && c[|c| - 2] == Load(res.hit.value.backend, script, res.hit.value.path)
            && c[|c| - 1] == Forward(res.hit.value.backend, req)
            && (forall k :: 0 <= k < |c| ==> (c[k].Load? <==> k == |c| - 2))
            && (forall k :: 0 <= k < |c| - 2 ==> c[k] == Probe(res.trail[k])))
  {
  }

  /** `EventNPCGlobal` resolves again after it recorded a failure. */
  lemma GlobalNpcEventReprobesFailure(st: Status, missed: Resolution)
    requires missed.hit.None?
    ensures Reprobed(st, missed) == (if st.Loaded? then st else FailedToLoad)
    ensures !st.Loaded? ==> UnlessLoaded(Reprobed(st, missed)) == Unloaded
  {
  }

  /** The global NPC slot as `EventNPCGlobal` reads it: anything but Loaded means "resolve now". */
  function UnlessLoaded(st: Status): (r: Status) {
    if st.Loaded? then st else Unloaded
  }

  /** `EventNPCGlobal` records a failure, which its own guard then ignores. */
  function Reprobed(st: Status, res: Resolution): (r: Status)
    ensures st.Loaded? ==> r == st
    ensures !st.Loaded? ==> r == (if res.hit.Some? then Loaded(res.hit.value.backend.id) else FailedToLoad)
    ensures !r.Unloaded?
  {
    if st.Loaded? then st
    else match res.hit case None => FailedToLoad case Some(h) => Loaded(h.backend.id)
  }

  class QuestParserCollection {
    /** `_interfaces`: identifier to the last backend object registered under it. */
    var interfaces: map<BackendId, Backend>
    /** `_extensions`: identifier to file extension. */
    var extensions: map<BackendId, string>
    /** `_load_precedence`: every registration, in order. */
    var precedence: seq<Backend>
    var npcStatus: map<nat, Status>
    var spellStatus: map<nat, Status>
    var itemStatus: map<string, Status>
    var playerStatus: Status
    var globalPlayerStatus: Status
    var globalNpcStatus: Status
    /** Every probe and backend call made so far, in order. */
    ghost var trace: seq<Call>

    ghost predicate StatusOk(st: Status)
      reads this`interfaces
    {
      st.Loaded? ==> st.id in interfaces
    }

    ghost predicate CacheOk<K>(m: map<K, Status>)
      reads this`interfaces
    {
      forall k :: k in m ==> !m[k].Unloaded? && StatusOk(m[k])
    }

    /**
      The registry is consistent and every cached backend identifier is registered, so each
      `_interfaces.find` on a cached identifier succeeds. The player slots never hold a failure.
    */
    ghost predicate Valid()
      reads this`interfaces, this`extensions, this`precedence, this`npcStatus, this`spellStatus,
        this`itemStatus, this`playerStatus, this`globalPlayerStatus, this`globalNpcStatus
    {
      && interfaces.Keys == extensions.Keys
      && (forall id :: id in interfaces ==> interfaces[id].id == id && interfaces[id] in precedence)
      && (forall b :: b in precedence ==> b.id in interfaces)
      && Covers(precedence, extensions)
      && CacheOk(npcStatus) && CacheOk(spellStatus) && CacheOk(itemStatus)
      && StatusOk(playerStatus) && StatusOk(globalPlayerStatus) && StatusOk(globalNpcStatus)
      && playerStatus != FailedToLoad && globalPlayerStatus != FailedToLoad
    }

    // -------------------------------------------------------------------------
    // Specification of one dispatch, given what the slot held and what resolving would return

    /** A cached slot forwards to the registered backend, or (failed) does nothing. */
    ghost function CachedCalls(st: Status, req: Request): seq<Call>
      reads this`interfaces
      requires StatusOk(st)
    {
      if st.Loaded? then [Forward(interfaces[st.id], req)] else []
    }

    ghost function DispatchCalls(found: Status, res: Resolution, script: Script, req: Request): seq<Call>
      reads this`interfaces
      requires StatusOk(found)
    {
      if found.Unloaded? then MissCalls(res, script, req) else CachedCalls(found, req)
    }

    ghost function DispatchAnswer(found: Status, res: Resolution, q: Query, ask: Oracle): bool
      reads this`interfaces
      requires StatusOk(found)
    {
      if found.Unloaded? then MissAnswer(res, q, ask)
      else found.Loaded? && ask(interfaces[found.id], q)
    }

    /** Once a key is settled, any later dispatch for it makes at most one call, a forward: no probe, no load. */
    lemma SettledKeyIsNotReprobed<K>(m: map<K, Status>, k: K, first: Resolution, again: Resolution, script: Script, req: Request)
      requires CacheOk(m)
      requires first.hit.Some? ==> first.hit.value.backend.id in interfaces
      ensures StatusOk(Lookup(Settle(m, k, first), k))
      ensures var calls := DispatchCalls(Lookup(Settle(m, k, first), k), again, script, req);
        |calls| <= 1 && forall c :: c in calls ==> c.Forward?
    {
    }

    /** A singleton slot that hit is Loaded: later dispatches forward to the registered backend without probing. */
    lemma LoadedSlotIsNotReprobed(first: Resolution, again: Resolution, script: Script, req: Request)
      requires first.hit.Some? && first.hit.value.backend.id in interfaces
      ensures var st := KeepOnMiss(Unloaded, first);
        StatusOk(st) && DispatchCalls(st, again, script, req) == [Forward(interfaces[first.hit.value.backend.id], req)]
    {
    }

    /**
      The global NPC slot is shared: after `EventNPCGlobal` misses, `HasQuestSubGlobal` reads the
      recorded FailedToLoad as settled and answers false without probing, whatever resolving would give.
    */
    lemma GlobalNpcEventFailureSilencesQuery(st: Status, missed: Resolution, again: Resolution, subname: string, ask: Oracle)
      requires !st.Loaded? && missed.hit.None?
      ensures var failed := Reprobed(st, missed);
        && failed == FailedToLoad
        && DispatchCalls(failed, again, GlobalNpcScript, Ask(HasGlobalSub(subname))) == []
        && !DispatchAnswer(failed, again, HasGlobalSub(subname), ask)
    {
    }

    /**
      The global-player slot is shared: once `PlayerHasQuestSubGlobal` has loaded a backend through
      the player ladder, `EventPlayerGlobal` forwards to that backend and never probes global_player.
    */
    lemma GlobalPlayerSlotIsShared(world: World, delivery: Delivery)
      requires Valid() && globalPlayerStatus == Unloaded && PlayerResolution(world).hit.Some?
      ensures var id := PlayerResolution(world).hit.value.backend.id;
        var st := KeepOnMiss(globalPlayerStatus, PlayerResolution(world));
        && st == Loaded(id) && id in interfaces
        && DispatchCalls(st, GlobalPlayerResolution(world), GlobalPlayerScript, Send(delivery)) == [Forward(interfaces[id], Send(delivery))]
    {
    }

    /** A singleton slot that missed stays Unloaded, so the next dispatch resolves again. */
    lemma MissedSlotIsReprobed(again: Resolution, missed: Resolution, script: Script, req: Request)
      requires missed.hit.None?
      ensures DispatchCalls(KeepOnMiss(Unloaded, missed), again, script, req) == MissCalls(again, script, req)
    {
    }

    /** After a reload every key is Unloaded again, so its next dispatch resolves afresh. */
    lemma ReloadedKeyIsReprobed<K>(k: K, res: Resolution, script: Script, req: Request)
      ensures Lookup(map[], k) == Unloaded
      ensures DispatchCalls(Lookup(map[], k), res, script, req) == MissCalls(res, script, req)
    {
    }

    /** A recorded failure answers false and makes no call at all. */
    lemma FailedSlotIsSilent(res: Resolution, script: Script, req: Request, q: Query, ask: Oracle)
      ensures DispatchCalls(FailedToLoad, res, script, req) == []
      ensures !DispatchAnswer(FailedToLoad, res, q, ask)
    {
    }

    // -------------------------------------------------------------------------
    // What each resolver returns under the current registry

    /** Without a zone the NPC resolver cannot run; the router only consults it for uncached keys, which need one. */
    ghost function NpcResolution(npcid: nat, world: World): Resolution
      reads this`precedence, this`extensions
      requires Covers(precedence, extensions)
    {
      match world.zone
      case None => Resolution(None, [])
      case Some(z) => ResolveLadder(NpcLadder(z.shortName, npcid, NpcName(world, npcid)), precedence, extensions, world.files)
    }

    /** An NPC whose type is unknown is resolved by its zone/id tier alone: on a miss exactly those candidates are probed. */
    lemma UnknownNpcProbesOneTier(npcid: nat, world: World)
      requires Covers(precedence, extensions) && world.zone.Some? && npcid !in world.npcNames
      ensures var res := NpcResolution(npcid, world);
        var stem := DirStem(world.zone.value.shortName, NatToString(npcid));
        && |res.trail| <= |precedence|
        && res.trail == Candidates(stem, precedence, extensions)[..|res.trail|]
        && (res.hit.None? ==> res.trail == Candidates(stem, precedence, extensions))
    {
      var stem := DirStem(world.zone.value.shortName, NatToString(npcid));
      assert NpcLadder(world.zone.value.shortName, npcid, NpcName(world, npcid)) == [stem];
      LadderTrail([stem], precedence, extensions, world.files);
      assert ProbeOrder([stem], precedence, extensions) == Candidates(stem, precedence, extensions);
    }

    /** A known NPC with no script anywhere misses after six tiers, every backend probed at each. */
    lemma KnownNpcMissProbesSixTiers(npcid: nat, world: World)
      requires Covers(precedence, extensions) && world.zone.Some? && npcid in world.npcNames
      requires var stems := NpcLadder(world.zone.value.shortName, npcid, NpcName(world, npcid));
        forall i, j :: 0 <= i < |stems| && 0 <= j < |precedence| ==> Candidate(stems[i], extensions, precedence[j]) !in world.files
      ensures NpcResolution(npcid, world).hit.None?
      ensures |NpcResolution(npcid, world).trail| == 6 * |precedence|
    {
      var stems := NpcLadder(world.zone.value.shortName, npcid, NpcName(world, npcid));
      LadderMiss(stems, precedence, extensions, world.files);
      LadderTrail(stems, precedence, extensions, world.files);
    }

    ghost function PlayerResolution(world: World): Resolution
      reads this`precedence, this`extensions
      requires Covers(precedence, extensions)
    {
      ResolveLadder(PlayerLadder(world.zone), precedence, extensions, world.files)
    }

    ghost function GlobalNpcResolution(world: World): Resolution
      reads this`precedence, this`extensions
      requires Covers(precedence, extensions)
    {
      ResolveLadder(GlobalNpcLadder(), precedence, extensions, world.files)
    }

    ghost function GlobalPlayerResolution(world: World): Resolution
      reads this`precedence, this`extensions
      requires Covers(precedence, extensions)
    {
      ResolveLadder(GlobalPlayerLadder(), precedence, extensions, world.files)
    }

    ghost function SpellResolution(spellId: nat, world: World): Resolution
      reads this`precedence, this`extensions
      requires Covers(precedence, extensions)
    {
      ResolveLadder(SpellLadder(spellId), precedence, extensions, world.files)
    }

    ghost function ItemResolution(itemScript: string, world: World): Resolution
      reads this`precedence, this`extensions
      requires Covers(precedence, extensions)
    {
      ResolveLadder(ItemLadder(itemScript), precedence, extensions, world.files)
    }

    // -------------------------------------------------------------------------
    // Registry and reload

    constructor ()
      ensures Valid()
      ensures interfaces == map[] && extensions == map[] && precedence == []
      ensures npcStatus == map[] && spellStatus == map[] && itemStatus == map[]
      ensures playerStatus == Unloaded && globalPlayerStatus == Unloaded && globalNpcStatus == Unloaded
      ensures trace == []
    {
      interfaces, extensions, precedence := map[], map[], [];
      npcStatus, spellStatus, itemStatus := map[], map[], map[];
      playerStatus, globalPlayerStatus, globalNpcStatus := Unloaded, Unloaded, Unloaded;
      trace := [];
    }

    method RegisterQuestInterface(qi: Backend, ext: string)
      requires Valid()
      modifies this`interfaces, this`extensions, this`precedence
      ensures Valid()
      ensures interfaces == old(interfaces)[qi.id := qi]
      ensures extensions == old(extensions)[qi.id := ext]
      ensures precedence == old(precedence) + [qi]
    {
      interfaces := interfaces[qi.id := qi];
      extensions := extensions[qi.id := ext];
      precedence := precedence + [qi];
    }

    method AddVar(name: string, value: string)
      requires Valid()
      modifies this`trace
      ensures trace == old(trace) + SetVarCalls(precedence, name, value)
    {
      var i := 0;
      while i < |precedence|
        invariant 0 <= i <= |precedence|
        invariant trace == old(trace) + SetVarCalls(precedence[..i], name, value)
      {
        assert SetVarCalls(precedence[..i + 1], name, value) ==
          SetVarCalls(precedence[..i], name, value) + [SetVar(precedence[i], name, value)];
        trace := trace + [SetVar(precedence[i], name, value)];
        i := i + 1;
      }
      assert precedence[..i] == precedence;
    }

    method ReloadQuests(resetTimers: bool)
      requires Valid()
      modifies this`npcStatus, this`spellStatus, this`itemStatus, this`playerStatus,
        this`globalPlayerStatus, this`globalNpcStatus, this`trace
      ensures Valid()
      ensures npcStatus == map[] && spellStatus == map[] && itemStatus == map[]
      ensures playerStatus == Unloaded && globalPlayerStatus == Unloaded && globalNpcStatus == Unloaded
      ensures trace == old(trace) + (if resetTimers then [ClearTimers] else []) + ReloadCalls(precedence)
    {
      if resetTimers {
        trace := trace + [ClearTimers];
      }
      ghost var start := trace;
      npcStatus := map[];
      playerStatus := Unloaded;
      globalPlayerStatus := Unloaded;
      globalNpcStatus := Unloaded;
      spellStatus := map[];
      itemStatus := map[];
      var i := 0;
      while i < |precedence|
        invariant 0 <= i <= |precedence|
        invariant trace == start + ReloadCalls(precedence[..i])
        invariant npcStatus == map[] && spellStatus == map[] && itemStatus == map[]
        invariant playerStatus == Unloaded && globalPlayerStatus == Unloaded && globalNpcStatus == Unloaded
      {
        assert ReloadCalls(precedence[..i + 1]) == ReloadCalls(precedence[..i]) + [ReloadBackend(precedence[i])];
        trace := trace + [ReloadBackend(precedence[i])];
        i := i + 1;
      }
      assert precedence[..i] == precedence;
    }

    // -------------------------------------------------------------------------
    // Resolvers

    method GetQIByNPCQuest(npcid: nat, world: World) returns (res: Resolution)
      requires Valid()
      requires world.zone.Some?
      ensures res == NpcResolution(npcid, world)
    {
      var zoneName := world.zone.value.shortName;
      var id := NatToString(npcid);
      ghost var rest := NpcLadder(zoneName, npcid, NpcName(world, npcid));
      NextTier([], rest, precedence, extensions, world.files);
      res := ProbeStem(DirStem(zoneName, id), precedence, extensions, world.files);
      if res.hit.Some? || npcid !in world.npcNames {
        return;
      }
      var name := SanitizeName(world.npcNames[npcid]);
      rest := rest[1..];
      NextTier(res.trail, rest, precedence, extensions, world.files);
      var tier := ProbeStem(DirStem(zoneName, name), precedence, extensions, world.files);
      res := After(res.trail, tier);
      if tier.hit.Some? {
        return;
      }
      rest := rest[1..];
      NextTier(res.trail, rest, precedence, extensions, world.files);
      tier := ProbeStem(DirStem(TemplatesDir, id), precedence, extensions, world.files);
      res := After(res.trail, tier);
      if tier.hit.Some? {
        return;
      }
      rest := rest[1..];
      NextTier(res.trail, rest, precedence, extensions, world.files);
      tier := ProbeStem(DirStem(TemplatesDir, name), precedence, extensions, world.files);
      res := After(res.trail, tier);
      if tier.hit.Some? {
        return;
      }
      rest := rest[1..];
      NextTier(res.trail, rest, precedence, extensions, world.files);
      tier := ProbeStem(DirStem(zoneName, "default"), precedence, extensions, world.files);
      res := After(res.trail, tier);
      if tier.hit.Some? {
        return;
      }
      rest := rest[1..];
      NextTier(res.trail, rest, precedence, extensions, world.files);
      tier := ProbeStem(DirStem(TemplatesDir, "default"), precedence, extensions, world.files);
      res := After(res.trail, tier);
    }

    method GetQIByPlayerQuest(world: World) returns (res: Resolution)
      requires Valid()
      ensures res == PlayerResolution(world)
    {
      if world.zone.None? {
        return Resolution(None, []);
      }
      var z := world.zone.value;
      ghost var rest := PlayerLadder(world.zone);
      NextTier([], rest, precedence, extensions, world.files);
      res := ProbeStem(DirStem(z.shortName, "player_v" + NatToString(z.instanceVersion)), precedence, extensions, world.files);
      if res.hit.Some? {
        return;
      }
      rest := rest[1..];
      NextTier(res.trail, rest, precedence, extensions, world.files);
      var tier := ProbeStem(DirStem(z.shortName, "player"), precedence, extensions, world.files);
      res := After(res.trail, tier);
      if tier.hit.Some? {
        return;
      }
      rest := rest[1..];
      NextTier(res.trail, rest, precedence, extensions, world.files);
      tier := ProbeStem(DirStem(TemplatesDir, "player"), precedence, extensions, world.files);
      res := After(res.trail, tier);
    }

    method GetQIByGlobalNPCQuest(world: World) returns (res: Resolution)
      requires Valid()
      ensures res == GlobalNpcResolution(world)
    {
      NextTier([], GlobalNpcLadder(), precedence, extensions, world.files);
      res := ProbeStem(DirStem(TemplatesDir, "global_npc"), precedence, extensions, world.files);
    }

    method GetQIByGlobalPlayerQuest(world: World) returns (res: Resolution)
      requires Valid()
      ensures res == GlobalPlayerResolution(world)
    {
      NextTier([], GlobalPlayerLadder(), precedence, extensions, world.files);
      res := ProbeStem(DirStem(TemplatesDir, "global_player"), precedence, extensions, world.files);
    }

    method GetQIBySpellQuest(spellId: nat, world: World) returns (res: Resolution)
      requires Valid()
      ensures res == SpellResolution(spellId, world)
    {
      NextTier([], SpellLadder(spellId), precedence, extensions, world.files);
      res := ProbeStem("quests/spells/" + NatToString(spellId), precedence, extensions, world.files);
    }

    method GetQIByItemQuest(itemScript: string, world: World) returns (res: Resolution)
      requires Valid()
      ensures res == ItemResolution(itemScript, world)
    {
      NextTier([], ItemLadder(itemScript), precedence, extensions, world.files);
      res := ProbeStem("quests/items/" + itemScript, precedence, extensions, world.files);
    }

    // -------------------------------------------------------------------------
    // Queries

    method HasQuestSub(npcid: nat, subname: string, world: World, ask: Oracle) returns (r: bool)
      requires Valid()
      requires npcid in npcStatus || world.zone.Some?
      modifies this`npcStatus, this`globalNpcStatus, this`trace
      ensures Valid()
      ensures var local := old(DispatchAnswer(Lookup(npcStatus, npcid), NpcResolution(npcid, world), HasSub(npcid, subname), ask));
        && r == (local || old(DispatchAnswer(globalNpcStatus, GlobalNpcResolution(world), HasGlobalSub(subname), ask)))
        && npcStatus == old(Settle(npcStatus, npcid, NpcResolution(npcid, world)))
        && globalNpcStatus == (if local then old(globalNpcStatus) else old(KeepOnMiss(globalNpcStatus, GlobalNpcResolution(world))))
        && trace == old(trace + DispatchCalls(Lookup(npcStatus, npcid), NpcResolution(npcid, world), NpcScript(npcid), Ask(HasSub(npcid, subname))))
             + (if local then [] else old(DispatchCalls(globalNpcStatus, GlobalNpcResolution(world), GlobalNpcScript, Ask(HasGlobalSub(subname)))))
    {
      r := HasQuestSubLocal(npcid, subname, world, ask);
      if !r {
        r := HasQuestSubGlobal(subname, world, ask);
      }
    }

    method HasQuestSubLocal(npcid: nat, subname: string, world: World, ask: Oracle) returns (r: bool)
      requires Valid()
      requires npcid in npcStatus || world.zone.Some?
      modifies this`npcStatus, this`trace
      ensures Valid()
      ensures npcStatus == old(Settle(npcStatus, npcid, NpcResolution(npcid, world)))
      ensures trace == old(trace + DispatchCalls(Lookup(npcStatus, npcid), NpcResolution(npcid, world), NpcScript(npcid), Ask(HasSub(npcid, subname))))
      ensures r == old(DispatchAnswer(Lookup(npcStatus, npcid), NpcResolution(npcid, world), HasSub(npcid, subname), ask))
    {
      r := false;
      if npcid in npcStatus {
        var st := npcStatus[npcid];
        if st != FailedToLoad {
          var qi := interfaces[st.id];
          trace := trace + [Forward(qi, Ask(HasSub(npcid, subname)))];
          r := ask(qi, HasSub(npcid, subname));
        }
      } else {
        var res := GetQIByNPCQuest(npcid, world);
        trace := trace + ProbeCalls(res.trail);
        if res.hit.Some? {
          var qi := res.hit.value.backend;
          npcStatus := npcStatus[npcid := Loaded(qi.id)];
          trace := trace + [Load(qi, NpcScript(npcid), res.hit.value.path)];
          trace := trace + [Forward(qi, Ask(HasSub(npcid, subname)))];
          r := ask(qi, HasSub(npcid, subname));
        } else {
          npcStatus := npcStatus[npcid := FailedToLoad];
        }
      }
    }

    method HasQuestSubGlobal(subname: string, world: World, ask: Oracle) returns (r: bool)
      requires Valid()
      modifies this`globalNpcStatus, this`trace
      ensures Valid()
      ensures globalNpcStatus == old(KeepOnMiss(globalNpcStatus, GlobalNpcResolution(world)))
      ensures trace == old(trace + DispatchCalls(globalNpcStatus, GlobalNpcResolution(world), GlobalNpcScript, Ask(HasGlobalSub(subname))))
      ensures r == old(DispatchAnswer(globalNpcStatus, GlobalNpcResolution(world), HasGlobalSub(subname), ask))
    {
      r := false;
      if globalNpcStatus == Unloaded {
        var res := GetQIByGlobalNPCQuest(world);
        trace := trace + ProbeCalls(res.trail);
        if res.hit.Some? {
          var qi := res.hit.value.backend;
          trace := trace + [Load(qi, GlobalNpcScript, res.hit.value.path)];
          globalNpcStatus := Loaded(qi.id);
          trace := trace + [Forward(qi, Ask(HasGlobalSub(subname)))];
          r := ask(qi, HasGlobalSub(subname));
        }
      } else if globalNpcStatus != FailedToLoad {
        var qi := interfaces[globalNpcStatus.id];
        trace := trace + [Forward(qi, Ask(HasGlobalSub(subname)))];
        r := ask(qi, HasGlobalSub(subname));
      }
    }

    method PlayerHasQuestSub(subname: string, world: World, ask: Oracle) returns (r: bool)
      requires Valid()
      modifies this`playerStatus, this`globalPlayerStatus, this`trace
      ensures Valid()
      ensures var local := old(DispatchAnswer(playerStatus, PlayerResolution(world), PlayerHasSub(subname), ask));
        && r == (local || old(DispatchAnswer(globalPlayerStatus, PlayerResolution(world), GlobalPlayerHasSub(subname), ask)))
        && playerStatus == old(KeepOnMiss(playerStatus, PlayerResolution(world)))
        && globalPlayerStatus == (if local then old(globalPlayerStatus) else old(KeepOnMiss(globalPlayerStatus, PlayerResolution(world))))
        && trace == old(trace + DispatchCalls(playerStatus, PlayerResolution(world), PlayerScript, Ask(PlayerHasSub(subname))))
             + (if local then [] else old(DispatchCalls(globalPlayerStatus, PlayerResolution(world), PlayerScript, Ask(GlobalPlayerHasSub(subname)))))
    {
      r := PlayerHasQuestSubLocal(subname, world, ask);
      if !r {
        r := PlayerHasQuestSubGlobal(subname, world, ask);
      }
    }

    method PlayerHasQuestSubLocal(subname: string, world: World, ask: Oracle) returns (r: bool)
      requires Valid()
      modifies this`playerStatus, this`trace
      ensures Valid()
      ensures playerStatus == old(KeepOnMiss(playerStatus, PlayerResolution(world)))
      ensures trace == old(trace + DispatchCalls(playerStatus, PlayerResolution(world), PlayerScript, Ask(PlayerHasSub(subname))))
      ensures r == old(DispatchAnswer(playerStatus, PlayerResolution(world), PlayerHasSub(subname), ask))
    {
      r := false;
      if playerStatus == Unloaded {
        var res := GetQIByPlayerQuest(world);
        trace := trace + ProbeCalls(res.trail);
        if res.hit.Some? {
          var qi := res.hit.value.backend;
          playerStatus := Loaded(qi.id);
          trace := trace + [Load(qi, PlayerScript, res.hit.value.path)];
          trace := trace + [Forward(qi, Ask(PlayerHasSub(subname)))];
          r := ask(qi, PlayerHasSub(subname));
        }
      } else if playerStatus != FailedToLoad {
        var qi := interfaces[playerStatus.id];
        trace := trace + [Forward(qi, Ask(PlayerHasSub(subname)))];
        r := ask(qi, PlayerHasSub(subname));
      }
    }

    /**
      Resolves through `GetQIByPlayerQuest` and loads with `LoadPlayerScript`, as
      `PlayerHasQuestSubGlobal` does, then asks `GlobalPlayerHasQuestSub`.
    */
    method PlayerHasQuestSubGlobal(subname: string, world: World, ask: Oracle) returns (r: bool)
      requires Valid()
      modifies this`globalPlayerStatus, this`trace
      ensures Valid()
      ensures globalPlayerStatus == old(KeepOnMiss(globalPlayerStatus, PlayerResolution(world)))
      ensures trace == old(trace + DispatchCalls(globalPlayerStatus, PlayerResolution(world), PlayerScript, Ask(GlobalPlayerHasSub(subname))))
      ensures r == old(DispatchAnswer(globalPlayerStatus, PlayerResolution(world), GlobalPlayerHasSub(subname), ask))
    {
      r := false;
      if globalPlayerStatus == Unloaded {
        var res := GetQIByPlayerQuest(world);
        trace := trace + ProbeCalls(res.trail);
        if res.hit.Some? {
          var qi := res.hit.value.backend;
          globalPlayerStatus := Loaded(qi.id);
          trace := trace + [Load(qi, PlayerScript, res.hit.value.path)];
          trace := trace + [Forward(qi, Ask(GlobalPlayerHasSub(subname)))];
          r := ask(qi, GlobalPlayerHasSub(subname));
        }
      } else if globalPlayerStatus != FailedToLoad {
        var qi := interfaces[globalPlayerStatus.id];
        trace := trace + [Forward(qi, Ask(GlobalPlayerHasSub(subname)))];
        r := ask(qi, GlobalPlayerHasSub(subname));
      }
    }

    method SpellHasQuestSub(spellId: nat, subname: string, world: World, ask: Oracle) returns (r: bool)
      requires Valid()
      modifies this`spellStatus, this`trace
      ensures Valid()
      ensures spellStatus == old(Settle(spellStatus, spellId, SpellResolution(spellId, world)))
      ensures trace == old(trace + DispatchCalls(Lookup(spellStatus, spellId), SpellResolution(spellId, world), SpellScript(spellId), Ask(SpellHasSub(spellId, subname))))
      ensures r == old(DispatchAnswer(Lookup(spellStatus, spellId), SpellResolution(spellId, world), SpellHasSub(spellId, subname), ask))
    {
      r := false;
      if spellId in spellStatus {
        var st := spellStatus[spellId];
        if st != FailedToLoad {
          var qi := interfaces[st.id];
          trace := trace + [Forward(qi, Ask(SpellHasSub(spellId, subname)))];
          r := ask(qi, SpellHasSub(spellId, subname));
        }
      } else {
        var res := GetQIBySpellQuest(spellId, world);
        trace := trace + ProbeCalls(res.trail);
        if res.hit.Some? {
          var qi := res.hit.value.backend;
          spellStatus := spellStatus[spellId := Loaded(qi.id)];
          trace := trace + [Load(qi, SpellScript(spellId), res.hit.value.path)];
          trace := trace + [Forward(qi, Ask(SpellHasSub(spellId, subname)))];
          r := ask(qi, SpellHasSub(spellId, subname));
        } else {
          spellStatus := spellStatus[spellId := FailedToLoad];
        }
      }
    }

    method ItemHasQuestSub(item: Item, subname: string, world: World, ask: Oracle) returns (r: bool)
      requires Valid()
      modifies this`itemStatus, this`trace
      ensures Valid()
      ensures var key := ItemScriptKey(subname, item);
        && itemStatus == old(Settle(itemStatus, key, ItemResolution(key, world)))
        && trace == old(trace + DispatchCalls(Lookup(itemStatus, key), ItemResolution(key, world), ItemScript(key), Ask(ItemHasSub(item, subname))))
        && r == old(DispatchAnswer(Lookup(itemStatus, key), ItemResolution(key, world), ItemHasSub(item, subname), ask))
    {
      var key := ItemScriptKey(subname, item);
      r := false;
      if key in itemStatus {
        var st := itemStatus[key];
        if st != FailedToLoad {
          var qi := interfaces[st.id];
          trace := trace + [Forward(qi, Ask(ItemHasSub(item, subname)))];
          r := ask(qi, ItemHasSub(item, subname));
        }
      } else {
        var res := GetQIByItemQuest(key, world);
        trace := trace + ProbeCalls(res.trail);
        if res.hit.Some? {
          var qi := res.hit.value.backend;
          itemStatus := itemStatus[key := Loaded(qi.id)];
          trace := trace + [Load(qi, ItemScript(key), res.hit.value.path)];
          trace := trace + [Forward(qi, Ask(ItemHasSub(item, subname)))];
          r := ask(qi, ItemHasSub(item, subname));
        } else {
          itemStatus := itemStatus[key := FailedToLoad];
        }
      }
    }

    // -------------------------------------------------------------------------
    // Events

    method EventNPC(evt: QuestEvent, npc: Npc, init: Mob, data: string, extra: nat, world: World)
      requires Valid()
      requires npc.typeId in npcStatus || world.zone.Some?
      modifies this`npcStatus, this`globalNpcStatus, this`trace
      ensures Valid()
      ensures npcStatus == old(Settle(npcStatus, npc.typeId, NpcResolution(npc.typeId, world)))
      ensures globalNpcStatus == old(Reprobed(globalNpcStatus, GlobalNpcResolution(world)))
      ensures trace == old(trace
        + DispatchCalls(Lookup(npcStatus, npc.typeId), NpcResolution(npc.typeId, world), NpcScript(npc.typeId), Send(NpcEvent(evt, npc, init, data, extra)))
        + DispatchCalls(UnlessLoaded(globalNpcStatus), GlobalNpcResolution(world), GlobalNpcScript, Send(GlobalNpcEvent(evt, npc, init, data, extra))))
    {
      EventNPCLocal(evt, npc, init, data, extra, world);
      EventNPCGlobal(evt, npc, init, data, extra, world);
    }

    method EventNPCLocal(evt: QuestEvent, npc: Npc, init: Mob, data: string, extra: nat, world: World)
      requires Valid()
      requires npc.typeId in npcStatus || world.zone.Some?
      modifies this`npcStatus, this`trace
      ensures Valid()
      ensures npcStatus == old(Settle(npcStatus, npc.typeId, NpcResolution(npc.typeId, world)))
      ensures trace == old(trace + DispatchCalls(Lookup(npcStatus, npc.typeId), NpcResolution(npc.typeId, world), NpcScript(npc.typeId), Send(NpcEvent(evt, npc, init, data, extra))))
    {
      var npcid := npc.typeId;
      var delivery := Send(NpcEvent(evt, npc, init, data, extra));
      if npcid in npcStatus {
        var st := npcStatus[npcid];
        if st != FailedToLoad {
          var qi := interfaces[st.id];
          trace := trace + [Forward(qi, delivery)];
        }
      } else {
        var res := GetQIByNPCQuest(npcid, world);
        trace := trace + ProbeCalls(res.trail);
        if res.hit.Some? {
          var qi := res.hit.value.backend;
          npcStatus := npcStatus[npcid := Loaded(qi.id)];
          trace := trace + [Load(qi, NpcScript(npcid), res.hit.value.path)];
          trace := trace + [Forward(qi, delivery)];
        } else {
          npcStatus := npcStatus[npcid := FailedToLoad];
        }
      }
    }

    /**
      Only a Loaded slot is used as is: the guard of `EventNPCGlobal` on `_global_npc_quest_status`
      treats FailedToLoad like Unloaded, so a recorded failure is probed again.
    */
    method EventNPCGlobal(evt: QuestEvent, npc: Npc, init: Mob, data: string, extra: nat, world: World)
      requires Valid()
      modifies this`globalNpcStatus, this`trace
      ensures Valid()
      ensures globalNpcStatus == old(Reprobed(globalNpcStatus, GlobalNpcResolution(world)))
      ensures trace == old(trace + DispatchCalls(UnlessLoaded(globalNpcStatus), GlobalNpcResolution(world), GlobalNpcScript, Send(GlobalNpcEvent(evt, npc, init, data, extra))))
    {
      var delivery := Send(GlobalNpcEvent(evt, npc, init, data, extra));
      if globalNpcStatus != Unloaded && globalNpcStatus != FailedToLoad {
        var qi := interfaces[globalNpcStatus.id];
        trace := trace + [Forward(qi, delivery)];
      } else {
        var res := GetQIByGlobalNPCQuest(world);
        trace := trace + ProbeCalls(res.trail);
        if res.hit.Some? {
          var qi := res.hit.value.backend;
          globalNpcStatus := Loaded(qi.id);
          trace := trace + [Load(qi, GlobalNpcScript, res.hit.value.path)];
          trace := trace + [Forward(qi, delivery)];
        } else {
          globalNpcStatus := FailedToLoad;
        }
      }
    }

    method EventPlayer(evt: QuestEvent, client: Mob, data: string, extra: nat, world: World)
      requires Valid()
      modifies this`playerStatus, this`globalPlayerStatus, this`trace
      ensures Valid()
      ensures playerStatus == old(KeepOnMiss(playerStatus, PlayerResolution(world)))
      ensures globalPlayerStatus == old(KeepOnMiss(globalPlayerStatus, GlobalPlayerResolution(world)))
      ensures trace == old(trace
        + DispatchCalls(playerStatus, PlayerResolution(world), PlayerScript, Send(PlayerEvent(evt, client, data, extra)))
        + DispatchCalls(globalPlayerStatus, GlobalPlayerResolution(world), GlobalPlayerScript, Send(GlobalPlayerEvent(evt, client, data, extra))))
    {
      EventPlayerLocal(evt, client, data, extra, world);
      EventPlayerGlobal(evt, client, data, extra, world);
    }

    method EventPlayerLocal(evt: QuestEvent, client: Mob, data: string, extra: nat, world: World)
      requires Valid()
      modifies this`playerStatus, this`trace
      ensures Valid()
      ensures playerStatus == old(KeepOnMiss(playerStatus, PlayerResolution(world)))
      ensures trace == old(trace + DispatchCalls(playerStatus, PlayerResolution(world), PlayerScript, Send(PlayerEvent(evt, client, data, extra))))
    {
      var delivery := Send(PlayerEvent(evt, client, data, extra));
      if playerStatus == Unloaded {
        var res := GetQIByPlayerQuest(world);
        trace := trace + ProbeCalls(res.trail);
        if res.hit.Some? {
          var qi := res.hit.value.backend;
          playerStatus := Loaded(qi.id);
          trace := trace + [Load(qi, PlayerScript, res.hit.value.path)];
          trace := trace + [Forward(qi, delivery)];
        }
      } else if playerStatus != FailedToLoad {
        var qi := interfaces[playerStatus.id];
        trace := trace + [Forward(qi, delivery)];
      }
    }

    method EventPlayerGlobal(evt: QuestEvent, client: Mob, data: string, extra: nat, world: World)
      requires Valid()
      modifies this`globalPlayerStatus, this`trace
      ensures Valid()
      ensures globalPlayerStatus == old(KeepOnMiss(globalPlayerStatus, GlobalPlayerResolution(world)))
      ensures trace == old(trace + DispatchCalls(globalPlayerStatus, GlobalPlayerResolution(world), GlobalPlayerScript, Send(GlobalPlayerEvent(evt, client, data, extra))))
    {
      var delivery := Send(GlobalPlayerEvent(evt, client, data, extra));
      if globalPlayerStatus == Unloaded {
        var res := GetQIByGlobalPlayerQuest(world);
        trace := trace + ProbeCalls(res.trail);
        if res.hit.Some? {
          var qi := res.hit.value.backend;
          globalPlayerStatus := Loaded(qi.id);
          trace := trace + [Load(qi, GlobalPlayerScript, res.hit.value.path)];
          trace := trace + [Forward(qi, delivery)];
        }
      } else if globalPlayerStatus != FailedToLoad {
        var qi := interfaces[globalPlayerStatus.id];
        trace := trace + [Forward(qi, delivery)];
      }
    }

    method EventItem(evt: QuestEvent, client: Mob, item: Item, objid: nat, extra: nat, world: World)
      requires Valid()
      modifies this`itemStatus, this`trace
      ensures Valid()
      ensures var key := ItemEventScriptKey(evt, item);
        && itemStatus == old(Settle(itemStatus, key, ItemResolution(key, world)))
        && trace == old(trace + DispatchCalls(Lookup(itemStatus, key), ItemResolution(key, world), ItemScript(key), Send(ItemEvent(evt, client, item, objid, extra))))
    {
      var key := ItemEventScriptKey(evt, item);
      var delivery := Send(ItemEvent(evt, client, item, objid, extra));
      if key in itemStatus {
        var st := itemStatus[key];
        if st != FailedToLoad {
          var qi := interfaces[st.id];
          trace := trace + [Forward(qi, delivery)];
        }
      } else {
        var res := GetQIByItemQuest(key, world);
        trace := trace + ProbeCalls(res.trail);
        if res.hit.Some? {
          var qi := res.hit.value.backend;
          itemStatus := itemStatus[key := Loaded(qi.id)];
          trace := trace + [Load(qi, ItemScript(key), res.hit.value.path)];
          trace := trace + [Forward(qi, delivery)];
        } else {
          itemStatus := itemStatus[key := FailedToLoad];
        }
      }
    }

    method EventSpell(evt: QuestEvent, caster: Mob, client: Mob, spellId: nat, extra: nat, world: World)
      requires Valid()
      modifies this`spellStatus, this`trace
      ensures Valid()
      ensures spellStatus == old(Settle(spellStatus, spellId, SpellResolution(spellId, world)))
      ensures trace == old(trace + DispatchCalls(Lookup(spellStatus, spellId), SpellResolution(spellId, world), SpellScript(spellId), Send(SpellEvent(evt, caster, client, spellId, extra))))
    {
      var delivery := Send(SpellEvent(evt, caster, client, spellId, extra));
      if spellId in spellStatus {
        var st := spellStatus[spellId];
        if st != FailedToLoad {
          var qi := interfaces[st.id];
          trace := trace + [Forward(qi, delivery)];
        }
      } else {
        var res := GetQIBySpellQuest(spellId, world);
        trace := trace + ProbeCalls(res.trail);
        if res.hit.Some? {
          var qi := res.hit.value.backend;
          spellStatus := spellStatus[spellId := Loaded(qi.id)];
          trace := trace + [Load(qi, SpellScript(spellId), res.hit.value.path)];
          trace := trace + [Forward(qi, delivery)];
        } else {
          spellStatus := spellStatus[spellId := FailedToLoad];
        }
      }
    }
  }
}
