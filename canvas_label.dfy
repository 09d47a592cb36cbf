/**
 * The label registry of the flow canvas.
 *
 * Three maps make up its state: the labels currently on the canvas, and two
 * caches recording when a label id was recently added or removed. The caches
 * keep a stale refresh from the server from dropping a label that was just
 * added or from bringing back a label that was just removed. Rendering, the
 * selection and the HTTP calls around the registry are not modelled.
 */
module CanvasLabel {
  import opened Wrappers

  type LabelId = string

  /** Milliseconds since the epoch, as Date.getTime returns them. */
  type Timestamp = int

  const MIN_WIDTH: int := 64
  const MIN_HEIGHT: int := 24
  const SNAP_ALIGNMENT_PIXELS: int := 8
  const LABEL_TYPE: string := "Label"

  datatype Revision = Revision(version: nat, clientId: Option<string>)

  datatype Dimensions = Dimensions(width: int, height: int)

  /** A label entity as the server sends it; `kind` is its `type` property, if it has one. */
  datatype LabelEntity = LabelEntity(
    id: LabelId,
    kind: Option<string>,
    revision: Revision,
    zIndex: int,
    dimensions: Dimensions)

  /** The first argument of add and set: an array of entities, one entity, or null/undefined. */
  datatype Entities = EntityArray(items: seq<LabelEntity>) | SingleEntity(item: LabelEntity) | NoEntities

  /** The argument of remove: an array of ids or a single id. */
  datatype LabelIds = IdArray(ids: seq<LabelId>) | SingleId(id: LabelId)

  /**
   * nfClient.isNewerRevision(current, proposed), where current is undefined
   * when no label has the proposed id. Its definition is not part of this
   * model, so every operation takes it as a parameter.
   */
  type RevisionCheck = (Option<LabelEntity>, LabelEntity) -> bool

  type Labels = map<LabelId, LabelEntity>
  type Cache = map<LabelId, Timestamp>

  // ---------------------------------------------------------------
  // Specification of the registry operations on values
  // ---------------------------------------------------------------

  /** The entities an add or set call processes, in order. */
  function Items(entities: Entities): seq<LabelEntity> {
    match entities
    case EntityArray(es) => es
    case SingleEntity(e) => [e]
    case NoEntities => []
  }

  function IdsOf(es: seq<LabelEntity>): set<LabelId> {
    set e | e in es :: e.id
  }

  function Elements(ids: seq<LabelId>): set<LabelId> {
    set id | id in ids
  }

  function IdSet(labelIds: LabelIds): set<LabelId> {
    match labelIds
    case IdArray(ids) => Elements(ids)
    case SingleId(id) => {id}
  }

  /** $.extend({type: 'Label'}, e): the entity, with `type` defaulting to 'Label'. */
  function Tagged(e: LabelEntity): LabelEntity {
    if e.kind.Some? then e else e.(kind := Some(LABEL_TYPE))
  }

  /** Map.get: the label stored under id, or undefined. */
  function Find(labels: Labels, id: LabelId): Option<LabelEntity> {
    if id in labels then Some(labels[id]) else None
  }

  /** Every label is stored under its own id. */
  ghost predicate KeyedById(labels: Labels) {
    forall id :: id in labels ==> labels[id].id == id
  }

  /** A cache after recording every id of ids at time now. */
  function Stamp(cache: Cache, ids: set<LabelId>, now: Timestamp): Cache {
    cache + map id | id in ids :: now
  }

  /** The label map after add has stored each entity in turn. */
  function AddEach(labels: Labels, es: seq<LabelEntity>): Labels
    decreases |es|
  {
    if es == [] then labels
    else
      var last := es[|es| - 1];
      AddEach(labels, es[..|es| - 1])[last.id := Tagged(last)]
  }

  /**
   * Whether set takes a proposed entity: its revision is newer and its id was
   * not recently removed, or the revision check is overridden.
   */
  predicate Accepted(labels: Labels, removed: Cache, isNewer: RevisionCheck, overrideRevisionCheck: bool, e: LabelEntity) {
    (isNewer(Find(labels, e.id), e) && e.id !in removed) || overrideRevisionCheck
  }

  /** The label map after set has proposed each entity in turn. */
  function ProposeEach(labels: Labels, removed: Cache, isNewer: RevisionCheck, overrideRevisionCheck: bool, es: seq<LabelEntity>): Labels
    decreases |es|
  {
    if es == [] then labels
    else
      var before := ProposeEach(labels, removed, isNewer, overrideRevisionCheck, es[..|es| - 1]);
      var e := es[|es| - 1];
      if Accepted(before, removed, isNewer, overrideRevisionCheck, e) then before[e.id := Tagged(e)] else before
  }

  /**
   * The first pass of set with an array: a label survives when some proposed
   * entity has its id or when its id was recently added.
   */
  function Prune(labels: Labels, proposed: seq<LabelEntity>, added: Cache): (r: Labels)
    ensures r.Keys <= labels.Keys
    ensures forall id :: id in r ==> r[id] == labels[id]
    ensures forall id :: id in labels ==> (id in r <==> labels[id].id in IdsOf(proposed) || id in added)
  {
    map id | id in labels && (labels[id].id in IdsOf(proposed) || id in added) :: labels[id]
  }

  /** The label map after set. */
  function SetLabels(labels: Labels, added: Cache, removed: Cache, isNewer: RevisionCheck, overrideRevisionCheck: bool, entities: Entities): Labels {
    var start := if entities.EntityArray? then Prune(labels, entities.items, added) else labels;
    ProposeEach(start, removed, isNewer, overrideRevisionCheck, Items(entities))
  }

  /** A cache after expireCaches(timestamp): exactly the entries older than timestamp are gone. */
  ghost predicate ExpiredAt(before: Cache, after: Cache, timestamp: Timestamp) {
    && after.Keys <= before.Keys
    && (forall id :: id in before ==> (id in after <==> !(timestamp > before[id])))
    && (forall id :: id in after ==> after[id] == before[id])
  }

  // ---------------------------------------------------------------
  // Lemmas about add
  // ---------------------------------------------------------------

  lemma IdsOfSnoc(es: seq<LabelEntity>, e: LabelEntity)
    ensures IdsOf(es + [e]) == IdsOf(es) + {e.id}
  {
    assert forall x :: x in es + [e] <==> x in es || x == e;
  }

  lemma ElementsSnoc(ids: seq<LabelId>, id: LabelId)
    ensures Elements(ids + [id]) == Elements(ids) + {id}
  {
    assert forall x :: x in ids + [id] <==> x in ids || x == id;
  }

  lemma StampOneMore(cache: Cache, ids: set<LabelId>, id: LabelId, now: Timestamp)
    ensures Stamp(cache, ids + {id}, now) == Stamp(cache, ids, now)[id := now]
  {
  }

  /** add inserts exactly the given ids and leaves every other label as it was. */
  lemma {:induction false} AddEachFrame(labels: Labels, es: seq<LabelEntity>)
    ensures AddEach(labels, es).Keys == labels.Keys + IdsOf(es)
    ensures forall id :: id in labels && id !in IdsOf(es) ==> AddEach(labels, es)[id] == labels[id]
  {
    if es != [] {
      var init := es[..|es| - 1];
      AddEachFrame(labels, init);
      assert es == init + [es[|es| - 1]];
      IdsOfSnoc(init, es[|es| - 1]);
    }
  }

  /**
   * Each given entity ends up stored, tagged, under its id, unless a later
   * entity of the same call has the same id (the last one wins).
   */
  lemma {:induction false} AddEachStores(labels: Labels, es: seq<LabelEntity>, i: nat)
    requires i < |es|
    requires forall j :: i < j < |es| ==> es[j].id != es[i].id
    ensures es[i].id in AddEach(labels, es) && AddEach(labels, es)[es[i].id] == Tagged(es[i])
  {
    if i < |es| - 1 {
      AddEachStores(labels, es[..|es| - 1], i);
    }
  }

  /** add keeps every label stored under its own id. */
  lemma {:induction false} AddEachKeyed(labels: Labels, es: seq<LabelEntity>)
    requires KeyedById(labels)
    ensures KeyedById(AddEach(labels, es))
  {
    if es != [] {
      AddEachKeyed(labels, es[..|es| - 1]);
    }
  }

  // ---------------------------------------------------------------
  // Lemmas about set
  // ---------------------------------------------------------------

  /** A single proposal replaces or inserts the entity exactly when it is accepted, and otherwise changes nothing. */
  lemma ProposeOne(labels: Labels, removed: Cache, isNewer: RevisionCheck, overrideRevisionCheck: bool, e: LabelEntity)
    ensures ProposeEach(labels, removed, isNewer, overrideRevisionCheck, [e])
         == if Accepted(labels, removed, isNewer, overrideRevisionCheck, e) then labels[e.id := Tagged(e)] else labels
  {
    assert [e][..0] == [];
  }

  /**
   * Proposals never delete a label, only touch the proposed ids, and store
   * nothing but tagged proposed entities.
   */
  lemma {:induction false} ProposeEachFrame(labels: Labels, removed: Cache, isNewer: RevisionCheck, overrideRevisionCheck: bool, es: seq<LabelEntity>)
    ensures var r := ProposeEach(labels, removed, isNewer, overrideRevisionCheck, es);
      && labels.Keys <= r.Keys <= labels.Keys + IdsOf(es)
      && (forall id :: id in labels && id !in IdsOf(es) ==> r[id] == labels[id])
      && (forall id :: id in r ==> (id in labels && r[id] == labels[id]) || exists e :: e in es && r[id] == Tagged(e))
  {
    if es != [] {
      var init := es[..|es| - 1];
      var e := es[|es| - 1];
      ProposeEachFrame(labels, removed, isNewer, overrideRevisionCheck, init);
      assert es == init + [e];
      IdsOfSnoc(init, e);
      var before := ProposeEach(labels, removed, isNewer, overrideRevisionCheck, init);
      var r := ProposeEach(labels, removed, isNewer, overrideRevisionCheck, es);
      forall id | id in r
        ensures (id in labels && r[id] == labels[id]) || exists x :: x in es && r[id] == Tagged(x)
      {
        if id !in before || r[id] != before[id] {
          assert r[id] == Tagged(e);
        } else if !(id in labels && r[id] == labels[id]) {
          var x :| x in init && before[id] == Tagged(x);
          assert x in es;
        }
      }
    }
  }

  /**
   * Without the override, a proposal never inserts, replaces or deletes a label
   * whose id is in the removed cache.
   */
  lemma {:induction false} ProposeEachSkipsRemoved(labels: Labels, removed: Cache, isNewer: RevisionCheck, es: seq<LabelEntity>, id: LabelId)
    requires id in removed
    ensures var r := ProposeEach(labels, removed, isNewer, false, es);
      && (id in r <==> id in labels)
      && (id in labels ==> r[id] == labels[id])
  {
    if es != [] {
      ProposeEachSkipsRemoved(labels, removed, isNewer, es[..|es| - 1], id);
    }
  }

  /** With the override, set stores every proposed entity just as add does. */
  lemma {:induction false} ProposeEachOverride(labels: Labels, removed: Cache, isNewer: RevisionCheck, es: seq<LabelEntity>)
    ensures ProposeEach(labels, removed, isNewer, true, es) == AddEach(labels, es)
  {
    if es != [] {
      ProposeEachOverride(labels, removed, isNewer, es[..|es| - 1]);
    }
  }

  /** set keeps every label stored under its own id. */
  lemma {:induction false} ProposeEachKeyed(labels: Labels, removed: Cache, isNewer: RevisionCheck, overrideRevisionCheck: bool, es: seq<LabelEntity>)
    requires KeyedById(labels)
    ensures KeyedById(ProposeEach(labels, removed, isNewer, overrideRevisionCheck, es))
  {
    if es != [] {
      ProposeEachKeyed(labels, removed, isNewer, overrideRevisionCheck, es[..|es| - 1]);
    }
  }

  /**
   * set with an array: a current label whose id the array does not mention
   * survives exactly when it was recently added, and then it is unchanged.
   */
  lemma SetArrayKeepsRecentlyAdded(labels: Labels, added: Cache, removed: Cache, isNewer: RevisionCheck, overrideRevisionCheck: bool, es: seq<LabelEntity>, id: LabelId)
    requires KeyedById(labels)
    requires id in labels && id !in IdsOf(es)
    ensures var r := SetLabels(labels, added, removed, isNewer, overrideRevisionCheck, EntityArray(es));
      && (id in r <==> id in added)
      && (id in r ==> r[id] == labels[id])
  {
    ProposeEachFrame(Prune(labels, es, added), removed, isNewer, overrideRevisionCheck, es);
  }

  /** set with a single entity never deletes a label and touches no other id. */
  lemma SetSingleNeverDeletes(labels: Labels, added: Cache, removed: Cache, isNewer: RevisionCheck, overrideRevisionCheck: bool, e: LabelEntity)
    ensures var r := SetLabels(labels, added, removed, isNewer, overrideRevisionCheck, SingleEntity(e));
      && labels.Keys <= r.Keys
      && (forall id :: id in labels && id != e.id ==> r[id] == labels[id])
  {
    ProposeOne(labels, removed, isNewer, overrideRevisionCheck, e);
  }

  /**
   * The point of the removed cache: after remove, no set without the override
   * brings a removed label back, whatever revisions the refresh carries.
   */
  lemma RemovedLabelNotRestored(labels: Labels, added: Cache, removed: Cache, labelIds: LabelIds, now: Timestamp,
                                isNewer: RevisionCheck, entities: Entities, id: LabelId)
    requires id in IdSet(labelIds)
    ensures id !in SetLabels(labels - IdSet(labelIds), added, Stamp(removed, IdSet(labelIds), now), isNewer, false, entities)
  {
    var removed' := Stamp(removed, IdSet(labelIds), now);
    var start := labels - IdSet(labelIds);
    if entities.EntityArray? {
      start := Prune(start, entities.items, added);
    }
    ProposeEachSkipsRemoved(start, removed', isNewer, Items(entities), id);
  }

  /**
   * The point of the added cache: after add, a set whose array leaves out an
   * added label does not drop it while its added-cache entry is alive.
   */
  lemma AddedLabelNotDropped(labels: Labels, added: Cache, removed: Cache, es: seq<LabelEntity>, now: Timestamp,
                             isNewer: RevisionCheck, overrideRevisionCheck: bool, refresh: seq<LabelEntity>, i: nat)
    requires KeyedById(labels)
    requires i < |es| && forall j :: i < j < |es| ==> es[j].id != es[i].id
    requires es[i].id !in IdsOf(refresh)
    ensures var r := SetLabels(AddEach(labels, es), Stamp(added, IdsOf(es), now), removed, isNewer, overrideRevisionCheck, EntityArray(refresh));
      es[i].id in r && r[es[i].id] == Tagged(es[i])
  {
    AddEachKeyed(labels, es);
    AddEachStores(labels, es, i);
    assert es[i] in es;
    SetArrayKeepsRecentlyAdded(AddEach(labels, es), Stamp(added, IdsOf(es), now), removed, isNewer, overrideRevisionCheck, refresh, es[i].id);
  }

  // ---------------------------------------------------------------
  // Lemmas about expireCaches
  // ---------------------------------------------------------------

  /** Expiring at t1 and then at t2 is expiring once at the later of the two. */
  lemma ExpireTwice(a: Cache, b: Cache, c: Cache, t1: Timestamp, t2: Timestamp)
    requires ExpiredAt(a, b, t1) && ExpiredAt(b, c, t2)
    ensures ExpiredAt(a, c, if t1 < t2 then t2 else t1)
  {
  }

  /** expireCaches has one possible outcome. */
  lemma ExpiredAtUnique(before: Cache, after1: Cache, after2: Cache, timestamp: Timestamp)
    requires ExpiredAt(before, after1, timestamp) && ExpiredAt(before, after2, timestamp)
    ensures after1 == after2
  {
    assert after1.Keys == after2.Keys;
  }

  // ---------------------------------------------------------------
  // The sort comparator and the resize drag
  // ---------------------------------------------------------------

  /** The comparator the canvas sorts labels with: ascending zIndex. */
  function CompareZIndex(a: LabelEntity, b: LabelEntity): (r: int)
    ensures -1 <= r <= 1
    ensures r == 0 <==> a.zIndex == b.zIndex
    ensures r > 0 <==> a.zIndex > b.zIndex
  {
    if a.zIndex == b.zIndex then 0 else if a.zIndex > b.zIndex then 1 else -1
  }

  /** The comparator is consistent, as Array.prototype.sort requires of it. */
  lemma CompareZIndexConsistent(a: LabelEntity, b: LabelEntity, c: LabelEntity)
    ensures CompareZIndex(a, b) == -CompareZIndex(b, a)
    ensures CompareZIndex(a, b) <= 0 && CompareZIndex(b, c) <= 0 ==> CompareZIndex(a, c) <= 0
    ensures CompareZIndex(a, b) == 0 ==> CompareZIndex(a, c) == CompareZIndex(b, c)
  {
  }

  /**
   * Math.round(v / 8) * 8 for an integer coordinate v: the multiple of 8
   * nearest to v, halves rounded up.
   */
  function SnapToGrid(v: int): (r: int)
    ensures r % SNAP_ALIGNMENT_PIXELS == 0
    ensures v - SNAP_ALIGNMENT_PIXELS / 2 < r <= v + SNAP_ALIGNMENT_PIXELS / 2
  {
    ((v + SNAP_ALIGNMENT_PIXELS / 2) / SNAP_ALIGNMENT_PIXELS) * SNAP_ALIGNMENT_PIXELS
  }

  /** No multiple of 8 is nearer to v than the snapped value. */
  lemma SnapToGridIsNearest(v: int, k: int)
    ensures var r := SnapToGrid(v);
      (if v >= r then v - r else r - v) <= (if v >= 8 * k then v - 8 * k else 8 * k - v)
  {
    var q := (v + SNAP_ALIGNMENT_PIXELS / 2) / SNAP_ALIGNMENT_PIXELS;
    assert SnapToGrid(v) == 8 * q;
    assert k == q || k <= q - 1 || k >= q + 1;
  }

  /**
   * One extent after a resize drag: Math.max(minimum, snapped or raw
   * coordinate).
   */
  function ResizedExtent(v: int, snapEnabled: bool, minimum: int): (r: int)
    ensures r >= minimum && r >= (if snapEnabled then SnapToGrid(v) else v)
    ensures r == minimum || r == (if snapEnabled then SnapToGrid(v) else v)
    ensures snapEnabled && minimum % SNAP_ALIGNMENT_PIXELS == 0 ==> r % SNAP_ALIGNMENT_PIXELS == 0
  {
    var target := if snapEnabled then SnapToGrid(v) else v;
    if minimum > target then minimum else target
  }

  /** The dimensions a drag to (x, y) gives a label. */
  function DraggedDimensions(x: int, y: int, snapEnabled: bool): (d: Dimensions)
    ensures d.width >= MIN_WIDTH && d.height >= MIN_HEIGHT
    ensures snapEnabled ==> d.width % SNAP_ALIGNMENT_PIXELS == 0 && d.height % SNAP_ALIGNMENT_PIXELS == 0
    ensures !snapEnabled && x >= MIN_WIDTH && y >= MIN_HEIGHT ==> d == Dimensions(x, y)
  {
    Dimensions(ResizedExtent(x, snapEnabled, MIN_WIDTH), ResizedExtent(y, snapEnabled, MIN_HEIGHT))
  }

  // ---------------------------------------------------------------
  // The registry
  // ---------------------------------------------------------------

  /** Array.from(keys): every key once. */
  method KeyList(keys: set<LabelId>) returns (ks: seq<LabelId>)
    ensures forall id :: id in ks <==> id in keys
    ensures forall i, j :: 0 <= i < j < |ks| ==> ks[i] != ks[j]
  {
    ks := [];
    var rest := keys;
    while rest != {}
      invariant rest <= keys
      invariant forall id :: id in ks <==> id in keys && id !in rest
      invariant forall i, j :: 0 <= i < j < |ks| ==> ks[i] != ks[j]
      decreases rest
    {
      var id :| id in rest;
      ks := ks + [id];
      rest := rest - {id};
    }
  }

  /** The `expire` helper of expireCaches: deletes the entries older than timestamp. */
  method ExpireCache(cache: Cache, timestamp: Timestamp) returns (kept: Cache)
    ensures kept.Keys <= cache.Keys
    ensures forall id :: id in cache ==> (id in kept <==> !(timestamp > cache[id]))
    ensures forall id :: id in kept ==> kept[id] == cache[id]
  {
    kept := cache;
    var pending := cache.Keys;
    while pending != {}
      invariant pending <= cache.Keys
      invariant kept.Keys <= cache.Keys
      invariant forall id :: id in cache ==> (id in kept <==> id in pending || !(timestamp > cache[id]))
      invariant forall id :: id in kept ==> kept[id] == cache[id]
      decreases pending
    {
      var id :| id in pending;
      if timestamp > kept[id] {
        kept := kept - {id};
      }
      pending := pending - {id};
    }
  }

  class LabelCanvas {
    /** The labels currently on the canvas, by id. */
    var labelMap: Labels
    /** When each recently added label id was added. */
    var addedCache: Cache
    /** When each recently removed label id was removed. */
    var removedCache: Cache
    /** Whether the last resize drag snapped to the grid (shift not held). */
    var snapEnabled: bool

    ghost predicate Valid()
      reads this
    {
      KeyedById(labelMap)
    }

    /** init: empty maps. */
    constructor ()
      ensures Valid()
      ensures labelMap == map[] && addedCache == map[] && removedCache == map[] && snapEnabled
    {
      labelMap := map[];
      addedCache := map[];
      removedCache := map[];
      snapEnabled := true;
    }

    /** get(id): the label stored under id, or undefined. */
    function Get(id: LabelId): (r: Option<LabelEntity>)
      requires Valid()
      reads this
      ensures r.Some? <==> id in labelMap
      ensures r.Some? ==> r.value.id == id && r.value == labelMap[id]
    {
      Find(labelMap, id)
    }

    /** get() without an id: every label on the canvas. */
    function GetAll(): (r: set<LabelEntity>)
      requires Valid()
      reads this
      ensures forall e :: e in r <==> e.id in labelMap && labelMap[e.id] == e
    {
      labelMap.Values
    }

    /** The `add` closure inside add. */
    method AddOne(e: LabelEntity, now: Timestamp)
      requires Valid()
      modifies this
      ensures Valid()
      ensures labelMap == old(labelMap)[e.id := Tagged(e)]
      ensures addedCache == old(addedCache)[e.id := now]
      ensures removedCache == old(removedCache) && snapEnabled == old(snapEnabled)
    {
      addedCache := addedCache[e.id := now];
      labelMap := labelMap[e.id := Tagged(e)];
    }

    /** add(labelEntities): store each entity and record its id as recently added. */
    method Add(entities: Entities, now: Timestamp)
      requires Valid()
      modifies this
      ensures Valid()
      ensures labelMap == AddEach(old(labelMap), Items(entities))
      ensures addedCache == Stamp(old(addedCache), IdsOf(Items(entities)), now)
      ensures removedCache == old(removedCache) && snapEnabled == old(snapEnabled)
    {
      match entities
      case EntityArray(es) =>
        for i := 0 to |es|
          invariant Valid()
          invariant labelMap == AddEach(old(labelMap), es[..i])
          invariant addedCache == Stamp(old(addedCache), IdsOf(es[..i]), now)
          invariant removedCache == old(removedCache) && snapEnabled == old(snapEnabled)
        {
          AddOne(es[i], now);
          assert es[..i + 1][..i] == es[..i];
          assert es[..i + 1] == es[..i] + [es[i]];
          IdsOfSnoc(es[..i], es[i]);
          StampOneMore(old(addedCache), IdsOf(es[..i]), es[i].id, now);
        }
        assert es[..|es|] == es;
      case SingleEntity(e) =>
        AddOne(e, now);
        assert [e][..0] == [];
        assert IdsOf([e]) == {e.id};
        StampOneMore(old(addedCache), {}, e.id, now);
      case NoEntities =>
        assert IdsOf([]) == {};
    }

    /** The `set` closure inside set: store the entity if it is accepted. */
    method SetOne(e: LabelEntity, isNewer: RevisionCheck, overrideRevisionCheck: bool)
      requires Valid()
      modifies this
      ensures Valid()
      ensures labelMap == ProposeEach(old(labelMap), removedCache, isNewer, overrideRevisionCheck, [e])
      ensures addedCache == old(addedCache) && removedCache == old(removedCache) && snapEnabled == old(snapEnabled)
    {
      ProposeOne(labelMap, removedCache, isNewer, overrideRevisionCheck, e);
      var current := Find(labelMap, e.id);
      if (isNewer(current, e) && e.id !in removedCache) || overrideRevisionCheck {
        labelMap := labelMap[e.id := Tagged(e)];
      }
    }

    /**
     * The first pass of set with an array: delete every current label that no
     * proposed entity names and that was not recently added.
     */
    method DeleteAbsent(es: seq<LabelEntity>)
      requires Valid()
      modifies this
      ensures Valid()
      ensures labelMap == Prune(old(labelMap), es, addedCache)
      ensures addedCache == old(addedCache) && removedCache == old(removedCache) && snapEnabled == old(snapEnabled)
    {
      var keys := KeyList(labelMap.Keys);
      for i := 0 to |keys|
        invariant Valid()
        invariant labelMap.Keys <= old(labelMap).Keys
        invariant forall id :: id in labelMap ==> labelMap[id] == old(labelMap)[id]
        invariant forall id :: id in old(labelMap) ==>
          (id in labelMap <==> id !in keys[..i] || old(labelMap)[id].id in IdsOf(es) || id in addedCache)
        invariant addedCache == old(addedCache) && removedCache == old(removedCache) && snapEnabled == old(snapEnabled)
      {
        var key := keys[i];
        assert key !in keys[..i];
        var current := labelMap[key];
        var isPresent := exists p :: p in es && p.id == current.id;
        if !isPresent && key !in addedCache {
          labelMap := labelMap - {key};
        }
        assert keys[..i + 1] == keys[..i] + [key];
      }
      assert labelMap == Prune(old(labelMap), es, addedCache);
    }

    /**
     * set(labelEntities): with an array, first delete every label that is
     * neither proposed nor recently added; then propose each entity.
     */
    method Set(entities: Entities, isNewer: RevisionCheck, overrideRevisionCheck: bool)
      requires Valid()
      modifies this
      ensures Valid()
      ensures labelMap == SetLabels(old(labelMap), addedCache, removedCache, isNewer, overrideRevisionCheck, entities)
      ensures addedCache == old(addedCache) && removedCache == old(removedCache) && snapEnabled == old(snapEnabled)
    {
      match entities
      case EntityArray(es) =>
        DeleteAbsent(es);
        ghost var pruned := labelMap;
        for i := 0 to |es|
          invariant Valid()
          invariant labelMap == ProposeEach(pruned, removedCache, isNewer, overrideRevisionCheck, es[..i])
          invariant addedCache == old(addedCache) && removedCache == old(removedCache) && snapEnabled == old(snapEnabled)
        {
          SetOne(es[i], isNewer, overrideRevisionCheck);
          assert es[..i + 1][..i] == es[..i];
          assert [es[i]][..0] == [];
        }
        assert es[..|es|] == es;
      case SingleEntity(e) =>
        SetOne(e, isNewer, overrideRevisionCheck);
      case NoEntities =>
    }

    /** remove(labelIds): delete each id and record it as recently removed. */
    method Remove(labelIds: LabelIds, now: Timestamp)
      requires Valid()
      modifies this
      ensures Valid()
      ensures labelMap == old(labelMap) - IdSet(labelIds)
      ensures removedCache == Stamp(old(removedCache), IdSet(labelIds), now)
      ensures addedCache == old(addedCache) && snapEnabled == old(snapEnabled)
    {
      match labelIds
      case IdArray(ids) =>
        for i := 0 to |ids|
          invariant Valid()
          invariant labelMap == old(labelMap) - Elements(ids[..i])
          invariant removedCache == Stamp(old(removedCache), Elements(ids[..i]), now)
          invariant addedCache == old(addedCache) && snapEnabled == old(snapEnabled)
        {
          removedCache := removedCache[ids[i] := now];
          labelMap := labelMap - {ids[i]};
          assert ids[..i + 1] == ids[..i] + [ids[i]];
          ElementsSnoc(ids[..i], ids[i]);
          StampOneMore(old(removedCache), Elements(ids[..i]), ids[i], now);
        }
        assert ids[..|ids|] == ids;
      case SingleId(id) =>
        removedCache := removedCache[id := now];
        labelMap := labelMap - {id};
        StampOneMore(old(removedCache), {}, id, now);
    }

    /** removeAll(): remove every label currently on the canvas. */
    method RemoveAll(now: Timestamp)
      requires Valid()
      modifies this
      ensures Valid()
      ensures labelMap == map[]
      ensures removedCache == Stamp(old(removedCache), old(labelMap).Keys, now)
      ensures addedCache == old(addedCache) && snapEnabled == old(snapEnabled)
    {
      var keys := KeyList(labelMap.Keys);
      assert Elements(keys) == labelMap.Keys;
      Remove(IdArray(keys), now);
    }

    /** expireCaches(timestamp): forget cache entries older than timestamp. */
    method ExpireCaches(timestamp: Timestamp)
      requires Valid()
      modifies this
      ensures Valid()
      ensures ExpiredAt(old(addedCache), addedCache, timestamp)
      ensures ExpiredAt(old(removedCache), removedCache, timestamp)
      ensures labelMap == old(labelMap) && snapEnabled == old(snapEnabled)
    {
      addedCache := ExpireCache(addedCache, timestamp);
      removedCache := ExpireCache(removedCache, timestamp);
    }

    /**
     * The drag handler of a label's resize point, for the label stored under
     * id, at integer canvas coordinates (x, y).
     */
    method Drag(id: LabelId, x: int, y: int, shiftKey: bool)
      requires Valid()
      modifies this
      ensures Valid()
      ensures snapEnabled == !shiftKey
      ensures labelMap == if id in old(labelMap)
        then old(labelMap)[id := old(labelMap)[id].(dimensions := DraggedDimensions(x, y, !shiftKey))]
        else old(labelMap)
      ensures addedCache == old(addedCache) && removedCache == old(removedCache)
    {
      snapEnabled := !shiftKey;
      if id in labelMap {
        var labelData := labelMap[id];
        var width := ResizedExtent(x, snapEnabled, MIN_WIDTH);
        var height := ResizedExtent(y, snapEnabled, MIN_HEIGHT);
        labelMap := labelMap[id := labelData.(dimensions := Dimensions(width, height))];
      }
    }
  }
}
