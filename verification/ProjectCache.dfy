/** The LRU project cache's bookkeeping. Every method body is one critical section; loads run between
    them without the lock, so any interleaving of callers is some sequence of these calls. */
module ProjectCache {
  import opened Common

  type Slug = string
  type Handle = string
  /** Identity of a LoadedProject object, and of the watcher it may own. */
  type Ref = nat

  /** watched: a watcher was started for it; watching: the watcher field is still set. */
  datatype Loaded = Loaded(slug: Slug, id: Id, stale: bool, at: int, watched: bool, watching: bool)

  predicate IsLive(loaded: map<Slug, Ref>, inflight: set<Ref>, r: Ref, slug: Slug) {
    r in inflight || (slug in loaded && loaded[slug] == r)
  }

  /** A loaded slug maps to a project of that slug that no caller is still about to insert. */
  ghost predicate LoadedOk(heap: map<Ref, Loaded>, loaded: map<Slug, Ref>, inflight: set<Ref>) {
    && inflight <= heap.Keys
    && forall s :: s in loaded ==> loaded[s] in heap && heap[loaded[s]].slug == s && loaded[s] !in inflight
  }

  /** Projects under different slugs have different ids. */
  ghost predicate UniqueIds(heap: map<Ref, Loaded>) {
    forall r, q :: r in heap && q in heap && heap[r].id == heap[q].id ==> heap[r].slug == heap[q].slug
  }

  /** Each entry names a loaded project with that id. */
  ghost predicate IdsSound(heap: map<Ref, Loaded>, loaded: map<Slug, Ref>, idIndex: map<Id, Slug>) {
    forall id :: id in idIndex ==>
      idIndex[id] in loaded && loaded[idIndex[id]] in heap && heap[loaded[idIndex[id]]].id == id
  }

  /** Each loaded project has its entry. */
  ghost predicate IdsComplete(heap: map<Ref, Loaded>, loaded: map<Slug, Ref>, idIndex: map<Id, Slug>) {
    forall s :: s in loaded ==>
      loaded[s] in heap && heap[loaded[s]].id in idIndex && idIndex[heap[loaded[s]].id] == s
  }

  /** No entry is wrong, and unless two projects share an id none is missing. */
  ghost predicate IdsOk(heap: map<Ref, Loaded>, loaded: map<Slug, Ref>, idIndex: map<Id, Slug>) {
    IdsSound(heap, loaded, idIndex) && (UniqueIds(heap) ==> IdsComplete(heap, loaded, idIndex))
  }

  /** Exactly one handle for each of the slugs, and none for any other. */
  ghost predicate HandlesOk(handles: map<Handle, Slug>, slugs: set<Slug>) {
    && (forall h :: h in handles ==> handles[h] in slugs)
    && (forall s :: s in slugs ==> exists h :: h in handles && handles[h] == s)
    && (forall g, h :: g in handles && h in handles && handles[g] == handles[h] ==> g == h)
  }

  /** The open watchers are those started for live projects; each of the others was closed once. */
  ghost predicate WatchersOk(heap: map<Ref, Loaded>, loaded: map<Slug, Ref>, inflight: set<Ref>, open: set<Ref>,
                             closes: map<Ref, nat>)
  {
    && open <= heap.Keys && closes.Keys == heap.Keys
    && forall r :: r in heap ==>
      && (r in open <==> heap[r].watching)
      && (heap[r].watching <==> heap[r].watched && IsLive(loaded, inflight, r, heap[r].slug))
      && closes[r] == (if heap[r].watched && !heap[r].watching then 1 else 0)
  }

  /** No project that stays was accessed before the one that goes. */
  ghost predicate IsOldest(heap: map<Ref, Loaded>, loaded: map<Slug, Ref>, s: Slug) {
    s in loaded && loaded[s] in heap
    && forall t :: t in loaded && loaded[t] in heap ==> heap[loaded[s]].at <= heap[loaded[t]].at
  }

  /** Only watchers were closed. */
  ghost predicate SameMarks(heap: map<Ref, Loaded>, heap': map<Ref, Loaded>) {
    heap'.Keys == heap.Keys && forall r :: r in heap ==> heap'[r] == heap[r].(watching := heap'[r].watching)
  }

  lemma ClosedSameMarks(heap: map<Ref, Loaded>, r: Ref)
    requires r in heap
    ensures SameMarks(heap, heap) && SameMarks(heap, Closed(heap, r))
  {
  }

  lemma NothingMarked(heap: map<Ref, Loaded>)
    ensures SameMarks(heap, heap)
  {
  }

  lemma MarksAt(heap: map<Ref, Loaded>, heap': map<Ref, Loaded>, r: Ref)
    requires SameMarks(heap, heap') && r in heap
    ensures r in heap' && heap'[r].slug == heap[r].slug
  {
  }

  lemma MarksTransitive(a: map<Ref, Loaded>, b: map<Ref, Loaded>, c: map<Ref, Loaded>)
    requires SameMarks(a, b) && SameMarks(b, c)
    ensures SameMarks(a, c)
  {
  }

  /** At most one project made room: one accessed no later than any other. */
  ghost predicate RoomMade(heap: map<Ref, Loaded>, before: map<Slug, Ref>, after: map<Slug, Ref>, maxLoaded: nat) {
    if |before| < maxLoaded then after == before
    else exists v :: IsOldest(heap, before, v) && after == before - {v}
  }

  /** Below the bound nothing makes room; at the bound one project does, with every other accessed no earlier. */
  lemma RoomMadeMeans(heap: map<Ref, Loaded>, before: map<Slug, Ref>, after: map<Slug, Ref>, maxLoaded: nat)
    requires forall s :: s in before ==> before[s] in heap
    ensures RoomMade(heap, before, after, maxLoaded) <==>
            if |before| < maxLoaded then after == before
            else exists v :: v in before && after == before - {v}
                             && forall s :: s in before ==> heap[before[v]].at <= heap[before[s]].at
  {
    if |before| >= maxLoaded {
      forall v | v in before
        ensures IsOldest(heap, before, v) <==> forall s :: s in before ==> heap[before[v]].at <= heap[before[s]].at
      {
      }
    }
  }

  // ----- What the lock bodies do to the books -----

  function Closed(heap: map<Ref, Loaded>, r: Ref): map<Ref, Loaded>
    requires r in heap
  {
    heap[r := heap[r].(watching := false)]
  }

  function CloseCount(heap: map<Ref, Loaded>, closes: map<Ref, nat>, r: Ref): map<Ref, nat>
    requires r in heap && r in closes
  {
    if heap[r].watching then closes[r := closes[r] + 1] else closes
  }

  lemma UnloadLoaded(heap: map<Ref, Loaded>, loaded: map<Slug, Ref>, inflight: set<Ref>, slug: Slug)
    requires LoadedOk(heap, loaded, inflight) && slug in loaded
    ensures LoadedOk(Closed(heap, loaded[slug]), loaded - {slug}, inflight)
  {
  }

  ghost predicate SameNames(heap: map<Ref, Loaded>, heap': map<Ref, Loaded>) {
    forall r :: r in heap ==> r in heap' && heap'[r].slug == heap[r].slug && heap'[r].id == heap[r].id
  }

  /** The index looks at slugs and ids only, and objects added cannot make ids unique again. */
  lemma IdsCarry(heap: map<Ref, Loaded>, heap': map<Ref, Loaded>, loaded: map<Slug, Ref>, idIndex: map<Id, Slug>)
    requires IdsOk(heap, loaded, idIndex) && SameNames(heap, heap')
    ensures IdsOk(heap', loaded, idIndex)
  {
    if UniqueIds(heap') {
      UniqueBefore(heap, heap');
    }
  }

  lemma UniqueBefore(heap: map<Ref, Loaded>, heap': map<Ref, Loaded>)
    requires UniqueIds(heap') && SameNames(heap, heap')
    ensures UniqueIds(heap)
  {
    forall r, q | r in heap && q in heap && heap[r].id == heap[q].id ensures heap[r].slug == heap[q].slug {
      assert heap'[r].id == heap'[q].id;
    }
  }

  lemma UnloadIds(heap: map<Ref, Loaded>, loaded: map<Slug, Ref>, inflight: set<Ref>, idIndex: map<Id, Slug>,
                  slug: Slug)
    requires LoadedOk(heap, loaded, inflight) && IdsOk(heap, loaded, idIndex) && slug in loaded
    ensures IdsOk(Closed(heap, loaded[slug]), loaded - {slug}, idIndex - {heap[loaded[slug]].id})
  {
    var loaded', idIndex' := loaded - {slug}, idIndex - {heap[loaded[slug]].id};
    assert IdsSound(heap, loaded', idIndex');
    if UniqueIds(heap) {
      forall s | s in loaded' ensures heap[loaded'[s]].id in idIndex' {
        assert heap[loaded[s]].slug == s;
      }
    }
    IdsCarry(heap, Closed(heap, loaded[slug]), loaded', idIndex');
  }

  lemma UnloadWatchers(heap: map<Ref, Loaded>, loaded: map<Slug, Ref>, inflight: set<Ref>, open: set<Ref>,
                       closes: map<Ref, nat>, slug: Slug)
    requires LoadedOk(heap, loaded, inflight) && WatchersOk(heap, loaded, inflight, open, closes) && slug in loaded
    ensures
      var r := loaded[slug];
      WatchersOk(Closed(heap, r), loaded - {slug}, inflight, open - {r}, CloseCount(heap, closes, r))
  {
    var r := loaded[slug];
    forall q | q in heap && q != r
      ensures IsLive(loaded, inflight, q, heap[q].slug) <==> IsLive(loaded - {slug}, inflight, q, heap[q].slug)
    {
    }
    assert !IsLive(loaded - {slug}, inflight, r, slug);
  }

  lemma DiscardLoaded(heap: map<Ref, Loaded>, loaded: map<Slug, Ref>, inflight: set<Ref>, idIndex: map<Id, Slug>,
                      r: Ref)
    requires LoadedOk(heap, loaded, inflight) && IdsOk(heap, loaded, idIndex) && r in inflight
    ensures LoadedOk(Closed(heap, r), loaded, inflight - {r}) && IdsOk(Closed(heap, r), loaded, idIndex)
  {
    IdsCarry(heap, Closed(heap, r), loaded, idIndex);
    hide IdsOk;
  }

  lemma DiscardWatchers(heap: map<Ref, Loaded>, loaded: map<Slug, Ref>, inflight: set<Ref>, open: set<Ref>,
                        closes: map<Ref, nat>, r: Ref)
    requires LoadedOk(heap, loaded, inflight) && WatchersOk(heap, loaded, inflight, open, closes) && r in inflight
    ensures WatchersOk(Closed(heap, r), loaded, inflight - {r}, open - {r}, CloseCount(heap, closes, r))
  {
    assert !IsLive(loaded, inflight - {r}, r, heap[r].slug);
  }

  lemma PublishWatchers(heap: map<Ref, Loaded>, loaded: map<Slug, Ref>, inflight: set<Ref>, open: set<Ref>,
                        closes: map<Ref, nat>, r: Ref)
    requires LoadedOk(heap, loaded, inflight) && WatchersOk(heap, loaded, inflight, open, closes)
    requires r in inflight && heap[r].slug !in loaded
    ensures WatchersOk(heap, loaded[heap[r].slug := r], inflight - {r}, open, closes)
  {
    var slug := heap[r].slug;
    forall q | q in heap
      ensures IsLive(loaded, inflight, q, heap[q].slug) <==>
              IsLive(loaded[slug := r], inflight - {r}, q, heap[q].slug)
    {
    }
  }

  lemma PublishLoaded(heap: map<Ref, Loaded>, loaded: map<Slug, Ref>, inflight: set<Ref>, idIndex: map<Id, Slug>,
                      r: Ref)
    requires LoadedOk(heap, loaded, inflight) && IdsOk(heap, loaded, idIndex)
    requires r in inflight && heap[r].slug !in loaded
    ensures LoadedOk(heap, loaded[heap[r].slug := r], inflight - {r})
    ensures IdsOk(heap, loaded[heap[r].slug := r], idIndex[heap[r].id := heap[r].slug])
  {
  }

  /** Changing the access time or the stale flag of a project leaves the books alone. */
  lemma MarkKeepsBooks(heap: map<Ref, Loaded>, loaded: map<Slug, Ref>, inflight: set<Ref>, idIndex: map<Id, Slug>,
                       open: set<Ref>, closes: map<Ref, nat>, r: Ref, p: Loaded)
    requires LoadedOk(heap, loaded, inflight) && IdsOk(heap, loaded, idIndex)
    requires WatchersOk(heap, loaded, inflight, open, closes)
    requires r in heap && p == heap[r].(at := p.at, stale := p.stale)
    ensures LoadedOk(heap[r := p], loaded, inflight) && IdsOk(heap[r := p], loaded, idIndex)
    ensures WatchersOk(heap[r := p], loaded, inflight, open, closes)
  {
    hide IdsOk, WatchersOk;
    assert SameNames(heap, heap[r := p]);
    IdsCarry(heap, heap[r := p], loaded, idIndex);
    MarkWatchers(heap, loaded, inflight, open, closes, r, p);
  }

  lemma MarkWatchers(heap: map<Ref, Loaded>, loaded: map<Slug, Ref>, inflight: set<Ref>, open: set<Ref>,
                     closes: map<Ref, nat>, r: Ref, p: Loaded)
    requires WatchersOk(heap, loaded, inflight, open, closes)
    requires r in heap && p.slug == heap[r].slug && p.watched == heap[r].watched && p.watching == heap[r].watching
    ensures WatchersOk(heap[r := p], loaded, inflight, open, closes)
  {
    hide IsLive;
  }

  lemma LoadKeepsBooks(heap: map<Ref, Loaded>, loaded: map<Slug, Ref>, inflight: set<Ref>, idIndex: map<Id, Slug>,
                       open: set<Ref>, closes: map<Ref, nat>, r: Ref, p: Loaded)
    requires LoadedOk(heap, loaded, inflight) && IdsOk(heap, loaded, idIndex)
    requires WatchersOk(heap, loaded, inflight, open, closes)
    requires r !in heap && p.watched == p.watching
    ensures LoadedOk(heap[r := p], loaded, inflight + {r}) && IdsOk(heap[r := p], loaded, idIndex)
    ensures WatchersOk(heap[r := p], loaded, inflight + {r}, if p.watched then open + {r} else open, closes[r := 0])
  {
    hide IdsOk;
    IdsCarry(heap, heap[r := p], loaded, idIndex);
    forall q | q in heap
      ensures IsLive(loaded, inflight, q, heap[q].slug) <==> IsLive(loaded, inflight + {r}, q, heap[q].slug)
    {
    }
  }

  lemma LoadedFacts(heap: map<Ref, Loaded>, loaded: map<Slug, Ref>, inflight: set<Ref>, slug: Slug)
    requires LoadedOk(heap, loaded, inflight) && slug in loaded
    ensures loaded[slug] in heap && heap[loaded[slug]].slug == slug && loaded[slug] !in inflight
  {
  }

  lemma WatcherFacts(heap: map<Ref, Loaded>, loaded: map<Slug, Ref>, inflight: set<Ref>, open: set<Ref>,
                     closes: map<Ref, nat>, r: Ref)
    requires WatchersOk(heap, loaded, inflight, open, closes) && r in heap
    ensures r in closes && (heap[r].watching <==> r in open)
  {
  }

  class ProjectCache {
    const maxLoaded: nat
    const idleTTL: int
    var heap: map<Ref, Loaded>
    var loaded: map<Slug, Ref>
    var handles: map<Handle, Slug>
    var idIndex: map<Id, Slug>
    ghost var inflight: set<Ref>
    ghost var open: set<Ref>
    ghost var closes: map<Ref, nat>

    constructor (maxLoaded: nat, idleTTL: int)
      ensures Valid() && loaded == map[] && inflight == {} && heap == map[]
      ensures this.maxLoaded == if maxLoaded == 0 then 16 else maxLoaded
      ensures this.idleTTL == if idleTTL <= 0 then 15 else idleTTL
    {
      this.maxLoaded := if maxLoaded == 0 then 16 else maxLoaded;
      this.idleTTL := if idleTTL <= 0 then 15 else idleTTL;
      heap, loaded, handles, idIndex := map[], map[], map[], map[];
      inflight, open, closes := {}, {}, map[];
    }

    /** The books balance, the handles being those of slugs: the loaded ones and any about to be replaced. */
    ghost predicate Books(slugs: set<Slug>)
      reads this
    {
      && maxLoaded > 0
      && LoadedOk(heap, loaded, inflight)
      && IdsOk(heap, loaded, idIndex)
      && HandlesOk(handles, slugs)
      && WatchersOk(heap, loaded, inflight, open, closes)
    }

    ghost predicate Valid()
      reads this
    {
      Books(loaded.Keys) && |loaded| <= maxLoaded
    }

    /** Idempotent: a second call finds the field cleared. */
    method CloseWatcher(r: Ref)
      requires r in heap && r in closes && (heap[r].watching <==> r in open)
      modifies this`heap, this`open, this`closes
      ensures heap == Closed(old(heap), r) && open == old(open) - {r}
      ensures closes == CloseCount(old(heap), old(closes), r)
    {
      if heap[r].watching {
        open, closes := open - {r}, closes[r := closes[r] + 1];
        heap := heap[r := heap[r].(watching := false)];
      }
    }

    /** Closes the watcher of a loaded project and takes it out of both maps; its handle stays for now. */
    method Unload(slug: Slug, ghost slugs: set<Slug>)
      requires Books(slugs) && slug in loaded
      modifies this`heap, this`loaded, this`idIndex, this`open, this`closes
      ensures Books(slugs) && loaded == old(loaded) - {slug}
      ensures old(loaded)[slug] in old(heap) && heap == Closed(old(heap), old(loaded)[slug])
    {
      hide LoadedOk, IdsOk, HandlesOk, WatchersOk;
      var r := loaded[slug];
      LoadedFacts(heap, loaded, inflight, slug);
      WatcherFacts(heap, loaded, inflight, open, closes, r);
      UnloadLoaded(heap, loaded, inflight, slug);
      UnloadIds(heap, loaded, inflight, idIndex, slug);
      UnloadWatchers(heap, loaded, inflight, open, closes, slug);
      CloseWatcher(r);
      loaded := loaded - {slug};
      idIndex := idIndex - {heap[r].id};
    }

    method EvictLocked(slug: Slug, ghost slugs: set<Slug>)
      requires Books(slugs)
      modifies this`heap, this`loaded, this`handles, this`idIndex, this`open, this`closes
      ensures loaded == old(loaded) - {slug} && handles.Keys <= old(handles).Keys
      ensures slug !in old(loaded) ==> heap == old(heap) && Books(slugs)
      ensures slug in old(loaded) ==>
        old(loaded)[slug] in old(heap) && heap == Closed(old(heap), old(loaded)[slug]) && Books(slugs - {slug})
    {
      hide LoadedOk, IdsOk, HandlesOk, WatchersOk;
      if slug !in loaded {
        return;
      }
      Unload(slug, slugs);
      HandlesDrop(handles, slugs, slug);
      handles := map h | h in handles && handles[h] != slug :: handles[h];
    }

    /** An existing handle of the slug, or the freshly minted one. */
    method HandleFor(slug: Slug, minted: Handle, ghost slugs: set<Slug>) returns (h: Handle)
      requires minted !in handles && HandlesOk(handles, slugs)
      modifies this`handles
      ensures h in handles && handles[h] == slug && HandlesOk(handles, slugs + {slug})
      ensures slug in slugs ==> handles == old(handles)
    {
      var rest := handles.Keys;
      while rest != {}
        invariant rest <= handles.Keys && handles == old(handles)
        invariant forall g :: g in handles && g !in rest ==> handles[g] != slug
        decreases |rest|
      {
        var g :| g in rest;
        if handles[g] == slug {
          assert slugs + {slug} == slugs;
          return g;
        }
        rest := rest - {g};
      }
      HandlesMint(handles, slugs, slug, minted);
      handles := handles[minted := slug];
      h := minted;
    }

    /** A slug whose project was accessed least recently. */
    method Oldest() returns (slug: Slug)
      requires LoadedOk(heap, loaded, inflight) && loaded != map[]
      ensures IsOldest(heap, loaded, slug)
      ensures slug in loaded && loaded[slug] in heap
      ensures forall t :: t in loaded ==> loaded[t] in heap && heap[loaded[slug]].at <= heap[loaded[t]].at
    {
      var rest := loaded.Keys;
      slug :| slug in loaded;
      while rest != {}
        invariant rest <= loaded.Keys && slug in loaded
        invariant forall t :: t in loaded && t !in rest ==> heap[loaded[slug]].at <= heap[loaded[t]].at
        decreases |rest|
      {
        var t :| t in rest;
        rest := rest - {t};
        if heap[loaded[t]].at < heap[loaded[slug]].at {
          slug := t;
        }
      }
    }

    /** The first section of Get: a stale entry goes, a fresh one is returned with its handle. */
    method Lookup(slug: Slug, now: int, minted: Handle) returns (hit: Option<(Ref, Handle)>)
      requires Valid() && minted !in handles
      modifies this
      ensures Valid() && inflight == old(inflight)
      ensures hit.Some? <==> slug in old(loaded) && !old(heap[loaded[slug]]).stale
      ensures hit.Some? ==>
        && loaded == old(loaded) && hit.value.0 == loaded[slug] && heap[loaded[slug]].at == now
        && hit.value.1 in handles && handles[hit.value.1] == slug
        && loaded[slug] in old(heap) && heap == old(heap)[loaded[slug] := old(heap)[loaded[slug]].(at := now)]
      ensures hit.None? ==> loaded == old(loaded) - {slug} && SameMarks(old(heap), heap)
    {
      hide LoadedOk, IdsOk, HandlesOk, WatchersOk, SameMarks, Closed;
      NothingMarked(heap);
      if slug in loaded {
        LoadedFacts(heap, loaded, inflight, slug);
      }
      if slug in loaded && heap[loaded[slug]].stale {
        EvictLocked(slug, loaded.Keys);
        SizeDrop(old(loaded), slug);
        ClosedSameMarks(old(heap), old(loaded)[slug]);
      }
      if slug in loaded {
        Touch(slug, now);
        var h := HandleFor(slug, minted, loaded.Keys);
        assert loaded.Keys + {slug} == loaded.Keys;
        return Some((loaded[slug], h));
      }
      hit := None;
    }

    /** Sets LastAccessAt. */
    method Touch(slug: Slug, now: int)
      requires Valid() && slug in loaded
      modifies this`heap
      ensures Valid() && heap == old(heap)[loaded[slug] := old(heap)[loaded[slug]].(at := now)]
    {
      hide LoadedOk, IdsOk, HandlesOk, WatchersOk;
      var r := loaded[slug];
      LoadedFacts(heap, loaded, inflight, slug);
      MarkKeepsBooks(heap, loaded, inflight, idIndex, open, closes, r, heap[r].(at := now));
      heap := heap[r := heap[r].(at := now)];
    }

    method MarkAccess(slug: Slug, now: int)
      requires Valid()
      modifies this`heap
      ensures Valid()
      ensures heap ==
        if slug in loaded then old(heap)[loaded[slug] := old(heap)[loaded[slug]].(at := now)] else old(heap)
    {
      if slug in loaded {
        Touch(slug, now);
      }
    }

    /** loadFromDisk, outside the lock: a new project object, watched when a watcher could be started. */
    method LoadFromDisk(slug: Slug, id: Id, now: int, watched: bool, r: Ref)
      requires Valid() && r !in heap
      modifies this`heap, this`inflight, this`open, this`closes
      ensures Valid() && inflight == old(inflight) + {r}
      ensures heap == old(heap)[r := Loaded(slug, id, false, now, watched, watched)]
    {
      hide LoadedOk, IdsOk, HandlesOk, WatchersOk;
      LoadKeepsBooks(heap, loaded, inflight, idIndex, open, closes, r, Loaded(slug, id, false, now, watched, watched));
      heap := heap[r := Loaded(slug, id, false, now, watched, watched)];
      inflight := inflight + {r};
      open := if watched then open + {r} else open;
      closes := closes[r := 0];
    }

    /** The second section of Get: the loaded project goes in, unless another caller was faster. */
    method Insert(r: Ref, now: int, minted: Handle) returns (res: Ref, h: Handle)
      requires Valid() && r in inflight && minted !in handles
      modifies this
      ensures Valid() && inflight == old(inflight) - {r} && r in old(heap)
      ensures h in handles && handles[h] == old(heap[r]).slug
      ensures old(heap[r]).slug in loaded && loaded[old(heap[r]).slug] == res
      ensures
        var slug := old(heap[r]).slug;
        if slug in old(loaded) && !old(heap[loaded[slug]]).stale then
          && loaded == old(loaded) && res in old(heap) && res != r
          && heap == Closed(old(heap), r)[res := old(heap)[res].(at := now)]
        else
          res == r && RoomMade(old(heap), old(loaded) - {slug}, loaded - {slug}, maxLoaded)
    {
      hide LoadedOk, IdsOk, HandlesOk, WatchersOk, RoomMade;
      InflightFacts(heap, loaded, inflight, r);
      var slug := heap[r].slug;
      if slug in loaded {
        LoadedFacts(heap, loaded, inflight, slug);
        if !heap[loaded[slug]].stale {
          Discard(r);
          Touch(slug, now);
          h := HandleFor(slug, minted, loaded.Keys);
          assert loaded.Keys + {slug} == loaded.Keys;
          return loaded[slug], h;
        }
      }
      h := InsertFresh(r, minted);
      res := r;
    }

    method InsertFresh(r: Ref, minted: Handle) returns (h: Handle)
      requires Valid() && r in inflight && r in heap && minted !in handles
      modifies this
      ensures Valid() && inflight == old(inflight) - {r}
      ensures h in handles && handles[h] == old(heap[r]).slug
      ensures old(heap[r]).slug in loaded && loaded[old(heap[r]).slug] == r
      ensures
        var slug := old(heap[r]).slug;
        RoomMade(old(heap), old(loaded) - {slug}, loaded - {slug}, maxLoaded)
    {
      hide LoadedOk, IdsOk, HandlesOk, WatchersOk, RoomMade, Books, Valid, SameMarks;
      var slug := heap[r].slug;
      ghost var slugs := DropStale(slug);
      ghost var mid := heap;
      slugs := MakeRoom(slug, slugs);
      RoomSame(old(heap), mid, old(loaded) - {slug}, loaded, maxLoaded);
      MarksTransitive(old(heap), mid, heap);
      MarksAt(old(heap), heap, r);
      ghost var room := loaded;
      h := Publish(r, minted, slugs);
      assert loaded - {slug} == room;
    }

    /** A stale entry of the slug goes; its handle stays for the entry that replaces it. */
    method DropStale(slug: Slug) returns (ghost slugs: set<Slug>)
      requires Valid()
      modifies this`heap, this`loaded, this`idIndex, this`open, this`closes
      ensures Books(slugs) && |loaded| <= maxLoaded && loaded == old(loaded) - {slug}
      ensures slugs + {slug} == loaded.Keys + {slug}
      ensures SameMarks(old(heap), heap)
    {
      hide LoadedOk, IdsOk, HandlesOk, WatchersOk, SameMarks, Closed;
      NothingMarked(heap);
      slugs := loaded.Keys;
      if slug in loaded {
        LoadedFacts(heap, loaded, inflight, slug);
        ClosedSameMarks(heap, loaded[slug]);
        Unload(slug, slugs);
        SizeDrop(old(loaded), slug);
      }
      assert loaded == old(loaded) - {slug};
    }

    /** LRU eviction, when the insert would push the cache past its bound. */
    method MakeRoom(slug: Slug, ghost slugs: set<Slug>) returns (ghost slugs': set<Slug>)
      requires Books(slugs) && |loaded| <= maxLoaded && slug !in loaded && slugs + {slug} == loaded.Keys + {slug}
      modifies this`heap, this`loaded, this`handles, this`idIndex, this`open, this`closes
      ensures Books(slugs') && |loaded| < maxLoaded && slugs' + {slug} == loaded.Keys + {slug}
      ensures slug !in loaded && handles.Keys <= old(handles).Keys
      ensures RoomMade(old(heap), old(loaded), loaded, maxLoaded)
      ensures SameMarks(old(heap), heap)
    {
      hide LoadedOk, IdsOk, HandlesOk, WatchersOk, IsOldest, SameMarks, Closed;
      NothingMarked(heap);
      slugs' := slugs;
      if |loaded| + 1 > maxLoaded {
        slugs' := EvictOldest(slugs);
      }
    }

    /** The least recently used project goes. */
    method EvictOldest(ghost slugs: set<Slug>) returns (ghost slugs': set<Slug>)
      requires Books(slugs) && loaded != map[]
      modifies this`heap, this`loaded, this`handles, this`idIndex, this`open, this`closes
      ensures Books(slugs') && |loaded| < |old(loaded)| && handles.Keys <= old(handles).Keys
      ensures exists v :: IsOldest(old(heap), old(loaded), v) && loaded == old(loaded) - {v} && slugs' == slugs - {v}
      ensures SameMarks(old(heap), heap)
    {
      hide LoadedOk, IdsOk, HandlesOk, WatchersOk, IsOldest, SameMarks, Closed;
      var v := Oldest();
      OldestIsLoaded(heap, loaded, v);
      LoadedFacts(heap, loaded, inflight, v);
      ClosedSameMarks(heap, loaded[v]);
      SizeDrop(loaded, v);
      EvictLocked(v, slugs);
      slugs' := slugs - {v};
    }

    /** Another caller inserted first: the own copy goes, with its watcher. */
    method Discard(r: Ref)
      requires Valid() && r in inflight
      modifies this`heap, this`inflight, this`open, this`closes
      ensures Valid() && r in old(heap) && inflight == old(inflight) - {r} && heap == Closed(old(heap), r)
    {
      hide HandlesOk, WatchersOk, IdsOk, LoadedOk;
      InflightFacts(heap, loaded, inflight, r);
      WatcherFacts(heap, loaded, inflight, open, closes, r);
      DiscardLoaded(heap, loaded, inflight, idIndex, r);
      DiscardWatchers(heap, loaded, inflight, open, closes, r);
      CloseWatcher(r);
      inflight := inflight - {r};
    }

    method Publish(r: Ref, minted: Handle, ghost slugs: set<Slug>) returns (h: Handle)
      requires Books(slugs) && |loaded| < maxLoaded && minted !in handles
      requires r in inflight && r in heap && heap[r].slug !in loaded
      requires slugs + {heap[r].slug} == loaded.Keys + {heap[r].slug}
      modifies this`loaded, this`idIndex, this`inflight, this`handles
      ensures Valid() && inflight == old(inflight) - {r} && loaded == old(loaded)[heap[r].slug := r]
      ensures h in handles && handles[h] == heap[r].slug
    {
      hide LoadedOk, IdsOk, HandlesOk, WatchersOk;
      InflightFacts(heap, loaded, inflight, r);
      var slug := heap[r].slug;
      PublishWatchers(heap, loaded, inflight, open, closes, r);
      PublishLoaded(heap, loaded, inflight, idIndex, r);
      h := HandleFor(slug, minted, slugs);
      SizeAdd(loaded, slug, r);
      loaded := loaded[slug := r];
      idIndex := idIndex[heap[r].id := slug];
      inflight := inflight - {r};
    }

    method Evict(slug: Slug)
      requires Valid()
      modifies this
      ensures Valid() && loaded == old(loaded) - {slug} && inflight == old(inflight)
      ensures |loaded| <= maxLoaded && SameMarks(old(heap), heap)
    {
      hide LoadedOk, IdsOk, HandlesOk, WatchersOk, SameMarks, Closed;
      NothingMarked(heap);
      if slug in loaded {
        LoadedFacts(heap, loaded, inflight, slug);
        ClosedSameMarks(heap, loaded[slug]);
        SizeDrop(loaded, slug);
      }
      EvictLocked(slug, loaded.Keys);
      assert slug !in old(loaded) ==> loaded == old(loaded);
    }

    /** A change on disk, seen by the watcher or announced by a service call, marks the object. */
    method MarkStale(r: Ref)
      requires Valid() && r in heap
      modifies this`heap
      ensures Valid() && heap == old(heap)[r := old(heap)[r].(stale := true)]
    {
      hide LoadedOk, IdsOk, HandlesOk, WatchersOk;
      MarkKeepsBooks(heap, loaded, inflight, idIndex, open, closes, r, heap[r].(stale := true));
      heap := heap[r := heap[r].(stale := true)];
    }

    method Invalidate(slug: Slug)
      requires Valid()
      modifies this`heap
      ensures Valid()
      ensures heap ==
        if slug in loaded then old(heap)[loaded[slug] := old(heap)[loaded[slug]].(stale := true)] else old(heap)
    {
      if slug in loaded {
        MarkStale(loaded[slug]);
      }
    }

    /** One eviction tick: exactly the projects idle for longer than the limit go. Inserts keep the
        cache within its bound, so the tick finds nothing to evict beyond that. */
    method SweepIdle(now: int)
      requires Valid()
      modifies this
      ensures Valid() && inflight == old(inflight) && SameMarks(old(heap), heap)
      ensures loaded == map s | s in old(loaded) && now - old(heap[loaded[s]]).at <= idleTTL :: old(loaded)[s]
    {
      AllInHeap(heap, loaded, inflight);
      NothingMarked(heap);
      assert |loaded| <= maxLoaded;
      hide Valid, Books, SameMarks, LoadedOk, IdsOk, HandlesOk, WatchersOk;
      var expired := set s | s in loaded && now - heap[loaded[s]].at > idleTTL;
      var rest := expired;
      DropNothing(loaded, expired);
      while rest != {}
        invariant rest <= expired && Valid() && |loaded| <= maxLoaded && inflight == old(inflight)
        invariant loaded == old(loaded) - (expired - rest)
        invariant SameMarks(old(heap), heap)
        decreases |rest|
      {
        var s :| s in rest;
        ghost var mid := heap;
        Evict(s);
        MarksTransitive(old(heap), mid, heap);
        DropOneMore(old(loaded), expired, rest, s);
        rest := rest - {s};
      }
      if |loaded| > maxLoaded {
        assert false;
      }
      DropAll(old(loaded), expired);
      KeptAre(old(loaded), old(heap), expired, now, idleTTL);
    }

    /** The in-memory half of resolveSlug: a loaded slug, or the loaded project with that id. */
    method ResolveLoaded(idOrSlug: string) returns (slug: Option<Slug>)
      requires Valid()
      ensures idOrSlug in loaded ==> slug == Some(idOrSlug)
      ensures slug.Some? ==> slug.value in loaded && loaded[slug.value] in heap
      ensures slug.Some? && idOrSlug !in loaded ==> heap[loaded[slug.value]].id == idOrSlug
      ensures slug.None? ==> idOrSlug !in loaded && idOrSlug !in idIndex
      ensures slug.None? && UniqueIds(heap) ==> forall s :: s in loaded ==> heap[loaded[s]].id != idOrSlug
    {
      if idOrSlug in loaded {
        return Some(idOrSlug);
      }
      if idOrSlug in idIndex {
        return Some(idIndex[idOrSlug]);
      }
      slug := None;
    }
  }

  lemma DropNothing(m: map<Slug, Ref>, gone: set<Slug>)
    ensures m - (gone - gone) == m
  {
  }

  lemma DropOneMore(m: map<Slug, Ref>, gone: set<Slug>, rest: set<Slug>, s: Slug)
    requires s in rest && rest <= gone
    ensures m - (gone - rest) - {s} == m - (gone - (rest - {s}))
  {
  }

  lemma DropAll(m: map<Slug, Ref>, gone: set<Slug>)
    ensures m - (gone - {}) == m - gone
  {
  }

  lemma KeptAre(m: map<Slug, Ref>, heap: map<Ref, Loaded>, expired: set<Slug>, now: int, idle: int)
    requires forall s :: s in m ==> m[s] in heap
    requires expired == set s | s in m && now - heap[m[s]].at > idle
    ensures m - expired == map s | s in m && now - heap[m[s]].at <= idle :: m[s]
  {
  }

  lemma AllInHeap(heap: map<Ref, Loaded>, loaded: map<Slug, Ref>, inflight: set<Ref>)
    requires LoadedOk(heap, loaded, inflight)
    ensures forall s :: s in loaded ==> loaded[s] in heap
  {
  }

  lemma SizeDrop(loaded: map<Slug, Ref>, slug: Slug)
    requires slug in loaded
    ensures |loaded - {slug}| == |loaded| - 1
    ensures (loaded - {slug}).Keys == loaded.Keys - {slug}
  {
    assert |loaded - {slug}| == |(loaded - {slug}).Keys|;
    assert |loaded| == |loaded.Keys|;
  }

  lemma SizeAdd(loaded: map<Slug, Ref>, slug: Slug, r: Ref)
    requires slug !in loaded
    ensures |loaded[slug := r]| == |loaded| + 1
    ensures loaded[slug := r].Keys == loaded.Keys + {slug}
  {
    assert loaded[slug := r].Keys == loaded.Keys + {slug};
    assert |loaded[slug := r]| == |loaded[slug := r].Keys|;
    assert |loaded| == |loaded.Keys|;
  }

  /** Closing a watcher does not change who is oldest. */
  lemma RoomSame(heap: map<Ref, Loaded>, heap': map<Ref, Loaded>, before: map<Slug, Ref>, after: map<Slug, Ref>,
                 maxLoaded: nat)
    requires SameMarks(heap, heap')
    requires RoomMade(heap', before, after, maxLoaded)
    ensures RoomMade(heap, before, after, maxLoaded)
  {
    if |before| >= maxLoaded {
      var v :| IsOldest(heap', before, v) && after == before - {v};
      assert IsOldest(heap, before, v);
    }
  }

  lemma OldestIsLoaded(heap: map<Ref, Loaded>, loaded: map<Slug, Ref>, v: Slug)
    requires IsOldest(heap, loaded, v)
    ensures v in loaded
  {
  }

  lemma InflightFacts(heap: map<Ref, Loaded>, loaded: map<Slug, Ref>, inflight: set<Ref>, r: Ref)
    requires LoadedOk(heap, loaded, inflight) && r in inflight
    ensures r in heap && forall s :: s in loaded ==> loaded[s] != r
  {
  }

  lemma HandlesMint(handles: map<Handle, Slug>, slugs: set<Slug>, slug: Slug, minted: Handle)
    requires HandlesOk(handles, slugs) && minted !in handles && forall g :: g in handles ==> handles[g] != slug
    ensures HandlesOk(handles[minted := slug], slugs + {slug}) && slug !in slugs
  {
    var handles' := handles[minted := slug];
    forall s | s in slugs + {slug} ensures exists h :: h in handles' && handles'[h] == s {
      if s == slug {
        assert handles'[minted] == s;
      } else {
        var h :| h in handles && handles[h] == s;
        assert handles'[h] == s;
      }
    }
  }

  lemma HandlesDrop(handles: map<Handle, Slug>, slugs: set<Slug>, slug: Slug)
    requires HandlesOk(handles, slugs)
    ensures HandlesOk(map h | h in handles && handles[h] != slug :: handles[h], slugs - {slug})
  {
    var handles' := map h | h in handles && handles[h] != slug :: handles[h];
    forall s | s in slugs - {slug} ensures exists h :: h in handles' && handles'[h] == s {
      var h :| h in handles && handles[h] == s;
      assert h in handles';
    }
  }
}
