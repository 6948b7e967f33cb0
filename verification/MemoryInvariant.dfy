/** The frame table: present pages hold distinct frames, and the bitmap and the global list say which. */
module MemoryInvariant {
  import opened Common
  import opened Clock
  import opened Memory

  /**
   The global list is the present pages, except those `pending`, which are marked
   present before they get their frame; `hole` is a frame taken but not yet given.
   */
  ghost predicate Tidy(st: Setup, m: Memory, hole: Option<nat>, pending: set<Pid>) {
    && Shaped(st, m)
    && (forall p :: p in m.loaded <==> p in m.pages && m.pages[p].present && p !in pending)
    && FramesTidy(st.policy, FrameList(m.pages, m.loaded), m.bitmap, hole)
    && (forall p :: p in m.pages && m.pages[p].modified ==> m.pages[p].present)
    && (forall ft :: ft in m.lengths ==> HasPresent(m, ft))
  }

  ghost predicate HasPresent(m: Memory, ft: FileTag) {
    exists p :: p in m.pages && p.owner == ft && m.pages[p].present
  }

  /** The frames of the global list, in order. */
  function FrameList(pages: map<Pid, Page>, loaded: seq<Pid>): (fr: seq<nat>)
    requires forall i :: 0 <= i < |loaded| ==> loaded[i] in pages
    ensures |fr| == |loaded|
  {
    seq(|loaded|, i requires 0 <= i < |loaded| => pages[loaded[i]].frame)
  }

  ghost predicate Distinct<T>(s: seq<T>) {
    forall i, j :: 0 <= i < j < |s| ==> s[i] != s[j]
  }

  /** Distinct frames, their bits set and no other; the set bits come first, but for the hole; under CLOCK-M entry i holds frame i. */
  ghost predicate FramesTidy(policy: Policy, fr: seq<nat>, bitmap: seq<bool>, hole: Option<nat>) {
    var n := |fr| + if hole.Some? then 1 else 0;
    && n <= |bitmap|
    && (hole.Some? ==> hole.value < n)
    && Distinct(fr)
    && (forall f: nat :: f < |bitmap| ==> (bitmap[f] <==> f in fr))
    && (forall f: nat :: f < |bitmap| ==> (bitmap[f] <==> f < n && hole != Some(f)))
    && (forall i :: 0 <= i < |fr| ==> fr[i] < |bitmap|)
    && (policy == ClockM ==> forall i :: 0 <= i < |fr| ==> fr[i] == if hole.Some? && i >= hole.value then i + 1 else i)
  }

  /** Between operations. */
  ghost predicate Inv(st: Setup, m: Memory) {
    Tidy(st, m, None, {})
  }

  /** In use: no free bit means the global list is full. */
  lemma FullWhenNoneFree(st: Setup, m: Memory, pending: set<Pid>)
    requires Tidy(st, m, None, pending)
    ensures var free := FindFree(m.bitmap, 0);
            if free.None? then |m.loaded| == st.frames else free.value == |m.loaded|
  {
    if |m.loaded| < st.frames {
      assert !m.bitmap[|m.loaded|];
    }
  }

  // ------------------------------------------------------------- replacement

  /** Picking only takes the victim out of the list, and may clear use bits. */
  ghost predicate Picked(st: Setup, m: Memory, m': Memory, v: Pid, i: nat)
    requires Shaped(st, m)
  {
    && i < |m.loaded| && v == m.loaded[i]
    && m'.loaded == Without(m.loaded, i)
    && m'.pages.Keys == m.pages.Keys
    && (forall p :: p in m.pages ==> m'.pages[p] == m.pages[p].(used := m'.pages[p].used))
    && m'.lengths == m.lengths && m'.bitmap == m.bitmap && m'.bytes == m.bytes && m'.sent == m.sent
    && m'.hand < st.frames
  }

  lemma PickIsPicked(st: Setup, m: Memory) returns (i: nat)
    requires Shaped(st, m) && |m.loaded| == st.frames
    ensures Picked(st, m, PickVictim(st, m).0, PickVictim(st, m).1, i)
  {
    match st.policy
    case Lru => i := 0;
    case ClockM => i := At(|m.loaded|, m.hand, Choose(FlagsOf(m.pages, m.loaded), m.hand).offset);
  }

  /** A modified victim is sent once, with its frame, under the last number of its table that carries the frame. */
  ghost predicate WroteBack(st: Setup, m: Memory, v: Pid, sent: seq<BlockWrite>)
    requires Shaped(st, m) && v in m.pages
  {
    var page := m.pages[v];
    if !page.modified then sent == m.sent
    else exists num: nat ::
      && num < m.lengths[v.owner] && v.num <= num
      && m.pages[Pid(v.owner, num)].frame == page.frame
      && (forall k: nat :: num < k < m.lengths[v.owner] ==> m.pages[Pid(v.owner, k)].frame != page.frame)
      && sent == m.sent + [BlockWrite(v.owner, num, FrameOf(st, m.bytes, page.frame))]
  }

  lemma VictimWritten(st: Setup, m: Memory, v: Pid)
    requires Shaped(st, m) && v in m.pages && v !in m.loaded
    ensures WroteBack(st, m, v, FreeVictim(st, m, v).sent)
  {
    var num := PageWithFrame(m, v.owner, m.pages[v].frame, m.lengths[v.owner]);
    assert v == Pid(v.owner, v.num);
    hide FrameOf;
    assert num.Some?;
  }

  /** What evicting page `v` does: its bit is clear, it is absent, written back if modified, and only an emptied table goes. */
  lemma FreeFacts(st: Setup, m: Memory, v: Pid)
    requires Shaped(st, m) && v in m.pages && v !in m.loaded
    ensures var r := FreeVictim(st, m, v);
            && r.loaded == m.loaded && r.bytes == m.bytes && r.hand == m.hand
            && r.bitmap == m.bitmap[m.pages[v].frame := false]
            && WroteBack(st, m, v, r.sent)
            && (forall p :: p in r.pages ==> p in m.pages)
            && (forall p :: p in r.pages && p != v ==> r.pages[p] == m.pages[p])
            && (v in r.pages ==> r.pages[v] == m.pages[v].(present := false, modified := false))
            && (forall p :: p in m.pages && p !in r.pages ==> p.owner == v.owner && (p == v || !m.pages[p].present))
            && (forall ft :: ft in r.lengths ==> ft in m.lengths && r.lengths[ft] == m.lengths[ft])
            && (v.owner in r.lengths ==> exists p :: p in r.pages && p.owner == v.owner && r.pages[p].present)
            && (v.owner in m.lengths && v.owner !in r.lengths ==>
                  forall p :: p in m.pages && p.owner == v.owner && p != v ==> !m.pages[p].present)
            && (forall ft :: ft in m.lengths && ft != v.owner ==> ft in r.lengths)
  {
    var r := FreeVictim(st, m, v);
    VictimWritten(st, m, v);
    hide WroteBack;
    if v.owner in r.lengths {
      var k :| 0 <= k < r.lengths[v.owner] && r.pages[Pid(v.owner, k)].present;
    } else {
      forall p | p in m.pages && p.owner == v.owner && p != v ensures !m.pages[p].present {
        assert p == Pid(v.owner, p.num);
      }
    }
  }

  /** Pages of `r` were in `m` under the same frame, and those present were present. */
  ghost predicate Survivors(m: Memory, r: Memory) {
    forall q :: q in r.pages ==>
      q in m.pages && r.pages[q].frame == m.pages[q].frame && (r.pages[q].present ==> m.pages[q].present)
  }

  /** A frame is handed out: it is nobody's, and everybody else keeps theirs. */
  lemma AssignTidy(st: Setup, m: Memory, pending: set<Pid>)
    requires Tidy(st, m, None, pending)
    requires forall p :: p in pending ==> p in m.pages && m.pages[p].present
    ensures FindFree(m.bitmap, 0).None? ==> |m.loaded| == st.frames
    ensures var (r, f) := AssignFrame(st, m);
            && Tidy(st, r, Some(f), pending)
            && r.bytes == m.bytes
            && (forall p :: p in pending ==> p in r.pages && r.pages[p].present && r.pages[p].modified == m.pages[p].modified)
            && (forall ft :: ft in r.lengths ==> ft in m.lengths && r.lengths[ft] == m.lengths[ft])
            && Survivors(m, r)
  {
    FullWhenNoneFree(st, m, pending);
    if FindFree(m.bitmap, 0).None? {
      EvictTidy(st, m, pending);
    }
  }

  /** A page table other than the victim's keeps its pages; the victim's is kept only with a present page. */
  ghost predicate Evicted(m: Memory, r: Memory, v: Pid, i: nat) {
    && i < |m.loaded| && v == m.loaded[i] && r.loaded == Without(m.loaded, i)
    && r.bytes == m.bytes
    && (forall p :: p in r.pages ==> p in m.pages && r.pages[p].frame == m.pages[p].frame)
    && (forall p :: p in r.pages && p != v ==>
          r.pages[p].present == m.pages[p].present && r.pages[p].modified == m.pages[p].modified)
    && (v in r.pages ==> !r.pages[v].present && !r.pages[v].modified)
    && (forall p :: p in m.pages && p !in r.pages ==> p == v || !m.pages[p].present)
    && (forall ft :: ft in r.lengths ==> ft in m.lengths && r.lengths[ft] == m.lengths[ft] && (ft == v.owner ==> HasPresent(r, ft)))
  }

  lemma EvictFacts(st: Setup, m: Memory) returns (i: nat)
    requires Shaped(st, m) && |m.loaded| == st.frames
    requires forall p :: p in m.loaded ==> m.pages[p].frame < |m.bitmap|
    ensures var (picked, v) := PickVictim(st, m);
            var r := FreeVictim(st, picked, v);
            && Evicted(m, r, v, i)
            && picked.pages[v].frame == m.pages[v].frame
            && r.bitmap == m.bitmap[m.pages[v].frame := false]
  {
    i := PickIsPicked(st, m);
    var (picked, v) := PickVictim(st, m);
    FreeFacts(st, picked, v);
    hide PickVictim, FreeVictim, Shaped;
    PickedThenFreed(st, m, picked, FreeVictim(st, picked, v), v, i);
  }

  lemma PickedThenFreed(st: Setup, m: Memory, picked: Memory, r: Memory, v: Pid, i: nat)
    requires Shaped(st, m) && Picked(st, m, picked, v, i) && r.loaded == picked.loaded && r.bytes == picked.bytes
    requires forall p :: p in r.pages ==> p in picked.pages
    requires forall p :: p in r.pages && p != v ==> r.pages[p] == picked.pages[p]
    requires v in picked.pages && (v in r.pages ==> r.pages[v] == picked.pages[v].(present := false, modified := false))
    requires forall p :: p in picked.pages && p !in r.pages ==> p == v || !picked.pages[p].present
    requires forall ft :: ft in r.lengths ==> ft in picked.lengths && r.lengths[ft] == picked.lengths[ft]
    requires v.owner in r.lengths ==> exists p :: p in r.pages && p.owner == v.owner && r.pages[p].present
    ensures Evicted(m, r, v, i) && v in m.pages && picked.pages[v].frame == m.pages[v].frame
  {
    hide Shaped;
  }

  lemma EvictedTidy(st: Setup, m: Memory, r: Memory, v: Pid, i: nat, pending: set<Pid>)
    requires Tidy(st, m, None, pending) && |m.loaded| == st.frames
    requires Shaped(st, r) && Evicted(m, r, v, i)
    requires r.bitmap == m.bitmap[m.pages[v].frame := false]
    ensures Tidy(st, r, Some(m.pages[v].frame), pending) && v !in pending
  {
    EvictFrames(st.policy, FrameList(m.pages, m.loaded), m.bitmap, i);
    EvictedFrameList(m, r, v, i);
    EvictedList(m, r, v, i, pending);
    EvictedTables(m, r, v, i);
  }

  lemma EvictTidy(st: Setup, m: Memory, pending: set<Pid>)
    requires Tidy(st, m, None, pending) && |m.loaded| == st.frames
    requires forall p :: p in pending ==> p in m.pages && m.pages[p].present
    ensures var (picked, v) := PickVictim(st, m);
            var r := FreeVictim(st, picked, v);
            && Tidy(st, r, Some(picked.pages[v].frame), pending)
            && r.bytes == m.bytes
            && (forall p :: p in pending ==> p in r.pages && r.pages[p].present && r.pages[p].modified == m.pages[p].modified)
            && (forall ft :: ft in r.lengths ==> ft in m.lengths && r.lengths[ft] == m.lengths[ft])
            && Survivors(m, r)
  {
    var i := EvictFacts(st, m);
    var (picked, v) := PickVictim(st, m);
    EvictedTidy(st, m, FreeVictim(st, picked, v), v, i, pending);
  }

  lemma EvictedFrameList(m: Memory, r: Memory, v: Pid, i: nat)
    requires Evicted(m, r, v, i)
    requires forall k :: 0 <= k < |m.loaded| ==> m.loaded[k] in m.pages
    requires forall k :: 0 <= k < |r.loaded| ==> r.loaded[k] in r.pages
    ensures FrameList(r.pages, r.loaded) == Without(FrameList(m.pages, m.loaded), i)
  {
    var fr := FrameList(m.pages, m.loaded);
    forall k | 0 <= k < |r.loaded| ensures FrameList(r.pages, r.loaded)[k] == Without(fr, i)[k] {
      assert r.loaded[k] == m.loaded[if k < i then k else k + 1];
    }
  }

  lemma EvictedList(m: Memory, r: Memory, v: Pid, i: nat, pending: set<Pid>)
    requires Evicted(m, r, v, i) && Distinct(m.loaded)
    requires forall p :: p in m.loaded <==> p in m.pages && m.pages[p].present && p !in pending
    ensures forall p :: p in r.loaded <==> p in r.pages && r.pages[p].present && p !in pending
    ensures v !in pending
  {
    WithoutMembers(m.loaded, i);
    assert v in m.loaded;
  }

  lemma EvictedTables(m: Memory, r: Memory, v: Pid, i: nat)
    requires Evicted(m, r, v, i)
    requires forall ft :: ft in m.lengths ==> HasPresent(m, ft)
    ensures forall ft :: ft in r.lengths ==> HasPresent(r, ft)
  {
    forall ft | ft in r.lengths && ft != v.owner ensures HasPresent(r, ft) {
      assert HasPresent(m, ft);
      var p :| p in m.pages && p.owner == ft && m.pages[p].present;
      assert p in r.pages && r.pages[p].present;
    }
  }

  lemma WithoutMembers<T(!new)>(s: seq<T>, i: nat)
    requires i < |s| && Distinct(s)
    ensures Distinct(Without(s, i))
    ensures forall x :: x in Without(s, i) <==> x in s && x != s[i]
  {
    var r := Without(s, i);
    forall x | x in s && x != s[i] ensures x in r {
      var k :| 0 <= k < |s| && s[k] == x;
      assert r[if k < i then k else k - 1] == x;
    }
  }

  lemma EvictFrames(policy: Policy, fr: seq<nat>, bitmap: seq<bool>, i: nat)
    requires FramesTidy(policy, fr, bitmap, None) && |fr| == |bitmap| && i < |fr|
    ensures FramesTidy(policy, Without(fr, i), bitmap[fr[i] := false], Some(fr[i]))
  {
    WithoutMembers(fr, i);
  }

  // ------------------------------------------------------------ registration

  lemma InsertMembers<T(!new)>(s: seq<T>, i: nat, y: T)
    requires i <= |s| && Distinct(s) && y !in s
    ensures Distinct(InsertAt(s, i, y))
    ensures forall x :: x in InsertAt(s, i, y) <==> x in s || x == y
  {
    var r := InsertAt(s, i, y);
    assert r[i] == y;
    forall x | x in s ensures x in r {
      var k :| 0 <= k < |s| && s[k] == x;
      assert r[if k < i then k else k + 1] == x;
    }
  }

  lemma RegisterFrames(policy: Policy, fr: seq<nat>, bitmap: seq<bool>, f: nat, at: nat)
    requires FramesTidy(policy, fr, bitmap, Some(f)) && at == (if policy == ClockM then f else |fr|)
    ensures at <= |fr| && f !in fr
    ensures FramesTidy(policy, InsertAt(fr, at, f), bitmap[f := true], None)
  {
    assert !bitmap[f];
    InsertMembers(fr, at, f);
  }

  lemma InsertedFrameList(pages: map<Pid, Page>, loaded: seq<Pid>, at: nat, p: Pid)
    requires at <= |loaded| && p in pages
    requires forall k :: 0 <= k < |loaded| ==> loaded[k] in pages
    ensures forall k :: 0 <= k <= |loaded| ==> InsertAt(loaded, at, p)[k] in pages
    ensures FrameList(pages, InsertAt(loaded, at, p)) == InsertAt(FrameList(pages, loaded), at, pages[p].frame)
  {
    var l := InsertAt(loaded, at, p);
    forall k | 0 <= k <= |loaded| ensures l[k] == if k < at then loaded[k] else if k == at then p else loaded[k - 1] {
    }
  }

  lemma RegisterShape(st: Setup, m: Memory, p: Pid, f: nat, at: nat)
    requires Tidy(st, m, Some(f), {p})
    requires p in m.pages && m.pages[p].present && m.pages[p].frame == f
    requires at == if st.policy == ClockM then f else |m.loaded|
    ensures st.policy == ClockM ==> f <= |m.loaded|
    ensures |m.loaded| < st.frames && at <= |m.loaded| && p !in m.loaded
    ensures var r := Register(st, m, p);
            && r.loaded == InsertAt(m.loaded, at, p)
            && r == m.(loaded := r.loaded, bitmap := m.bitmap[f := true], history := m.history + [p])
  {
    var fr := FrameList(m.pages, m.loaded);
    RegisterFrames(st.policy, fr, m.bitmap, f, at);
    forall k | 0 <= k < |m.loaded| ensures m.pages[m.loaded[k]].frame != f {
      assert fr[k] in fr;
    }
  }

  /** Giving the hole to a present page that was not in the list closes it. */
  lemma RegisterTidy(st: Setup, m: Memory, p: Pid, f: nat)
    requires Tidy(st, m, Some(f), {p})
    requires p in m.pages && m.pages[p].present && m.pages[p].frame == f
    ensures st.policy == ClockM ==> f <= |m.loaded|
    ensures |m.loaded| < st.frames
    ensures Inv(st, Register(st, m, p))
  {
    var fr := FrameList(m.pages, m.loaded);
    var at := if st.policy == ClockM then f else |m.loaded|;
    RegisterShape(st, m, p, f, at);
    RegisterFrames(st.policy, fr, m.bitmap, f, at);
    var r := Register(st, m, p);
    InsertMembers(m.loaded, at, p);
    InsertedFrameList(m.pages, m.loaded, at, p);
    forall ft | ft in r.lengths ensures HasPresent(r, ft) {
      assert HasPresent(m, ft);
    }
  }
}
