/** Making a page resident, and the page-by-page transfers of WRITE and READ. */
module MemoryAccess {
  import opened Common
  import opened Clock
  import opened Memory
  import opened MemoryInvariant

  predicate Answers(st: Setup, answer: Answer) {
    answer.Loaded? ==> |answer.data| == st.size
  }

  // --------------------------------------------- the states on the way to a frame

  lemma FrameListSame(pages: map<Pid, Page>, pages': map<Pid, Page>, loaded: seq<Pid>)
    requires forall k :: 0 <= k < |loaded| ==> loaded[k] in pages && loaded[k] in pages'
    requires forall k :: 0 <= k < |loaded| ==> pages'[loaded[k]].frame == pages[loaded[k]].frame
    ensures FrameList(pages', loaded) == FrameList(pages, loaded)
  {
  }

  lemma StillPresent(m: Memory, r: Memory, ft: FileTag)
    requires HasPresent(m, ft)
    requires forall q :: q in m.pages && m.pages[q].present ==> q in r.pages && r.pages[q].present
    ensures HasPresent(r, ft)
  {
    var q :| q in m.pages && q.owner == ft && m.pages[q].present;
    assert q in r.pages && r.pages[q].present;
  }

  function Marked(m: Memory, p: Pid, write: bool): Memory
    requires p in m.pages
  {
    m.(pages := m.pages[p := Page(m.pages[p].frame, true, true, write)])
  }

  lemma MarkedShaped(st: Setup, m: Memory, p: Pid, write: bool)
    requires Shaped(st, m) && p in m.pages && p !in m.loaded
    ensures Shaped(st, Marked(m, p, write))
    ensures FrameList(Marked(m, p, write).pages, m.loaded) == FrameList(m.pages, m.loaded)
  {
    FrameListSame(m.pages, Marked(m, p, write).pages, m.loaded);
  }

  /** An absent page marked present before it has a frame. */
  lemma MarkedTidy(st: Setup, m: Memory, p: Pid, write: bool)
    requires Inv(st, m) && p in m.pages && !m.pages[p].present
    ensures Tidy(st, Marked(m, p, write), None, {p})
  {
    var r := Marked(m, p, write);
    MarkedShaped(st, m, p, write);
    forall ft | ft in r.lengths ensures HasPresent(r, ft) {
      StillPresent(m, r, ft);
    }
  }

  function Placed(m: Memory, p: Pid, f: nat): Memory
    requires p in m.pages
  {
    m.(pages := m.pages[p := m.pages[p].(frame := f)])
  }

  lemma PlacedShaped(st: Setup, m: Memory, p: Pid, f: nat)
    requires Shaped(st, m) && p in m.pages && f < st.frames && p !in m.loaded
    ensures Shaped(st, Placed(m, p, f))
    ensures FrameList(Placed(m, p, f).pages, m.loaded) == FrameList(m.pages, m.loaded)
  {
    FrameListSame(m.pages, Placed(m, p, f).pages, m.loaded);
  }

  lemma PlacedTidy(st: Setup, m: Memory, p: Pid, f: nat)
    requires Tidy(st, m, Some(f), {p}) && p in m.pages
    ensures Tidy(st, Placed(m, p, f), Some(f), {p})
  {
    PlacedShaped(st, m, p, f);
    PlacedTables(m, p, f);
  }

  lemma PlacedTables(m: Memory, p: Pid, f: nat)
    requires p in m.pages && forall ft :: ft in m.lengths ==> HasPresent(m, ft)
    ensures var r := Placed(m, p, f); forall ft :: ft in r.lengths ==> HasPresent(r, ft)
  {
    forall ft | ft in m.lengths ensures HasPresent(Placed(m, p, f), ft) {
      StillPresent(m, Placed(m, p, f), ft);
    }
  }

  /** Extending a table adds the page and absent ones before it. */
  ghost predicate Extended(m: Memory, r: Memory, p: Pid, page: Page) {
    && p !in m.pages && p in r.pages && r.pages[p] == page
    && (forall q :: q in m.pages ==> q in r.pages && r.pages[q] == m.pages[q])
    && (forall q :: q in r.pages && q !in m.pages && q != p ==> r.pages[q] == Page(0, false, true, false))
    && r == m.(pages := r.pages, lengths := m.lengths[p.owner := p.num + 1])
    && (forall q :: q in r.pages <==> q.owner in r.lengths && q.num < r.lengths[q.owner])
  }

  lemma ExtendFacts(m: Memory, ft: FileTag, num: nat, page: Page)
    requires forall q :: q in m.pages <==> q.owner in m.lengths && q.num < m.lengths[q.owner]
    requires ft in m.lengths ==> m.lengths[ft] <= num
    ensures Extended(m, ExtendTable(m, ft, num, page), Pid(ft, num), page)
  {
  }

  lemma ExtendedTables(m: Memory, r: Memory, p: Pid, page: Page)
    requires Extended(m, r, p, page) && page.present
    requires forall ft :: ft in m.lengths ==> HasPresent(m, ft)
    ensures forall ft :: ft in r.lengths ==> HasPresent(r, ft)
  {
    forall ft | ft in r.lengths ensures HasPresent(r, ft) {
      if ft == p.owner {
        assert p in r.pages && r.pages[p].present;
      } else {
        StillPresent(m, r, ft);
      }
    }
  }

  lemma ExtendedShaped(st: Setup, m: Memory, r: Memory, p: Pid, f: nat, write: bool)
    requires Shaped(st, m) && f < st.frames && Extended(m, r, p, Page(f, true, true, write))
    ensures Shaped(st, r)
    ensures FrameList(r.pages, m.loaded) == FrameList(m.pages, m.loaded)
  {
    FrameListSame(m.pages, r.pages, m.loaded);
  }

  lemma ExtendedList(m: Memory, r: Memory, p: Pid, page: Page)
    requires Extended(m, r, p, page) && page.present
    requires forall q :: q in m.loaded <==> q in m.pages && m.pages[q].present
    requires forall q :: q in m.pages && m.pages[q].modified ==> m.pages[q].present
    ensures r.loaded == m.loaded && r.bitmap == m.bitmap
    ensures forall q :: q in r.loaded <==> q in r.pages && r.pages[q].present && q !in {p}
    ensures forall q :: q in r.pages && r.pages[q].modified ==> r.pages[q].present
  {
  }

  lemma ExtendedTidy(st: Setup, m: Memory, r: Memory, p: Pid, f: nat, write: bool)
    requires Tidy(st, m, Some(f), {}) && Extended(m, r, p, Page(f, true, true, write))
    ensures Tidy(st, r, Some(f), {p})
  {
    ExtendedShaped(st, m, r, p, f, write);
    ExtendedTables(m, r, p, Page(f, true, true, write));
    ExtendedList(m, r, p, Page(f, true, true, write));
    hide Shaped, HasPresent, FrameList, Extended, FramesTidy;
  }

  // ------------------------------------------------------------ bringing a page in

  /** What bringing in `p` does: the invariant holds, `p` is present, its use bit set and its modified flag as asked, and other present pages keep their frames. */
  ghost predicate BroughtIn(st: Setup, m: Memory, r: Memory, p: Pid, write: bool) {
    && Inv(st, r)
    && p in r.pages && r.pages[p] == Page(r.pages[p].frame, true, true, write)
    && Others(m, r, p)
  }

  ghost predicate Others(m: Memory, r: Memory, p: Pid) {
    && r.bytes == m.bytes
    && (forall q :: q in r.pages && q != p && r.pages[q].present ==>
          q in m.pages && m.pages[q].present && r.pages[q].frame == m.pages[q].frame)
  }

  /** Taking a frame touches no flag of a page that is not in the list. */
  lemma AssignKeepsUnlisted(st: Setup, m: Memory, p: Pid)
    requires Shaped(st, m) && (FindFree(m.bitmap, 0).None? ==> |m.loaded| == st.frames) && p in m.pages && p !in m.loaded
    ensures var r := AssignFrame(st, m).0; p in r.pages ==> r.pages[p] == m.pages[p]
  {
    if FindFree(m.bitmap, 0).None? {
      var (picked, v) := PickVictim(st, m);
      assert picked.pages[p] == m.pages[p] && v in m.loaded;
      FreeFacts(st, picked, v);
      hide PickVictim, FreeVictim, Shaped;
    }
  }

  /** Where LoadAbsent stands before it registers the page. */
  lemma AbsentReady(st: Setup, m: Memory, p: Pid, write: bool)
    requires Inv(st, m) && p in m.pages && !m.pages[p].present
    ensures var marked := Marked(m, p, write);
            && Shaped(st, marked) && (FindFree(marked.bitmap, 0).None? ==> |marked.loaded| == st.frames)
            && var (a, f) := AssignFrame(st, marked);
            && p in a.pages && a.bytes == m.bytes && Survivors(marked, a)
            && var r := Placed(a, p, f);
            && Tidy(st, r, Some(f), {p})
            && r.pages[p] == Page(f, true, true, write)
  {
    MarkedTidy(st, m, p, write);
    AssignTidy(st, Marked(m, p, write), {p});
    AssignKeepsUnlisted(st, Marked(m, p, write), p);
    var (a, f) := AssignFrame(st, Marked(m, p, write));
    PlacedTidy(st, a, p, f);
  }

  /** A page of an existing table that is not in memory. */
  function LoadAbsent(st: Setup, m: Memory, p: Pid, write: bool): (r: Memory)
    requires Inv(st, m) && p in m.pages && !m.pages[p].present
  {
    AbsentReady(st, m, p, write);
    var (a, f) := AssignFrame(st, Marked(m, p, write));
    RegisterTidy(st, Placed(a, p, f), p, f);
    Register(st, Placed(a, p, f), p)
  }

  lemma LoadAbsentBringsIn(st: Setup, m: Memory, p: Pid, write: bool)
    requires Inv(st, m) && p in m.pages && !m.pages[p].present
    ensures BroughtIn(st, m, LoadAbsent(st, m, p, write), p, write)
  {
    AbsentReady(st, m, p, write);
    var marked := Marked(m, p, write);
    var (a, f) := AssignFrame(st, marked);
    RegisterTidy(st, Placed(a, p, f), p, f);
    OthersSurvive(m, marked, a, LoadAbsent(st, m, p, write), p, f);
  }

  lemma OthersSurvive(m: Memory, marked: Memory, a: Memory, r: Memory, p: Pid, f: nat)
    requires p in m.pages && p in marked.pages && marked == m.(pages := marked.pages) && marked.pages == m.pages[p := marked.pages[p]]
    requires Survivors(marked, a) && a.bytes == m.bytes && p in a.pages
    requires r.pages == Placed(a, p, f).pages && r.bytes == a.bytes
    ensures Others(m, r, p)
  {
  }

  /** Where LoadNew stands before it registers the page. */
  lemma NewReady(st: Setup, m: Memory, p: Pid, write: bool)
    requires Inv(st, m) && p !in m.pages
    ensures FindFree(m.bitmap, 0).None? ==> |m.loaded| == st.frames
    ensures var (a, f) := AssignFrame(st, m);
            && a.bytes == m.bytes && Survivors(m, a)
            && (p.owner in a.lengths || p.owner !in m.lengths ==>
                  var r := ExtendTable(a, p.owner, p.num, Page(f, true, true, write));
                  && Extended(a, r, p, Page(f, true, true, write))
                  && Tidy(st, r, Some(f), {p}))
  {
    AssignTidy(st, m, {});
    var (a, f) := AssignFrame(st, m);
    if p.owner in a.lengths || p.owner !in m.lengths {
      var page := Page(f, true, true, write);
      assert p == Pid(p.owner, p.num);
      ExtendFacts(a, p.owner, p.num, page);
      ExtendedTidy(st, a, ExtendTable(a, p.owner, p.num, page), p, f, write);
    }
  }

  /** A page beyond the end of its table, or of a table that does not exist; None when the eviction destroyed that very table. */
  function LoadNew(st: Setup, m: Memory, p: Pid, write: bool): (r: Option<Memory>)
    requires Inv(st, m) && p !in m.pages
  {
    NewReady(st, m, p, write);
    var (a, f) := AssignFrame(st, m);
    if p.owner in m.lengths && p.owner !in a.lengths then None
    else
      var r := ExtendTable(a, p.owner, p.num, Page(f, true, true, write));
      RegisterTidy(st, r, p, f);
      Some(Register(st, r, p))
  }

  lemma LoadNewBringsIn(st: Setup, m: Memory, p: Pid, write: bool)
    requires Inv(st, m) && p !in m.pages && LoadNew(st, m, p, write).Some?
    ensures BroughtIn(st, m, LoadNew(st, m, p, write).value, p, write)
  {
    NewReady(st, m, p, write);
    var (a, f) := AssignFrame(st, m);
    RegisterTidy(st, ExtendTable(a, p.owner, p.num, Page(f, true, true, write)), p, f);
  }

  /** A frame of `m` as a READ fills it: with the block just read. A WRITE leaves what the frame held. */
  function Filled(st: Setup, m: Memory, p: Pid, write: bool, data: Block): (r: Memory)
    requires Shaped(st, m) && p in m.pages && |data| == st.size
    ensures Shaped(st, r) && r.pages == m.pages
  {
    if write then m else m.(bytes := Poke(st, m.bytes, m.pages[p].frame, 0, data))
  }

  /** One turn of the transfer loops up to the copy: page `p` is made resident and its modified flag set to the access. */
  function Touch(st: Setup, m: Memory, p: Pid, write: bool, answer: Answer): (r: (Memory, Outcome))
    requires Inv(st, m) && Answers(st, answer)
    ensures r.1.Done? ==> Inv(st, r.0) && p in r.0.pages && r.0.pages[p].present && r.0.pages[p].modified == write
    ensures r.1.Failed? ==> r.0 == m
  {
    if p in m.pages && m.pages[p].present then
      HitInv(st, m, p, write);
      (m.(pages := m.pages[p := m.pages[p].(modified := write)]), Done)
    else if answer.Refused? then (m, Failed(answer.code))
    else if p in m.pages then
      LoadAbsentBringsIn(st, m, p, write);
      var r := LoadAbsent(st, m, p, write);
      FilledInv(st, r, p, write, answer.data);
      (Filled(st, r, p, write, answer.data), Done)
    else
      match LoadNew(st, m, p, write)
      case None => (m, Dangling)
      case Some(r) =>
        LoadNewBringsIn(st, m, p, write);
        FilledInv(st, r, p, write, answer.data);
        (Filled(st, r, p, write, answer.data), Done)
  }

  /** Only flags other than presence change. */
  ghost predicate Reflagged(m: Memory, r: Memory) {
    && r == m.(pages := r.pages) && r.pages.Keys == m.pages.Keys
    && forall p :: p in m.pages ==>
         r.pages[p].frame == m.pages[p].frame && r.pages[p].present == m.pages[p].present
         && (r.pages[p].modified ==> r.pages[p].present)
  }

  lemma ReflaggedShaped(st: Setup, m: Memory, r: Memory)
    requires Shaped(st, m) && Reflagged(m, r)
    ensures Shaped(st, r) && FrameList(r.pages, r.loaded) == FrameList(m.pages, m.loaded)
  {
    assert forall p :: p in r.pages <==> p in m.pages;
    FrameListSame(m.pages, r.pages, m.loaded);
  }

  lemma ReflaggedTables(m: Memory, r: Memory)
    requires Reflagged(m, r) && forall ft :: ft in m.lengths ==> HasPresent(m, ft)
    ensures forall ft :: ft in r.lengths ==> HasPresent(r, ft)
  {
    assert forall p :: p in r.pages <==> p in m.pages;
    forall ft | ft in r.lengths ensures HasPresent(r, ft) {
      StillPresent(m, r, ft);
    }
  }

  lemma ReflaggedPages(m: Memory, r: Memory)
    requires Reflagged(m, r) && forall p :: p in m.loaded <==> p in m.pages && m.pages[p].present && p !in {}
    ensures r.loaded == m.loaded && r.bitmap == m.bitmap
    ensures forall p :: p in r.loaded <==> p in r.pages && r.pages[p].present && p !in {}
    ensures forall p :: p in r.pages && r.pages[p].modified ==> r.pages[p].present
  {
    assert forall p :: p in r.pages <==> p in m.pages;
  }

  lemma ReflaggedInv(st: Setup, m: Memory, r: Memory)
    requires Inv(st, m) && Reflagged(m, r)
    ensures Inv(st, r)
  {
    InvParts(st, m);
    hide *;
    ReflaggedShaped(st, m, r);
    ReflaggedTables(m, r);
    ReflaggedPages(m, r);
    InvFrom(st, r);
  }

  lemma InvParts(st: Setup, m: Memory)
    requires Inv(st, m)
    ensures Shaped(st, m) && FramesTidy(st.policy, FrameList(m.pages, m.loaded), m.bitmap, None)
    ensures forall p :: p in m.loaded <==> p in m.pages && m.pages[p].present && p !in {}
    ensures forall ft :: ft in m.lengths ==> HasPresent(m, ft)
  {
  }

  lemma InvFrom(st: Setup, m: Memory)
    requires Shaped(st, m) && FramesTidy(st.policy, FrameList(m.pages, m.loaded), m.bitmap, None)
    requires forall p :: p in m.loaded <==> p in m.pages && m.pages[p].present && p !in {}
    requires forall p :: p in m.pages && m.pages[p].modified ==> m.pages[p].present
    requires forall ft :: ft in m.lengths ==> HasPresent(m, ft)
    ensures Inv(st, m)
  {
  }

  lemma HitInv(st: Setup, m: Memory, p: Pid, write: bool)
    requires Inv(st, m) && p in m.pages && m.pages[p].present
    ensures Inv(st, m.(pages := m.pages[p := m.pages[p].(modified := write)]))
  {
    var r := m.(pages := m.pages[p := m.pages[p].(modified := write)]);
    assert Reflagged(m, r);
    hide Inv, Reflagged;
    ReflaggedInv(st, m, r);
  }

  lemma BytesInv(st: Setup, m: Memory, bytes: seq<byte>)
    requires Inv(st, m) && |bytes| == |m.bytes|
    ensures Inv(st, m.(bytes := bytes))
  {
    var r := m.(bytes := bytes);
    forall ft | ft in r.lengths ensures HasPresent(r, ft) {
      StillPresent(m, r, ft);
    }
  }

  lemma FilledInv(st: Setup, m: Memory, p: Pid, write: bool, data: Block)
    requires Inv(st, m) && p in m.pages && |data| == st.size
    ensures Inv(st, Filled(st, m, p, write, data))
  {
    if !write {
      BytesInv(st, m, Poke(st, m.bytes, m.pages[p].frame, 0, data));
    }
  }
}
