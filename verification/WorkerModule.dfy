/** The worker's memory as it runs: tables, frames and the hand updated in place, each operation equal to its function on values. */
module WorkerModule {
  import opened Common
  import opened Clock
  import opened Memory
  import opened MemoryInvariant
  import opened MemoryAccess
  import opened FlatMemory

  // ------------------------------------------------------------ lemmas of the scan

  lemma PassedOneMore(loaded: seq<Pid>, hand: nat, i: nat)
    requires hand < |loaded| && i < |loaded| && Distinct(loaded)
    ensures loaded[At(|loaded|, hand, i)] !in Passed(loaded, hand, i)
    ensures Passed(loaded, hand, i + 1) == Passed(loaded, hand, i) + {loaded[At(|loaded|, hand, i)]}
  {
  }

  lemma PassedAll(loaded: seq<Pid>, hand: nat)
    requires hand < |loaded|
    ensures forall p :: p in Passed(loaded, hand, |loaded|) <==> p in loaded
  {
    forall p | p in loaded ensures p in Passed(loaded, hand, |loaded|) {
      var i :| 0 <= i < |loaded| && loaded[i] == p;
      assert At(|loaded|, hand, if i >= hand then i - hand else i + |loaded| - hand) == i;
    }
  }

  /** Entries cleared when pass `pass` (0, 1, 2, 3) has probed `i` of them. */
  function ClearedBy(n: nat, pass: nat, i: nat): nat {
    if pass == 0 then 0 else if pass == 1 then i else n
  }

  /** Probes of the passes before pass `pass`. */
  function Before(n: nat, pass: nat): nat {
    if pass == 0 then 0 else if pass == 1 then n else if pass == 2 then 2 * n else 3 * n
  }

  /** The flags a pass stops at, in terms of those found at the start. */
  function Wanted(pass: nat): Flags {
    if pass == 0 then Flags(false, false) else if pass == 1 then Flags(false, true)
    else if pass == 2 then Flags(true, false) else Flags(true, true)
  }

  /** What the earlier passes have ruled out. */
  ghost predicate RuledOut(fs: seq<Flags>, hand: nat, pass: nat)
    requires hand < |fs|
  {
    forall k :: 0 <= k < pass ==> Absent(fs, hand, Wanted(k))
  }

  /** At probe `i` of a pass the entry's current flags say stop iff it had the wanted flags at the start. */
  lemma ProbeMeans(pages: map<Pid, Page>, loaded: seq<Pid>, hand: nat, pass: nat, i: nat)
    requires hand < |loaded| && i < |loaded| && pass <= 3 && Distinct(loaded)
    requires forall k :: 0 <= k < |loaded| ==> loaded[k] in pages
    requires RuledOut(FlagsOf(pages, loaded), hand, pass)
    ensures var p := loaded[At(|loaded|, hand, i)];
            var now := ClearUsed(pages, Passed(loaded, hand, ClearedBy(|loaded|, pass, i)))[p];
            && (!now.used && now.modified == (pass % 2 == 1) <==> Seen(FlagsOf(pages, loaded), hand, i) == Wanted(pass))
            && now.modified == pages[p].modified
            && (pass == 3 ==> Seen(FlagsOf(pages, loaded), hand, i) == Wanted(3))
  {
    var n := |loaded|;
    var p := loaded[At(n, hand, i)];
    var fs := FlagsOf(pages, loaded);
    PassedOneMore(loaded, hand, i);
    PassedAll(loaded, hand);
    assert Seen(fs, hand, i) == Flags(pages[p].used, pages[p].modified);
    if pass > 0 { assert Seen(fs, hand, i) != Wanted(0); }
    if pass > 1 { assert Seen(fs, hand, i) != Wanted(1); }
    if pass > 2 { assert Seen(fs, hand, i) != Wanted(2); }
  }

  lemma ChosenAt(fs: seq<Flags>, hand: nat, pass: nat, i: nat)
    requires hand < |fs| && i < |fs| && pass <= 3 && RuledOut(fs, hand, pass) && (pass == 3 ==> i == 0)
    requires Seen(fs, hand, i) == Wanted(pass)
    requires forall j :: 0 <= j < i ==> Seen(fs, hand, j) != Wanted(pass)
    ensures Choose(fs, hand) == Choice(i, ClearedBy(|fs|, pass, i), Before(|fs|, pass) + i + 1)
  {
    assert RuledOut(fs, hand, pass) && (pass > 0 ==> Absent(fs, hand, Wanted(0)))
           && (pass > 1 ==> Absent(fs, hand, Wanted(1))) && (pass > 2 ==> Absent(fs, hand, Wanted(2)));
    ChoiceIsUnique(fs, hand, Choose(fs, hand), Choice(i, ClearedBy(|fs|, pass, i), Before(|fs|, pass) + i + 1));
  }

  /** Probe `i` of pass `pass` of a scan that began with pages `pages0` and the hand at `h`. */
  ghost predicate Scanning(frames: nat, pages: map<Pid, Page>, loaded: seq<Pid>, hand: nat, pages0: map<Pid, Page>, h: nat, pass: nat, i: nat) {
    && (forall k :: 0 <= k < |loaded| ==> loaded[k] in pages0)
    && 0 < |loaded| == frames && h < |loaded| && i <= |loaded| && pass <= 3 && Distinct(loaded)
    && hand == At(|loaded|, h, i)
    && RuledOut(FlagsOf(pages0, loaded), h, pass)
    && pages == ClearUsed(pages0, Passed(loaded, h, ClearedBy(|loaded|, pass, i)))
    && (forall j :: 0 <= j < i ==> Seen(FlagsOf(pages0, loaded), h, j) != Wanted(pass))
    && (pass == 3 ==> i == 0)
  }

  /** The page under the hand: in the tables, and stopping the scan iff it had the wanted flags. */
  lemma AtTheHand(frames: nat, pages: map<Pid, Page>, loaded: seq<Pid>, hand: nat, pages0: map<Pid, Page>, h: nat, pass: nat, i: nat)
    requires Scanning(frames, pages, loaded, hand, pages0, h, pass, i) && i < |loaded|
    ensures h < |loaded| == frames && pass <= 3 && hand == At(frames, h, i) && loaded[hand] in pages
    ensures forall k :: 0 <= k < |loaded| ==> loaded[k] in pages0
    ensures pages == ClearUsed(pages0, Passed(loaded, h, ClearedBy(|loaded|, pass, i)))
    ensures var now := pages[loaded[hand]];
            if !now.used && now.modified == (pass % 2 == 1)
            then Choose(FlagsOf(pages0, loaded), h) == Choice(i, ClearedBy(frames, pass, i), Before(frames, pass) + i + 1)
            else pass < 3 && Seen(FlagsOf(pages0, loaded), h, i) != Wanted(pass)
  {
    ProbeMeans(pages0, loaded, h, pass, i);
    if Seen(FlagsOf(pages0, loaded), h, i) == Wanted(pass) {
      ChosenAt(FlagsOf(pages0, loaded), h, pass, i);
    }
  }

  lemma ClearOneMore(pages: map<Pid, Page>, s: set<Pid>, v: Pid)
    requires v in pages && v !in s
    ensures var cleared := ClearUsed(pages, s);
            v in cleared && ClearUsed(pages, s + {v}) == cleared[v := cleared[v].(used := false)]
  {
  }

  lemma HandMoves(n: nat, h: nat, i: nat)
    requires h < n && i < n
    ensures At(n, h, i + 1) == if At(n, h, i) + 1 == n then 0 else At(n, h, i) + 1
  {
  }

  lemma MoveOn(frames: nat, pages: map<Pid, Page>, loaded: seq<Pid>, hand: nat, pages0: map<Pid, Page>, h: nat, pass: nat, i: nat)
    requires Scanning(frames, pages, loaded, hand, pages0, h, pass, i) && i < |loaded| && loaded[hand] in pages
    requires pass < 3 && Seen(FlagsOf(pages0, loaded), h, i) != Wanted(pass)
    ensures var v := loaded[hand];
            var after := if pass % 2 == 1 then pages[v := pages[v].(used := false)] else pages;
            var next := if hand + 1 == frames then 0 else hand + 1;
            Scanning(frames, after, loaded, next, pages0, h, pass, i + 1)
  {
    hide ClearUsed, Passed, FlagsOf, At, RuledOut;
    PassedOneMore(loaded, h, i);
    HandMoves(|loaded|, h, i);
    ClearOneMore(pages0, Passed(loaded, h, i), loaded[hand]);
  }

  lemma NextPass(frames: nat, pages: map<Pid, Page>, loaded: seq<Pid>, hand: nat, pages0: map<Pid, Page>, h: nat, pass: nat)
    requires Scanning(frames, pages, loaded, hand, pages0, h, pass, |loaded|)
    ensures pass < 3 && Scanning(frames, pages, loaded, hand, pages0, h, pass + 1, 0)
  {
    assert Absent(FlagsOf(pages0, loaded), h, Wanted(pass));
  }

  lemma ScanningLength(frames: nat, pages: map<Pid, Page>, loaded: seq<Pid>, hand: nat, pages0: map<Pid, Page>, h: nat, pass: nat, i: nat)
    requires Scanning(frames, pages, loaded, hand, pages0, h, pass, i)
    ensures 0 < |loaded| == frames
  {
  }

  lemma BeforeNext(n: nat, pass: nat)
    requires pass < 3
    ensures Before(n, pass) + n == Before(n, pass + 1)
  {
  }

  lemma ScanStarts(st: Setup, m: Memory)
    requires Shaped(st, m) && |m.loaded| == st.frames
    ensures Scanning(st.frames, m.pages, m.loaded, m.hand, m.pages, m.hand, 0, 0)
  {
    assert ClearUsed(m.pages, {}) == m.pages;
  }

  lemma AddLast(a: map<Pid, Page>, b: map<Pid, Page>, p: Pid, page: Page)
    ensures (a + b)[p := page] == a + b[p := page]
  {
  }

  lemma TidyAfter(st: Setup, m: Memory, p: Pid)
    requires p in m.pages && Tidy(st, m, Some(m.pages[p].frame), {p})
    ensures Shaped(st, m) && p !in m.loaded
  {
  }

  function WithAbsent(pages: map<Pid, Page>, ft: FileTag, lo: nat, hi: nat): map<Pid, Page> {
    pages + AbsentPages(ft, lo, hi)
  }

  lemma AbsentNone(pages: map<Pid, Page>, ft: FileTag, lo: nat, hi: nat)
    requires hi <= lo
    ensures WithAbsent(pages, ft, lo, hi) == pages
  {
  }

  lemma AbsentOneMore(pages: map<Pid, Page>, ft: FileTag, lo: nat, i: nat)
    requires lo <= i
    ensures WithAbsent(pages, ft, lo, i)[Pid(ft, i) := Page(0, false, true, false)] == WithAbsent(pages, ft, lo, i + 1)
  {
    AddLast(pages, AbsentPages(ft, lo, i), Pid(ft, i), Page(0, false, true, false));
  }

  lemma FrameSlice(st: Setup, bytes: seq<byte>, f: nat, off: nat, n: nat)
    requires |bytes| == Start(st.size, st.frames) && f < st.frames && off + n <= st.size
    ensures Start(st.size, f) + off + n <= |bytes|
    ensures FrameOf(st, bytes, f)[off..off + n] == bytes[Start(st.size, f) + off..Start(st.size, f) + off + n]
  {
    FrameBounds(f, st.frames, st.size);
    SliceOfSlice(bytes, Start(st.size, f), Start(st.size, f) + st.size, off, off + n);
  }

  /** Where a miss beyond the end of a table stands once it has its frame. */
  lemma NewFacts(st: Setup, m: Memory, p: Pid, write: bool)
    requires Inv(st, m) && p !in m.pages
    ensures Shaped(st, m) && (FindFree(m.bitmap, 0).None? ==> |m.loaded| == st.frames)
    ensures var (a, f) := AssignFrame(st, m);
            if p.owner in m.lengths && p.owner !in a.lengths then LoadNew(st, m, p, write).None?
            else
              var r := ExtendTable(a, p.owner, p.num, Page(f, true, true, write));
              && Shaped(st, r) && p in r.pages && r.pages[p].present && p !in r.loaded && |r.loaded| < st.frames
              && (st.policy == ClockM ==> r.pages[p].frame <= |r.loaded|)
              && LoadNew(st, m, p, write) == Some(Register(st, r, p))
  {
    NewReady(st, m, p, write);
    var (a, f) := AssignFrame(st, m);
    if !(p.owner in m.lengths && p.owner !in a.lengths) {
      var r := ExtendTable(a, p.owner, p.num, Page(f, true, true, write));
      TidyAfter(st, r, p);
      RegisterTidy(st, r, p, f);
      hide AssignFrame, ExtendTable, Tidy, Register;
    }
  }

  lemma ResidentFrame(st: Setup, m: Memory, p: Pid)
    requires Inv(st, m) && p in m.pages
    ensures Shaped(st, m) && m.pages[p].frame < st.frames && |m.bytes| == Start(st.size, st.frames)
  {
  }

  /** The scan that began with pages `pages0`, list `was` and the hand at `h` chose `v`, after that many probes. */
  ghost predicate Taken(st: Setup, pages: map<Pid, Page>, loaded: seq<Pid>, hand: nat,
                        pages0: map<Pid, Page>, was: seq<Pid>, h: nat, v: Pid, probes: nat) {
    && h < |was| == st.frames && (forall k :: 0 <= k < |was| ==> was[k] in pages0)
    && var c := Choose(FlagsOf(pages0, was), h);
       var at := At(st.frames, h, c.offset);
       && probes == c.probes && v == was[at] && loaded == Without(was, at) && hand == Next(st, at)
       && pages == ClearUsed(pages0, Passed(was, h, c.cleared))
  }

  /** Where a scan that has taken its victim leaves the memory. */
  lemma TakenPicks(st: Setup, m: Memory, pages': map<Pid, Page>, loaded': seq<Pid>, hand': nat, v: Pid, probes: nat)
    requires st.policy == ClockM && Shaped(st, m) && |m.loaded| == st.frames
    requires Taken(st, pages', loaded', hand', m.pages, m.loaded, m.hand, v, probes)
    ensures (m.(pages := pages', loaded := loaded', hand := hand'), v) == PickVictim(st, m)
    ensures var c := Choose(FlagsOf(m.pages, m.loaded), m.hand);
            probes == c.probes <= 3 * st.frames + 1 && v == m.loaded[At(st.frames, m.hand, c.offset)]
  {
  }

  /** The search does not look at the bitmap. */
  lemma EntryElsewhere(m: Memory, frame: nat, bitmap: seq<bool>)
    requires forall k :: 0 <= k < |m.loaded| ==> m.loaded[k] in m.pages
    ensures EntryWithFrame(m.(bitmap := bitmap), frame, 0) == EntryWithFrame(m, frame, 0)
  {
  }

  lemma RegisterIs(st: Setup, m: Memory, p: Pid)
    requires Shaped(st, m) && p in m.pages && m.pages[p].present && p !in m.loaded && |m.loaded| < st.frames
    requires st.policy == ClockM ==> m.pages[p].frame <= |m.loaded|
    ensures |m.bitmap| == st.frames && m.pages[p].frame < st.frames && forall i :: 0 <= i < |m.loaded| ==> m.loaded[i] in m.pages
    ensures Register(st, m, p) ==
            m.(bitmap := m.bitmap[m.pages[p].frame := true], loaded := Enlisted(st, m, p), history := m.history + [p])
  {
    hide EntryWithFrame, Enlisted;
  }

  lemma EnlistedLru(st: Setup, m: Memory, p: Pid, k: nat)
    requires st.policy == Lru && Shaped(st, m) && p in m.pages && p !in m.loaded && k == EntryWithFrame(m, m.pages[p].frame, 0)
    ensures Enlisted(st, m, p) == (if k < |m.loaded| then m.loaded[..k] + m.loaded[k + 1..] else m.loaded) + [p]
  {
    hide EntryWithFrame;
  }

  lemma EnlistedClock(st: Setup, m: Memory, p: Pid)
    requires st.policy == ClockM && Shaped(st, m) && p in m.pages && p !in m.loaded && m.pages[p].frame <= |m.loaded|
    ensures Enlisted(st, m, p) == m.loaded[..m.pages[p].frame] + [p] + m.loaded[m.pages[p].frame..]
  {
  }

  class Worker {
    const st: Setup
    var lengths: map<FileTag, nat>
    var pages: map<Pid, Page>
    var loaded: seq<Pid>
    var bitmap: seq<bool>
    var bytes: seq<byte>
    var hand: nat
    var sent: seq<BlockWrite>
    ghost var history: seq<Pid>

    ghost function State(): Memory
      reads this
    {
      Memory(lengths, pages, loaded, bitmap, bytes, hand, sent, history)
    }

    method AdvanceHand()
      requires hand < st.frames
      modifies `hand
      ensures hand == Next(st, old(hand))
    {
      hand := hand + 1;
      if hand == st.frames { hand := 0; }
    }

    /** One probe: the page under the hand is taken, or it is passed over and, on the second kind of round, marked unused. */
    method Probe(round: int, ghost pages0: map<Pid, Page>, ghost h: nat, ghost pass: nat, ghost i: nat)
      returns (found: bool, v: Pid)
      requires round == (if pass % 2 == 0 then 1 else 2)
      requires Scanning(st.frames, pages, loaded, hand, pages0, h, pass, i) && i < |loaded|
      modifies `pages, `loaded, `hand
      ensures !found ==> loaded == old(loaded) && Scanning(st.frames, pages, loaded, hand, pages0, h, pass, i + 1)
      ensures found ==> Taken(st, pages, loaded, hand, pages0, old(loaded), h, v, Before(st.frames, pass) + i + 1)
    {
      AtTheHand(st.frames, pages, loaded, hand, pages0, h, pass, i);
      hide Scanning, Choose, ClearUsed, Passed, FlagsOf, At;
      v := loaded[hand];
      found := !pages[v].used && pages[v].modified == (round == 2);
      if found {
        loaded := Without(loaded, hand);
      } else {
        MoveOn(st.frames, pages, loaded, hand, pages0, h, pass, i);
        if round == 2 { pages := pages[v := pages[v].(used := false)]; }
      }
      AdvanceHand();
    }

    /** The probes of one round, up to the one that stops it. */
    method ProbeAll(round: int, ghost pages0: map<Pid, Page>, ghost h: nat, ghost pass: nat)
      returns (found: bool, v: Pid, ghost probes: nat)
      requires round == (if pass % 2 == 0 then 1 else 2)
      requires Scanning(st.frames, pages, loaded, hand, pages0, h, pass, 0) && 0 < |loaded| == st.frames
      modifies `pages, `loaded, `hand
      ensures !found ==> loaded == old(loaded) && probes == |loaded|
      ensures !found ==> Scanning(st.frames, pages, loaded, hand, pages0, h, pass, |loaded|)
      ensures found ==> Taken(st, pages, loaded, hand, pages0, old(loaded), h, v, Before(st.frames, pass) + probes)
    {
      hide *;
      found, v, probes := false, loaded[0], 0;
      var i: nat := 0;
      while i < |loaded|
        invariant !found && loaded == old(loaded) && probes == i <= |loaded| == st.frames
        invariant Scanning(st.frames, pages, loaded, hand, pages0, h, pass, i)
      {
        found, v := Probe(round, pages0, h, pass, i);
        probes := probes + 1;
        if found { return; }
        i := i + 1;
      }
    }

    /** One round of the hand, as pass `pass`. When it finds nothing, nothing had the flags it looks for. */
    method ScanRound(round: int, ghost pages0: map<Pid, Page>, ghost h: nat, ghost pass: nat)
      returns (found: bool, v: Pid, ghost probes: nat)
      requires round == (if pass % 2 == 0 then 1 else 2)
      requires Scanning(st.frames, pages, loaded, hand, pages0, h, pass, 0)
      modifies `pages, `loaded, `hand
      ensures !found ==> pass < 3 && Scanning(st.frames, pages, loaded, hand, pages0, h, pass + 1, 0)
      ensures !found ==> loaded == old(loaded) && Before(st.frames, pass) + probes == Before(st.frames, pass + 1)
      ensures found ==> Taken(st, pages, loaded, hand, pages0, old(loaded), h, v, Before(st.frames, pass) + probes)
    {
      ScanningLength(st.frames, pages, loaded, hand, pages0, h, pass, 0);
      hide *;
      found, v, probes := ProbeAll(round, pages0, h, pass);
      if !found {
        NextPass(st.frames, pages, loaded, hand, pages0, h, pass);
        BeforeNext(st.frames, pass);
      }
    }

    /** The clock scan: rounds that look for a clean page and rounds that look for a dirty one alternate, at most four in all. */
    method Scan(ghost pages0: map<Pid, Page>, ghost h: nat) returns (v: Pid, ghost probes: nat)
      requires Scanning(st.frames, pages, loaded, hand, pages0, h, 0, 0)
      modifies `pages, `loaded, `hand
      ensures Taken(st, pages, loaded, hand, pages0, old(loaded), h, v, probes)
    {
      ScanningLength(st.frames, pages, loaded, hand, pages0, h, 0, 0);
      hide *;
      v := loaded[0];
      var round := 1;
      probes := 0;
      ghost var pass := 0;
      var found := false;
      while true
        invariant loaded == old(loaded) && pass <= 3 && Scanning(st.frames, pages, loaded, hand, pages0, h, pass, 0)
        invariant round == (if pass % 2 == 0 then 1 else 2) && probes == Before(st.frames, pass)
        decreases 3 - pass
      {
        ghost var more;
        found, v, more := ScanRound(round, pages0, h, pass);
        probes := probes + more;
        if found { return; }
        round := if round == 1 then 2 else 1;
        pass := pass + 1;
      }
    }

    method PickClockM() returns (v: Pid, ghost probes: nat)
      requires st.policy == ClockM && Shaped(st, State()) && |loaded| == st.frames
      modifies `pages, `loaded, `hand
      ensures (State(), v) == PickVictim(st, old(State()))
      ensures var c := Choose(FlagsOf(old(pages), old(loaded)), old(hand));
              probes == c.probes <= 3 * st.frames + 1 && v == old(loaded)[At(st.frames, old(hand), c.offset)]
    {
      ghost var m := State();
      ScanStarts(st, m);
      hide *;
      v, probes := Scan(m.pages, m.hand);
      TakenPicks(st, m, pages, loaded, hand, v, probes);
    }

    method PickLru() returns (v: Pid)
      requires st.policy == Lru && Shaped(st, State()) && |loaded| == st.frames
      modifies `loaded
      ensures (State(), v) == PickVictim(st, old(State()))
      ensures v == old(loaded)[0] && loaded == old(loaded)[1..]
    {
      v := loaded[0];
      loaded := loaded[1..];
      assert loaded == Without(old(loaded), 0);
    }

    /** The last page of a table that carries the frame, present or not; -1 when there is none. */
    method FindPageNumber(ft: FileTag, frame: nat) returns (num: int)
      requires Shaped(st, State()) && ft in lengths
      ensures var r := PageWithFrame(State(), ft, frame, lengths[ft]);
              num == if r.Some? then r.value else -1
    {
      num := -1;
      var i: nat := 0;
      while i < lengths[ft]
        invariant i <= lengths[ft]
        invariant forall k: nat :: k < lengths[ft] ==> Pid(ft, k) in pages
        invariant var r := PageWithFrame(State(), ft, frame, i);
                  num == if r.Some? then r.value else -1
      {
        if pages[Pid(ft, i)].frame == frame { num := i; }
        i := i + 1;
      }
    }

    method FindNonePresent(ft: FileTag) returns (none: bool)
      requires Shaped(st, State()) && ft in lengths
      ensures none == NonePresent(State(), ft)
    {
      var i: nat := 0;
      while i < lengths[ft]
        invariant i <= lengths[ft] && forall k :: 0 <= k < i ==> !pages[Pid(ft, k)].present
      {
        if pages[Pid(ft, i)].present { return false; }
        i := i + 1;
      }
      return true;
    }

    method LeaveFrame(v: Pid)
      requires Shaped(st, State()) && v in pages && v !in loaded
      modifies `pages, `sent, `bitmap
      ensures State() == Vacate(st, old(State()), v)
    {
      var page := pages[v];
      var num := FindPageNumber(v.owner, page.frame);
      var data := CopyOut(page.frame, 0, st.size);
      hide FrameOf, PageWithFrame, Shaped;
      bitmap := bitmap[page.frame := false];
      if page.modified {
        sent := sent + [BlockWrite(v.owner, num, data)];
      }
      pages := pages[v := page.(present := false, modified := false)];
    }

    method Free(v: Pid)
      requires Shaped(st, State()) && v in pages && v !in loaded
      modifies `pages, `lengths, `sent, `bitmap
      ensures State() == FreeVictim(st, old(State()), v)
    {
      LeaveFrame(v);
      var empty := FindNonePresent(v.owner);
      if empty {
        lengths := lengths - {v.owner};
        pages := map p | p in pages && p.owner != v.owner :: pages[p];
      }
    }

    method FindFreeFrame() returns (r: Option<nat>)
      ensures r == FindFree(bitmap, 0)
    {
      var i: nat := 0;
      while i < |bitmap|
        invariant i <= |bitmap| && FindFree(bitmap, i) == FindFree(bitmap, 0)
      {
        if !bitmap[i] { return Some(i); }
        i := i + 1;
      }
      return None;
    }

    method Assign() returns (frame: nat)
      requires Shaped(st, State()) && (FindFree(bitmap, 0).None? ==> |loaded| == st.frames)
      modifies `pages, `lengths, `sent, `loaded, `hand, `bitmap
      ensures (State(), frame) == AssignFrame(st, old(State()))
    {
      var free := FindFreeFrame();
      if free.Some? { return free.value; }
      var v: Pid;
      if st.policy == Lru {
        v := PickLru();
      } else {
        ghost var probes;
        v, probes := PickClockM();
      }
      frame := pages[v].frame;
      Free(v);
    }

    method FindEntry(frame: nat) returns (k: nat)
      requires forall i :: 0 <= i < |loaded| ==> loaded[i] in pages
      ensures k == EntryWithFrame(State(), frame, 0)
    {
      k := 0;
      while k < |loaded|
        invariant k <= |loaded| && EntryWithFrame(State(), frame, k) == EntryWithFrame(State(), frame, 0)
      {
        if pages[loaded[k]].frame == frame { return; }
        k := k + 1;
      }
    }

    method AddToGlobalList(p: Pid)
      requires Shaped(st, State()) && p in pages && pages[p].present && p !in loaded && |loaded| < st.frames
      requires st.policy == ClockM ==> pages[p].frame <= |loaded|
      modifies `loaded, `bitmap, `history
      ensures State() == Register(st, old(State()), p)
    {
      ghost var was := State();
      var frame := pages[p].frame;
      EntryElsewhere(was, frame, bitmap[frame := true]);
      RegisterIs(st, was, p);
      hide Shaped, Register, EntryWithFrame, Enlisted, Without, InsertAt;
      bitmap := bitmap[frame := true];
      if st.policy == Lru {
        var k := FindEntry(frame);
        EnlistedLru(st, was, p, k);
        if k < |loaded| { loaded := loaded[..k] + loaded[k + 1..]; }
        loaded := loaded + [p];
      } else {
        EnlistedClock(st, was, p);
        loaded := loaded[..frame] + [p] + loaded[frame..];
      }
      history := history + [p];
    }

    method AppendAbsent(ft: FileTag, from: nat, to: nat)
      modifies `pages
      ensures pages == WithAbsent(old(pages), ft, from, to)
    {
      hide *;
      var i := from;
      AbsentNone(pages, ft, from, if to < from then to else from);
      while i < to
        invariant from <= i && (i <= to || i == from)
        invariant pages == WithAbsent(old(pages), ft, from, if to < i then to else i)
      {
        AbsentOneMore(old(pages), ft, from, i);
        pages := pages[Pid(ft, i) := Page(0, false, true, false)];
        i := i + 1;
      }
    }

    /** Appends absent pages up to `num`, then the page itself. */
    method AppendPage(ft: FileTag, num: nat, page: Page)
      modifies `pages, `lengths
      ensures State() == ExtendTable(old(State()), ft, num, page)
    {
      hide AbsentPages;
      AppendAbsent(ft, if ft in lengths then lengths[ft] else 0, num);
      pages := pages[Pid(ft, num) := page];
      lengths := lengths[ft := num + 1];
    }

    /** memcpy into a frame. */
    method CopyIn(frame: nat, off: nat, data: seq<byte>)
      requires |bytes| == Start(st.size, st.frames) && frame < st.frames && off + |data| <= st.size
      modifies `bytes
      ensures bytes == Poke(st, old(bytes), frame, off, data)
    {
      FrameBounds(frame, st.frames, st.size);
      var at := Start(st.size, frame) + off;
      bytes := bytes[..at] + data + bytes[at + |data|..];
    }

    /** memcpy out of a frame. */
    method CopyOut(frame: nat, off: nat, n: nat) returns (data: seq<byte>)
      requires |bytes| == Start(st.size, st.frames) && frame < st.frames && off + n <= st.size
      ensures data == FrameOf(st, bytes, frame)[off..off + n]
      ensures off == 0 && n == st.size ==> data == FrameOf(st, bytes, frame)
    {
      FrameSlice(st, bytes, frame, off, n);
      var at := Start(st.size, frame) + off;
      data := bytes[at..at + n];
    }

    /** A miss on a page of an existing table. */
    method BringAbsent(p: Pid, write: bool)
      requires Inv(st, State()) && p in pages && !pages[p].present
      modifies `pages, `lengths, `sent, `loaded, `hand, `bitmap, `history
      ensures State() == LoadAbsent(st, old(State()), p, write)
    {
      ghost var m := State();
      AbsentReady(st, m, p, write);
      ghost var (a, f) := AssignFrame(st, Marked(m, p, write));
      TidyAfter(st, Placed(a, p, f), p);
      RegisterTidy(st, Placed(a, p, f), p, f);
      assert LoadAbsent(st, m, p, write) == Register(st, Placed(a, p, f), p);
      hide *;
      SetPage(p, Page(pages[p].frame, true, true, write));
      assert State() == Marked(m, p, write);
      var frame := Assign();
      assert State() == a && frame == f;
      SetPage(p, pages[p].(frame := frame));
      assert State() == Placed(a, p, f);
      AddToGlobalList(p);
    }

    method SetPage(p: Pid, page: Page)
      modifies `pages
      ensures State() == old(State()).(pages := old(State()).pages[p := page])
    {
      pages := pages[p := page];
    }

    /**
     A miss beyond the end of a table, or on a table that does not exist. The code
     goes on when the eviction has destroyed that very table; what it then does is
     undefined, and this stops.
     */
    method BringNew(p: Pid, write: bool) returns (ok: bool)
      requires Inv(st, State()) && p !in pages
      modifies `pages, `lengths, `sent, `loaded, `hand, `bitmap, `history
      ensures ok == LoadNew(st, old(State()), p, write).Some?
      ensures ok ==> Some(State()) == LoadNew(st, old(State()), p, write)
    {
      ghost var m := State();
      var existed := p.owner in lengths;
      NewFacts(st, m, p, write);
      hide *;
      var frame := Assign();
      if existed && p.owner !in lengths { return false; }
      AppendPage(p.owner, p.num, Page(frame, true, true, write));
      AddToGlobalList(p);
      ok := true;
    }

    /** The page is brought in, and for a read its block is copied. */
    method Miss(p: Pid, write: bool, answer: Answer) returns (outcome: Outcome)
      requires Inv(st, State()) && Answers(st, answer) && answer.Loaded?
      requires !(p in pages && pages[p].present)
      modifies `pages, `lengths, `sent, `loaded, `hand, `bitmap, `bytes, `history
      ensures outcome == Touch(st, old(State()), p, write, answer).1
      ensures !outcome.Dangling? ==> State() == Touch(st, old(State()), p, write, answer).0
    {
      hide LoadAbsent, LoadNew, Inv, Shaped, Poke;
      if p in pages {
        LoadAbsentBringsIn(st, State(), p, write);
        BringAbsent(p, write);
      } else {
        ghost var m := State();
        var ok := BringNew(p, write);
        if !ok { return Dangling; }
        LoadNewBringsIn(st, m, p, write);
      }
      outcome := Done;
      ResidentFrame(st, State(), p);
      if !write {
        CopyIn(pages[p].frame, 0, answer.data);
      }
    }

    /** One turn of the transfer loops up to the copy. */
    method Access(p: Pid, write: bool, answer: Answer) returns (outcome: Outcome)
      requires Inv(st, State()) && Answers(st, answer)
      modifies `pages, `lengths, `sent, `loaded, `hand, `bitmap, `bytes, `history
      ensures outcome == Touch(st, old(State()), p, write, answer).1
      ensures !outcome.Dangling? ==> State() == Touch(st, old(State()), p, write, answer).0
    {
      hide LoadAbsent, LoadNew, Inv, Filled;
      if p in pages && pages[p].present {
        pages := pages[p := pages[p].(modified := write)];
        outcome := Done;
      } else if answer.Refused? {
        outcome := Failed(answer.code);
      } else {
        outcome := Miss(p, write, answer);
      }
    }

    method WritePage(p: Pid, off: nat, data: seq<byte>, answer: Answer) returns (outcome: Outcome)
      requires Inv(st, State()) && Answers(st, answer) && off + |data| <= st.size
      modifies `pages, `lengths, `sent, `loaded, `hand, `bitmap, `bytes, `history
      ensures outcome == WriteChunk(st, old(State()), p, off, data, answer).1
      ensures !outcome.Dangling? ==> State() == WriteChunk(st, old(State()), p, off, data, answer).0
    {
      hide Inv, Touch, Poke, Shaped;
      outcome := Access(p, true, answer);
      if outcome.Done? {
        ResidentFrame(st, State(), p);
        CopyIn(pages[p].frame, off, data);
      }
    }

    method ReadPage(p: Pid, off: nat, n: nat, answer: Answer) returns (chunk: seq<byte>, outcome: Outcome)
      requires Inv(st, State()) && Answers(st, answer) && off + n <= st.size
      modifies `pages, `lengths, `sent, `loaded, `hand, `bitmap, `bytes, `history
      ensures (chunk, outcome) == (ReadChunk(st, old(State()), p, off, n, answer).1, ReadChunk(st, old(State()), p, off, n, answer).2)
      ensures !outcome.Dangling? ==> State() == ReadChunk(st, old(State()), p, off, n, answer).0
    {
      hide Inv, Touch, FrameOf, Shaped;
      chunk := [];
      outcome := Access(p, false, answer);
      if outcome.Done? {
        ResidentFrame(st, State(), p);
        chunk := CopyOut(pages[p].frame, off, n);
      }
    }

    method Write(ft: FileTag, base: nat, content: seq<byte>, ask: nat -> Answer) returns (outcome: Outcome)
      requires Inv(st, State()) && |content| > 0 && forall n :: Answers(st, ask(n))
      modifies `pages, `lengths, `sent, `loaded, `hand, `bitmap, `bytes, `history
      ensures outcome == WriteMemory(st, old(State()), ft, base, content, ask).1
      ensures !outcome.Dangling? ==> State() == WriteMemory(st, old(State()), ft, base, content, ask).0
    {
      hide *;
      TransferStart(st, State(), ft, base, content, 1, ask);
      var num: nat := PageOf(st, base);
      var off: nat := ByteOf(st, base);
      var rest := content;
      var i: nat := 0;
      var count := Turns(st, |content|);
      ghost var whole := WriteMemory(st, State(), ft, base, content, ask);
      while i < count
        invariant i <= count && off < st.size && 0 < st.size && Inv(st, State())
        invariant WriteLoop(st, State(), ft, num, off, rest, count - i, ask) == whole
      {
        WriteLoopTurn(st, State(), ft, num, off, rest, count - i, ask);
        var n := Min(st.size - off, |rest|);
        outcome := WritePage(Pid(ft, num), off, rest[..n], ask(num));
        if !outcome.Done? { return; }
        rest := rest[n..];
        off := 0;
        num := num + 1;
        i := i + 1;
      }
      WriteLoopEnd(st, State(), ft, num, off, rest, ask);
      return Done;
    }

    method Read(ft: FileTag, base: nat, length: nat, ask: nat -> Answer) returns (read: seq<byte>, outcome: Outcome)
      requires Inv(st, State()) && length > 0 && forall n :: Answers(st, ask(n))
      modifies `pages, `lengths, `sent, `loaded, `hand, `bitmap, `bytes, `history
      ensures (read, outcome) == (ReadMemory(st, old(State()), ft, base, length, ask).1, ReadMemory(st, old(State()), ft, base, length, ask).2)
      ensures !outcome.Dangling? ==> State() == ReadMemory(st, old(State()), ft, base, length, ask).0
    {
      hide *;
      TransferStart(st, State(), ft, base, [0], length, ask);
      var num: nat := PageOf(st, base);
      var off: nat := ByteOf(st, base);
      var rest: nat := length;
      var i: nat := 0;
      var count := Turns(st, length);
      ghost var whole := ReadMemory(st, State(), ft, base, length, ask);
      read := [];
      while i < count
        invariant i <= count && off < st.size && 0 < st.size && Inv(st, State())
        invariant ReadLoop(st, State(), ft, num, off, rest, count - i, ask, read) == whole
      {
        ReadLoopTurn(st, State(), ft, num, off, rest, count - i, ask, read);
        var n := Min(st.size - off, rest);
        var chunk;
        chunk, outcome := ReadPage(Pid(ft, num), off, n, ask(num));
        if !outcome.Done? { return; }
        read := read + chunk;
        rest := rest - n;
        off := 0;
        num := num + 1;
        i := i + 1;
      }
      ReadLoopEnd(st, State(), ft, num, off, rest, ask, read);
      return read, Done;
    }
  }
}
