/** CLOCK-M replacement: which entry the scan picks, what it clears on the way and how many probes it takes. */
module Clock {

  datatype Flags = Flags(used: bool, modified: bool)

  /** `offset` counts entries from the hand; `cleared` of them, from the hand on, lose their use bit. */
  datatype Choice = Choice(offset: nat, cleared: nat, probes: nat)

  /** The entry `k` places after the hand. */
  function At(n: nat, hand: nat, k: nat): (i: nat)
    requires hand < n && k <= n
    ensures i < n
  {
    if hand + k < n then hand + k else hand + k - n
  }

  function Seen(fs: seq<Flags>, hand: nat, k: nat): Flags
    requires hand < |fs| && k <= |fs|
  {
    fs[At(|fs|, hand, k)]
  }

  /** The least offset from `k` on whose flags are `want`, or |fs|. */
  function First(fs: seq<Flags>, hand: nat, want: Flags, k: nat): (r: nat)
    requires hand < |fs| && k <= |fs|
    ensures k <= r <= |fs|
    ensures forall j :: k <= j < r ==> Seen(fs, hand, j) != want
    ensures r < |fs| ==> Seen(fs, hand, r) == want
    decreases |fs| - k
  {
    if k == |fs| || Seen(fs, hand, k) == want then k else First(fs, hand, want, k + 1)
  }

  ghost predicate IsFirst(fs: seq<Flags>, hand: nat, want: Flags, k: nat)
    requires hand < |fs|
  {
    k < |fs| && Seen(fs, hand, k) == want && forall j :: 0 <= j < k ==> Seen(fs, hand, j) != want
  }

  ghost predicate Absent(fs: seq<Flags>, hand: nat, want: Flags)
    requires hand < |fs|
  {
    forall j :: 0 <= j < |fs| ==> Seen(fs, hand, j) != want
  }

  /**
   The victim is, cyclically from the hand, the first entry neither used nor
   modified; else the first unused and modified one, clearing the use bits before
   it; else, every use bit being cleared, the first unmodified one, or the entry at
   the hand when all are modified.
   */
  ghost predicate IsChoice(fs: seq<Flags>, hand: nat, c: Choice)
    requires hand < |fs|
  {
    var n := |fs|;
    var clean := Flags(false, false);
    var dirty := Flags(false, true);
    var busy := Flags(true, false);
    if !Absent(fs, hand, clean) then
      IsFirst(fs, hand, clean, c.offset) && c.cleared == 0 && c.probes == c.offset + 1
    else if !Absent(fs, hand, dirty) then
      IsFirst(fs, hand, dirty, c.offset) && c.cleared == c.offset && c.probes == n + c.offset + 1
    else if !Absent(fs, hand, busy) then
      IsFirst(fs, hand, busy, c.offset) && c.cleared == n && c.probes == 2 * n + c.offset + 1
    else
      c.offset == 0 && c.cleared == n && c.probes == 3 * n + 1
  }

  function Choose(fs: seq<Flags>, hand: nat): (c: Choice)
    requires hand < |fs|
    ensures IsChoice(fs, hand, c)
    ensures c.offset < |fs| && c.cleared <= |fs| && c.probes <= 3 * |fs| + 1
  {
    var n := |fs|;
    var clean := First(fs, hand, Flags(false, false), 0);
    var dirty := First(fs, hand, Flags(false, true), 0);
    var busy := First(fs, hand, Flags(true, false), 0);
    if clean < n then Choice(clean, 0, clean + 1)
    else if dirty < n then Choice(dirty, dirty, n + dirty + 1)
    else if busy < n then Choice(busy, n, 2 * n + busy + 1)
    else Choice(0, n, 3 * n + 1)
  }

  /** The description leaves no freedom. */
  lemma ChoiceIsUnique(fs: seq<Flags>, hand: nat, a: Choice, b: Choice)
    requires hand < |fs| && IsChoice(fs, hand, a) && IsChoice(fs, hand, b)
    ensures a == b
  {
  }
}
