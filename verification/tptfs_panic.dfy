/** The one assertion of tptfs that a run can violate, the first of tptfs_unlink_lowervp
    (tptfs/tpt_vfsops.c:432-445): when exactly it fails, told by what the threads did. */
module Panics {
  import opened Options
  import opened Kernel
  import opened Invariant
  import opened Guarantee
  import opened Notify
  import opened Lookup
  import opened System
  import opened Runs

  /** No thread has a reference to alias `v`. */
  ghost predicate Unreferenced(s: Sh, v: nat) {
    forall u :: 0 <= u < |s.own| ==> URef(v) !in s.own[u]
  }

  lemma {:induction false} TotalZero(own: seq<multiset<Res>>, r: Res)
    requires forall u :: 0 <= u < |own| ==> r !in own[u]
    ensures Total(own, r) == 0
  {
    if own != [] { TotalZero(own[..|own| - 1], r); }
  }

  lemma UnreferencedCount(s: Sh, v: nat)
    requires Inv(s) && v < |s.alias|
    ensures Unreferenced(s, v) <==> s.alias[v].use == 0
  {
    assert AliasCount(s, v);
    if Unreferenced(s, v) { TotalZero(s.own, URef(v)); }
    forall u | 0 <= u < |s.own|
      ensures s.own[u][URef(v)] <= Total(s.own, URef(v))
    {
      TotalAtLeast(s.own, u, URef(v));
    }
  }

  // ----- The way to the test -----

  /** Thread `t` stands before the test of v_usecount. */
  ghost predicate AtTest(st: St, t: nat, n: Note, v: nat) {
    t < |st.pcs| && st.pcs[t] == AtUnlinkLower(n, UlTest(v))
  }

  /** Step `i` takes thread `t` there; `recycled` when vunref released the last reference and the
      alias was taken down, otherwise the alias was found in use. */
  ghost predicate Enters(r: seq<St>, i: nat, t: nat, n: Note, v: nat, recycled: bool)
    requires i + 1 < |r|
  {
    && Moves(r, i, t) && AtTest(r[i + 1], t, n, v)
    && t < |r[i].pcs| && r[i].pcs[t].AtUnlinkLower? && r[i].pcs[t].un == n
    && (if recycled then r[i].pcs[t].ul.UlVgone? else r[i].pcs[t].ul.UlUnref? || r[i].pcs[t].ul.UlInactive?)
  }

  /** The sections before it. */
  predicate BeforeTest(p: UlPc, v: nat) {
    p == UlUnref(v) || p == UlInactive(v) || (p.UlVgone? && p.v == v)
  }

  lemma PcToTest(s: Sh, t: nat, p: Pc, fails: bool, mv: LowerMove, n: Note, v: nat)
    requires Wf(s) && t < |s.own| && PcOk(s, p) && PcCan(s, t, p, fails, mv)
    requires PcStep(s, t, p, fails, mv).Ok? && PcStep(s, t, p, fails, mv).pc == AtUnlinkLower(n, UlTest(v))
    ensures p.AtUnlinkLower? && p.un == n && BeforeTest(p.ul, v)
  {
  }

  lemma StartNoTest(s: Sh, t: nat, c: Cmd)
    requires Wf(s) && t < |s.own| && CanStart(s, t, c)
    ensures Start(s, t, c).Ok? && Start(s, t, c).pc.AtUnlinkLower? ==> Start(s, t, c).pc.ul == UlSearch
  {
  }

  lemma StepToTest(st: St, t: nat, c: Cmd, n: Note, v: nat)
    requires Sound(st) && Can(st, t, c) && Effect(st, t, c).Ok?
    requires Effect(st, t, c).pc == AtUnlinkLower(n, UlTest(v))
    ensures c.Step? && st.pcs[t].AtUnlinkLower? && st.pcs[t].un == n && BeforeTest(st.pcs[t].ul, v)
    ensures PcCan(st.sh, t, st.pcs[t], c.fails, c.mv) && Effect(st, t, c) == PcStep(st.sh, t, st.pcs[t], c.fails, c.mv)
  {
    match c
    case Step(fails, mv) => PcToTest(st.sh, t, st.pcs[t], fails, mv, n, v);
    case Return =>
    case Perform(_) =>
    case _ => StartNoTest(st.sh, t, c);
  }

  /** A step that brings the thread to the test comes from the sections before it. */
  lemma CameByStep(r: seq<St>, i: nat, t: nat, n: Note, v: nat)
    requires Run(r) && i + 1 < |r| && Moves(r, i, t) && r[i + 1].panic == None && AtTest(r[i + 1], t, n, v)
    ensures t < |r[i].pcs| && r[i].pcs[t].AtUnlinkLower?
    ensures Enters(r, i, t, n, v, r[i].pcs[t].ul.UlVgone?)
  {
    RunSound(r, i);
    var c := StepTaken(r, i, t);
    StepToTest(r[i], t, c, n, v);
  }

  /** A thread that did not move is where it was. */
  lemma StaysThere(r: seq<St>, i: nat, t: nat)
    requires Run(r) && i + 1 < |r| && !Moves(r, i, t)
    ensures r[i].panic == None && |r[i + 1].pcs| == |r[i].pcs|
    ensures t < |r[i].pcs| ==> r[i + 1].pcs[t] == r[i].pcs[t]
  {
    ChainAt(r, Next, i);
    var u, c :| Can(r[i], u, c) && r[i + 1] == Do(r[i], u, c);
    assert Moves(r, i, u);
  }

  lemma NotAtStart(r: seq<St>, t: nat, n: Note, v: nat)
    requires Run(r)
    ensures !AtTest(r[0], t, n, v)
  {
  }

  lemma RestingNext(r: seq<St>, i: nat, j: nat, t: nat)
    requires i <= j && j + 1 < |r| && Resting(r, i, j, t) && !Moves(r, j, t)
    ensures Resting(r, i, j + 1, t)
  {
  }

  /** A thread that stands before the test came there and has rested since. */
  lemma {:induction false} TestEntered(r: seq<St>, j: nat, t: nat, n: Note, v: nat) returns (i: nat, recycled: bool)
    requires Run(r) && j < |r| && r[j].panic == None && AtTest(r[j], t, n, v)
    ensures i < j && Enters(r, i, t, n, v, recycled) && Resting(r, i + 1, j, t)
  {
    NotAtStart(r, t, n, v);
    if Moves(r, j - 1, t) {
      CameByStep(r, j - 1, t, n, v);
      i, recycled := j - 1, r[j - 1].pcs[t].ul.UlVgone?;
    } else {
      StaysThere(r, j - 1, t);
      i, recycled := TestEntered(r, j - 1, t, n, v);
      RestingNext(r, i + 1, j - 1, t);
    }
  }

  /** The sections before the test find the alias in use, or take it down. */
  lemma StepFinds(s: Sh, t: nat, n: Note, p: UlPc, v: nat)
    requires UlBefore(s, t, n, p) && (p.UlUnref? || p.UlInactive? || p.UlVgone?)
    requires UlStep(s, t, n, p).Ok? && UlStep(s, t, n, p).pc == UlTest(v)
    ensures v < |s.alias| && UlOk(UlStep(s, t, n, p).sh, n, UlTest(v))
    ensures var s' := UlStep(s, t, n, p).sh;
            Wf(s') && if p.UlVgone? then s'.alias[v].doomed else Flagged(s', t, n, v) && s'.alias[v].use > 0
  {
    assert AliasInv(s, v);
    if p.UlUnref? { UlStepHead(s, t, n, p); } else { UlStepMiddle(s, t, n, p); }
  }

  /** What it found: the alias in use and in its charge, or gone. */
  ghost predicate EntryState(s: Sh, t: nat, n: Note, v: nat, recycled: bool) {
    && Wf(s) && t < |s.own| && v < |s.alias|
    && if recycled then s.alias[v].doomed else Flagged(s, t, n, v) && s.alias[v].use > 0
  }

  lemma TestFinds(st: St, t: nat, c: Cmd, n: Note, v: nat)
    requires Sound(st) && Can(st, t, c) && Effect(st, t, c).Ok?
    requires Effect(st, t, c).pc == AtUnlinkLower(n, UlTest(v))
    ensures st.pcs[t].AtUnlinkLower? && EntryState(Effect(st, t, c).sh, t, n, v, st.pcs[t].ul.UlVgone?)
  {
    StepToTest(st, t, c, n, v);
    var p := st.pcs[t].ul;
    assert PcInv(st.sh, t, AtUnlinkLower(n, p)) && PcOk(st.sh, AtUnlinkLower(n, p));
    StepFinds(st.sh, t, n, p, v);
  }

  lemma DoFinds(st: St, t: nat, c: Cmd, n: Note, v: nat)
    requires Sound(st) && Can(st, t, c) && Do(st, t, c).panic == None && AtTest(Do(st, t, c), t, n, v)
    ensures st.pcs[t].AtUnlinkLower? && EntryState(Do(st, t, c).sh, t, n, v, st.pcs[t].ul.UlVgone?)
  {
    TestFinds(st, t, c, n, v);
  }

  lemma EntryFinds(r: seq<St>, i: nat, t: nat, n: Note, v: nat, recycled: bool)
    requires Run(r) && i + 1 < |r| && Enters(r, i, t, n, v, recycled) && r[i + 1].panic == None
    ensures Inv(r[i + 1].sh) && EntryState(r[i + 1].sh, t, n, v, recycled)
  {
    RunSound(r, i);
    RunSound(r, i + 1);
    var c := StepTaken(r, i, t);
    DoFinds(r[i], t, c, n, v);
  }

  lemma NextFlagged(r: seq<St>, j: nat, t: nat, n: Note, v: nat)
    requires Run(r) && j + 1 < |r| && !Moves(r, j, t) && AtTest(r[j], t, n, v)
    requires Inv(r[j].sh) && t < |r[j].sh.own| && v < |r[j].sh.alias| && Flagged(r[j].sh, t, n, v)
    ensures AtTest(r[j + 1], t, n, v)
    ensures Inv(r[j + 1].sh) && t < |r[j + 1].sh.own| && v < |r[j + 1].sh.alias| && Flagged(r[j + 1].sh, t, n, v)
  {
    RunSound(r, j);
    var u := RunGuar(r, j);
    StaysThere(r, j, t);
    assert PcInv(r[j].sh, t, r[j].pcs[t]);
    FlaggedKept(r[j].sh, r[j + 1].sh, u, t, n, v);
  }

  /** While the thread rests before the test the alias stays in its charge. */
  lemma {:induction false} FlaggedWhileResting(r: seq<St>, i: nat, j: nat, t: nat, n: Note, v: nat)
    requires Run(r) && i <= j < |r| && Resting(r, i, j, t) && AtTest(r[i], t, n, v)
    requires Inv(r[i].sh) && t < |r[i].sh.own| && v < |r[i].sh.alias| && Flagged(r[i].sh, t, n, v)
    ensures AtTest(r[j], t, n, v)
    ensures Inv(r[j].sh) && t < |r[j].sh.own| && v < |r[j].sh.alias| && Flagged(r[j].sh, t, n, v)
  {
    if i < j {
      FlaggedWhileResting(r, i, j - 1, t, n, v);
      NextFlagged(r, j - 1, t, n, v);
    }
  }

  lemma {:induction false} TestWhileResting(r: seq<St>, i: nat, j: nat, t: nat, n: Note, v: nat)
    requires Run(r) && i <= j < |r| && Resting(r, i, j, t) && AtTest(r[i], t, n, v)
    ensures AtTest(r[j], t, n, v)
  {
    if i < j {
      TestWhileResting(r, i, j - 1, t, n, v);
      StaysThere(r, j - 1, t);
    }
  }

  // ----- When the assertion fails -----

  /** The test itself. */
  lemma TestPanics(st: St, t: nat, n: Note, v: nat, c: Cmd)
    requires Sound(st) && AtTest(st, t, n, v) && Can(st, t, c)
    ensures v < |st.sh.alias| && (Do(st, t, c).panic.Some? <==> st.sh.alias[v].use == 0 && !st.sh.alias[v].doomed)
  {
    StepSound(st, t, c);
  }

  /** No other step of any thread panics. */
  lemma OnlyTheTest(r: seq<St>, j: nat, t: nat, c: Cmd)
    requires Run(r) && j < |r| && StOk(r[j]) && Can(r[j], t, c) && Do(r[j], t, c).panic.Some?
    ensures Do(r[j], t, c).panic == Some(UnlinkNotDoomed)
    ensures exists n, v :: AtTest(r[j], t, n, v)
  {
    RunSound(r, j);
    StepSound(r[j], t, c);
    assert AtTest(r[j], t, r[j].pcs[t].un, r[j].pcs[t].ul.v);
  }

  /** Nothing moves after a panic. */
  lemma NoPanicBefore(r: seq<St>, i: nat, j: nat)
    requires Run(r) && i <= j < |r| && r[j].panic == None
    ensures r[i].panic == None
  {
    if i < j { ChainAt(r, Next, i); }
  }

  /** What the test meets: nothing has changed but the references of others. */
  lemma TestMeets(r: seq<St>, i: nat, j: nat, t: nat, n: Note, v: nat, recycled: bool)
    requires Run(r) && i < j < |r| && Enters(r, i, t, n, v, recycled) && Resting(r, i + 1, j, t) && r[j].panic == None
    ensures AtTest(r[j], t, n, v) && v < |r[j].sh.alias| && (r[j].sh.alias[v].doomed <==> recycled)
  {
    NoPanicBefore(r, i + 1, j);
    EntryFinds(r, i, t, n, v, recycled);
    TestWhileResting(r, i + 1, j, t, n, v);
    if recycled {
      RunLater(r, i + 1, j, v);
    } else {
      FlaggedWhileResting(r, i + 1, j, t, n, v);
    }
  }

  /** A notification that came to the test panics there if and only if vunref left the alias in
      use and by now no thread has a reference to it. */
  lemma PanicExactly(r: seq<St>, i: nat, j: nat, t: nat, n: Note, v: nat, recycled: bool, c: Cmd)
    requires Run(r) && i < j < |r| && Enters(r, i, t, n, v, recycled) && Resting(r, i + 1, j, t)
    requires StOk(r[j]) && Can(r[j], t, c)
    ensures Do(r[j], t, c).panic.Some? <==> !recycled && Unreferenced(r[j].sh, v)
  {
    RunSound(r, j);
    TestMeets(r, i, j, t, n, v, recycled);
    TestPanics(r[j], t, n, v, c);
    UnreferencedCount(r[j].sh, v);
  }

  /** Step `k` of thread `u` gives up the last reference to `v`. */
  ghost predicate LastRelease(r: seq<St>, k: nat, u: nat, v: nat)
    requires k + 1 < |r|
  {
    Moves(r, k, u) && u < |r[k].sh.own| && URef(v) in r[k].sh.own[u] && Unreferenced(r[k + 1].sh, v)
  }

  /** A vunref that found the alias in use is followed by a panic only if another thread gave up
      the last reference while the notification rested before the test. */
  lemma {:induction false} PanicNeedsRelease(r: seq<St>, i: nat, j: nat, t: nat, v: nat) returns (k: nat, u: nat)
    requires Run(r) && i <= j < |r| && Resting(r, i, j, t)
    requires !Unreferenced(r[i].sh, v) && Unreferenced(r[j].sh, v)
    ensures i <= k < j && u != t && LastRelease(r, k, u, v)
  {
    assert i < j;
    if Unreferenced(r[j - 1].sh, v) {
      k, u := PanicNeedsRelease(r, i, j - 1, t, v);
    } else {
      k := j - 1;
      u := RunGuar(r, k);
      var w :| 0 <= w < |r[k].sh.own| && URef(v) in r[k].sh.own[w];
      assert URef(v) !in r[k + 1].sh.own[w];
    }
  }

  lemma EntryInUse(r: seq<St>, i: nat, j: nat, t: nat, n: Note, v: nat)
    requires Run(r) && i < j < |r| && Enters(r, i, t, n, v, false) && r[j].panic == None
    ensures !Unreferenced(r[i + 1].sh, v)
  {
    NoPanicBefore(r, i + 1, j);
    EntryFinds(r, i, t, n, v, false);
    UnreferencedCount(r[i + 1].sh, v);
  }

  /** So this is what lies behind every panic: a vunref that left the alias in use, and then another
      thread that gave up the last reference before the count was tested. */
  lemma PanicMeansRace(r: seq<St>, j: nat, t: nat, c: Cmd) returns (i: nat, k: nat, u: nat, n: Note, v: nat)
    requires Run(r) && j < |r| && StOk(r[j]) && Can(r[j], t, c) && Do(r[j], t, c).panic.Some?
    ensures i < k < j && Enters(r, i, t, n, v, false) && Resting(r, i + 1, j, t)
    ensures u != t && LastRelease(r, k, u, v)
  {
    OnlyTheTest(r, j, t, c);
    n, v :| AtTest(r[j], t, n, v);
    var recycled;
    i, recycled := TestEntered(r, j, t, n, v);
    PanicExactly(r, i, j, t, n, v, recycled, c);
    EntryInUse(r, i, j, t, n, v);
    k, u := PanicNeedsRelease(r, i + 1, j, t, v);
  }

  /** A caller that has a reference to the alias of its own never runs into the panic. */
  lemma OwnerIsSafe(r: seq<St>, j: nat, t: nat, n: Note, v: nat, c: Cmd)
    requires Run(r) && j < |r| && AtTest(r[j], t, n, v) && URef(v) in n.own && StOk(r[j]) && Can(r[j], t, c)
    ensures Do(r[j], t, c).panic == None
  {
    RunSound(r, j);
    TestPanics(r[j], t, n, v, c);
    assert PcInv(r[j].sh, t, r[j].pcs[t]);
    OwnedAlias(r[j].sh, t, v);
  }

  lemma LastReleaseDooms(s: Sh, t: nat, n: Note, v: nat)
    requires UlBefore(s, t, n, UlInactive(v)) && s.alias[v].use == 0
    ensures var o := UlStep(s, t, n, UlInactive(v)); o.Ok? && v < |o.sh.alias| && o.sh.alias[v].doomed
  {
    assert AliasInv(s, v);
  }

  lemma StepDooms(st: St, t: nat, n: Note, v: nat, c: Cmd)
    requires Sound(st) && t < |st.pcs| && st.pcs[t] == AtUnlinkLower(n, UlInactive(v)) && Can(st, t, c)
    requires v < |st.sh.alias| && st.sh.alias[v].use == 0
    ensures v < |Do(st, t, c).sh.alias| && Do(st, t, c).sh.alias[v].doomed
  {
    assert PcInv(st.sh, t, st.pcs[t]);
    LastReleaseDooms(st.sh, t, n, v);
  }

  /** A vunref that released the last reference dooms the alias, and no test of that alias ever
      panics again. */
  lemma LastReleaseIsSafe(r: seq<St>, i: nat, j: nat, t: nat, n: Note, v: nat, u: nat, m: Note, c: Cmd)
    requires Run(r) && i < j < |r| && t < |r[i].pcs| && r[i].pcs[t] == AtUnlinkLower(n, UlInactive(v))
    requires v < |r[i].sh.alias| && r[i].sh.alias[v].use == 0 && Moves(r, i, t)
    requires AtTest(r[j], u, m, v) && StOk(r[j]) && Can(r[j], u, c)
    ensures r[i + 1].sh.alias[v].doomed && Do(r[j], u, c).panic == None
  {
    RunSound(r, i);
    var d := StepTaken(r, i, t);
    StepDooms(r[i], t, n, v, d);
    RunLater(r, i + 1, j, v);
    DoomedIsSafe(r, j, u, m, v, c);
  }

  lemma DoomedIsSafe(r: seq<St>, j: nat, u: nat, m: Note, v: nat, c: Cmd)
    requires Run(r) && j < |r| && AtTest(r[j], u, m, v) && StOk(r[j]) && Can(r[j], u, c)
    requires v < |r[j].sh.alias| && r[j].sh.alias[v].doomed
    ensures Do(r[j], u, c).panic == None
  {
    RunSound(r, j);
    TestPanics(r[j], u, m, v, c);
  }
}
