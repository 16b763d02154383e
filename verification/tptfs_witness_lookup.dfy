/** Two runs of tpt_lookup that end badly for the caller: after a failed lower lookup of a
    directory that was reclaimed meanwhile the caller has not the lock the alias names, and
    on a read-only mount the vnode a create found stays locked and referenced. */
module LookupWitness {
  import opened Options
  import opened Kernel
  import opened Invariant
  import opened Reclaim
  import opened Locking
  import opened Lookup
  import opened Environment
  import opened System
  import opened Runs
  import opened Witness

  const SPARE := Low(FREE_LOCK, 0, 0)

  // ----- The directory is reclaimed while the lower lookup has unlocked it -----

  const LC := LuCall(0, 0, Exclusive, multiset{URef(0)}, 0, Name(true, OpLookup), false)
  const GC := Goner(0, 0, false, false, multiset{URef(0), LRef(0)})

  /** The alias in the hands of thread 1, which takes it down. */
  function Doomed0(): Alias {
    Node(1, 2).(doomed := true)
  }

  /** What is left of it; the lower reference is gone in the end. */
  function Remains0(lref: bool): Alias {
    Doomed0().(data := false, vnlk := Own, plk := ExclBy(1), lref := lref)
  }

  const C1 := Worlds(Low(ExclBy(0), 1, 1), SPARE, [Node(0, 1)], [0],
                     [multiset{URef(0), Hold(0)}, multiset{}], [None, None],
                     [AtLookup(LC, LuLower(false)), Idle])
  const C2 := Worlds(Low(FREE_LOCK, 1, 1), SPARE, [Node(0, 1)], [0],
                     [multiset{URef(0), Hold(0)}, multiset{}], [None, None],
                     [AtLookup(LC, LuOut), Idle])
  const C3 := Worlds(Low(FREE_LOCK, 1, 1), SPARE, [Node(0, 2)], [0],
                     [multiset{URef(0), Hold(0)}, multiset{URef(0)}], [None, None],
                     [AtLookup(LC, LuOut), Idle])
  const C4 := Worlds(Low(FREE_LOCK, 2, 1), SPARE, [Node(0, 2)], [0],
                     [multiset{URef(0), Hold(0)}, multiset{URef(0), LRef(0)}], [None, None],
                     [AtLookup(LC, LuOut), Idle])
  const C5 := Worlds(Low(ExclBy(1), 2, 1), SPARE, [Node(0, 2)], [0],
                     [multiset{URef(0), Hold(0)}, multiset{URef(0), LRef(0)}], [None, None],
                     [AtLookup(LC, LuOut), Idle])
  const C6 := Worlds(Low(ExclBy(1), 2, 1), SPARE, [Node(0, 2)], [0],
                     [multiset{URef(0), Hold(0)}, multiset{URef(0), LRef(0)}], [None, None],
                     [AtLookup(LC, LuOut), AtVgone(GC, VgDoom)])
  const C7 := Worlds(Low(ExclBy(1), 2, 1), SPARE, [Doomed0()], [0],
                     [multiset{URef(0), Hold(0)}, multiset{URef(0), LRef(0)}], [None, Some(0)],
                     [AtLookup(LC, LuOut), AtVgone(GC, RcHashrem)])
  const C8 := Worlds(Low(ExclBy(1), 2, 1), SPARE, [Doomed0()], [],
                     [multiset{URef(0), Hold(0)}, multiset{URef(0), LRef(0)}], [None, Some(0)],
                     [AtLookup(LC, LuOut), AtVgone(GC, RcLock)])
  const C9 := Worlds(Low(ExclBy(1), 2, 1), SPARE, [Doomed0().(plk := ExclBy(1))], [],
                     [multiset{URef(0), Hold(0)}, multiset{URef(0), LRef(0)}], [None, Some(0)],
                     [AtLookup(LC, LuOut), AtVgone(GC, RcSwitch)])
  const C10 := Worlds(Low(ExclBy(1), 2, 1), SPARE, [Remains0(true)], [],
                      [multiset{URef(0), Hold(0)}, multiset{URef(0), LRef(0)}], [None, Some(0)],
                      [AtLookup(LC, LuOut), AtVgone(GC, RcPut)])
  const C11 := Worlds(Low(FREE_LOCK, 1, 1), SPARE, [Remains0(false)], [],
                      [multiset{URef(0), Hold(0)}, multiset{URef(0), LRef(0)}], [None, Some(0)],
                      [AtLookup(LC, LuOut), AtVgone(GC, RcFree)])
  const C12 := Worlds(Low(FREE_LOCK, 1, 1), SPARE, [Remains0(false).(freed := true, dead := true)], [],
                      [multiset{URef(0), Hold(0)}, multiset{URef(0), LRef(0)}], [None, None],
                      [AtLookup(LC, LuOut), AtVgone(GC, VgDone)])
  const C13 := Worlds(Low(ExclBy(0), 1, 1), SPARE, [Remains0(false).(freed := true, dead := true)], [],
                      [multiset{URef(0), Hold(0)}, multiset{URef(0), LRef(0)}], [None, None],
                      [AtLookup(LC, LuLower(true)), AtVgone(GC, VgDone)])
  const C14 := Worlds(Low(ExclBy(0), 1, 1), SPARE, [Remains0(false).(freed := true, dead := true)], [],
                      [multiset{URef(0), Hold(0)}, multiset{URef(0), LRef(0)}], [None, None],
                      [AtLookup(LC, LuCheck(ENOENT, None)), AtVgone(GC, VgDone)])
  const C15 := Worlds(Low(ExclBy(0), 1, 1), SPARE, [Remains0(false).(freed := true, dead := true)], [],
                      [multiset{URef(0), Hold(0)}, multiset{URef(0), LRef(0)}], [None, None],
                      [AtLookup(LC, LuVdrop(ENOENT, None, LowerFailed)), AtVgone(GC, VgDone)])
  const C16 := Worlds(Low(ExclBy(0), 1, 0), SPARE, [Remains0(false).(freed := true, dead := true)], [],
                      [multiset{URef(0)}, multiset{URef(0), LRef(0)}], [None, None],
                      [AtLookup(LC, LuResult(ENOENT, None, LowerFailed)), AtVgone(GC, VgDone)])
  const C17 := Worlds(Low(ExclBy(0), 1, 0), SPARE, [Remains0(false).(freed := true, dead := true)], [],
                      [multiset{URef(0)}, multiset{URef(0), LRef(0)}], [None, None],
                      [AtLookup(LC, LuDone(Ended(ENOENT, None, LowerFailed, ENOENT, None, None))), AtVgone(GC, VgDone)])

  lemma FailEnter()
    ensures Leads(A9, 0, CallLookup(0, LC.cn, false, false), C1)
    ensures Leads(C1, 0, Step(false, LowerUnlocks), C2)
  {
    assert multiset{URef(0)} + multiset{Hold(0)} == multiset{URef(0), Hold(0)};
  }

  lemma FailIntrude()
    ensures Leads(C2, 1, Perform(RefAlias(0)), C3)
    ensures Leads(C3, 1, Perform(RefLower(0)), C4)
    ensures Leads(C4, 1, Perform(LockLower(0, Exclusive)), C5)
  {
    assert multiset{} + multiset{URef(0)} == multiset{URef(0)};
    assert multiset{URef(0)} + multiset{LRef(0)} == multiset{URef(0), LRef(0)};
  }

  lemma FailDoom()
    ensures Leads(C5, 1, CallVgone(0), C6)
    ensures Leads(C6, 1, GO, C7)
    ensures Leads(C7, 1, GO, C8)
  {
    assert Unlinked([0], 0) == [];
  }

  lemma FailReclaim()
    ensures Leads(C8, 1, GO, C9)
    ensures Leads(C9, 1, GO, C10)
  {
  }

  lemma FailFree()
    ensures Leads(C10, 1, GO, C11)
    ensures Leads(C11, 1, GO, C12)
  {
  }

  lemma FailReturn()
    ensures Leads(C12, 0, GO, C13)
    ensures Leads(C13, 0, Step(false, LowerReturns(ENOENT, None, Unheld)), C14)
  {
  }

  lemma FailEnd()
    ensures Leads(C14, 0, GO, C15)
    ensures Leads(C15, 0, GO, C16)
    ensures Leads(C16, 0, GO, C17)
  {
    assert multiset{URef(0), Hold(0)} - multiset{Hold(0)} == multiset{URef(0)};
  }

  lemma FailFirstHalf()
    ensures Reached(C8)
  {
    RaceNodeMade();
    FailEnter();
    ReachNext(A9, 0, CallLookup(0, LC.cn, false, false), C1);
    ReachNext(C1, 0, Step(false, LowerUnlocks), C2);
    FailIntrude();
    ReachNext(C2, 1, Perform(RefAlias(0)), C3);
    ReachNext(C3, 1, Perform(RefLower(0)), C4);
    ReachNext(C4, 1, Perform(LockLower(0, Exclusive)), C5);
    FailDoom();
    ReachNext(C5, 1, CallVgone(0), C6);
    ReachNext(C6, 1, GO, C7);
    ReachNext(C7, 1, GO, C8);
  }

  /** The call `c` of thread 0 failed below, and the thread has the lock of the lower directory but
      not the one v_vnlock names. */
  ghost predicate LockLost(st: St, c: LuCall, err: int) {
    && StOk(st) && |st.pcs| > 0 && st.pcs[0] == AtLookup(c, LuDone(Ended(err, None, LowerFailed, err, None, None)))
    && st.sh.alias[c.dvp].doomed && !HasLock(st.sh, 0, c.dvp, c.m) && LMode(st.sh, 0, c.ldvp) == c.m
  }

  lemma EndsLost()
    ensures LockLost(C17, LC, ENOENT)
  {
  }

  /** The lower lookup unlocks the directory, thread 1 reclaims the alias, and the lower lookup
      fails: tpt_lookup returns with the lock of the lower directory, while v_vnlock names the
      private lock, which thread 1 has. */
  lemma LockLostAfterFailure()
    ensures exists r: seq<St> :: Run(r) && LockLost(r[|r| - 1], LC, ENOENT)
  {
    FailFirstHalf();
    FailReclaim();
    ReachNext(C8, 1, GO, C9);
    ReachNext(C9, 1, GO, C10);
    FailFree();
    ReachNext(C10, 1, GO, C11);
    ReachNext(C11, 1, GO, C12);
    FailReturn();
    ReachNext(C12, 0, GO, C13);
    ReachNext(C13, 0, Step(false, LowerReturns(ENOENT, None, Unheld)), C14);
    FailEnd();
    ReachNext(C14, 0, GO, C15);
    ReachNext(C15, 0, GO, C16);
    ReachNext(C16, 0, GO, C17);
    EndsLost();
    var r: seq<St> :| Run(r) && r[|r| - 1] == C17;
  }

  /** Alias `v` has no data any more, but is not dead yet: a thread that has a reference to it and
      passes it to a generic operation dereferences null. */
  ghost predicate HalfGone(s: Sh, t: nat, v: nat) {
    && Wf(s) && t < |s.own| && v < |s.alias| && URef(v) in s.own[t]
    && s.alias[v].onMount && !s.alias[v].data && s.alias[v].vnlk == Own && !s.alias[v].dead
  }

  /** Between the interlock section of tpt_reclaim and the end of vgone there is such a state. */
  lemma HalfGoneHappens()
    ensures exists r: seq<St> :: Run(r) && HalfGone(r[|r| - 1].sh, 0, 0)
  {
    FailFirstHalf();
    FailReclaim();
    ReachNext(C8, 1, GO, C9);
    ReachNext(C9, 1, GO, C10);
    HalfGoneNow();
    var r: seq<St> :| Run(r) && r[|r| - 1] == C10;
  }

  lemma HalfGoneNow()
    ensures HalfGone(C10.sh, 0, 0)
  {
  }

  // ----- A create on a read-only mount -----

  const LD := LuCall(0, 0, Exclusive, multiset{URef(0)}, 0, Name(true, OpCreate), true)

  const D1 := Worlds(Low(ExclBy(0), 1, 1), SPARE, [Node(0, 1)], [0],
                     [multiset{URef(0), Hold(0)}, multiset{}], [None, None],
                     [AtLookup(LD, LuLower(false)), Idle])
  const D2 := Worlds(Low(ExclBy(0), 1, 1), Low(ExclBy(0), 1, 0), [Node(0, 1)], [0],
                     [multiset{URef(0), Hold(0), LRef(1)}, multiset{}], [None, None],
                     [AtLookup(LD, LuCheck(EJUSTRETURN, Some(1))), Idle])
  const D3 := Worlds(Low(ExclBy(0), 1, 1), Low(ExclBy(0), 1, 0), [Node(0, 1)], [0],
                     [multiset{URef(0), Hold(0), LRef(1)}, multiset{}], [None, None],
                     [AtLookup(LD, LuVdrop(EJUSTRETURN, Some(1), Plain)), Idle])
  const D4 := Worlds(Low(ExclBy(0), 1, 0), Low(ExclBy(0), 1, 0), [Node(0, 1)], [0],
                     [multiset{URef(0), LRef(1)}, multiset{}], [None, None],
                     [AtLookup(LD, LuResult(EJUSTRETURN, Some(1), Plain)), Idle])
  const D5 := Worlds(Low(ExclBy(0), 1, 0), Low(ExclBy(0), 1, 0), [Node(0, 1)], [0],
                     [multiset{URef(0), LRef(1)}, multiset{}], [None, None],
                     [AtLookup(LD, LuDone(Ended(EROFS, None, Plain, EJUSTRETURN, Some(1), Some(1)))), Idle])

  lemma LeakEnter()
    ensures Leads(A9, 0, CallLookup(0, LD.cn, true, true), D1)
    ensures Leads(D1, 0, Step(false, LowerReturns(EJUSTRETURN, Some(1), Exclusive)), D2)
  {
    assert multiset{URef(0)} + multiset{Hold(0)} == multiset{URef(0), Hold(0)};
    assert multiset{URef(0), Hold(0)} + multiset{LRef(1)} == multiset{URef(0), Hold(0), LRef(1)};
  }

  lemma LeakEnd()
    ensures Leads(D2, 0, GO, D3)
    ensures Leads(D3, 0, GO, D4)
    ensures Leads(D4, 0, GO, D5)
  {
    assert multiset{URef(0), Hold(0), LRef(1)} - multiset{Hold(0)} == multiset{URef(0), LRef(1)};
  }

  /** The call `c` of thread 0 returned EROFS and no vnode, and left lower vnode `l` locked and
      referenced. */
  ghost predicate Leaked(st: St, c: LuCall, l: nat) {
    && StOk(st) && |st.pcs| > 0
    && st.pcs[0] == AtLookup(c, LuDone(Ended(EROFS, None, Plain, EJUSTRETURN, Some(l), Some(l))))
    && LMode(st.sh, 0, l) == Exclusive && st.sh.own[0] == c.own + multiset{LRef(l)}
  }

  lemma EndsLeaked()
    ensures Leaked(D5, LD, 1)
  {
    assert multiset{URef(0)} + multiset{LRef(1)} == multiset{URef(0), LRef(1)};
  }

  /** The lower lookup of a create returns a vnode together with EJUSTRETURN, the mount is
      read-only: tpt_lookup returns EROFS and no vnode, and lower vnode 1 stays locked and
      referenced. */
  lemma VnodeLeaksOnReadOnly()
    ensures exists r: seq<St> :: Run(r) && Leaked(r[|r| - 1], LD, 1)
  {
    RaceNodeMade();
    LeakEnter();
    ReachNext(A9, 0, CallLookup(0, LD.cn, true, true), D1);
    ReachNext(D1, 0, Step(false, LowerReturns(EJUSTRETURN, Some(1), Exclusive)), D2);
    LeakEnd();
    ReachNext(D2, 0, GO, D3);
    ReachNext(D3, 0, GO, D4);
    ReachNext(D4, 0, GO, D5);
    EndsLeaked();
    var r: seq<St> :| Run(r) && r[|r| - 1] == D5;
  }
}
