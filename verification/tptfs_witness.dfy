/** Two runs that show the exceptions named by the theorems do occur: the failing assertion of
    tptfs_unlink_lowervp, and a caller of tpt_nodeget that came with a shared lock and finds
    another alias at insertion. */
module Witness {
  import opened Options
  import opened Kernel
  import opened Invariant
  import opened Destroy
  import opened Nodeget
  import opened Reclaim
  import opened Notify
  import opened Locking
  import opened Inactive
  import opened Lookup
  import opened Environment
  import opened System
  import opened Runs

  ghost predicate Reached(st: St) {
    exists r: seq<St> :: Run(r) && r[|r| - 1] == st
  }

  lemma ReachInit(st: St)
    requires Init(st)
    ensures Reached(st)
  {
    assert Run([st]);
  }

  lemma ReachNext(st: St, t: nat, c: Cmd, st': St)
    requires Reached(st) && Leads(st, t, c, st')
    ensures Reached(st')
  {
    var r: seq<St> :| Run(r) && r[|r| - 1] == st;
    LeadsNext(st, t, c, st');
    RunExtend(r, st');
    assert (r + [st'])[|r + [st']| - 1] == st';
  }

  lemma LeadsNext(st: St, t: nat, c: Cmd, st': St)
    requires Leads(st, t, c, st')
    ensures Next(st, st')
  {
  }

  // ----- A system of two lower vnodes in one bucket and two threads -----

  function Low(lk: Lock, use: int, hold: int): Lower {
    Lower(lk, use, hold, false, false, false, 0, 0)
  }

  function Worlds(l0: Lower, l1: Lower, a: seq<Alias>, list: seq<nat>, own: seq<multiset<Res>>,
                  busy: seq<Option<nat>>, pcs: seq<Pc>): St
  {
    St(Sh([l0, l1], a, [list], [0, 0], {0}, own, busy), pcs, None)
  }

  /** Nobody has anything of the second lower vnode. */
  function World(lk: Lock, use: int, a: seq<Alias>, list: seq<nat>, own: seq<multiset<Res>>,
                 busy: seq<Option<nat>>, pcs: seq<Pc>): St
  {
    Worlds(Low(lk, use, 0), Low(FREE_LOCK, 0, 0), a, list, own, busy, pcs)
  }

  const START := World(FREE_LOCK, 0, [], [], [multiset{}, multiset{}], [None, None], [Idle, Idle])

  lemma StartReached()
    ensures Reached(START)
  {
    ReachInit(START);
  }

  const GO := Step(false, NoMove)

  /** Step `c` of thread `t` leads from `st` to `st'`. */
  ghost predicate Leads(st: St, t: nat, c: Cmd, st': St) {
    StOk(st) && Can(st, t, c) && Do(st, t, c) == st'
  }

  // ----- The race of tptfs_unlink_lowervp -----

  const C0 := Call(0, 0, true, multiset{})
  const N0 := Note(0, 0, multiset{})

  /** The alias of lower vnode 0 on mount 0 that thread `t` made, once it is on the hash. */
  function Node(t: nat, use: int): Alias {
    Prototype(t, C0).(onMount := true, lref := true, use := use)
  }

  /** The same in the charge of an unlink notification of thread 0. */
  function Marked(use: int): Alias {
    Node(0, use).(noUnlock := true, drop := true)
  }

  const A1 := World(FREE_LOCK, 1, [], [],
                    [multiset{LRef(0)}, multiset{}], [None, None],
                    [Idle, Idle])
  const A2 := World(ExclBy(0), 1, [], [],
                    [multiset{LRef(0)}, multiset{}], [None, None],
                    [Idle, Idle])
  const A3 := World(ExclBy(0), 1, [], [],
                    [multiset{LRef(0)}, multiset{}], [None, None],
                    [AtNodeget(C0, NgTest), Idle])
  const A4 := World(ExclBy(0), 1, [], [],
                    [multiset{LRef(0)}, multiset{}], [None, None],
                    [AtNodeget(C0, NgMode), Idle])
  const A5 := World(ExclBy(0), 1, [], [],
                    [multiset{LRef(0)}, multiset{}], [None, None],
                    [AtNodeget(C0, NgAlloc), Idle])
  const A6 := World(ExclBy(0), 1, [Prototype(0, C0)], [],
                    [multiset{LRef(0), URef(0)}, multiset{}], [Some(0), None],
                    [AtNodeget(C0, NgInsmntque(0)), Idle])
  const A7 := World(ExclBy(0), 1, [Prototype(0, C0).(onMount := true)], [],
                    [multiset{LRef(0), URef(0)}, multiset{}], [Some(0), None],
                    [AtNodeget(C0, NgHashins(0)), Idle])
  const A8 := World(ExclBy(0), 1, [Node(0, 1)], [0],
                    [multiset{URef(0)}, multiset{}], [None, None],
                    [AtNodeget(C0, NgDone(0, 0)), Idle])
  const A9 := World(ExclBy(0), 1, [Node(0, 1)], [0],
                    [multiset{URef(0)}, multiset{}], [None, None],
                    [Idle, Idle])
  const A10 := World(ExclBy(0), 1, [Node(0, 2)], [0],
                    [multiset{URef(0)}, multiset{URef(0)}], [None, None],
                    [Idle, Idle])
  const A11 := World(ExclBy(0), 1, [Node(0, 1)], [0],
                    [multiset{}, multiset{URef(0)}], [None, None],
                    [Idle, Idle])
  const A12 := World(ExclBy(0), 1, [Node(0, 1)], [0],
                    [multiset{}, multiset{URef(0)}], [None, None],
                    [AtUnlinkLower(N0, UlSearch), Idle])
  const A13 := World(ExclBy(0), 1, [Node(0, 1)], [0],
                    [multiset{}, multiset{URef(0)}], [None, None],
                    [AtUnlinkLower(N0, UlScan), Idle])
  const A14 := World(ExclBy(0), 1, [Node(0, 2)], [0],
                    [multiset{URef(0)}, multiset{URef(0)}], [None, None],
                    [AtUnlinkLower(N0, UlFlag(0)), Idle])
  const A15 := World(ExclBy(0), 1, [Marked(2)], [0],
                    [multiset{URef(0)}, multiset{URef(0)}], [Some(0), None],
                    [AtUnlinkLower(N0, UlUnref(0)), Idle])
  const A16 := World(ExclBy(0), 1, [Marked(1)], [0],
                    [multiset{}, multiset{URef(0)}], [Some(0), None],
                    [AtUnlinkLower(N0, UlTest(0)), Idle])
  const A17 := World(ExclBy(0), 1, [Marked(0)], [0],
                    [multiset{}, multiset{}], [Some(0), None],
                    [AtUnlinkLower(N0, UlTest(0)), AtRelease(InCall(0, 0, false, multiset{}), InLock(LkEnter))])
  const A18 := A17.(panic := Some(UnlinkNotDoomed))

  lemma RaceEnter()
    ensures Leads(START, 0, Perform(RefLower(0)), A1)
    ensures Leads(A1, 0, Perform(LockLower(0, Exclusive)), A2)
    ensures Leads(A2, 0, CallNodeget(0, 0), A3)
  {
    assert multiset{} + multiset{LRef(0)} == multiset{LRef(0)};
    assert multiset{LRef(0)} - multiset{LRef(0)} == multiset{};
  }

  lemma RaceSearch()
    ensures Leads(A3, 0, GO, A4)
    ensures Leads(A4, 0, GO, A5)
  {
  }

  lemma RaceBuild()
    ensures Leads(A5, 0, GO, A6)
    ensures Leads(A6, 0, GO, A7)
  {
    assert multiset{LRef(0)} + multiset{URef(0)} == multiset{LRef(0), URef(0)};
  }

  lemma RaceInsert()
    ensures Leads(A7, 0, GO, A8)
    ensures Leads(A8, 0, Return, A9)
  {
    assert [0 as nat] + [] == [0];
    assert multiset{LRef(0), URef(0)} - multiset{LRef(0)} == multiset{URef(0)};
  }

  lemma RaceShare()
    ensures Leads(A9, 1, Perform(RefAlias(0)), A10)
    ensures Leads(A10, 0, ReleAlias(0), A11)
    ensures Leads(A11, 0, CallUnlinkLower(0, 0), A12)
  {
    assert multiset{} + multiset{URef(0)} == multiset{URef(0)};
    assert multiset{URef(0)} - multiset{URef(0)} == multiset{};
  }

  lemma RaceFlag()
    ensures Leads(A12, 0, GO, A13)
    ensures Leads(A13, 0, GO, A14)
    ensures Leads(A14, 0, GO, A15)
  {
    assert multiset{} + multiset{URef(0)} == multiset{URef(0)};
  }

  lemma RaceUnref()
    ensures Leads(A15, 0, GO, A16)
  {
    assert multiset{URef(0)} - multiset{URef(0)} == multiset{};
  }

  lemma RaceLose()
    ensures Leads(A16, 1, ReleAlias(0), A17)
    ensures Leads(A17, 0, GO, A18)
  {
    assert multiset{URef(0)} - multiset{URef(0)} == multiset{};
  }

  lemma RaceNodeMade()
    ensures Reached(A9)
  {
    StartReached();
    RaceEnter();
    ReachNext(START, 0, Perform(RefLower(0)), A1);
    ReachNext(A1, 0, Perform(LockLower(0, Exclusive)), A2);
    ReachNext(A2, 0, CallNodeget(0, 0), A3);
    RaceSearch();
    ReachNext(A3, 0, GO, A4);
    ReachNext(A4, 0, GO, A5);
    RaceBuild();
    ReachNext(A5, 0, GO, A6);
    ReachNext(A6, 0, GO, A7);
    RaceInsert();
    ReachNext(A7, 0, GO, A8);
    ReachNext(A8, 0, Return, A9);
  }

  /** Thread 0 runs tptfs_unlink_lowervp; thread 1, which has the only other reference to the
      alias, gives it up between vunref and the test of v_usecount. */
  lemma UnlinkRaceHappens()
    ensures exists r: seq<St> :: Run(r) && r[|r| - 1].panic == Some(UnlinkNotDoomed)
  {
    RaceNodeMade();
    RaceShare();
    ReachNext(A9, 1, Perform(RefAlias(0)), A10);
    ReachNext(A10, 0, ReleAlias(0), A11);
    ReachNext(A11, 0, CallUnlinkLower(0, 0), A12);
    RaceFlag();
    ReachNext(A12, 0, GO, A13);
    ReachNext(A13, 0, GO, A14);
    ReachNext(A14, 0, GO, A15);
    RaceUnref();
    ReachNext(A15, 0, GO, A16);
    RaceLose();
    ReachNext(A16, 1, ReleAlias(0), A17);
    ReachNext(A17, 0, GO, A18);
    var r: seq<St> :| Run(r) && r[|r| - 1] == A18;
  }

  // ----- A caller with a shared lock that is beaten -----

  const D0 := Call(0, 0, false, multiset{})

  const B1 := World(FREE_LOCK, 1, [], [],
                    [multiset{LRef(0)}, multiset{}], [None, None],
                    [Idle, Idle])
  const B2 := World(SharedBy({0}), 1, [], [],
                    [multiset{LRef(0)}, multiset{}], [None, None],
                    [Idle, Idle])
  const B3 := World(SharedBy({0}), 2, [], [],
                    [multiset{LRef(0)}, multiset{LRef(0)}], [None, None],
                    [Idle, Idle])
  const B4 := World(SharedBy({0, 1}), 2, [], [],
                    [multiset{LRef(0)}, multiset{LRef(0)}], [None, None],
                    [Idle, Idle])
  const B5 := World(SharedBy({0, 1}), 2, [], [],
                    [multiset{LRef(0)}, multiset{LRef(0)}], [None, None],
                    [AtNodeget(D0, NgTest), Idle])
  const B6 := World(SharedBy({0, 1}), 2, [], [],
                    [multiset{LRef(0)}, multiset{LRef(0)}], [None, None],
                    [AtNodeget(D0, NgTest), AtNodeget(D0, NgTest)])
  const B7 := World(SharedBy({0, 1}), 2, [], [],
                    [multiset{LRef(0)}, multiset{LRef(0)}], [None, None],
                    [AtNodeget(D0, NgMode), AtNodeget(D0, NgTest)])
  const B8 := World(SharedBy({0, 1}), 2, [], [],
                    [multiset{LRef(0)}, multiset{LRef(0)}], [None, None],
                    [AtNodeget(D0, NgMode), AtNodeget(D0, NgMode)])
  const B9 := World(SharedBy({1}), 2, [], [],
                    [multiset{LRef(0)}, multiset{LRef(0)}], [None, None],
                    [AtNodeget(D0, NgUpgrade), AtNodeget(D0, NgMode)])
  const B10 := World(ExclBy(1), 2, [], [],
                    [multiset{LRef(0)}, multiset{LRef(0)}], [None, None],
                    [AtNodeget(D0, NgUpgrade), AtNodeget(D0, NgDoomCheck)])
  const B11 := World(ExclBy(1), 2, [], [],
                    [multiset{LRef(0)}, multiset{LRef(0)}], [None, None],
                    [AtNodeget(D0, NgUpgrade), AtNodeget(D0, NgAlloc)])
  const B12 := World(ExclBy(1), 2, [Prototype(1, D0)], [],
                    [multiset{LRef(0)}, multiset{LRef(0), URef(0)}], [None, Some(0)],
                    [AtNodeget(D0, NgUpgrade), AtNodeget(D0, NgInsmntque(0))])
  const B13 := World(ExclBy(1), 2, [Prototype(1, D0).(onMount := true)], [],
                    [multiset{LRef(0)}, multiset{LRef(0), URef(0)}], [None, Some(0)],
                    [AtNodeget(D0, NgUpgrade), AtNodeget(D0, NgHashins(0))])
  const B14 := World(ExclBy(1), 2, [Node(1, 1)], [0],
                    [multiset{LRef(0)}, multiset{URef(0)}], [None, None],
                    [AtNodeget(D0, NgUpgrade), AtNodeget(D0, NgDone(0, 0))])
  const B15 := World(ExclBy(1), 2, [Node(1, 1)], [0],
                    [multiset{LRef(0)}, multiset{URef(0)}], [None, None],
                    [AtNodeget(D0, NgUpgrade), Idle])
  const B16 := World(FREE_LOCK, 2, [Node(1, 1)], [0],
                    [multiset{LRef(0)}, multiset{URef(0)}], [None, None],
                    [AtNodeget(D0, NgUpgrade), Idle])
  const B17 := World(ExclBy(0), 2, [Node(1, 1)], [0],
                    [multiset{LRef(0)}, multiset{URef(0)}], [None, None],
                    [AtNodeget(D0, NgDoomCheck), Idle])
  const B18 := World(ExclBy(0), 2, [Node(1, 1)], [0],
                    [multiset{LRef(0)}, multiset{URef(0)}], [None, None],
                    [AtNodeget(D0, NgAlloc), Idle])
  const B19 := World(ExclBy(0), 2, [Node(1, 1), Prototype(0, D0)], [0],
                    [multiset{LRef(0), URef(1)}, multiset{URef(0)}], [Some(1), None],
                    [AtNodeget(D0, NgInsmntque(1)), Idle])
  const B20 := World(ExclBy(0), 2, [Node(1, 1), Prototype(0, D0).(onMount := true)], [0],
                    [multiset{LRef(0), URef(1)}, multiset{URef(0)}], [Some(1), None],
                    [AtNodeget(D0, NgHashins(1)), Idle])
  const B21 := World(ExclBy(0), 2, [Node(1, 2), Prototype(0, D0).(onMount := true)], [0],
                    [multiset{LRef(0), URef(1), URef(0)}, multiset{URef(0)}], [Some(1), None],
                    [AtNodeget(D0, NgLost(1, 0)), Idle])

  lemma BeatenEnter()
    ensures Leads(START, 0, Perform(RefLower(0)), B1)
    ensures Leads(B1, 0, Perform(LockLower(0, Shared)), B2)
  {
    assert multiset{} + multiset{LRef(0)} == multiset{LRef(0)};
    assert {} + {0} == {0};
  }

  lemma BeatenOther()
    ensures Leads(B2, 1, Perform(RefLower(0)), B3)
  {
    assert multiset{} + multiset{LRef(0)} == multiset{LRef(0)};
  }

  lemma BeatenCall()
    ensures Leads(B3, 1, Perform(LockLower(0, Shared)), B4)
    ensures Leads(B4, 0, CallNodeget(0, 0), B5)
    ensures Leads(B5, 1, CallNodeget(0, 0), B6)
  {
    assert {0} + {1} == {0, 1};
    assert multiset{LRef(0)} - multiset{LRef(0)} == multiset{};
  }

  lemma BeatenSearch()
    ensures Leads(B6, 0, GO, B7)
    ensures Leads(B7, 1, GO, B8)
    ensures Leads(B8, 0, GO, B9)
  {
    assert {0, 1} - {0} == {1};
  }

  lemma WinnerUpgrade()
    ensures Leads(B9, 1, GO, B10)
    ensures Leads(B10, 1, GO, B11)
  {
  }

  lemma WinnerBuild()
    ensures Leads(B11, 1, GO, B12)
    ensures Leads(B12, 1, GO, B13)
  {
    assert multiset{LRef(0)} + multiset{URef(0)} == multiset{LRef(0), URef(0)};
  }

  lemma WinnerInsert()
    ensures Leads(B13, 1, GO, B14)
    ensures Leads(B14, 1, Return, B15)
    ensures Leads(B15, 1, Perform(UnlockLower(0)), B16)
  {
    assert [0 as nat] + [] == [0];
    assert multiset{LRef(0), URef(0)} - multiset{LRef(0)} == multiset{URef(0)};
  }

  lemma LoserUpgrade()
    ensures Leads(B16, 0, GO, B17)
    ensures Leads(B17, 0, GO, B18)
  {
  }

  lemma LoserBuild()
    ensures Leads(B18, 0, GO, B19)
    ensures Leads(B19, 0, GO, B20)
  {
    assert multiset{LRef(0)} + multiset{URef(1)} == multiset{LRef(0), URef(1)};
  }

  lemma LoserLoses()
    ensures Leads(B20, 0, GO, B21)
  {
    assert multiset{LRef(0), URef(1)} + multiset{URef(0)} == multiset{LRef(0), URef(1), URef(0)};
  }

  lemma BeatenFirstHalf()
    ensures Reached(B9)
  {
    StartReached();
    BeatenEnter();
    ReachNext(START, 0, Perform(RefLower(0)), B1);
    ReachNext(B1, 0, Perform(LockLower(0, Shared)), B2);
    BeatenOther();
    ReachNext(B2, 1, Perform(RefLower(0)), B3);
    BeatenCall();
    ReachNext(B3, 1, Perform(LockLower(0, Shared)), B4);
    ReachNext(B4, 0, CallNodeget(0, 0), B5);
    ReachNext(B5, 1, CallNodeget(0, 0), B6);
    BeatenSearch();
    ReachNext(B6, 0, GO, B7);
    ReachNext(B7, 1, GO, B8);
    ReachNext(B8, 0, GO, B9);
  }

  /** Two threads come with the lock shared; the one that upgrades last finds the alias of the
      other when it inserts its own. */
  lemma SharedMayBeBeaten()
    ensures exists r: seq<St> :: Run(r) && r[|r| - 1].pcs == [AtNodeget(D0, NgLost(1, 0)), Idle]
  {
    BeatenFirstHalf();
    WinnerUpgrade();
    ReachNext(B9, 1, GO, B10);
    ReachNext(B10, 1, GO, B11);
    WinnerBuild();
    ReachNext(B11, 1, GO, B12);
    ReachNext(B12, 1, GO, B13);
    WinnerInsert();
    ReachNext(B13, 1, GO, B14);
    ReachNext(B14, 1, Return, B15);
    ReachNext(B15, 1, Perform(UnlockLower(0)), B16);
    LoserUpgrade();
    ReachNext(B16, 0, GO, B17);
    ReachNext(B17, 0, GO, B18);
    LoserBuild();
    ReachNext(B18, 0, GO, B19);
    ReachNext(B19, 0, GO, B20);
    LoserLoses();
    ReachNext(B20, 0, GO, B21);
    var r: seq<St> :| Run(r) && r[|r| - 1] == B21;
  }
}
