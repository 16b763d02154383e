/** What holds in every run of the system: the theorems of tptfs. */
module Runs {
  import opened Options
  import opened Kernel
  import opened Invariant
  import opened Guarantee
  import opened Destroy
  import opened Nodeget
  import opened Reclaim
  import opened Notify
  import opened Locking
  import opened Inactive
  import opened Lookup
  import opened Environment
  import opened System

  // ----- Runs -----

  /** No aliases, nothing referenced, held or locked. */
  ghost predicate Init(st: St) {
    var s := st.sh;
    && s.alias == [] && |s.hidx| == |s.lower| && |s.own| == |s.busy| == |st.pcs| && st.panic == None
    && (forall b :: 0 <= b < |s.hash| ==> s.hash[b] == [])
    && (forall l :: 0 <= l < |s.hidx| ==> s.hidx[l] < |s.hash|)
    && (forall t :: 0 <= t < |s.own| ==> s.own[t] == multiset{} && s.busy[t] == None && st.pcs[t] == Idle)
    && (forall l :: 0 <= l < |s.lower| ==>
          s.lower[l].use == 0 && s.lower[l].hold == 0 && s.lower[l].lk == FREE_LOCK && !s.lower[l].freed &&
          s.lower[l].direct >= 0 && s.lower[l].wc == s.lower[l].direct)
  }

  ghost predicate StOk(st: St) {
    Wf(st.sh) && |st.pcs| == |st.sh.own| && forall t :: 0 <= t < |st.pcs| ==> PcOk(st.sh, st.pcs[t])
  }

  /** Whether thread `t` may take step `c` now. */
  ghost predicate Can(st: St, t: nat, c: Cmd)
    requires StOk(st)
  {
    st.panic == None && t < |st.pcs| &&
    match c
    case Step(fails, mv) => PcCan(st.sh, t, st.pcs[t], fails, mv)
    case Return => Finished(st.pcs[t])
    case Perform(act) => st.pcs[t] == Idle && ActCan(st.sh, t, act)
    case _ => st.pcs[t] == Idle && CanStart(st.sh, t, c)
  }

  ghost function Effect(st: St, t: nat, c: Cmd): Out<Pc>
    requires StOk(st) && Can(st, t, c)
  {
    match c
    case Step(fails, mv) => PcStep(st.sh, t, st.pcs[t], fails, mv)
    case Return => Ok(st.sh, Idle)
    case Perform(act) => Wrap(ActStep(st.sh, t, act), _ => Idle)
    case _ => Start(st.sh, t, c)
  }

  ghost function Do(st: St, t: nat, c: Cmd): St
    requires StOk(st) && Can(st, t, c)
  {
    match Effect(st, t, c)
    case Panic(why) => st.(panic := Some(why))
    case Ok(s1, p1) => St(s1, st.pcs[t := p1], None)
  }

  ghost predicate Next(st: St, st': St) {
    StOk(st) && exists t, c :: Can(st, t, c) && st' == Do(st, t, c)
  }

  /** Every two neighbours of a sequence are related. */
  ghost predicate Chain<T(!new)>(r: seq<T>, next: (T, T) -> bool) {
    forall i, j {:trigger next(r[i], r[j])} :: 0 <= i < j < |r| && j == i + 1 ==> next(r[i], r[j])
  }

  lemma ChainAt<T(!new)>(r: seq<T>, next: (T, T) -> bool, i: nat)
    requires Chain(r, next) && i + 1 < |r|
    ensures next(r[i], r[i + 1])
  {
  }

  lemma ChainExtend<T(!new)>(r: seq<T>, next: (T, T) -> bool, x: T)
    requires |r| > 0 && Chain(r, next) && next(r[|r| - 1], x)
    ensures Chain(r + [x], next)
  {
    var r' := r + [x];
    forall i, j | 0 <= i < j < |r'| && j == i + 1
      ensures next(r'[i], r'[j])
    {
      if j < |r| { assert next(r[i], r[j]); }
    }
  }

  ghost predicate Run(r: seq<St>) {
    |r| > 0 && Init(r[0]) && Chain(r, Next)
  }

  lemma RunExtend(r: seq<St>, st: St)
    requires Run(r) && Next(r[|r| - 1], st)
    ensures Run(r + [st])
  {
    ChainExtend(r, Next, st);
  }

  // ----- The invariant of runs -----

  ghost predicate Sound(st: St) {
    && Inv(st.sh) && StOk(st)
    && (forall t :: 0 <= t < |st.pcs| ==> PcInv(st.sh, t, st.pcs[t]))
    && (st.panic == None || st.panic == Some(UnlinkNotDoomed))
  }

  lemma {:induction false} TotalEmpty(own: seq<multiset<Res>>, r: Res)
    requires forall t :: 0 <= t < |own| ==> own[t] == multiset{}
    ensures Total(own, r) == 0
  {
    if own != [] { TotalEmpty(own[..|own| - 1], r); }
  }

  lemma InitSound(st: St)
    requires Init(st)
    ensures Sound(st)
  {
    var s := st.sh;
    forall r
      ensures Total(s.own, r) == 0
    {
      TotalEmpty(s.own, r);
    }
    forall l | 0 <= l < |s.lower|
      ensures LowerInv(s, l)
    {
    }
  }

  lemma ReturnGood(st: St, t: nat)
    requires Sound(st) && t < |st.pcs| && Finished(st.pcs[t])
    ensures st.sh.busy[t] == None
  {
  }

  /** Nothing changed. */
  lemma Stutter(s: Sh, t: nat)
    requires Wf(s) && t < |s.own|
    ensures Inv(s) ==> Guar(s, s, t)
  {
    if Inv(s) {
      forall v | 0 <= v < |s.alias|
        ensures Hashed(s, v) ==> v < |s.alias|
      {
      }
    }
  }

  /** Every step of every thread from a sound state ends well, except the one race. */
  lemma EffectGood(st: St, t: nat, c: Cmd)
    requires Sound(st) && Can(st, t, c)
    ensures var o := Effect(st, t, c);
            if c.Step? && UnlinkRace(st.sh, st.pcs[t]) then o == Panic(UnlinkNotDoomed) else Good(st.sh, t, o)
  {
    match c
    case Step(fails, mv) => PcStepGood(st.sh, t, st.pcs[t], fails, mv);
    case Return =>
      ReturnGood(st, t);
      Stutter(st.sh, t);
    case Perform(act) => ActStepGood(st.sh, t, act);
    case _ => StartGood(st.sh, t, c);
  }

  lemma StepSound(st: St, t: nat, c: Cmd)
    requires Sound(st) && Can(st, t, c)
    ensures Sound(Do(st, t, c)) && Guar(st.sh, Do(st, t, c).sh, t)
    ensures Do(st, t, c).panic.Some? <==> c.Step? && UnlinkRace(st.sh, st.pcs[t])
  {
    EffectGood(st, t, c);
    var o := Effect(st, t, c);
    if o.Ok? {
      var pcs := st.pcs[t := o.pc];
      forall u | 0 <= u < |pcs|
        ensures PcOk(o.sh, pcs[u]) && PcInv(o.sh, u, pcs[u])
      {
        if u != t { PcKept(st.sh, o.sh, t, u, st.pcs[u]); }
      }
    } else {
      Stutter(st.sh, t);
    }
  }

  /** Every state of every run is sound: the reference, hold and write counts are exact, the
      hash holds one alias per pair, and no assertion fails, nothing null or freed is used and
      nothing is given back twice, but for the race of tptfs_unlink_lowervp. */
  lemma {:induction false} RunSound(r: seq<St>, i: nat)
    requires Run(r) && i < |r|
    ensures Sound(r[i])
  {
    if i == 0 {
      InitSound(r[0]);
    } else {
      RunSound(r, i - 1);
      ChainAt(r, Next, i - 1);
      var t, c :| Can(r[i - 1], t, c) && r[i] == Do(r[i - 1], t, c);
      StepSound(r[i - 1], t, c);
    }
  }

  // ----- The hash -----

  /** The hash never holds two nodes for one mount and lower vnode. */
  lemma OneNodePerPair(r: seq<St>, i: nat, b: nat, j: nat, b': nat, j': nat)
    requires Run(r) && i < |r|
    requires b < |r[i].sh.hash| && j < |r[i].sh.hash[b]| && b' < |r[i].sh.hash| && j' < |r[i].sh.hash[b']|
    ensures r[i].sh.hash[b][j] < |r[i].sh.alias| && r[i].sh.hash[b'][j'] < |r[i].sh.alias|
    ensures var a, a' := r[i].sh.alias[r[i].sh.hash[b][j]], r[i].sh.alias[r[i].sh.hash[b'][j']];
            a.mount == a'.mount && a.lower == a'.lower ==> b == b' && j == j'
  {
    RunSound(r, i);
  }

  /** Alias `v` as it may be at a later moment. */
  ghost predicate Later(s: Sh, s': Sh, v: nat) {
    v < |s.alias| <= |s'.alias| && Onward(s, s', v)
  }

  /** Step `i` of the run is one of thread `t`. */
  ghost predicate Moves(r: seq<St>, i: nat, t: nat)
    requires i + 1 < |r|
  {
    StOk(r[i]) && exists c :: Can(r[i], t, c) && r[i + 1] == Do(r[i], t, c)
  }

  /** The step it is. */
  lemma StepTaken(r: seq<St>, i: nat, t: nat) returns (c: Cmd)
    requires i + 1 < |r| && Moves(r, i, t)
    ensures StOk(r[i]) && Can(r[i], t, c) && r[i + 1] == Do(r[i], t, c)
  {
    c :| Can(r[i], t, c) && r[i + 1] == Do(r[i], t, c);
  }

  /** Every step keeps the guarantee of the thread that takes it. */
  lemma RunGuar(r: seq<St>, i: nat) returns (t: nat)
    requires Run(r) && i + 1 < |r|
    ensures Inv(r[i].sh) && Inv(r[i + 1].sh) && t < |r[i].sh.own|
    ensures Moves(r, i, t) && Guar(r[i].sh, r[i + 1].sh, t)
  {
    RunSound(r, i);
    RunSound(r, i + 1);
    ChainAt(r, Next, i);
    var c: Cmd;
    t, c :| Can(r[i], t, c) && r[i + 1] == Do(r[i], t, c);
    StepSound(r[i], t, c);
  }

  lemma NextLater(r: seq<St>, i: nat, v: nat)
    requires Run(r) && i + 1 < |r| && v < |r[i].sh.alias|
    ensures Later(r[i].sh, r[i + 1].sh, v)
  {
    var t := RunGuar(r, i);
    assert Onward(r[i].sh, r[i + 1].sh, v);
  }

  lemma {:induction false} RunLater(r: seq<St>, i: nat, j: nat, v: nat)
    requires Run(r) && i <= j < |r| && v < |r[i].sh.alias|
    ensures Later(r[i].sh, r[j].sh, v)
  {
    if i < j {
      RunLater(r, i, j - 1, v);
      NextLater(r, j - 1, v);
    }
  }

  /** A live alias stays live until it is doomed. */
  lemma LiveUntilDoomed(s: Sh, s': Sh, v: nat)
    requires Inv(s) && Inv(s') && Later(s, s', v) && Live(s, v) && !s'.alias[v].doomed
    ensures Live(s', v)
  {
    assert AliasInv(s, v) && AliasInv(s', v);
  }

  ghost predicate Gone(s: Sh, v: nat) {
    Wf(s) && v < |s.alias| && s.alias[v].doomed && !Hashed(s, v)
  }

  lemma NextGone(r: seq<St>, i: nat, v: nat)
    requires Run(r) && i + 1 < |r| && Gone(r[i].sh, v)
    ensures Gone(r[i + 1].sh, v)
  {
    var t := RunGuar(r, i);
    assert Onward(r[i].sh, r[i + 1].sh, v);
  }

  /** A doomed alias that is off the hash stays off it. */
  lemma {:induction false} GoneForGood(r: seq<St>, i: nat, j: nat, v: nat)
    requires Run(r) && i <= j < |r| && Gone(r[i].sh, v)
    ensures Gone(r[j].sh, v)
  {
    if i < j {
      GoneForGood(r, i, j - 1, v);
      NextGone(r, j - 1, v);
    }
  }

  /** Every node is unhashed at most once and freed at most once: a node that was on the hash and
      is no longer never comes back, and one that was freed stays so. That nothing is freed or
      taken off a list twice is part of RunSound. */
  lemma NodeEndsOnce(r: seq<St>, i: nat, j: nat, m: nat, v: nat)
    requires Run(r) && i <= j <= m < |r| && v < |r[i].sh.alias| && Wf(r[i].sh)
    ensures v < |r[j].sh.alias| && v < |r[m].sh.alias| && Wf(r[j].sh) && Wf(r[m].sh)
    ensures Hashed(r[i].sh, v) && !Hashed(r[j].sh, v) ==> !Hashed(r[m].sh, v)
    ensures r[j].sh.alias[v].freed ==> r[m].sh.alias[v].freed
  {
    RunSound(r, i);
    RunSound(r, j);
    RunSound(r, m);
    RunLater(r, i, j, v);
    RunLater(r, j, m, v);
    if Hashed(r[i].sh, v) && !Hashed(r[j].sh, v) {
      assert AliasInv(r[i].sh, v) && AliasInv(r[j].sh, v);
      GoneForGood(r, j, m, v);
    }
  }

  /** There is one live alias per pair. */
  lemma OneLive(s: Sh, v: nat, w: nat)
    requires Inv(s) && v < |s.alias| && w < |s.alias| && Hashed(s, v) && Hashed(s, w)
    requires s.alias[v].lower == s.alias[w].lower && s.alias[v].mount == s.alias[w].mount
    ensures v == w
  {
    var b := s.hash[s.hidx[s.alias[v].lower]];
    var m, n :| 0 <= m < |b| && b[m] == v && 0 <= n < |b| && b[n] == w;
    assert m == n;
  }

  /** What a successful tpt_nodeget or tpt_lookup returns: the mount, the lower vnode it was about
      and the alias. */
  function ResultOf(p: Pc): Option<(nat, nat, nat)> {
    match p
    case AtNodeget(c, ng) => if ng.NgDone? && ng.err == 0 then Some((c.mp, c.l, ng.v)) else None
    case AtLookup(c, lu) =>
      if lu.LuDone? && lu.e.vp.Some? && lu.e.found.Some? then Some((c.mp, lu.e.found.value, lu.e.vp.value)) else None
    case _ => None
  }

  lemma ResultLive(st: St, t: nat, mp: nat, l: nat, v: nat)
    requires Sound(st) && t < |st.pcs| && ResultOf(st.pcs[t]) == Some((mp, l, v))
    ensures v < |st.sh.alias| && Live(st.sh, v) && Match(st.sh.alias[v], mp, l)
  {
    assert PcInv(st.sh, t, st.pcs[t]);
  }

  /** Two calls of tpt_nodeget or tpt_lookup that succeed for one pair, with no reclaim of the
      first result in between, return the same alias. */
  lemma SameAlias(r: seq<St>, i: nat, j: nat, t: nat, u: nat, mp: nat, l: nat, v: nat, w: nat)
    requires Run(r) && i <= j < |r| && t < |r[i].pcs| && u < |r[j].pcs|
    requires ResultOf(r[i].pcs[t]) == Some((mp, l, v)) && ResultOf(r[j].pcs[u]) == Some((mp, l, w))
    requires v < |r[j].sh.alias| && !r[j].sh.alias[v].doomed
    ensures w == v
  {
    RunSound(r, i);
    RunSound(r, j);
    ResultLive(r[i], t, mp, l, v);
    ResultLive(r[j], u, mp, l, w);
    RunLater(r, i, j, v);
    LiveUntilDoomed(r[i].sh, r[j].sh, v);
    OneLive(r[j].sh, v, w);
  }

  // ----- Counts -----

  /** The use count of a lower vnode is what threads have plus one per node that owns its
      reference, its hold count is what threads have, and its write count is its direct
      writers plus the write counts of the aliases that have their data. */
  lemma LowerCountsExact(r: seq<St>, i: nat, l: nat)
    requires Run(r) && i < |r| && l < |r[i].sh.lower|
    ensures var s := r[i].sh;
            && s.lower[l].use == Total(s.own, LRef(l)) + CountRef(s.alias, l)
            && s.lower[l].hold == Total(s.own, Hold(l))
            && (s.lower[l].wc >= 0 ==> s.lower[l].wc == s.lower[l].direct + SumWc(s.alias, l))
            && (s.lower[l].wc < 0 ==> s.lower[l].direct == 0 && SumWc(s.alias, l) == 0)
  {
    RunSound(r, i);
    assert LowerInv(r[i].sh, l);
  }

  /** A node owns its reference from its insertion into the hash to the point of its reclaim
      that drops it, and the use count of an alias is the references threads have to it. */
  lemma AliasCountsExact(r: seq<St>, i: nat, v: nat)
    requires Run(r) && i < |r| && v < |r[i].sh.alias|
    ensures var s := r[i].sh;
            && Wf(s) && s.alias[v].use == Total(s.own, URef(v))
            && (Hashed(s, v) ==> s.alias[v].lref)
            && (s.alias[v].lref ==> Hashed(s, v) || s.alias[v].doomed)
  {
    RunSound(r, i);
    assert AliasInv(r[i].sh, v) && AliasCount(r[i].sh, v);
  }

  // ----- tpt_nodeget -----

  /** On every exit of tpt_nodeget the spare reference is consumed. Success leaves the thread
      with one reference to a live alias of the pair and the lock the alias names, exclusively
      if it came with it exclusively; an error leaves it with neither lock nor reference, and is ENOENT
      only for a caller that came with a shared lock, of a lower vnode that is doomed. */
  lemma NodegetOutcome(r: seq<St>, i: nat, t: nat, c: Call, err: int, v: nat)
    requires Run(r) && i < |r| && t < |r[i].pcs| && r[i].pcs[t] == AtNodeget(c, NgDone(err, v))
    ensures Wf(r[i].sh) && t < |r[i].sh.own| && c.l < |r[i].sh.lower|
    ensures err == 0 ==>
              var s := r[i].sh;
              && v < |s.alias| && s.own[t] == c.own + multiset{URef(v)}
              && Live(s, v) && Match(s.alias[v], c.mp, c.l) && s.alias[v].use >= 1
              && ModeOf(Named(s, v), t) != Unheld && (c.excl ==> ModeOf(Named(s, v), t) == Exclusive)
    ensures err != 0 ==>
              var s := r[i].sh;
              && s.own[t] == c.own && LMode(s, t, c.l) == Unheld
              && (err == ENFILE || err == EBUSY || (err == ENOENT && !c.excl && s.lower[c.l].doomed))
  {
    RunSound(r, i);
    var s := r[i].sh;
    assert PcInv(s, t, r[i].pcs[t]);
    if err == 0 {
      assert AliasInv(s, v);
      OwnedAlias(s, t, v);
    }
  }

  /** A caller that came with the lower vnode exclusively locked never finds a duplicate when
      it inserts. */
  lemma ExclusiveNeverBeaten(r: seq<St>, i: nat, t: nat, c: Call)
    requires Run(r) && i < |r| && t < |r[i].pcs| && r[i].pcs[t].AtNodeget? && r[i].pcs[t].nc == c && c.excl
    ensures !r[i].pcs[t].ng.NgLost? && !(r[i].pcs[t].ng.NgDestroy? && r[i].pcs[t].ng.d.Lost?)
    ensures r[i].pcs[t].ng.NgHashins? ==> Wf(r[i].sh) && c.l < |r[i].sh.lower| && FindIn(r[i].sh, c.mp, c.l) == None
  {
    RunSound(r, i);
    assert PcInv(r[i].sh, t, r[i].pcs[t]);
    if r[i].pcs[t].ng.NgHashins? && FindIn(r[i].sh, c.mp, c.l).Some? {
      assert Hashed(r[i].sh, FindIn(r[i].sh, c.mp, c.l).value);
    }
  }

  /** A caller that came with a shared lock never inserts an alias of a doomed lower vnode, although
      the upgrade may have given the lock up. */
  lemma NeverOnDoomed(r: seq<St>, i: nat, t: nat, c: Call)
    requires Run(r) && i < |r| && t < |r[i].pcs| && r[i].pcs[t].AtNodeget? && r[i].pcs[t].nc == c && !c.excl
    requires r[i].pcs[t].ng.NgAlloc? || r[i].pcs[t].ng.NgInsmntque? || r[i].pcs[t].ng.NgHashins?
    ensures c.l < |r[i].sh.lower| && !r[i].sh.lower[c.l].doomed && LMode(r[i].sh, t, c.l) == Exclusive
  {
    RunSound(r, i);
    assert PcInv(r[i].sh, t, r[i].pcs[t]);
  }

  /** The prototype a thread is about to insert or to destroy. */
  function PrototypeOf(p: Pc): Option<nat> {
    match p
    case AtNodeget(_, ng) => Building(ng)
    case AtLookup(_, lu) => LuBuilding(lu)
    case _ => None
  }

  lemma BuildingNow(s: Sh, t: nat, c: Call, ng: NgPc)
    requires Inv(s) && t < |s.own| && NgOk(s, c, ng) && NgInv(s, t, c, ng) && Building(ng).Some?
    ensures var v := Building(ng).value; v < |s.alias| && !Hashed(s, v) && !s.alias[v].lref
  {
    assert AliasInv(s, Building(ng).value);
  }

  lemma PrototypeNow(st: St, t: nat, v: nat)
    requires Sound(st) && t < |st.pcs| && PrototypeOf(st.pcs[t]) == Some(v)
    ensures v < |st.sh.alias| && !Hashed(st.sh, v) && !st.sh.alias[v].lref
  {
    match st.pcs[t]
    case AtNodeget(c, ng) => BuildingNow(st.sh, t, c, ng);
    case AtLookup(c, lu) => BuildingNow(st.sh, t, LuNodeCall(c, lu.l, lu.excl), lu.ng);
  }

  /** A prototype is one the thread had before, or brand-new. */
  lemma PrototypeStep(st: St, t: nat, c: Cmd, v: nat)
    requires Sound(st) && Can(st, t, c) && Effect(st, t, c).Ok? && PrototypeOf(Effect(st, t, c).pc) == Some(v)
    ensures PrototypeOf(st.pcs[t]) == Some(v) || v == |st.sh.alias|
  {
    match c
    case Step(fails, mv) => PcPrototypeStep(st.sh, t, st.pcs[t], fails, mv, v);
    case Return =>
    case Perform(_) =>
    case _ => StartNoPrototype(st.sh, t, c);
  }

  lemma PcPrototypeStep(s: Sh, t: nat, p: Pc, fails: bool, mv: LowerMove, v: nat)
    requires Wf(s) && t < |s.own| && PcOk(s, p) && PcCan(s, t, p, fails, mv)
    requires PcStep(s, t, p, fails, mv).Ok? && PrototypeOf(PcStep(s, t, p, fails, mv).pc) == Some(v)
    ensures PrototypeOf(p) == Some(v) || v == |s.alias|
  {
    match p
    case AtNodeget(c, ng) => BuildingStep(s, t, c, ng, fails, v);
    case AtLookup(c, lu) => LuBuildingStep(s, t, c, lu, fails, mv, v);
    case _ =>
  }

  lemma StartNoPrototype(s: Sh, t: nat, c: Cmd)
    requires Wf(s) && t < |s.own| && CanStart(s, t, c)
    ensures Start(s, t, c).Ok? ==> PrototypeOf(Start(s, t, c).pc) == None
  {
  }

  /** A prototype that was there one state ago was the thread's then. */
  lemma PrototypeBefore(r: seq<St>, i: nat, t: nat, v: nat)
    requires Run(r) && 0 < i < |r| && t < |r[i].pcs| && PrototypeOf(r[i].pcs[t]) == Some(v)
    requires v < |r[i - 1].sh.alias|
    ensures t < |r[i - 1].pcs| && PrototypeOf(r[i - 1].pcs[t]) == Some(v)
  {
    RunSound(r, i - 1);
    ChainAt(r, Next, i - 1);
    var u, c :| Can(r[i - 1], u, c) && r[i] == Do(r[i - 1], u, c);
    if u == t && Effect(r[i - 1], u, c).Ok? { PrototypeStep(r[i - 1], t, c, v); }
  }

  /** A prototype that is not inserted yet, or is being destroyed, was not on the hash in any
      state of the run up to now, and owns no reference. */
  lemma {:induction false} PrototypeNeverHashed(r: seq<St>, k: nat, i: nat, t: nat, v: nat)
    requires Run(r) && k <= i < |r| && t < |r[i].pcs| && PrototypeOf(r[i].pcs[t]) == Some(v)
    requires v < |r[k].sh.alias|
    ensures Wf(r[k].sh) && !Hashed(r[k].sh, v) && !r[k].sh.alias[v].lref
  {
    RunSound(r, k);
    if k == i {
      PrototypeNow(r[i], t, v);
    } else {
      RunLater(r, k, i - 1, v);
      PrototypeBefore(r, i, t, v);
      PrototypeNeverHashed(r, k, i - 1, t, v);
    }
  }

  // ----- Notifications and reclaim -----

  /** A complete alias carries NULLV_NOUNLOCK only while a notification about its lower vnode
      is running in the thread that has the lower lock exclusively. */
  lemma NoUnlockOnlyInNotification(r: seq<St>, i: nat, v: nat)
    requires Run(r) && i < |r| && v < |r[i].sh.alias| && r[i].sh.alias[v].data && r[i].sh.alias[v].noUnlock
    ensures var s, a := r[i].sh, r[i].sh.alias[v];
            && a.agent < |r[i].pcs| && a.lower < |s.lower| && s.lower[a.lower].lk == ExclBy(a.agent)
            && var p := r[i].pcs[a.agent];
               (p.AtReclaimLower? && p.rn.l == a.lower) || (p.AtUnlinkLower? && p.un.l == a.lower)
  {
    RunSound(r, i);
    var s, a := r[i].sh, r[i].sh.alias[v];
    assert AliasInv(s, v);
    assert PcInv(s, a.agent, r[i].pcs[a.agent]);
  }

  /** Both notifications return with the lower lock still held and nothing gained or lost. That of a
      reclaim leaves no alias of its pair on the hash; that of an unlink leaves at most one that goes
      with its last reference. */
  lemma NotificationOutcome(r: seq<St>, i: nat, t: nat)
    requires Run(r) && i < |r| && t < |r[i].pcs| && Finished(r[i].pcs[t])
    requires r[i].pcs[t].AtReclaimLower? || r[i].pcs[t].AtUnlinkLower?
    ensures Wf(r[i].sh) && t < |r[i].sh.own|
    ensures var n := if r[i].pcs[t].AtReclaimLower? then r[i].pcs[t].rn else r[i].pcs[t].un;
            n.l < |r[i].sh.lower| && LMode(r[i].sh, t, n.l) == Exclusive && r[i].sh.own[t] == n.own
    ensures r[i].pcs[t].AtReclaimLower? ==> NoNode(r[i].sh, r[i].pcs[t].rn.mp, r[i].pcs[t].rn.l)
    ensures r[i].pcs[t].AtUnlinkLower? ==> AllDropped(r[i].sh, r[i].pcs[t].un)
  {
    RunSound(r, i);
    assert PcInv(r[i].sh, t, r[i].pcs[t]);
  }

  /** Whatever alias of the pair was live at any moment before a reclaim notification returns is doomed
      and off the hash when it does. */
  lemma ReclaimTakesDown(r: seq<St>, i: nat, j: nat, t: nat, n: Note, v: nat)
    requires Run(r) && i <= j < |r| && t < |r[j].pcs| && r[j].pcs[t] == AtReclaimLower(n, RlDone)
    requires Wf(r[i].sh) && v < |r[i].sh.alias| && Live(r[i].sh, v) && Match(r[i].sh.alias[v], n.mp, n.l)
    ensures Gone(r[j].sh, v)
  {
    NotificationOutcome(r, j, t);
    StaysOrGoes(r, i, j, v);
  }

  /** The same for an unlink notification, which leaves an alias that others use, marked with
      NULLV_DROP. */
  lemma UnlinkMarks(r: seq<St>, i: nat, j: nat, t: nat, n: Note, v: nat)
    requires Run(r) && i <= j < |r| && t < |r[j].pcs| && r[j].pcs[t] == AtUnlinkLower(n, UlDone)
    requires Wf(r[i].sh) && v < |r[i].sh.alias| && Live(r[i].sh, v) && Match(r[i].sh.alias[v], n.mp, n.l)
    ensures v < |r[j].sh.alias| && Wf(r[j].sh)
    ensures Gone(r[j].sh, v) || (Live(r[j].sh, v) && r[j].sh.alias[v].drop && !r[j].sh.alias[v].noUnlock)
  {
    NotificationOutcome(r, j, t);
    StaysOrGoes(r, i, j, v);
  }

  /** An alias that was live is still on the hash, or gone. */
  lemma StaysOrGoes(r: seq<St>, i: nat, j: nat, v: nat)
    requires Run(r) && i <= j < |r| && Wf(r[i].sh) && v < |r[i].sh.alias| && Live(r[i].sh, v)
    ensures Wf(r[j].sh) && v < |r[j].sh.alias| && (Hashed(r[j].sh, v) || Gone(r[j].sh, v))
    ensures Match(r[j].sh.alias[v], r[i].sh.alias[v].mount, r[i].sh.alias[v].lower)
  {
    RunSound(r, i);
    RunSound(r, j);
    RunLater(r, i, j, v);
    if !r[j].sh.alias[v].doomed { LiveUntilDoomed(r[i].sh, r[j].sh, v); }
  }

  /** vgone leaves the thread with exactly the private lock of the alias, which is gone from
      the hash, freed and without its reference. */
  lemma VgoneOutcome(r: seq<St>, i: nat, t: nat, g: Goner)
    requires Run(r) && i < |r| && t < |r[i].pcs| && r[i].pcs[t] == AtVgone(g, VgDone)
    ensures var s := r[i].sh;
            && Wf(s) && t < |s.own| && g.v < |s.alias| && s.own[t] == g.own
            && HasLock(s, t, g.v, Exclusive) && s.alias[g.v].vnlk == Own
            && s.alias[g.v].doomed && !s.alias[g.v].data && !Hashed(s, g.v) && s.alias[g.v].freed && !s.alias[g.v].lref
  {
    RunSound(r, i);
    assert PcInv(r[i].sh, t, r[i].pcs[t]);
    assert AliasInv(r[i].sh, g.v);
  }

  /** The thread is inside vgone or tpt_destroy_proto, whoever called it. */
  predicate TakesDown(p: Pc) {
    match p
    case AtNodeget(_, ng) => ng.NgDestroy?
    case AtVgone(_, vg) => vg != VgDone
    case AtReclaimLower(_, rl) => rl.RlVgone?
    case AtUnlinkLower(_, ul) => ul.UlVgone?
    case AtRelease(_, ia) => ia.InVgone?
    case AtLookup(_, lu) => lu.LuNode? && lu.ng.NgDestroy?
    case _ => false
  }

  lemma TakingDownMoves(st: St, t: nat)
    requires Sound(st) && t < |st.pcs| && TakesDown(st.pcs[t])
    ensures PcCan(st.sh, t, st.pcs[t], false, NoMove)
  {
    var s := st.sh;
    match st.pcs[t]
    case AtNodeget(c, ng) => DestroyNeverSleeps(s, t, c, ng.v, ng.d, ng.dp);
    case AtVgone(g, vg) => VgoneNeverSleeps(s, t, g, vg);
    case AtReclaimLower(n, rl) => VgoneNeverSleeps(s, t, RlGoner(n, rl.v), rl.vg);
    case AtUnlinkLower(n, ul) => VgoneNeverSleeps(s, t, UlGoner(n, ul.v), ul.vg);
    case AtRelease(c, ia) => VgoneNeverSleeps(s, t, InGoner(c), ia.vg);
    case AtLookup(c, lu) => DestroyNeverSleeps(s, t, LuNodeCall(c, lu.l, lu.excl), lu.ng.v, lu.ng.d, lu.ng.dp);
  }

  /** Taking down an alias or a prototype never sleeps, in any run: the private lock is always
      granted, so its result may be ignored. */
  lemma TakingDownNeverSleeps(r: seq<St>, i: nat, t: nat)
    requires Run(r) && i < |r| && t < |r[i].pcs| && TakesDown(r[i].pcs[t])
    ensures StOk(r[i]) && (r[i].panic == None ==> Can(r[i], t, Step(false, NoMove)))
  {
    RunSound(r, i);
    TakingDownMoves(r[i], t);
  }

  // ----- tpt_lock, tpt_unlock and tpt_lookup -----

  /** When tpt_lock returns 0 the thread holds exactly the lock v_vnlock names at that moment,
      in the mode asked, also when the alias was reclaimed while it slept. */
  lemma LockOutcome(r: seq<St>, i: nat, t: nat, c: LockCall, err: int)
    requires Run(r) && i < |r| && t < |r[i].pcs| && r[i].pcs[t] == AtLock(c, LkDone(err))
    ensures var s := r[i].sh;
            && Wf(s) && t < |s.own| && c.v < |s.alias| && s.own[t] == c.own
            && (if err == 0 then
                  HasLock(s, t, c.v, if c.req == ReqShared || c.req == ReqDowngrade then Shared else Exclusive)
                else if c.req == ReqTryUpgrade then HasLock(s, t, c.v, Shared)
                else BothFree(s, t, c.v) && c.nowait)
  {
    RunSound(r, i);
    assert PcInv(r[i].sh, t, r[i].pcs[t]);
  }

  /** A request that keeps the lock never finds the alias reclaimed, whatever others did meanwhile: the
      panic about requests tpt_lock cannot repeat is out of reach. */
  lemma KeptRequestFindsData(r: seq<St>, i: nat, t: nat, c: LockCall, l: nat)
    requires Run(r) && i < |r| && t < |r[i].pcs| && r[i].pcs[t] == AtLock(c, LkCheck(l)) && Keeps(c.req)
    ensures c.v < |r[i].sh.alias| && r[i].sh.alias[c.v].data && DoCheck(r[i].sh, c, l) == Ok(r[i].sh, LkDrop(l, 0))
  {
    RunSound(r, i);
    assert PcInv(r[i].sh, t, r[i].pcs[t]);
  }

  /** Thread `t` takes none of the steps from `i` to `j`. */
  ghost predicate Resting(r: seq<St>, i: nat, j: nat, t: nat)
    requires i <= j < |r|
  {
    forall k :: i <= k < j ==> !Moves(r, k, t)
  }

  lemma NamedLockKept(s: Sh, s': Sh, u: nat, t: nat, v: nat, m: Mode)
    requires Inv(s) && u < |s.own| && Guar(s, s', u) && t < |s.own| && t != u
    requires v < |s.alias| && s.alias[v].onMount && HasLock(s, t, v, m) && m != Unheld
    ensures s'.alias[v].onMount && HasLock(s', t, v, m) && s'.alias[v].vnlk == s.alias[v].vnlk
  {
    NamedKept(s, s', u, t, v);
    HasLockKept(s, s', u, t, v, m);
    assert Onward(s, s', v);
  }

  /** Thread `t` holds the lock v_vnlock of `v` names, and that is `k`. */
  ghost predicate Holds(s: Sh, t: nat, v: nat, m: Mode, k: VnLock) {
    Wf(s) && t < |s.own| && v < |s.alias| && s.alias[v].onMount && HasLock(s, t, v, m) && s.alias[v].vnlk == k
  }

  lemma NextHolds(r: seq<St>, i: nat, t: nat, v: nat, m: Mode, k: VnLock)
    requires Run(r) && i + 1 < |r| && !Moves(r, i, t) && m != Unheld && Holds(r[i].sh, t, v, m, k)
    ensures Holds(r[i + 1].sh, t, v, m, k)
  {
    var u := RunGuar(r, i);
    NamedLockKept(r[i].sh, r[i + 1].sh, u, t, v, m);
  }

  /** Until the holder itself moves, v_vnlock goes on naming the lock it holds. */
  lemma {:induction false} LockStaysNamed(r: seq<St>, i: nat, j: nat, t: nat, v: nat, m: Mode, k: VnLock)
    requires Run(r) && i <= j < |r| && Resting(r, i, j, t)
    requires m != Unheld && Holds(r[i].sh, t, v, m, k)
    ensures Holds(r[j].sh, t, v, m, k)
  {
    if i < j {
      LockStaysNamed(r, i, j - 1, t, v, m, k);
      NextHolds(r, j - 1, t, v, m, k);
    }
  }

  /** tpt_unlock releases the lock v_vnlock named at the call and ends with neither lock. */
  lemma UnlockOutcome(r: seq<St>, i: nat, t: nat, c: UnlockCall, up: UnPc)
    requires Run(r) && i < |r| && t < |r[i].pcs| && r[i].pcs[t] == AtUnlock(c, up)
    ensures var s := r[i].sh;
            && Wf(s) && t < |s.own| && c.v < |s.alias|
            && (up == UnEnter ==> s.alias[c.v].vnlk == c.named && ModeOf(Named(s, c.v), t) != Unheld)
            && (up.UnRelease? ==> c.named == Borrowed && up.l == s.alias[c.v].lower && LMode(s, t, up.l) != Unheld)
            && (up == UnDone ==> BothFree(s, t, c.v) && s.own[t] == c.own)
  {
    RunSound(r, i);
    assert PcInv(r[i].sh, t, r[i].pcs[t]);
  }

  /** What tpt_lookup leaves behind. After a failed lower lookup the directory alias is not
      looked at again, so the thread has its lock exactly if it was not doomed meanwhile. */
  lemma LookupOutcome(r: seq<St>, i: nat, t: nat, c: LuCall, e: Ended)
    requires Run(r) && i < |r| && t < |r[i].pcs| && r[i].pcs[t] == AtLookup(c, LuDone(e))
    ensures var s := r[i].sh;
            && Wf(s) && t < |s.own| && c.dvp < |s.alias| && c.ldvp < |s.lower| && EndedOk(s, e)
            && LuOutcome(s, t, c, e)
            && (e.x != LowerFailed ==> HasLock(s, t, c.dvp, if e.x == Plain then c.m else Exclusive))
            && (e.x == LowerFailed ==> (HasLock(s, t, c.dvp, c.m) <==> !s.alias[c.dvp].doomed))
            && (e.x != LowerFailed ==> (e.x == Moved <==> s.alias[c.dvp].doomed))
  {
    RunSound(r, i);
    var s := r[i].sh;
    assert PcInv(s, t, r[i].pcs[t]);
    SoundDir(s, c);
    assert AliasInv(s, c.dvp);
  }
}
