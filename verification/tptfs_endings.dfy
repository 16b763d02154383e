/** How lookups, last releases and upgrades end in a run, told by the step that decided it. */
module Endings {
  import opened Options
  import opened Kernel
  import opened Invariant
  import opened Guarantee
  import opened Destroy
  import opened Nodeget
  import opened Reclaim
  import opened Locking
  import opened Inactive
  import opened Lookup
  import opened System
  import opened Runs
  import opened Panics

  // ----- tpt_lookup, tptfs/tpt_vnops.c:372-448 -----

  /** What the lower lookup returned `err` and `res` comes to, `c` being the call. */
  ghost predicate AnswerOf(c: LuCall, err: int, res: Option<nat>, e: Ended) {
    var found := err == 0 || err == EJUSTRETURN;
    var refused := err == EJUSTRETURN && c.cn.last && c.ro && (c.cn.op == OpCreate || c.cn.op == OpRename);
    match e.x
    // an error of the lower layer is passed on;
    case LowerFailed => !found && e.err == err && e.vp == None && e.leak == None
    // after the directory was reclaimed there is nothing to be found;
    case Moved => found && e.err == ENOENT && e.vp == None && e.leak == None
    case Plain =>
      && found && e.low == err && e.found == res
      && e.leak == (if refused then res else None)
      && (// a create or rename on a read-only mount,
          if refused then e.err == EROFS && e.vp == None
          // a name that is free, for a create, or not there,
          else if res == None then e.err == err && e.vp == None
          // the directory itself,
          else if res == Some(c.ldvp) then e.err == err && e.vp == Some(c.dvp)
          // or what tpt_nodeget says.
          else e.err == 0 <==> e.vp.Some?)
  }

  /** The call was refused before the lower layer was asked. */
  predicate RefusedEarly(c: LuCall, ro: bool, e: Ended) {
    && c.cn.last && ro && (c.cn.op == OpDelete || c.cn.op == OpRename)
    && e.err == EROFS && e.vp == None && e.leak == None && e.x == Plain
  }

  /** The same at the sections on the way. */
  ghost predicate Carries(c: LuCall, p: LuPc, err: int, res: Option<nat>) {
    match p
    case LuCheck(e, x) => e == err && x == res
    case LuPut(l) => Found(err) && res == Some(l)
    case LuSwap => Found(err)
    case LuLock(_) => Found(err)
    case LuVdrop(e, x, how) => CarriesExit(e, x, how, err, res)
    case LuResult(e, x, how) => CarriesExit(e, x, how, err, res)
    case LuSelf(e) => e == err && Found(err) && res == Some(c.ldvp) && !Refused(c, err)
    case LuSelfRele(e) => e == err && Found(err) && res == Some(c.ldvp) && !Refused(c, err)
    case LuNode(l, _, low, _) => low == err && Found(err) && res == Some(l) && l != c.ldvp && !Refused(c, err)
    case LuDone(e) => AnswerOf(c, err, res, e)
    case _ => false
  }

  ghost predicate CarriesExit(e: int, x: Option<nat>, how: Exit, err: int, res: Option<nat>) {
    match how
    case Plain => Found(err) && e == err && x == res
    case Moved => Found(err) && e == ENOENT && x == None
    case LowerFailed => !Found(err) && e == err && x == None
  }

  lemma LuCarries(s: Sh, t: nat, c: LuCall, p: LuPc, fails: bool, mv: LowerMove, err: int, res: Option<nat>)
    requires LuBefore(s, t, c, p, fails, mv) && LuStep(s, t, c, p, fails, mv).Ok? && Carries(c, p, err, res)
    ensures Carries(c, LuStep(s, t, c, p, fails, mv).pc, err, res)
  {
    match p
    case LuCheck(e, x) => CheckCarries(s, c, err, res);
    case LuResult(e, x, how) => ResultCarries(s, t, c, e, x, how, err, res);
    case _ => RestCarries(s, t, c, p, fails, mv, err, res);
  }

  lemma CheckCarries(s: Sh, c: LuCall, err: int, res: Option<nat>)
    requires c.dvp < |s.alias|
    ensures DoLuCheck(s, c, err, res).Ok?
    ensures (!Found(err) ==> res == None) ==> Carries(c, DoLuCheck(s, c, err, res).pc, err, res)
  {
  }

  /** The decision itself. */
  lemma ResultCarries(s: Sh, t: nat, c: LuCall, e: int, x: Option<nat>, how: Exit, err: int, res: Option<nat>)
    requires (x.Some? ==> x.value < |s.lower|) && CarriesExit(e, x, how, err, res)
    ensures DoLuResult(s, t, c, e, x, how).Ok? && Carries(c, DoLuResult(s, t, c, e, x, how).pc, err, res)
  {
  }

  lemma RestCarries(
    s: Sh, t: nat, c: LuCall, p: LuPc, fails: bool, mv: LowerMove, err: int, res: Option<nat>)
    requires Wf(s) && t < |s.own| && LuOk(s, c, p) && LuCan(s, t, c, p, fails, mv) && !p.LuCheck? && !p.LuResult?
    requires LuStep(s, t, c, p, fails, mv).Ok? && Carries(c, p, err, res)
    ensures Carries(c, LuStep(s, t, c, p, fails, mv).pc, err, res)
  {
  }

  /** Thread `t` is in lookup `c`, behind the lower lookup. */
  predicate Behind(p: Pc, c: LuCall) {
    p.AtLookup? && p.cc == c && !p.lu.LuLower? && !p.lu.LuOut?
  }

  ghost predicate AllBehind(r: seq<St>, i: nat, j: nat, t: nat, c: LuCall)
    requires j < |r|
  {
    forall k :: i <= k <= j ==> t < |r[k].pcs| && Behind(r[k].pcs[t], c)
  }

  /** Step `d` of thread `t` brings it there. */
  ghost predicate Decides(st: St, t: nat, c: LuCall, d: Cmd, p: LuPc) {
    if d.CallLookup? then d.dvp == c.dvp && d.cn == c.cn && p.LuDone? && RefusedEarly(c, d.ro, p.e)
    else
      && d.Step? && d.mv.LowerReturns? && t < |st.pcs| && st.pcs[t].AtLookup? && st.pcs[t].cc == c
      && st.pcs[t].lu.LuLower? && Carries(c, p, d.mv.err, d.mv.res)
  }

  lemma PcEnters(s: Sh, t: nat, p: Pc, fails: bool, mv: LowerMove, c: LuCall)
    requires Wf(s) && t < |s.own| && PcOk(s, p) && PcCan(s, t, p, fails, mv) && !Behind(p, c)
    requires PcStep(s, t, p, fails, mv).Ok? && Behind(PcStep(s, t, p, fails, mv).pc, c)
    ensures p.AtLookup? && p.cc == c && p.lu.LuLower? && mv.LowerReturns?
    ensures PcStep(s, t, p, fails, mv).pc.lu == LuCheck(mv.err, mv.res)
  {
  }

  lemma StartEnters(s: Sh, t: nat, d: Cmd, c: LuCall)
    requires Wf(s) && t < |s.own| && CanStart(s, t, d)
    requires Start(s, t, d).Ok? && Behind(Start(s, t, d).pc, c)
    ensures d.CallLookup? && d.dvp == c.dvp && d.cn == c.cn
    ensures Start(s, t, d).pc.lu.LuDone? && RefusedEarly(c, d.ro, Start(s, t, d).pc.lu.e)
  {
  }

  lemma StepEnters(st: St, t: nat, d: Cmd, c: LuCall)
    requires Sound(st) && Can(st, t, d) && !Behind(st.pcs[t], c) && Behind(Do(st, t, d).pcs[t], c)
    ensures Decides(st, t, c, d, Do(st, t, d).pcs[t].lu)
  {
    match d
    case Step(fails, mv) => PcEnters(st.sh, t, st.pcs[t], fails, mv, c);
    case Return =>
    case Perform(_) =>
    case _ => StartEnters(st.sh, t, d, c);
  }

  /** A step on the way hands the answer on. */
  lemma StepCarries(st: St, t: nat, d: Cmd, c: LuCall, err: int, res: Option<nat>)
    requires Sound(st) && Can(st, t, d) && Behind(st.pcs[t], c) && Behind(Do(st, t, d).pcs[t], c)
    requires Carries(c, st.pcs[t].lu, err, res)
    ensures Carries(c, Do(st, t, d).pcs[t].lu, err, res)
  {
    assert PcInv(st.sh, t, st.pcs[t]);
    if d.Step? && Effect(st, t, d).Ok? { LuCarries(st.sh, t, c, st.pcs[t].lu, d.fails, d.mv, err, res); }
  }

  lemma DoneStays(st: St, t: nat, d: Cmd, c: LuCall)
    requires Sound(st) && Can(st, t, d) && Behind(st.pcs[t], c) && Behind(Do(st, t, d).pcs[t], c)
    ensures !st.pcs[t].lu.LuDone?
  {
  }

  lemma StepDecides(st: St, t: nat, e: Cmd, from: St, d: Cmd, c: LuCall)
    requires Sound(st) && Can(st, t, e) && Behind(st.pcs[t], c) && Behind(Do(st, t, e).pcs[t], c)
    requires Decides(from, t, c, d, st.pcs[t].lu)
    ensures Decides(from, t, c, d, Do(st, t, e).pcs[t].lu)
  {
    DoneStays(st, t, e, c);
    StepCarries(st, t, e, c, d.mv.err, d.mv.res);
  }

  lemma BehindNext(r: seq<St>, i: nat, j: nat, t: nat, c: LuCall)
    requires 0 < j < |r| && i < j && AllBehind(r, i, j - 1, t, c) && t < |r[j].pcs| && Behind(r[j].pcs[t], c)
    ensures AllBehind(r, i, j, t, c)
  {
  }

  /** A thread behind the lower lookup came there by a step that decides how the lookup ends. */
  lemma {:induction false} Decided(r: seq<St>, j: nat, t: nat, c: LuCall) returns (i: nat, d: Cmd)
    requires Run(r) && j < |r| && t < |r[j].pcs| && Behind(r[j].pcs[t], c)
    ensures DecidedBy(r, j, t, c, i, d)
  {
    assert j > 0;
    if t < |r[j - 1].pcs| && Behind(r[j - 1].pcs[t], c) {
      i, d := Decided(r, j - 1, t, c);
      DecidedNext(r, j, t, c, i, d);
    } else {
      i := j - 1;
      d := DecidedNow(r, j, t, c);
    }
  }

  /** Step `i` of the run is `d` of thread `t` and decides the lookup that is under way in state `j`. */
  ghost predicate DecidedBy(r: seq<St>, j: nat, t: nat, c: LuCall, i: nat, d: Cmd) {
    && i < j < |r| && AllBehind(r, i + 1, j, t, c)
    && StOk(r[i]) && Can(r[i], t, d) && r[i + 1] == Do(r[i], t, d) && Decides(r[i], t, c, d, r[j].pcs[t].lu)
  }

  lemma DecidedNow(r: seq<St>, j: nat, t: nat, c: LuCall) returns (d: Cmd)
    requires Run(r) && 0 < j < |r| && t < |r[j].pcs| && Behind(r[j].pcs[t], c)
    requires !(t < |r[j - 1].pcs| && Behind(r[j - 1].pcs[t], c))
    ensures DecidedBy(r, j, t, c, j - 1, d)
  {
    RunSound(r, j - 1);
    if !Moves(r, j - 1, t) { StaysThere(r, j - 1, t); }
    d := StepTaken(r, j - 1, t);
    StepEnters(r[j - 1], t, d, c);
  }

  lemma DecidedNext(r: seq<St>, j: nat, t: nat, c: LuCall, i: nat, d: Cmd)
    requires Run(r) && 0 < j < |r| && t < |r[j].pcs| && Behind(r[j].pcs[t], c)
    requires DecidedBy(r, j - 1, t, c, i, d)
    ensures DecidedBy(r, j, t, c, i, d)
  {
    BehindNext(r, i + 1, j, t, c);
    NextDecides(r, j, t, c, r[i], d);
  }

  lemma NextDecides(r: seq<St>, j: nat, t: nat, c: LuCall, from: St, d: Cmd)
    requires Run(r) && 0 < j < |r| && t < |r[j].pcs| && Behind(r[j].pcs[t], c)
    requires t < |r[j - 1].pcs| && Behind(r[j - 1].pcs[t], c) && Decides(from, t, c, d, r[j - 1].pcs[t].lu)
    ensures Decides(from, t, c, d, r[j].pcs[t].lu)
  {
    if Moves(r, j - 1, t) { MoveDecides(r, j - 1, t, c, from, d); } else { StaysThere(r, j - 1, t); }
  }

  lemma MoveDecides(r: seq<St>, i: nat, t: nat, c: LuCall, from: St, d: Cmd)
    requires Run(r) && i + 1 < |r| && Moves(r, i, t) && t < |r[i + 1].pcs| && Behind(r[i + 1].pcs[t], c)
    requires t < |r[i].pcs| && Behind(r[i].pcs[t], c) && Decides(from, t, c, d, r[i].pcs[t].lu)
    ensures Decides(from, t, c, d, r[i + 1].pcs[t].lu)
  {
    RunSound(r, i);
    var e := StepTaken(r, i, t);
    DoDecides(r[i], r[i + 1], t, e, c, from, d);
  }

  lemma DoDecides(st: St, st': St, t: nat, e: Cmd, c: LuCall, from: St, d: Cmd)
    requires Sound(st) && Can(st, t, e) && st' == Do(st, t, e) && t < |st'.pcs|
    requires Behind(st.pcs[t], c) && Behind(st'.pcs[t], c) && Decides(from, t, c, d, st.pcs[t].lu)
    ensures Decides(from, t, c, d, st'.pcs[t].lu)
  {
    StepDecides(st, t, e, from, d, c);
  }

  /** Every finished tpt_lookup of every run: either the call was refused at once, or there is the step
      in which the lower lookup returned, and what it returned decides the error and the vnode. */
  lemma LookupAnswer(r: seq<St>, j: nat, t: nat, c: LuCall, e: Ended) returns (i: nat, d: Cmd)
    requires Run(r) && j < |r| && t < |r[j].pcs| && r[j].pcs[t] == AtLookup(c, LuDone(e))
    ensures i < j && AllBehind(r, i + 1, j, t, c) && StOk(r[i]) && Can(r[i], t, d) && r[i + 1] == Do(r[i], t, d)
    ensures if d.CallLookup? then d.dvp == c.dvp && d.cn == c.cn && RefusedEarly(c, d.ro, e)
            else d.Step? && d.mv.LowerReturns? && AnswerOf(c, d.mv.err, d.mv.res, e)
  {
    i, d := Decided(r, j, t, c);
  }

  /** A finished tpt_lookup has left a lower vnode behind, locked and referenced, exactly when the lower
      lookup of a create or rename returned EJUSTRETURN with a vnode, the directory is alive and the
      mount read-only; a failing tpt_nodeget leaves none. */
  lemma LeakExactly(r: seq<St>, j: nat, t: nat, c: LuCall, e: Ended) returns (i: nat, d: Cmd)
    requires Run(r) && j < |r| && t < |r[j].pcs| && r[j].pcs[t] == AtLookup(c, LuDone(e))
    ensures i < j && AllBehind(r, i + 1, j, t, c) && StOk(r[i]) && Can(r[i], t, d) && r[i + 1] == Do(r[i], t, d)
    ensures d.CallLookup? || (d.Step? && d.mv.LowerReturns?)
    ensures t < |r[j].sh.own| && c.dvp < |r[j].sh.alias|
    ensures (exists l: nat {:trigger LRef(l)} :: r[j].sh.own[t][LRef(l)] > c.own[LRef(l)]) <==>
            && d.Step? && d.mv.err == EJUSTRETURN && d.mv.res.Some? && !r[j].sh.alias[c.dvp].doomed
            && c.cn.last && c.ro && (c.cn.op == OpCreate || c.cn.op == OpRename)
    ensures e.leak.Some? ==>
              var s, l := r[j].sh, e.leak.value;
              l < |s.lower| && s.own[t] == c.own + multiset{LRef(l)} && LMode(s, t, l) != Unheld && e.vp == None
  {
    i, d := LookupAnswer(r, j, t, c, e);
    LookupOutcome(r, j, t, c, e);
    if e.leak.Some? { assert r[j].sh.own[t][LRef(e.leak.value)] == c.own[LRef(e.leak.value)] + 1; }
  }

  // ----- The last release of an alias, tptfs/tpt_vnops.c:767-811 -----

  /** The check of tpt_inactive, with the lock held, in every run: an alias that still is unreferenced
      and live is doomed if and only if its mount does not cache, it was marked by an unlink, or its
      lower vnode is not to be synced. Any other alias is left alone. */
  lemma RecycleExactly(r: seq<St>, i: nat, t: nat, c: InCall)
    requires Run(r) && i + 1 < |r| && t < |r[i].pcs| && r[i].pcs[t] == AtRelease(c, InCheck) && Moves(r, i, t)
    ensures Wf(r[i].sh) && c.v < |r[i].sh.alias| && Wf(r[i + 1].sh) && c.v < |r[i + 1].sh.alias|
    ensures t < |r[i + 1].pcs|
    ensures var s, s', a := r[i].sh, r[i + 1].sh, r[i].sh.alias[c.v];
            if Live(s, c.v) && a.use == 0 then
              (if a.mount !in s.cached || a.drop || s.lower[a.lower].nosync then
                s'.alias[c.v].doomed && r[i + 1].pcs[t] == AtRelease(c, InVgone(RcHashrem))
              else Live(s', c.v) && r[i + 1].pcs[t] == AtRelease(c, if c.keep then InDone else InUnlock))
            else s' == s && r[i + 1].pcs[t] == AtRelease(c, if c.keep then InDone else InUnlock)
  {
    RunSound(r, i);
    RunSound(r, i + 1);
    var d := StepTaken(r, i, t);
    assert PcInv(r[i].sh, t, r[i].pcs[t]);
    CheckDooms(r[i].sh, t, c);
    StepSound(r[i], t, d);
  }

  lemma CheckDooms(s: Sh, t: nat, c: InCall)
    requires InBefore(s, t, c, InCheck, false)
    ensures var o, a := InStep(s, t, c, InCheck, false), s.alias[c.v];
            && o.Ok? && Wf(o.sh) && c.v < |o.sh.alias|
            && if Live(s, c.v) && a.use == 0 then
              (if a.mount !in s.cached || a.drop || s.lower[a.lower].nosync then
                o.sh.alias[c.v].doomed && o.pc == InVgone(RcHashrem)
              else Live(o.sh, c.v) && o.pc == if c.keep then InDone else InUnlock)
            else o.sh == s && o.pc == if c.keep then InDone else InUnlock
  {
    InStepGood(s, t, c, InCheck, false);
    OwnedAlias(s, t, c.v);
    assert AliasInv(s, c.v);
  }

  /** The thread is in release `c` all the time. */
  ghost predicate AllReleasing(r: seq<St>, i: nat, j: nat, t: nat, c: InCall)
    requires j < |r|
  {
    forall k :: i <= k <= j ==> t < |r[k].pcs| && r[k].pcs[t].AtRelease? && r[k].pcs[t].ic == c
  }

  /** Under way to the end of a recycling. */
  ghost predicate Recycling(s: Sh, c: InCall, p: InPc) {
    p.InVgone? || ((p.InUnlock? || p.InDone?) && c.v < |s.alias| && s.alias[c.v].freed && s.alias[c.v].doomed)
  }

  lemma InRecycles(s: Sh, t: nat, c: InCall, p: InPc)
    requires InBefore(s, t, c, p, false) && Recycling(s, c, p)
    ensures InStep(s, t, c, p, false).Ok?
    ensures Recycling(InStep(s, t, c, p, false).sh, c, InStep(s, t, c, p, false).pc)
  {
    InStepGood(s, t, c, p, false);
    if p.InVgone? { VgStepGood(s, t, InGoner(c), p.vg); }
  }

  lemma NextRecycling(r: seq<St>, k: nat, t: nat, c: InCall)
    requires Run(r) && k + 1 < |r| && AllReleasing(r, k, k + 1, t, c) && Recycling(r[k].sh, c, r[k].pcs[t].ia)
    ensures Recycling(r[k + 1].sh, c, r[k + 1].pcs[t].ia)
  {
    RunSound(r, k);
    assert PcInv(r[k].sh, t, r[k].pcs[t]);
    if Moves(r, k, t) {
      var d := StepTaken(r, k, t);
      StepRecycling(r[k], t, d, c);
    } else {
      StaysThere(r, k, t);
      NextLater(r, k, c.v);
    }
  }

  lemma StepRecycling(st: St, t: nat, d: Cmd, c: InCall)
    requires Sound(st) && Can(st, t, d) && st.pcs[t].AtRelease? && st.pcs[t].ic == c
    requires Recycling(st.sh, c, st.pcs[t].ia)
    requires Do(st, t, d).pcs[t].AtRelease?
    ensures Recycling(Do(st, t, d).sh, c, Do(st, t, d).pcs[t].ia)
  {
    assert PcInv(st.sh, t, st.pcs[t]);
    InRecycles(st.sh, t, c, st.pcs[t].ia);
  }

  lemma {:induction false} StillRecycling(r: seq<St>, i: nat, j: nat, t: nat, c: InCall)
    requires Run(r) && i <= j < |r| && AllReleasing(r, i, j, t, c) && Recycling(r[i].sh, c, r[i].pcs[t].ia)
    ensures Recycling(r[j].sh, c, r[j].pcs[t].ia)
  {
    if i < j {
      StillRecycling(r, i, j - 1, t, c);
      NextRecycling(r, j - 1, t, c);
    }
  }

  /** A release that doomed the alias ends with it off the hash and freed, and its one reference on the
      lower vnode given back. */
  lemma RecycledIsGone(r: seq<St>, i: nat, j: nat, t: nat, c: InCall)
    requires Run(r) && i <= j < |r| && AllReleasing(r, i, j, t, c)
    requires r[i].pcs[t].ia.InVgone? && r[j].pcs[t].ia == InDone
    ensures Gone(r[j].sh, c.v) && r[j].sh.alias[c.v].freed && !r[j].sh.alias[c.v].lref && !r[j].sh.alias[c.v].data
  {
    StillRecycling(r, i, j, t, c);
    RunSound(r, j);
    assert AliasInv(r[j].sh, c.v);
  }

  /** One that did not leaves it live until the lock is given up, */
  lemma {:induction false} KeptAlive(r: seq<St>, i: nat, j: nat, t: nat, c: InCall)
    requires Run(r) && i <= j < |r| && Resting(r, i, j, t) && t < |r[i].pcs|
    requires r[i].pcs[t] == AtRelease(c, InUnlock) || (r[i].pcs[t] == AtRelease(c, InDone) && c.keep)
    requires Wf(r[i].sh) && c.v < |r[i].sh.alias| && Live(r[i].sh, c.v)
    ensures t < |r[j].pcs| && r[j].pcs[t] == r[i].pcs[t]
    ensures Wf(r[j].sh) && c.v < |r[j].sh.alias| && Live(r[j].sh, c.v)
  {
    if i < j {
      KeptAlive(r, i, j - 1, t, c);
      NextAlive(r, j - 1, t, c);
    }
  }

  lemma NextAlive(r: seq<St>, k: nat, t: nat, c: InCall)
    requires Run(r) && k + 1 < |r| && !Moves(r, k, t) && t < |r[k].pcs|
    requires r[k].pcs[t] == AtRelease(c, InUnlock) || (r[k].pcs[t] == AtRelease(c, InDone) && c.keep)
    requires Wf(r[k].sh) && c.v < |r[k].sh.alias| && Live(r[k].sh, c.v)
    ensures t < |r[k + 1].pcs| && r[k + 1].pcs[t] == r[k].pcs[t]
    ensures Wf(r[k + 1].sh) && c.v < |r[k + 1].sh.alias| && Live(r[k + 1].sh, c.v)
  {
    RunSound(r, k);
    StaysThere(r, k, t);
    var u := RunGuar(r, k);
    assert PcInv(r[k].sh, t, r[k].pcs[t]);
    assert AliasInv(r[k].sh, c.v);
    LiveKept(r[k].sh, r[k + 1].sh, u, t, c.v);
  }

  /** and giving it up changes nothing else. */
  lemma UnlockedAlive(r: seq<St>, k: nat, t: nat, c: InCall)
    requires Run(r) && k + 1 < |r| && t < |r[k].pcs| && r[k].pcs[t] == AtRelease(c, InUnlock) && Moves(r, k, t)
    requires Wf(r[k].sh) && c.v < |r[k].sh.alias| && Live(r[k].sh, c.v)
    ensures t < |r[k + 1].pcs| && r[k + 1].pcs[t] == AtRelease(c, InDone)
    ensures Wf(r[k + 1].sh) && c.v < |r[k + 1].sh.alias| && Live(r[k + 1].sh, c.v)
  {
    RunSound(r, k);
    RunSound(r, k + 1);
    var d := StepTaken(r, k, t);
    assert PcInv(r[k].sh, t, r[k].pcs[t]);
    UnlockKeeps(r[k].sh, t, c);
  }

  lemma UnlockKeeps(s: Sh, t: nat, c: InCall)
    requires InBefore(s, t, c, InUnlock, false) && Live(s, c.v)
    ensures var o := InStep(s, t, c, InUnlock, false);
            o.Ok? && Wf(o.sh) && c.v < |o.sh.alias| && Live(o.sh, c.v) && o.pc == InDone
  {
    assert AliasInv(s, c.v);
    InUnlockStep(s, t, c);
  }

  /** vrele of a live alias, in every run: one reference less, and it goes on to the check if and only if
      that was the last, one of the same three holds, and the thread has the lock exclusively or not
      at all. */
  lemma ReleaseStarts(r: seq<St>, i: nat, t: nat, v: nat)
    requires Run(r) && i + 1 < |r| && StOk(r[i]) && Can(r[i], t, ReleAlias(v)) && r[i + 1] == Do(r[i], t, ReleAlias(v))
    requires v < |r[i].sh.alias| && Live(r[i].sh, v)
    ensures Wf(r[i + 1].sh) && v < |r[i + 1].sh.alias| && Live(r[i + 1].sh, v)
    ensures r[i + 1].sh.alias[v].use == r[i].sh.alias[v].use - 1
    ensures t < |r[i + 1].pcs|
    ensures var s, a := r[i].sh, r[i].sh.alias[v];
            var keep := LMode(s, t, a.lower) == Exclusive;
            var c := InCall(v, a.lower, keep, s.own[t] - multiset{URef(v)});
            r[i + 1].pcs[t] ==
            if a.use == 1 && (a.mount !in s.cached || a.drop || s.lower[a.lower].nosync) &&
               (keep || LMode(s, t, a.lower) == Unheld)
            then AtRelease(c, if keep then InCheck else InLock(LkEnter))
            else Idle
  {
    RunSound(r, i);
    LastOrNot(r[i].sh, t, v);
  }

  lemma LastOrNot(s: Sh, t: nat, v: nat)
    requires Inv(s) && t < |s.own| && s.busy[t] == None && v < |s.alias| && URef(v) in s.own[t] && Live(s, v)
    ensures var o, a := StartRelease(s, t, v), s.alias[v];
            var keep := LMode(s, t, a.lower) == Exclusive;
            var c := InCall(v, a.lower, keep, s.own[t] - multiset{URef(v)});
            && o.Ok? && Wf(o.sh) && v < |o.sh.alias| && Live(o.sh, v) && o.sh.alias[v].use == a.use - 1
            && o.pc ==
               if a.use == 1 && (a.mount !in s.cached || a.drop || s.lower[a.lower].nosync) &&
                  (keep || LMode(s, t, a.lower) == Unheld)
               then AtRelease(c, if keep then InCheck else InLock(LkEnter))
               else Idle
  {
    OwnedAlias(s, t, v);
    assert AliasInv(s, v);
  }

  // ----- Upgrades -----

  /** Thread `t` is about to ask for the upgrade of a share of the lock v_vnlock names. */
  predicate Upgrades(c: LockCall, p: LkPc) {
    || (c.req == ReqUpgrade && (p.LkUpgrade? || p == LkStd))
    || (c.req == ReqTryUpgrade && (p.LkKeep? || p == LkStd))
  }

  /** In every run the only sharer of the lock v_vnlock names becomes its exclusive owner in one step,
      before and after a reclaim. With other sharers an upgrade gives the share up, and one that is only
      tried keeps it. */
  lemma UpgradeExactly(r: seq<St>, i: nat, t: nat, c: LockCall, p: LkPc)
    requires Run(r) && i + 1 < |r| && t < |r[i].pcs| && r[i].pcs[t] == AtLock(c, p) && Upgrades(c, p) && Moves(r, i, t)
    ensures Wf(r[i].sh) && c.v < |r[i].sh.alias| && Wf(r[i + 1].sh) && c.v < |r[i + 1].sh.alias|
    ensures ModeOf(Named(r[i + 1].sh, c.v), t) ==
            if Named(r[i].sh, c.v) == SharedBy({t}) then Exclusive else if c.req == ReqUpgrade then Unheld else Shared
  {
    RunSound(r, i);
    RunSound(r, i + 1);
    var d := StepTaken(r, i, t);
    assert PcInv(r[i].sh, t, r[i].pcs[t]);
    UpgradeNow(r[i].sh, t, c, p);
  }

  lemma UpgradeNow(s: Sh, t: nat, c: LockCall, p: LkPc)
    requires LkBefore(s, t, c, p, false) && Upgrades(c, p)
    ensures var o := LkStep(s, t, c, p, false);
            o.Ok? && Wf(o.sh) && c.v < |o.sh.alias| &&
            ModeOf(Named(o.sh, c.v), t) ==
            if Named(s, c.v) == SharedBy({t}) then Exclusive else if c.req == ReqUpgrade then Unheld else Shared
  {
    assert AliasInv(s, c.v);
    LkStepGood(s, t, c, p, false);
  }

  /** The same for the lower lock in tpt_nodeget. */
  lemma NodegetUpgrades(r: seq<St>, i: nat, t: nat, c: Call)
    requires Run(r) && i + 1 < |r| && t < |r[i].pcs| && r[i].pcs[t] == AtNodeget(c, NgMode) && Moves(r, i, t)
    ensures c.l < |r[i].sh.lower| && c.l < |r[i + 1].sh.lower|
    ensures LMode(r[i + 1].sh, t, c.l) ==
            if c.excl || r[i].sh.lower[c.l].lk == SharedBy({t}) then Exclusive else Unheld
  {
    RunSound(r, i);
    var d := StepTaken(r, i, t);
    assert PcInv(r[i].sh, t, r[i].pcs[t]);
    ModeNow(r[i].sh, t, c);
  }

  lemma ModeNow(s: Sh, t: nat, c: Call)
    requires Nodeget.Before(s, t, c, NgMode)
    ensures DoMode(s, t, c).Ok? && c.l < |DoMode(s, t, c).sh.lower|
    ensures LMode(DoMode(s, t, c).sh, t, c.l) ==
            if c.excl || s.lower[c.l].lk == SharedBy({t}) then Exclusive else Unheld
  {
    OwnedInUse(s, t, c.l);
  }
}
