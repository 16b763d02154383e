/** The kernel objects tptfs works on: sleepable vnode locks, vnodes of the lower
    filesystem, alias vnodes stacked on them, the hash of aliases, and the references each
    thread owns. Everything here is a value; the primitives are single atomic updates. */
module Kernel {
  import opened Options

  // ----- Error numbers -----

  const ENOENT: int := 2
  const EBUSY: int := 16
  const EINVAL: int := 22
  const ENFILE: int := 23
  const EROFS: int := 30
  const EJUSTRETURN: int := -2

  // ----- Locks -----

  datatype Mode = Unheld | Shared | Exclusive

  /** A vnode lock: any number of sharers or one exclusive owner. */
  datatype Lock = SharedBy(holders: set<nat>) | ExclBy(owner: nat)

  const FREE_LOCK: Lock := SharedBy({})

  function ModeOf(k: Lock, t: nat): Mode {
    match k
    case ExclBy(o) => if o == t then Exclusive else Unheld
    case SharedBy(hs) => if t in hs then Shared else Unheld
  }

  /** Whether a request of thread `t` is satisfied now instead of sleeping. */
  predicate Grantable(k: Lock, t: nat, m: Mode) {
    k.SharedBy? && t !in k.holders && m != Unheld && (m == Exclusive ==> k.holders == {})
  }

  function Grant(k: Lock, t: nat, m: Mode): (k': Lock)
    requires Grantable(k, t, m)
    ensures ModeOf(k', t) == m
    ensures forall u :: u != t ==> ModeOf(k', u) == ModeOf(k, u)
  {
    if m == Exclusive then ExclBy(t) else SharedBy(k.holders + {t})
  }

  function Release(k: Lock, t: nat): (k': Lock)
    requires ModeOf(k, t) != Unheld
    ensures ModeOf(k', t) == Unheld
    ensures forall u :: u != t ==> ModeOf(k', u) == ModeOf(k, u)
  {
    match k
    case ExclBy(_) => FREE_LOCK
    case SharedBy(hs) => SharedBy(hs - {t})
  }

  // ----- Vnodes -----

  /** A vnode of the lower filesystem. `direct` counts the writers that did not come
      through an alias; `wc` is v_writecount, negative while the file is executed. */
  datatype Lower = Lower(
    lk: Lock, use: int, hold: int, doomed: bool, freed: bool, nosync: bool, wc: int, direct: int)

  /** What v_vnlock of an alias points to: its own v_lock, or the lock of the lower vnode. */
  datatype VnLock = Own | Borrowed

  /** An alias vnode together with its tpt_node.

      `data` says that v_data is set, `dead` that v_op is the dead vector, `freed` that the
      tpt_node was given back, and `lref` that the node owns its one reference on the lower
      vnode. `agent` is the thread that made the alias or is the last to have taken it down;
      no step reads it. */
  datatype Alias = Alias(
    mount: nat, lower: nat, agent: nat,
    data: bool, vnlk: VnLock, plk: Lock, use: int, doomed: bool, dead: bool, onMount: bool,
    freed: bool, drop: bool, noUnlock: bool, lref: bool, wc: int)

  /** A reference or hold a thread must give back some day. */
  datatype Res = LRef(l: nat) | Hold(l: nat) | URef(v: nat)

  /** The state all threads share. `hidx[l]` is the bucket of lower vnode `l`, `cached` are
      the mounts with NULLM_CACHE, `own[t]` is what thread `t` has to give back. `busy[t]` is
      the alias `t` is making or taking down; no step reads it. */
  datatype Sh = Sh(
    lower: seq<Lower>, alias: seq<Alias>, hash: seq<seq<nat>>, hidx: seq<nat>, cached: set<nat>,
    own: seq<multiset<Res>>, busy: seq<Option<nat>>)

  /** All indices in the state are in range. */
  ghost predicate Wf(s: Sh) {
    && |s.hidx| == |s.lower| && |s.busy| == |s.own|
    && (forall l :: 0 <= l < |s.hidx| ==> s.hidx[l] < |s.hash|)
    && (forall b, i :: 0 <= b < |s.hash| && 0 <= i < |s.hash[b]| ==> s.hash[b][i] < |s.alias|)
    && (forall v :: 0 <= v < |s.alias| ==> s.alias[v].lower < |s.lower| && s.alias[v].agent < |s.own|)
  }

  // ----- Outcomes -----

  datatype Why =
    | LockNotHeld        // unlock of a lock the thread does not hold, or a failed lock assertion
    | RefUnderflow       // a count would become negative, or vholdnz or VNPASS found zero
    | NullData           // v_data was dereferenced while null
    | BadReclaim         // the assertion at the head of tpt_reclaim
    | NotOnHash          // LIST_REMOVE of a node that is not on its list
    | DoubleFree         // free of a node that was freed
    | FreedLower         // the lower vnode was recycled under the thread
    | BadRequest         // the panic of tpt_lock about a request it cannot repeat
    | UnlinkNotDoomed    // the first assertion of tptfs_unlink_lowervp
    | UnlinkNotLocked    // the second one
    | UnlinkDoomed       // the third one

  /** A section ends in a new state and a new place in the program, or in a panic. */
  datatype Out<P> = Ok(sh: Sh, pc: P) | Panic(why: Why)

  // ----- Updates -----

  function PutL(s: Sh, l: nat, x: Lower): Sh
    requires l < |s.lower|
  {
    s.(lower := s.lower[l := x])
  }

  function PutA(s: Sh, v: nat, x: Alias): Sh
    requires v < |s.alias|
  {
    s.(alias := s.alias[v := x])
  }

  function Gain(s: Sh, t: nat, r: Res): Sh
    requires t < |s.own|
  {
    s.(own := s.own[t := s.own[t] + multiset{r}])
  }

  function Lose(s: Sh, t: nat, r: Res): Sh
    requires t < |s.own|
  {
    s.(own := s.own[t := s.own[t] - multiset{r}])
  }

  function SetBusy(s: Sh, t: nat, o: Option<nat>): Sh
    requires t < |s.busy|
  {
    s.(busy := s.busy[t := o])
  }

  // ----- Primitives on lower vnodes -----

  function UnlockL<P>(s: Sh, t: nat, l: nat, p: P): Out<P>
    requires l < |s.lower|
  {
    if s.lower[l].freed then Panic(FreedLower)
    else if ModeOf(s.lower[l].lk, t) == Unheld then Panic(LockNotHeld)
    else Ok(PutL(s, l, s.lower[l].(lk := Release(s.lower[l].lk, t))), p)
  }

  /** vrele of lower vnode `l`, giving back a reference of the thread. */
  function VreleL<P>(s: Sh, t: nat, l: nat, p: P): Out<P>
    requires t < |s.own| && l < |s.lower|
  {
    if s.lower[l].freed then Panic(FreedLower)
    else if s.lower[l].use <= 0 || LRef(l) !in s.own[t] then Panic(RefUnderflow)
    else Ok(Lose(PutL(s, l, s.lower[l].(use := s.lower[l].use - 1)), t, LRef(l)), p)
  }

  /** vput: unlock and vrele. */
  function VputL<P>(s: Sh, t: nat, l: nat, p: P): Out<P>
    requires t < |s.own| && l < |s.lower|
  {
    match UnlockL(s, t, l, p)
    case Panic(why) => Panic(why)
    case Ok(s1, _) => VreleL(s1, t, l, p)
  }

  function VholdL<P>(s: Sh, t: nat, l: nat, p: P): Out<P>
    requires t < |s.own| && l < |s.lower|
  {
    if s.lower[l].freed then Panic(FreedLower)
    else if s.lower[l].use <= 0 && s.lower[l].hold <= 0 then Panic(RefUnderflow)
    else Ok(Gain(PutL(s, l, s.lower[l].(hold := s.lower[l].hold + 1)), t, Hold(l)), p)
  }

  function VdropL<P>(s: Sh, t: nat, l: nat, p: P): Out<P>
    requires t < |s.own| && l < |s.lower|
  {
    if s.lower[l].freed then Panic(FreedLower)
    else if s.lower[l].hold <= 0 || Hold(l) !in s.own[t] then Panic(RefUnderflow)
    else Ok(Lose(PutL(s, l, s.lower[l].(hold := s.lower[l].hold - 1)), t, Hold(l)), p)
  }

  /** A lock request on lower vnode `l` that is granted now. */
  function LockL<P>(s: Sh, t: nat, l: nat, m: Mode, p: P): Out<P>
    requires l < |s.lower| && Grantable(s.lower[l].lk, t, m)
  {
    if s.lower[l].freed then Panic(FreedLower)
    else Ok(PutL(s, l, s.lower[l].(lk := Grant(s.lower[l].lk, t, m))), p)
  }

  // ----- Primitives on aliases -----

  function VrefA(s: Sh, t: nat, v: nat): Sh
    requires t < |s.own| && v < |s.alias|
  {
    Gain(PutA(s, v, s.alias[v].(use := s.alias[v].use + 1)), t, URef(v))
  }

  /** The use count of alias `v` goes down by one. */
  function UnrefA<P>(s: Sh, t: nat, v: nat, p: P): Out<P>
    requires t < |s.own| && v < |s.alias|
  {
    if s.alias[v].use <= 0 || URef(v) !in s.own[t] then Panic(RefUnderflow)
    else Ok(Lose(PutA(s, v, s.alias[v].(use := s.alias[v].use - 1)), t, URef(v)), p)
  }

  /** The lock v_vnlock of `v` names now. */
  function Named(s: Sh, v: nat): Lock
    requires v < |s.alias| && s.alias[v].lower < |s.lower|
  {
    if s.alias[v].vnlk == Own then s.alias[v].plk else s.lower[s.alias[v].lower].lk
  }

  /** vop_stdlock of `v`: a request on the lock v_vnlock names that is granted now. */
  function LockNamed<P>(s: Sh, t: nat, v: nat, m: Mode, p: P): Out<P>
    requires v < |s.alias| && s.alias[v].lower < |s.lower| && Grantable(Named(s, v), t, m)
  {
    if s.alias[v].vnlk == Own then Ok(PutA(s, v, s.alias[v].(plk := Grant(s.alias[v].plk, t, m))), p)
    else LockL(s, t, s.alias[v].lower, m, p)
  }

  /** vop_stdunlock of `v`: releases the lock v_vnlock names. */
  function UnlockNamed<P>(s: Sh, t: nat, v: nat, p: P): Out<P>
    requires v < |s.alias| && s.alias[v].lower < |s.lower|
  {
    if s.alias[v].vnlk == Borrowed then UnlockL(s, t, s.alias[v].lower, p)
    else if ModeOf(s.alias[v].plk, t) == Unheld then Panic(LockNotHeld)
    else Ok(PutA(s, v, s.alias[v].(plk := Release(s.alias[v].plk, t))), p)
  }

  /** vput of alias `v`: unlock and vrele. */
  function VputA<P>(s: Sh, t: nat, v: nat, p: P): Out<P>
    requires t < |s.own| && v < |s.alias| && s.alias[v].lower < |s.lower|
  {
    match UnlockNamed(s, t, v, p)
    case Panic(why) => Panic(why)
    case Ok(s1, _) => UnrefA(s1, t, v, p)
  }

  /** lockmgr on the private lock of `v`, when it is granted now. */
  function PrivateLock(s: Sh, t: nat, v: nat): Sh
    requires v < |s.alias|
  {
    PutA(s, v, s.alias[v].(plk := ExclBy(t)))
  }

  // ----- The hash, tptfs/tpt_subr.c:98-168 and 298-306 -----

  predicate Match(a: Alias, mp: nat, l: nat) {
    a.lower == l && a.mount == mp
  }

  /** LIST_FOREACH: the first node of bucket `b` for (mp, l). */
  function Find(b: seq<nat>, a: seq<Alias>, mp: nat, l: nat): (r: Option<nat>)
    requires forall i :: 0 <= i < |b| ==> b[i] < |a|
    ensures r.Some? ==> r.value in b && r.value < |a| && Match(a[r.value], mp, l)
    ensures r.None? ==> forall i :: 0 <= i < |b| ==> !Match(a[b[i]], mp, l)
  {
    if b == [] then None
    else if Match(a[b[0]], mp, l) then Some(b[0])
    else Find(b[1..], a, mp, l)
  }

  /** LIST_REMOVE. */
  function Unlinked(b: seq<nat>, v: nat): seq<nat> {
    if b == [] then [] else if b[0] == v then b[1..] else [b[0]] + Unlinked(b[1..], v)
  }

  ghost predicate Hashed(s: Sh, v: nat)
    requires Wf(s) && v < |s.alias|
  {
    v in s.hash[s.hidx[s.alias[v].lower]]
  }

  function FindIn(s: Sh, mp: nat, l: nat): Option<nat>
    requires Wf(s) && l < |s.lower|
  {
    Find(s.hash[s.hidx[l]], s.alias, mp, l)
  }

  // ----- Write counts -----

  /** VOP_ADD_WRITECOUNT of a lower vnode; it refuses while the file is executed. */
  function AddWc(x: Lower, inc: int): (r: (Lower, bool)) {
    if x.wc < 0 then (x, false) else (x.(wc := x.wc + inc), true)
  }

  /** tpt_want_recycle, tptfs/tpt_vnops.c:767-791. */
  predicate WantRecycle(s: Sh, v: nat)
    requires v < |s.alias| && s.alias[v].lower < |s.lower|
  {
    s.alias[v].mount !in s.cached || s.alias[v].drop || s.lower[s.alias[v].lower].nosync
  }
}
