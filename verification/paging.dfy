/** Two-level page tables as os-elephant edits them: os-elephant/kernel/memory.c:123-184 and
    setup_page of os-elephant/boot/loader.S:243-289. Physical memory is a sequence of 32-bit
    words; every access by pointer goes through the walk of 32-bit paging (section 4.3 of the
    Intel SDM, volume 3A). */
module Paging {
  import opened Options

  const PG_SIZE: nat := 4096
  const PAGE_DIR_TABLE_POS: nat := 0x100000
  const ADDRESSES: nat := 0x1_0000_0000
  // PG_US_U | PG_RW_W | PG_P_1
  const ATTRS: nat := 7

  // ----- The walk -----

  /** The word at physical address `a`. */
  function Word(p: seq<nat>, a: nat): nat {
    if a / 4 < |p| then p[a / 4] else 0
  }

  predicate Present(e: nat) {
    e % 2 == 1
  }

  function Frame(e: nat): nat {
    e / PG_SIZE * PG_SIZE
  }

  function PdeIdx(v: nat): nat {
    v / 0x40_0000
  }

  function PteIdx(v: nat): nat {
    v / PG_SIZE % 1024
  }

  /** Entry `i` of the directory. */
  function DirEntry(p: seq<nat>, i: nat): nat {
    Word(p, PAGE_DIR_TABLE_POS + 4 * i)
  }

  function Pde(p: seq<nat>, v: nat): nat {
    DirEntry(p, PdeIdx(v))
  }

  /** The physical address of the page table entry of `v`, if its directory entry is present. */
  function PteAddr(p: seq<nat>, v: nat): nat {
    Frame(Pde(p, v)) + 4 * PteIdx(v)
  }

  function Translate(p: seq<nat>, v: nat): Option<nat> {
    if !Present(Pde(p, v)) then None
    else if !Present(Word(p, PteAddr(p, v))) then None
    else Some(Frame(Word(p, PteAddr(p, v))) + v % PG_SIZE)
  }

  // ----- Pointers to the entries -----

  /** pte_ptr. */
  function PtePtr(v: nat): nat {
    0xffc0_0000 + PdeIdx(v) * 0x1000 + PteIdx(v) * 4
  }

  /** pde_ptr. */
  function PdePtr(v: nat): nat {
    0xffff_f000 + PdeIdx(v) * 4
  }

  /** pte_ptr on 32-bit words, with the masks and shifts of the source. */
  function PtePtrBits(v: bv32): bv32 {
    0xffc0_0000 + ((v & 0xffc0_0000) >> 10) + ((v & 0x003f_f000) >> 12) * 4
  }

  lemma PtePtrBitsValue(v: bv32)
    ensures PtePtrBits(v) == 0xffc0_0000 + (v >> 12) * 4
  {
  }

  lemma PtePtrValue(v: nat)
    requires v < ADDRESSES
    ensures PtePtr(v) == 0xffc0_0000 + 4 * (v / PG_SIZE) < ADDRESSES
  {
    assert v / PG_SIZE == PdeIdx(v) * 1024 + PteIdx(v);
  }

  /** Two addresses share their entry exactly when they are on one page. */
  lemma PtePtrInjective(v: nat, w: nat)
    requires v < ADDRESSES && w < ADDRESSES
    ensures PtePtr(v) == PtePtr(w) <==> v / PG_SIZE == w / PG_SIZE
  {
    PtePtrValue(v);
    PtePtrValue(w);
  }

  /** Entry 1023 of the directory points to the directory, and no other does. Every table lies
      in memory. */
  ghost predicate TablesOk(p: seq<nat>) {
    && PAGE_DIR_TABLE_POS / 4 + 1024 <= |p|
    && Present(DirEntry(p, 1023)) && Frame(DirEntry(p, 1023)) == PAGE_DIR_TABLE_POS
    && forall i :: 0 <= i < 1023 && Present(DirEntry(p, i)) ==>
         Frame(DirEntry(p, i)) != PAGE_DIR_TABLE_POS && Frame(DirEntry(p, i)) / 4 + 1024 <= |p|
  }

  /** The walk of pde_ptr(v) reaches the directory entry of v. */
  lemma WalkOfPdePtr(p: seq<nat>, v: nat)
    requires TablesOk(p) && v < ADDRESSES
    ensures Translate(p, PdePtr(v)) == Some(PAGE_DIR_TABLE_POS + 4 * PdeIdx(v))
  {
    var w := PdePtr(v);
    assert PdeIdx(v) < 1024 && w < ADDRESSES;
    assert PdeIdx(w) == 1023 && PteIdx(w) == 1023 && w % PG_SIZE == 4 * PdeIdx(v);
    assert PteAddr(p, w) == PAGE_DIR_TABLE_POS + 4 * 1023;
  }

  /** The walk of pte_ptr(v) reaches the page table entry of v. */
  lemma WalkOfPtePtr(p: seq<nat>, v: nat)
    requires TablesOk(p) && v < ADDRESSES && Present(Pde(p, v))
    ensures Translate(p, PtePtr(v)) == Some(PteAddr(p, v))
  {
    PtePtrValue(v);
    var w := PtePtr(v);
    assert PdeIdx(v) < 1024;
    assert PdeIdx(w) == 1023 && PteIdx(w) == PdeIdx(v) && w % PG_SIZE == 4 * PteIdx(v);
    assert PteAddr(p, w) == PAGE_DIR_TABLE_POS + 4 * PdeIdx(v);
  }

  /** Without a directory entry pte_ptr(v) is not mapped. */
  lemma WalkOfAbsentPte(p: seq<nat>, v: nat)
    requires TablesOk(p) && v < ADDRESSES && !Present(Pde(p, v))
    ensures Translate(p, PtePtr(v)) == None
  {
    PtePtrValue(v);
    var w := PtePtr(v);
    assert PdeIdx(v) < 1024;
    assert PdeIdx(w) == 1023 && PteIdx(w) == PdeIdx(v);
    assert PteAddr(p, w) == PAGE_DIR_TABLE_POS + 4 * PdeIdx(v);
  }

  // ----- What page_table_add does to the translations -----

  /** `w` uses the very entry of `v`: the page of `v` itself, and its twin when two directory
      entries point to one table. */
  predicate SameEntry(p: seq<nat>, v: nat, w: nat) {
    Present(Pde(p, w)) && PteAddr(p, w) == PteAddr(p, v)
  }

  /** The memory after the entry of `v` was set. */
  function WithPte(p: seq<nat>, v: nat, page: nat): seq<nat>
    requires PteAddr(p, v) / 4 < |p|
  {
    p[PteAddr(p, v) / 4 := page + ATTRS]
  }

  lemma TableWords(p: seq<nat>, v: nat)
    requires TablesOk(p) && v < ADDRESSES && Present(Pde(p, v))
    ensures PteAddr(p, v) / 4 < |p|
    ensures PdeIdx(v) != 1023 ==> !(PAGE_DIR_TABLE_POS / 4 <= PteAddr(p, v) / 4 < PAGE_DIR_TABLE_POS / 4 + 1024)
  {
    assert PdeIdx(v) < 1024;
    var f := Frame(DirEntry(p, PdeIdx(v)));
    assert f % PG_SIZE == 0;
  }

  /** Setting an entry outside the directory leaves the directory alone. */
  lemma WithPteDir(p: seq<nat>, v: nat, page: nat)
    requires TablesOk(p) && v < ADDRESSES && Present(Pde(p, v)) && PdeIdx(v) != 1023
    ensures PteAddr(p, v) / 4 < |p| && TablesOk(WithPte(p, v, page))
    ensures forall i :: 0 <= i < 1024 ==> DirEntry(WithPte(p, v, page), i) == DirEntry(p, i)
  {
    TableWords(p, v);
    var q := WithPte(p, v, page);
    forall i | 0 <= i < 1024
      ensures DirEntry(q, i) == DirEntry(p, i)
    {
      assert (PAGE_DIR_TABLE_POS + 4 * i) / 4 == PAGE_DIR_TABLE_POS / 4 + i;
    }
  }

  lemma AddressParts(w: nat)
    requires w < ADDRESSES
    ensures PdeIdx(w) < 1024 && PteIdx(w) < 1024 && w / PG_SIZE == PdeIdx(w) * 1024 + PteIdx(w)
  {
  }

  /** Word `j` of a table. */
  lemma TableWord(e: nat, j: nat)
    ensures Frame(e) % PG_SIZE == 0 && (Frame(e) + 4 * j) / 4 == Frame(e) / 4 + j
  {
  }

  lemma AttrsFrame(f: nat)
    requires f % PG_SIZE == 0
    ensures Frame(f + ATTRS) == f && Present(f + ATTRS)
  {
  }

  lemma WordAfter(p: seq<nat>, x: nat, y: nat, value: nat)
    requires x % 4 == 0 && y % 4 == 0 && x / 4 < |p|
    ensures Word(p[x / 4 := value], y) == if x == y then value else Word(p, y)
  {
  }

  lemma EntryAligned(p: seq<nat>, v: nat)
    ensures PteAddr(p, v) % 4 == 0
  {
  }

  lemma TranslateBy(q: seq<nat>, w: nat, e: nat)
    requires Present(Pde(q, w)) && Word(q, PteAddr(q, w)) == e
    ensures Translate(q, w) == if Present(e) then Some(Frame(e) + w % PG_SIZE) else None
  {
  }

  /** With the directory entry present, setting the entry of `v` adds the translation of its
      page, and of no page that does not use that entry. */
  lemma AddTranslates(p: seq<nat>, v: nat, page: nat, w: nat)
    requires TablesOk(p) && v < ADDRESSES && Present(Pde(p, v)) && PdeIdx(v) != 1023
    requires page % PG_SIZE == 0 && w < ADDRESSES
    ensures PteAddr(p, v) / 4 < |p|
    ensures Translate(WithPte(p, v, page), w) ==
            if SameEntry(p, v, w) then Some(page + w % PG_SIZE) else Translate(p, w)
  {
    WithPteDir(p, v, page);
    var q := WithPte(p, v, page);
    assert Pde(q, w) == Pde(p, w) by { AddressParts(w); }
    if Present(Pde(p, w)) {
      EntryAligned(p, v);
      EntryAligned(p, w);
      WordAfter(p, PteAddr(p, v), PteAddr(p, w), page + ATTRS);
      AttrsFrame(page);
      TranslateBy(p, w, Word(p, PteAddr(p, w)));
      TranslateBy(q, w, Word(q, PteAddr(q, w)));
    }
  }

  /** `f` is a frame that is neither the directory nor a page table. */
  ghost predicate UnusedFrame(p: seq<nat>, f: nat) {
    && f % PG_SIZE == 0 && f != PAGE_DIR_TABLE_POS && f / 4 + 1024 <= |p|
    && forall i :: 0 <= i < 1024 && Present(DirEntry(p, i)) ==> Frame(DirEntry(p, i)) != f
  }

  /** The memory after frame `f` became the table of directory entry `d`. */
  function WithTable(p: seq<nat>, d: nat, f: nat): seq<nat>
    requires PAGE_DIR_TABLE_POS / 4 + d < |p|
  {
    p[PAGE_DIR_TABLE_POS / 4 + d := f + ATTRS]
  }

  lemma WithTableDir(p: seq<nat>, d: nat, f: nat)
    requires TablesOk(p) && d < 1023 && UnusedFrame(p, f)
    ensures TablesOk(WithTable(p, d, f))
    ensures forall i :: 0 <= i < 1024 ==>
              DirEntry(WithTable(p, d, f), i) == if i == d then f + ATTRS else DirEntry(p, i)
  {
    var q := WithTable(p, d, f);
    forall i | 0 <= i < 1024
      ensures DirEntry(q, i) == if i == d then f + ATTRS else DirEntry(p, i)
    {
      assert (PAGE_DIR_TABLE_POS + 4 * i) / 4 == PAGE_DIR_TABLE_POS / 4 + i;
    }
    assert Frame(f + ATTRS) == f;
  }

  /** Frame `f` zeroed from word 0 up to `n`, the rest of the memory as in `p`. */
  ghost predicate Zeroed(p: seq<nat>, q: seq<nat>, f: nat, n: nat) {
    && |q| == |p| && f / 4 + n <= |p|
    && (forall k :: f / 4 <= k < f / 4 + n ==> q[k] == 0)
    && (forall k :: 0 <= k < |p| && !(f / 4 <= k < f / 4 + n) ==> q[k] == p[k])
  }

  /** Zeroing the frame of the new table leaves the directory alone. */
  lemma ZeroedDir(p: seq<nat>, q: seq<nat>, f: nat, n: nat)
    requires TablesOk(p) && Zeroed(p, q, f, n) && n <= 1024 && f % PG_SIZE == 0 && f != PAGE_DIR_TABLE_POS
    ensures TablesOk(q) && forall i :: 0 <= i < 1024 ==> DirEntry(q, i) == DirEntry(p, i)
  {
    forall i | 0 <= i < 1024
      ensures DirEntry(q, i) == DirEntry(p, i)
    {
      assert (PAGE_DIR_TABLE_POS + 4 * i) / 4 == PAGE_DIR_TABLE_POS / 4 + i;
    }
  }

  /** Words of different tables are different words. */
  lemma TablesApart(f: nat, g: nat, j: nat, k: nat)
    requires f % PG_SIZE == 0 && g % PG_SIZE == 0 && f != g && j < 1024 && k < 1024
    ensures f / 4 + j != g / 4 + k
  {
  }

  /** The memory `q` after frame `f` became the zeroed table of directory entry `d` of `p`. */
  ghost predicate Installed(p: seq<nat>, q: seq<nat>, d: nat, f: nat) {
    && TablesOk(p) && d < 1023 && UnusedFrame(p, f) && !Present(DirEntry(p, d))
    && Zeroed(WithTable(p, d, f), q, f, 1024)
  }

  lemma InstalledDir(p: seq<nat>, q: seq<nat>, d: nat, f: nat)
    requires Installed(p, q, d, f)
    ensures TablesOk(q) && forall i :: 0 <= i < 1024 ==> DirEntry(q, i) == if i == d then f + ATTRS else DirEntry(p, i)
  {
    WithTableDir(p, d, f);
    ZeroedDir(WithTable(p, d, f), q, f, 1024);
  }

  lemma OtherFrame(p: seq<nat>, q: seq<nat>, f: nat, g: nat, j: nat)
    requires Zeroed(p, q, f, 1024) && f % PG_SIZE == 0 && g % PG_SIZE == 0 && f != g && j < 1024 && g / 4 + 1024 <= |p|
    ensures q[g / 4 + j] == p[g / 4 + j]
  {
    if f / 4 <= g / 4 + j < f / 4 + 1024 { TablesApart(g, f, j, g / 4 + j - f / 4); }
  }

  /** Words of the tables that were there before. */
  lemma InstalledOld(p: seq<nat>, q: seq<nat>, d: nat, f: nat, g: nat, j: nat)
    requires Installed(p, q, d, f) && j < 1024 && g % PG_SIZE == 0 && g != f && g != PAGE_DIR_TABLE_POS
    requires g / 4 + 1024 <= |p|
    ensures Word(q, g + 4 * j) == Word(p, g + 4 * j)
  {
    OtherFrame(WithTable(p, d, f), q, f, g, j);
    TablesApart(g, PAGE_DIR_TABLE_POS, j, d);
    assert (g + 4 * j) / 4 == g / 4 + j;
  }

  lemma NewTableEmpty(p: seq<nat>, q: seq<nat>, d: nat, f: nat, w: nat)
    requires Installed(p, q, d, f) && w < ADDRESSES && PdeIdx(w) == d
    ensures Translate(q, w) == None
  {
    InstalledDir(p, q, d, f);
    AddressParts(w);
    AttrsFrame(f);
    TableWord(f + ATTRS, PteIdx(w));
  }

  lemma NewTableWindow(p: seq<nat>, q: seq<nat>, d: nat, f: nat, w: nat)
    requires Installed(p, q, d, f) && w < ADDRESSES && PdeIdx(w) == 1023
    ensures Translate(q, w) == if PteIdx(w) == d then Some(f + w % PG_SIZE) else Translate(p, w)
  {
    InstalledDir(p, q, d, f);
    AddressParts(w);
    AttrsFrame(f);
    assert PteAddr(p, w) == PAGE_DIR_TABLE_POS + 4 * PteIdx(w) == PteAddr(q, w);
  }

  lemma NewTableOld(p: seq<nat>, q: seq<nat>, d: nat, f: nat, w: nat)
    requires Installed(p, q, d, f) && w < ADDRESSES && PdeIdx(w) != d && PdeIdx(w) != 1023
    ensures Translate(q, w) == Translate(p, w)
  {
    InstalledDir(p, q, d, f);
    AddressParts(w);
    var e := DirEntry(p, PdeIdx(w));
    TableWord(e, PteIdx(w));
    if Present(e) { InstalledOld(p, q, d, f, Frame(e), PteIdx(w)); }
  }

  /** The new table maps nothing yet; its window page, 4 KB of the top 4 MB, maps the table; all
      other translations are those of before. */
  lemma NewTableTranslates(p: seq<nat>, q: seq<nat>, d: nat, f: nat, w: nat)
    requires Installed(p, q, d, f) && w < ADDRESSES
    ensures Translate(q, w) == if PdeIdx(w) == d then None
                               else if w / PG_SIZE == 0xffc00 + d then Some(f + w % PG_SIZE)
                               else Translate(p, w)
  {
    AddressParts(w);
    if PdeIdx(w) == d {
      NewTableEmpty(p, q, d, f, w);
    } else if PdeIdx(w) == 1023 {
      NewTableWindow(p, q, d, f, w);
    } else {
      NewTableOld(p, q, d, f, w);
    }
  }

  /** In the new table only the page of `v` itself uses its entry. */
  lemma SoleUser(p: seq<nat>, q: seq<nat>, v: nat, f: nat, w: nat)
    requires v < ADDRESSES && w < ADDRESSES && Installed(p, q, PdeIdx(v), f)
    ensures SameEntry(q, v, w) <==> w / PG_SIZE == v / PG_SIZE
  {
    InstalledDir(p, q, PdeIdx(v), f);
    AddressParts(v);
    AddressParts(w);
    AttrsFrame(f);
    var e := DirEntry(q, PdeIdx(w));
    TableWord(e, PteIdx(w));
    TableWord(f + ATTRS, PteIdx(v));
    if Present(e) && Frame(e) != f { TablesApart(Frame(e), f, PteIdx(w), PteIdx(v)); }
  }

  /** Without the directory entry, a new table is installed and zeroed through its window page,
      and then the entry of `v` is set: the page of `v` and the window page of the table are
      mapped in addition, nothing else changes. */
  lemma FreshTranslates(p: seq<nat>, q: seq<nat>, v: nat, f: nat, page: nat, w: nat)
    requires v < ADDRESSES && w < ADDRESSES && Installed(p, q, PdeIdx(v), f) && page % PG_SIZE == 0
    ensures PteAddr(q, v) / 4 < |q|
    ensures Translate(WithPte(q, v, page), w) ==
            if w / PG_SIZE == v / PG_SIZE then Some(page + w % PG_SIZE)
            else if w / PG_SIZE == 0xffc00 + PdeIdx(v) then Some(f + w % PG_SIZE)
            else Translate(p, w)
  {
    InstalledDir(p, q, PdeIdx(v), f);
    AttrsFrame(f);
    AddTranslates(q, v, page, w);
    NewTableTranslates(p, q, PdeIdx(v), f, w);
    SoleUser(p, q, v, f, w);
    AddressParts(v);
    AddressParts(w);
    NothingThere(p, v, w);
  }

  lemma NothingThere(p: seq<nat>, v: nat, w: nat)
    requires !Present(Pde(p, v))
    ensures PdeIdx(w) == PdeIdx(v) ==> Translate(p, w) == None
  {
  }

  /** `q` has the translations of `p`, and the entry of `v` maps `page`. */
  ghost predicate Added(p: seq<nat>, q: seq<nat>, v: nat, page: nat) {
    forall w :: 0 <= w < ADDRESSES ==>
      Translate(q, w) == (if SameEntry(p, v, w) then Some(page + w % PG_SIZE) else Translate(p, w))
  }

  /** `q` has the translations of `p`, the page of `v` is mapped to `page`, and the window page of
      its new table to frame `f`. */
  ghost predicate AddedWithTable(p: seq<nat>, q: seq<nat>, v: nat, page: nat, f: nat) {
    forall w :: 0 <= w < ADDRESSES ==>
      Translate(q, w) == (if w / PG_SIZE == v / PG_SIZE then Some(page + w % PG_SIZE)
                          else if w / PG_SIZE == 0xffc00 + PdeIdx(v) then Some(f + w % PG_SIZE)
                          else Translate(p, w))
  }

  lemma AddsAll(p: seq<nat>, v: nat, page: nat)
    requires TablesOk(p) && v < ADDRESSES && Present(Pde(p, v)) && PdeIdx(v) != 1023 && page % PG_SIZE == 0
    ensures PteAddr(p, v) / 4 < |p|
    ensures TablesOk(WithPte(p, v, page)) && Added(p, WithPte(p, v, page), v, page)
  {
    WithPteDir(p, v, page);
    forall w | 0 <= w < ADDRESSES
      ensures Translate(WithPte(p, v, page), w) ==
              (if SameEntry(p, v, w) then Some(page + w % PG_SIZE) else Translate(p, w))
    {
      AddTranslates(p, v, page, w);
    }
  }

  // ----- When one page alone is added -----

  /** No other directory entry names the table of `v`. */
  ghost predicate SoleEntry(p: seq<nat>, v: nat) {
    forall i :: 0 <= i < 1024 && i != PdeIdx(v) && Present(DirEntry(p, i)) ==> Frame(DirEntry(p, i)) != Frame(Pde(p, v))
  }

  /** `q` has the translations of `p`, and the page of `v` is mapped to `page`. */
  ghost predicate AddedOne(p: seq<nat>, q: seq<nat>, v: nat, page: nat) {
    forall w :: 0 <= w < ADDRESSES ==>
      Translate(q, w) == (if w / PG_SIZE == v / PG_SIZE then Some(page + w % PG_SIZE) else Translate(p, w))
  }

  /** An address uses the entry of `v` if its directory entry names the same table and it has the same
      place there. */
  lemma SharesEntry(p: seq<nat>, v: nat, w: nat)
    requires v < ADDRESSES && w < ADDRESSES && Present(Pde(p, w))
    ensures PteAddr(p, w) == PteAddr(p, v) <==> Frame(Pde(p, w)) == Frame(Pde(p, v)) && PteIdx(w) == PteIdx(v)
  {
    var e, g := Pde(p, v), Pde(p, w);
    TableWord(e, PteIdx(v));
    TableWord(g, PteIdx(w));
    if Frame(e) != Frame(g) { TablesApart(Frame(e), Frame(g), PteIdx(v), PteIdx(w)); }
  }

  /** The page with the table index of `v` behind directory entry `i`. */
  function Twin(v: nat, i: nat): nat {
    i * 0x40_0000 + PteIdx(v) * PG_SIZE
  }

  lemma TwinParts(v: nat, i: nat)
    requires v < ADDRESSES && i < 1024
    ensures var w := Twin(v, i);
            w < ADDRESSES && PdeIdx(w) == i && PteIdx(w) == PteIdx(v) && w % PG_SIZE == 0 &&
            (i != PdeIdx(v) ==> w / PG_SIZE != v / PG_SIZE)
  {
    AddressParts(v);
    var j := PteIdx(v);
    assert i * 0x40_0000 + j * PG_SIZE == (i * 1024 + j) * PG_SIZE;
  }

  /** One page alone uses the entry of `v` if and only if no other directory entry names its table. */
  lemma SoleUserExactly(p: seq<nat>, v: nat)
    requires v < ADDRESSES && Present(Pde(p, v))
    ensures SoleEntry(p, v) <==>
            forall w :: 0 <= w < ADDRESSES ==> (SameEntry(p, v, w) <==> w / PG_SIZE == v / PG_SIZE)
  {
    if SoleEntry(p, v) {
      forall w | 0 <= w < ADDRESSES
        ensures SameEntry(p, v, w) <==> w / PG_SIZE == v / PG_SIZE
      {
        AddressParts(v);
        AddressParts(w);
        if Present(Pde(p, w)) { SharesEntry(p, v, w); }
      }
    } else {
      var i :| 0 <= i < 1024 && i != PdeIdx(v) && Present(DirEntry(p, i)) &&
               Frame(DirEntry(p, i)) == Frame(Pde(p, v));
      TwinParts(v, i);
      SharesEntry(p, v, Twin(v, i));
      assert SameEntry(p, v, Twin(v, i));
    }
  }

  /** So setting a free entry adds the translations of one page if and only if no other directory
      entry names the table; otherwise the page is mapped once more behind each of them. */
  lemma AddsOneExactly(p: seq<nat>, v: nat, page: nat)
    requires TablesOk(p) && v < ADDRESSES && Present(Pde(p, v)) && PdeIdx(v) != 1023 && page % PG_SIZE == 0
    requires !Present(Word(p, PteAddr(p, v)))
    ensures PteAddr(p, v) / 4 < |p|
    ensures AddedOne(p, WithPte(p, v, page), v, page) <==> SoleEntry(p, v)
  {
    AddsAll(p, v, page);
    SoleUserExactly(p, v);
    var q := WithPte(p, v, page);
    if !SoleEntry(p, v) {
      var w :| 0 <= w < ADDRESSES && !(SameEntry(p, v, w) <==> w / PG_SIZE == v / PG_SIZE);
      OwnEntry(p, v, w);
      assert Translate(q, w) == Some(page + w % PG_SIZE) && Translate(p, w) == None;
    }
  }

  /** A page always uses its own entry. */
  lemma OwnEntry(p: seq<nat>, v: nat, w: nat)
    requires v < ADDRESSES && w < ADDRESSES && Present(Pde(p, v))
    ensures w / PG_SIZE == v / PG_SIZE ==> SameEntry(p, v, w)
  {
    AddressParts(v);
    AddressParts(w);
  }

  lemma AddsFresh(p: seq<nat>, q: seq<nat>, v: nat, f: nat, page: nat)
    requires v < ADDRESSES && PdeIdx(v) != 1023 && Installed(p, q, PdeIdx(v), f) && page % PG_SIZE == 0
    ensures PteAddr(q, v) / 4 < |q| && Present(Pde(q, v)) && !Present(Word(q, PteAddr(q, v)))
    ensures Translate(q, PtePtr(v)) == Some(PteAddr(q, v))
    ensures TablesOk(WithPte(q, v, page)) && AddedWithTable(p, WithPte(q, v, page), v, page, f)
  {
    InstalledDir(p, q, PdeIdx(v), f);
    AddressParts(v);
    AttrsFrame(f);
    WalkOfPtePtr(q, v);
    NewTableTranslates(p, q, PdeIdx(v), f, v);
    AddsAll(q, v, page);
    forall w | 0 <= w < ADDRESSES
      ensures Translate(WithPte(q, v, page), w) ==
              (if w / PG_SIZE == v / PG_SIZE then Some(page + w % PG_SIZE)
               else if w / PG_SIZE == 0xffc00 + PdeIdx(v) then Some(f + w % PG_SIZE)
               else Translate(p, w))
    {
      FreshTranslates(p, q, v, f, page, w);
    }
  }

  /** As written, line 168 passes the physical address to pte_ptr. For a page of the kernel heap that
      is another place in the window; `AsWritten` says which entry is behind it. */
  lemma SourceUsesAnotherSlot(v: nat, page: nat)
    requires 0xc010_0000 <= v < ADDRESSES && page < 0xc010_0000
    ensures PtePtr(page) != PtePtr(v)
  {
    PtePtrInjective(v, page);
  }
}
