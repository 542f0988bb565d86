/**
  The pools of core/mempool.cc: objects of one size in pages with a header, a list per CPU of
  the pages that have a free object, and free() finding the owner by the address alone.
 */
module Pool {
  import opened Arith

  const PAGE := 4096
  const HEADER := 40                 // sizeof(page_header)
  const EARLY := 8                   // non_mempool_obj_offset
  const MAX_OBJECT := 2048           // half a page
  const MIN_OBJECT := 8

  // ---- the size class ----

  function Pow2(k: nat): (r: nat)
    ensures r > 0
  {
    if k == 0 then 1 else 2 * Pow2(k - 1)
  }

  // What count_leading_zeros() leaves of a word: the bits up to the highest that is set.
  function BitLength(n: nat): nat {
    if n == 0 then 0 else 1 + BitLength(n / 2)
  }

  lemma {:induction false} BitLengthIs(n: nat)
    requires n > 0
    ensures BitLength(n) > 0 && Pow2(BitLength(n) - 1) <= n < Pow2(BitLength(n))
  {
    if n > 1 {
      BitLengthIs(n / 2);
    }
  }

  function Ilog2Roundup(n: nat): nat {
    if n <= 1 then 0 else BitLength(n - 1)
  }

  /** The least power of two that is large enough. */
  lemma Ilog2RoundupIs(n: nat)
    ensures n <= Pow2(Ilog2Roundup(n)) && (Ilog2Roundup(n) > 0 ==> Pow2(Ilog2Roundup(n) - 1) < n)
  {
    if n > 1 {
      BitLengthIs(n - 1);
    }
  }

  // malloc_pool::compute_object_size()
  function ObjectSize(pos: nat): nat {
    if Pow2(pos) > MAX_OBJECT then MAX_OBJECT else Pow2(pos)
  }

  function SizeClass(size: nat): nat {
    Ilog2Roundup(if size < MIN_OBJECT then MIN_OBJECT else size)
  }

  lemma {:induction false} Pow2Mono(a: nat, b: nat)
    requires a <= b
    ensures Pow2(a) <= Pow2(b)
  {
    if a < b {
      Pow2Mono(a, b - 1);
    }
  }

  /** A small request gets a pool that exists, of objects at least as large, and less than twice as large
      unless it is for less than the smallest. */
  lemma SizeClassFits(size: nat)
    requires size <= MAX_OBJECT
    ensures SizeClass(size) <= 11 && size <= ObjectSize(SizeClass(size)) <= MAX_OBJECT
    ensures MIN_OBJECT < size ==> ObjectSize(SizeClass(size)) < 2 * size
    ensures ObjectSize(SizeClass(size)) >= MIN_OBJECT
  {
    var n := if size < MIN_OBJECT then MIN_OBJECT else size;
    Ilog2RoundupIs(n);
    assert Pow2(11) == 2048;
    if SizeClass(size) > 11 {
      Pow2Mono(11, SizeClass(size) - 1);
    } else {
      Pow2Mono(SizeClass(size), 11);
    }
  }

  // ---- the objects of a page ----

  function Capacity(size: nat): nat
    requires size > 0
  {
    (PAGE - HEADER) / size
  }

  // The object at place i, counted from the end of the page.
  function Offset(size: nat, i: nat): int {
    PAGE - (i + 1) * size
  }

  /** The objects are in the page, behind its header, and as many as fit. */
  lemma OffsetsFit(size: nat, i: nat)
    requires size > 0 && size + HEADER <= PAGE
    ensures i < Capacity(size) <==> Offset(size, i) >= HEADER
  {
    var c := Capacity(size);
    assert PAGE - HEADER == size * c + (PAGE - HEADER) % size;
    if i < c {
      MulMono(size, i + 1, c);
    } else {
      MulMono(size, c + 1, i + 1);
    }
  }

  ghost predicate Distinct(s: seq<nat>) {
    forall i, j | 0 <= i < j < |s| :: s[i] != s[j]
  }

  // The free list of a new page: all its objects, the lowest first.
  ghost predicate AllObjects(size: nat, s: seq<nat>) {
    forall i | 0 <= i < |s| :: s[i] == Offset(size, |s| - 1 - i)
  }

  /** add_page(): the loop links exactly the objects that fit. */
  method LinkObjects(size: nat) returns (free: seq<nat>)
    requires size > 0 && size + HEADER <= PAGE
    ensures |free| == Capacity(size) && AllObjects(size, free)
  {
    free := [];
    var p: int := PAGE - size;
    while p >= HEADER
      invariant p == Offset(size, |free|) && AllObjects(size, free) && |free| <= Capacity(size)
      decreases p
    {
      OffsetsFit(size, |free|);
      free := [p] + free;
      p := p - size;
      assert p == Offset(size, |free|);
    }
    OffsetsFit(size, |free|);
  }

  lemma AllDistinct(size: nat, s: seq<nat>)
    requires size > 0 && AllObjects(size, s)
    ensures Distinct(s)
  {
    forall i, j | 0 <= i < j < |s| ensures s[i] != s[j] {
      MulMono(size, |s| - 1 - j + 1, |s| - 1 - i);
    }
  }

  // ---- which allocator an address belongs to ----

  datatype Owner = Early | Pooled | Large

  // std_free(): by the offset in the page.
  function OwnerOf(address: nat): Owner {
    if address % PAGE == EARLY then Early else if address % PAGE != 0 then Pooled else Large
  }

  /** free() finds the allocator a block came from: early blocks are 8 bytes into a page, large ones start
      one, and no object of a pool does either. */
  lemma OwnerIsFound(page: nat, size: nat, i: nat)
    requires size > 0 && size + HEADER <= PAGE && i < Capacity(size)
    ensures OwnerOf(page * PAGE + EARLY) == Early && OwnerOf(page * PAGE) == Large
    ensures Offset(size, i) >= HEADER && OwnerOf(page * PAGE + Offset(size, i)) == Pooled
    ensures (page * PAGE + Offset(size, i)) / PAGE == page
  {
    OffsetsFit(size, i);
    MulMono(size, 1, i + 1);
  }

  // ---- a pool ----

  // A page of the pool: the CPU it belongs to, the number of its objects in use, the others.
  datatype Header = Header(cpu: nat, nalloc: nat, free: seq<nat>)

  ghost predicate IsObject(size: nat, off: nat) {
    exists i: nat :: i < (if size > 0 then Capacity(size) else 0) && off == Offset(size, i)
  }

  /** Every object of a page is free or in use, and the header counts those in use. */
  ghost predicate PageOk(size: nat, page: nat, h: Header, used: set<(nat, nat)>)
    requires size > 0
  {
    && h.nalloc + |h.free| == Capacity(size) && Distinct(h.free)
    && (forall off: nat | off in h.free :: IsObject(size, off))
    && (forall off: nat :: (page, off) in used <==> IsObject(size, off) && off !in h.free)
  }

  ghost predicate Listed(pages: map<nat, Header>, c: nat, page: nat) {
    page in pages && pages[page].cpu == c && pages[page].free != []
  }

  /** The list of a CPU holds its pages that have a free object, each once. */
  ghost predicate ListOk(pages: map<nat, Header>, c: nat, list: seq<nat>) {
    Distinct(list) && forall page: nat :: page in list <==> Listed(pages, c, page)
  }

  ghost predicate PagesOk(size: nat, pages: map<nat, Header>, used: set<(nat, nat)>)
    requires size > 0
  {
    && (forall page | page in pages :: PageOk(size, page, pages[page], used))
    && (forall o | o in used :: o.0 in pages)
  }

  ghost predicate ListsOk(pages: map<nat, Header>, lists: seq<seq<nat>>) {
    forall c: nat | c < |lists| :: ListOk(pages, c, lists[c])
  }

  function Cut(s: seq<nat>, k: nat): seq<nat>
    requires k < |s|
  {
    s[..k] + s[k + 1..]
  }

  lemma CutMembers(s: seq<nat>, k: nat)
    requires k < |s| && Distinct(s)
    ensures Distinct(Cut(s, k)) && forall x :: x in Cut(s, k) <==> x in s && x != s[k]
  {
    forall x | x in s && x != s[k] ensures x in Cut(s, k) {
      var j :| 0 <= j < |s| && s[j] == x;
      assert Cut(s, k)[if j < k then j else j - 1] == x;
    }
  }

  lemma NewPageOk(size: nat, page: nat, h: Header, used: set<(nat, nat)>)
    requires size > 0 && size + HEADER <= PAGE && h.nalloc == 0 && |h.free| == Capacity(size)
    requires AllObjects(size, h.free)
    requires forall o | o in used :: o.0 != page
    ensures PageOk(size, page, h, used)
  {
    AllDistinct(size, h.free);
    forall off: nat | off in h.free ensures IsObject(size, off) {
      var i :| 0 <= i < |h.free| && h.free[i] == off;
      assert |h.free| - 1 - i < Capacity(size) && off == Offset(size, |h.free| - 1 - i);
    }
    forall off: nat | IsObject(size, off) ensures off in h.free {
      var i: nat :| i < Capacity(size) && off == Offset(size, i);
      assert h.free[|h.free| - 1 - i] == off;
    }
  }

  lemma TakeObject(size: nat, page: nat, h: Header, used: set<(nat, nat)>)
    requires size > 0 && PageOk(size, page, h, used) && h.free != []
    ensures PageOk(size, page, h.(nalloc := h.nalloc + 1, free := h.free[1..]), used + {(page, h.free[0])})
  {
    CutMembers(h.free, 0);
    assert Cut(h.free, 0) == h.free[1..];
  }

  lemma GiveObject(size: nat, page: nat, off: nat, h: Header, used: set<(nat, nat)>)
    requires size > 0 && PageOk(size, page, h, used) && (page, off) in used
    ensures h.nalloc > 0 && PageOk(size, page, h.(nalloc := h.nalloc - 1, free := [off] + h.free), used - {(page, off)})
  {
    if h.nalloc == 0 {
      AllFree(size, h.free, off);
      assert false;
    }
  }

  // A free list as long as the page has objects has them all.
  lemma AllFree(size: nat, free: seq<nat>, off: nat)
    requires size > 0 && |free| == Capacity(size) && Distinct(free)
    requires (forall o: nat | o in free :: IsObject(size, o)) && IsObject(size, off)
    ensures off in free
  {
    var i: nat :| i < Capacity(size) && off == Offset(size, i);
    if off !in free {
      PigeonHole(size, free + [off], Capacity(size));
    }
  }

  // There are no more objects than fit.
  lemma {:induction false} PigeonHole(size: nat, s: seq<nat>, n: nat)
    requires size > 0 && Distinct(s) && forall o: nat | o in s :: exists i: nat :: i < n && o == Offset(size, i)
    ensures |s| <= n
    decreases n
  {
    if n == 0 {
      var first: nat := if |s| > 0 then s[0] else 0;
      assert s == [] || first in s;
    } else {
      var last := Offset(size, n - 1);
      if k :| 0 <= k < |s| && s[k] == last {
        CutMembers(s, k);
        forall o: nat | o in Cut(s, k) ensures exists i: nat :: i < n - 1 && o == Offset(size, i) {
          var i: nat :| i < n && o == Offset(size, i);
          assert i < n - 1;
        }
        PigeonHole(size, Cut(s, k), n - 1);
      } else {
        forall o: nat | o in s ensures exists i: nat :: i < n - 1 && o == Offset(size, i) {
          var i: nat :| i < n && o == Offset(size, i);
          assert i < n - 1;
        }
        PigeonHole(size, s, n - 1);
      }
    }
  }

  class ObjectPool {
    const size: nat
    var pages: map<nat, Header>
    var lists: seq<seq<nat>>               // per CPU
    ghost var used: set<(nat, nat)>        // objects handed out, by page and offset

    ghost predicate Valid()
      reads this
    {
      && size > 0 && size + HEADER <= PAGE && PagesOk(size, pages, used) && ListsOk(pages, lists)
    }

    constructor (size: nat, cpus: nat)
      requires 0 < size && size + HEADER <= PAGE
      ensures Valid() && used == {} && pages == map[] && this.size == size && lists == seq(cpus, _ => [])
    {
      this.size := size;
      pages, lists, used := map[], seq(cpus, _ => []), {};
    }

    // add_page(), with a new page.
    method AddPage(c: nat, page: nat)
      requires Valid() && c < |lists| && page !in pages
      modifies this
      ensures Valid() && |lists| == |old(lists)| && used == old(used) && lists[c] == old(lists[c]) + [page]
      ensures lists == old(lists)[c := lists[c]]
      ensures page in pages && pages == old(pages)[page := pages[page]]
      ensures pages[page].cpu == c && pages[page].nalloc == 0
    {
      var free := LinkObjects(size);
      OffsetsFit(size, 0);
      var h := Header(c, 0, free);
      NewPageOk(size, page, h, used);
      AddedOk(size, pages, used, lists, page, h);
      pages := pages[page := h];
      lists := lists[c := lists[c] + [page]];
    }

    // The first object of the first page of the list.
    method TakeFirst(c: nat) returns (page: nat, off: nat)
      requires Valid() && c < |lists| && lists[c] != []
      modifies this
      ensures Valid() && page == old(lists[c])[0] && page in old(pages)
      ensures (page, off) !in old(used) && used == old(used) + {(page, off)} && IsObject(size, off)
      ensures pages == old(pages)[page := pages[page]] && pages[page].cpu == c
      ensures pages[page].nalloc == old(pages)[page].nalloc + 1
      ensures lists == if pages[page].free == [] then old(lists)[c := old(lists[c])[1..]] else old(lists)
    {
      page := lists[c][0];
      assert page in lists[c] && Listed(pages, c, page);
      var h := pages[page];
      off := h.free[0];
      assert off in h.free;
      TakeObject(size, page, h, used);
      var h' := h.(nalloc := h.nalloc + 1, free := h.free[1..]);
      TakenOk(pages, lists, c, page, h');
      OthersOk(size, pages, used, page, h', used + {(page, off)});
      pages := pages[page := h'];
      used := used + {(page, off)};
      if h'.free == [] {
        lists := lists[c := lists[c][1..]];
      }
    }

    /** pool::alloc() on CPU c: an object that was not in use, from a page of that CPU. */
    method Alloc(c: nat, spare: nat) returns (page: nat, off: nat)
      requires Valid() && c < |lists| && spare !in pages
      modifies this
      ensures Valid() && |lists| == |old(lists)| && page in pages && pages[page].cpu == c
      ensures (page, off) !in old(used) && used == old(used) + {(page, off)} && IsObject(size, off)
      ensures pages == old(pages)[page := pages[page]] && lists == old(lists)[c := lists[c]]
      ensures old(lists[c]) == [] ==>
                page == spare && pages[page].nalloc == 1 && lists[c] == if pages[page].free == [] then [] else [page]
      ensures old(lists[c]) != [] ==>
                && page == old(lists[c])[0] && page in old(pages) && pages[page].nalloc == old(pages)[page].nalloc + 1
                && lists[c] == if pages[page].free == [] then old(lists[c])[1..] else old(lists[c])
    {
      if lists[c] == [] {
        AddPage(c, spare);
      }
      page, off := TakeFirst(c);
    }

    // The page leaves the pool.
    method Release(c: nat, page: nat, off: nat)
      requires Valid() && c < |lists| && (page, off) in used && page in pages && pages[page].cpu == c
      requires pages[page].nalloc == 1
      modifies this
      ensures Valid() && |lists| == |old(lists)| && used == old(used) - {(page, off)} && pages == old(pages) - {page}
    {
      ReleasedOk(size, pages, used, lists, c, page, off);
      if pages[page].free != [] {
        lists := lists[c := Erase(lists[c], page)];
      }
      pages := pages - {page};
      used := used - {(page, off)};
    }

    // The object goes back to its page: to the front of the list if others are in use, else to the back.
    method GiveBack(c: nat, page: nat, off: nat)
      requires Valid() && c < |lists| && (page, off) in used && page in pages && pages[page].cpu == c
      modifies this
      ensures Valid() && |lists| == |old(lists)| && used == old(used) - {(page, off)} && page in pages
    {
      var h := pages[page];
      assert PageOk(size, page, h, used);
      GiveObject(size, page, off, h, used);
      var h' := h.(nalloc := h.nalloc - 1, free := [off] + h.free);
      GivenOk(pages, lists, c, page, off, h.nalloc);
      OthersOk(size, pages, used, page, h', used - {(page, off)});
      if h.free == [] {
        if h'.nalloc > 0 {
          lists := lists[c := [page] + lists[c]];
        } else {
          lists := lists[c := lists[c] + [page]];
        }
      }
      pages := pages[page := h'];
      used := used - {(page, off)};
    }

    /** pool::free() on the CPU the page belongs to: the object is no longer in use; the page leaves the
        pool exactly if no object of it is in use and the last page of the list, which may be
        this one, has none in use either. */
    method FreeSameCpu(c: nat, page: nat, off: nat) returns (released: bool)
      requires Valid() && c < |lists| && (page, off) in used && page in pages && pages[page].cpu == c
      modifies this
      ensures Valid() && |lists| == |old(lists)| && used == old(used) - {(page, off)}
      ensures released <==> page !in pages
      ensures released <==> old(pages[page].nalloc) == 1 && LastIsFull(old(pages), old(lists[c]), page)
    {
      LastListed(pages, c, lists[c]);
      released := pages[page].nalloc == 1 && LastIsFull(pages, lists[c], page);
      if released {
        Release(c, page, off);
      } else {
        GiveBack(c, page, off);
      }
    }
  }

  // have_full_pages() once the count of page has gone to 0: the last page of the list has no object in use.
  predicate LastIsFull(pages: map<nat, Header>, list: seq<nat>, page: nat) {
    list != [] && var last := list[|list| - 1]; last == page || (last in pages && pages[last].nalloc == 0)
  }

  lemma MoreDistinct(s: seq<nat>, x: nat)
    requires Distinct(s) && x !in s
    ensures Distinct(s + [x]) && Distinct([x] + s)
  {
  }

  function Erase(s: seq<nat>, x: nat): seq<nat> {
    if s == [] then [] else if s[0] == x then s[1..] else [s[0]] + Erase(s[1..], x)
  }

  lemma {:induction false} EraseMembers(s: seq<nat>, x: nat)
    requires Distinct(s)
    ensures Distinct(Erase(s, x)) && forall y :: y in Erase(s, x) <==> y in s && y != x
  {
    if s != [] {
      assert s == [s[0]] + s[1..] && s[0] !in s[1..];
      EraseMembers(s[1..], x);
    }
  }

  lemma LastListed(pages: map<nat, Header>, c: nat, list: seq<nat>)
    requires ListOk(pages, c, list)
    ensures list != [] ==> list[|list| - 1] in pages
  {
    if list != [] {
      assert list[|list| - 1] in list;
    }
  }

  lemma GivenOk(pages: map<nat, Header>, lists: seq<seq<nat>>, c: nat, page: nat, off: nat, n: nat)
    requires ListsOk(pages, lists) && c < |lists| && page in pages && pages[page].cpu == c && n > 0
    ensures var h := pages[page].(nalloc := n - 1, free := [off] + pages[page].free);
            ListsOk(pages[page := h],
                    if pages[page].free != [] then lists
                    else if n > 1 then lists[c := [page] + lists[c]] else lists[c := lists[c] + [page]])
  {
    var h := pages[page].(nalloc := n - 1, free := [off] + pages[page].free);
    var nl := if pages[page].free != [] then lists
              else if n > 1 then lists[c := [page] + lists[c]] else lists[c := lists[c] + [page]];
    forall d: nat | d < |lists| ensures ListOk(pages[page := h], d, nl[d]) {
      assert ListOk(pages, d, lists[d]) && ListOk(pages, c, lists[c]);
      if d == c && pages[page].free == [] {
        MoreDistinct(lists[c], page);
      }
    }
  }

  lemma ReleasedOk(size: nat, pages: map<nat, Header>, used: set<(nat, nat)>, lists: seq<seq<nat>>,
                   c: nat, page: nat, off: nat)
    requires size > 0 && PagesOk(size, pages, used) && ListsOk(pages, lists) && c < |lists| && page in pages
    requires pages[page].cpu == c
    requires pages[page].nalloc == 1 && (page, off) in used
    ensures PagesOk(size, pages - {page}, used - {(page, off)})
    ensures ListsOk(pages - {page}, if pages[page].free != [] then lists[c := Erase(lists[c], page)] else lists)
  {
    var h := pages[page];
    assert PageOk(size, page, h, used);
    GiveObject(size, page, off, h, used);
    forall o: nat ensures (page, o) !in used - {(page, off)} {
      if (page, o) in used && o != off {
        AllFree(size, [off] + h.free, o);
      }
    }
    forall q | q in pages && q != page ensures PageOk(size, q, pages[q], used - {(page, off)}) {
      assert PageOk(size, q, pages[q], used);
    }
    var nl := if h.free != [] then lists[c := Erase(lists[c], page)] else lists;
    EraseMembers(lists[c], page);
    forall d: nat | d < |lists| ensures ListOk(pages - {page}, d, nl[d]) {
      assert ListOk(pages, d, lists[d]) && ListOk(pages, c, lists[c]);
    }
  }

  // The other pages do not notice.
  lemma OthersOk(size: nat, pages: map<nat, Header>, used: set<(nat, nat)>, page: nat, h: Header, now: set<(nat, nat)>)
    requires size > 0 && PagesOk(size, pages, used) && PageOk(size, page, h, now)
    requires forall o: (nat, nat) | o.0 != page :: o in now <==> o in used
    ensures PagesOk(size, pages[page := h], now)
  {
    forall q | q in pages && q != page ensures PageOk(size, q, pages[q], now) {
      assert PageOk(size, q, pages[q], used);
      forall off: nat ensures (q, off) in now <==> (q, off) in used {
      }
    }
  }

  lemma AddedOk(size: nat, pages: map<nat, Header>, used: set<(nat, nat)>, lists: seq<seq<nat>>, page: nat, h: Header)
    requires size > 0 && PagesOk(size, pages, used) && ListsOk(pages, lists) && page !in pages && h.cpu < |lists|
    requires h.free != []
    requires PageOk(size, page, h, used)
    ensures PagesOk(size, pages[page := h], used) && ListsOk(pages[page := h], lists[h.cpu := lists[h.cpu] + [page]])
  {
    OthersOk(size, pages, used, page, h, used);
    var ns, nl := pages[page := h], lists[h.cpu := lists[h.cpu] + [page]];
    forall d: nat | d < |lists| ensures ListOk(ns, d, nl[d]) {
      assert ListOk(pages, d, lists[d]);
      if d == h.cpu {
        MoreDistinct(lists[d], page);
      }
    }
  }

  lemma TakenOk(pages: map<nat, Header>, lists: seq<seq<nat>>, c: nat, page: nat, h: Header)
    requires ListsOk(pages, lists) && c < |lists| && lists[c] != [] && lists[c][0] == page && page in pages
    requires h.cpu == pages[page].cpu == c
    ensures ListsOk(pages[page := h], if h.free == [] then lists[c := lists[c][1..]] else lists)
  {
    var ns, nl := pages[page := h], if h.free == [] then lists[c := lists[c][1..]] else lists;
    CutMembers(lists[c], 0);
    assert Cut(lists[c], 0) == lists[c][1..];
    forall d: nat | d < |lists| ensures ListOk(ns, d, nl[d]) {
      assert ListOk(pages, d, lists[d]);
      assert page in lists[c];
    }
  }

  // A page with one object in use and room for another has a free one.
  lemma OneOfMany(size: nat, page: nat, h: Header, used: set<(nat, nat)>)
    requires size > 0 && PageOk(size, page, h, used) && h.nalloc == 1 && Capacity(size) >= 2
    ensures h.free != []
  {
  }

  /** An input for which the spare page is the page itself: with one object of the only page in use,
      freeing it leaves the pool without a page. */
  method SpareIsItself(size: nat, page: nat) returns (pool: ObjectPool, released: bool)
    requires 0 < size && size + HEADER <= PAGE && Capacity(size) >= 2
    ensures fresh(pool) && pool.Valid() && released && page !in pool.pages
  {
    pool := new ObjectPool(size, 1);
    var got, off := pool.Alloc(0, page);
    OneOfMany(size, page, pool.pages[page], pool.used);
    released := pool.FreeSameCpu(0, page, off);
  }
}
