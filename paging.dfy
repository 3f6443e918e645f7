/** Page arithmetic shared by the bid list and the skill-set table: the
    JavaScript Array.prototype.slice and Math.ceil as the two views use them. */
module Paging {

  function Min(a: int, b: int): int
  {
    if a <= b then a else b
  }

  /** The position Array.prototype.slice reads for an index argument on a list
      of length n: a negative index counts from the end, and the result is
      clamped to [0, n]. */
  function SliceIndex(i: int, n: nat): (r: nat)
    ensures r <= n
    ensures 0 <= i ==> r == (if i <= n then i else n)
    ensures i < 0 ==> r == (if -i <= n then n + i else 0)
  {
    if i < 0 then (if n + i < 0 then 0 else n + i) else Min(i, n)
  }

  /** s.slice(start, end). */
  function Slice<T>(s: seq<T>, start: int, end: int): (r: seq<T>)
    ensures 0 <= start <= end ==> r == s[Min(start, |s|)..Min(end, |s|)]
    ensures start <= end ==> |r| <= end - start
  {
    var a, b := SliceIndex(start, |s|), SliceIndex(end, |s|);
    if a < b then s[a..b] else []
  }

  /** Math.ceil(n / size) for a positive page size: the least number of pages
      of that size that hold n entries. */
  function CeilDiv(n: nat, size: nat): (r: nat)
    requires size > 0
    ensures r * size >= n
    ensures (r - 1) * size < n
  {
    (n + size - 1) / size
  }

  /** The rows shown on page `page` (counted from 1):
      s.slice((page - 1) * size, (page - 1) * size + size). Every page from
      the first to the last holds at least one row, and a page past the last
      one is empty. */
  function Page<T>(s: seq<T>, page: int, size: nat): (r: seq<T>)
    ensures |r| <= size
    ensures page >= 1 ==> (page - 1) * size >= 0
    ensures page >= 1 ==> r == s[Min((page - 1) * size, |s|)..Min((page - 1) * size + size, |s|)]
    ensures size > 0 && page >= 1 ==> (r != [] <==> page <= CeilDiv(|s|, size))
  {
    var first := (page - 1) * size;
    NonNegativeProduct(page - 1, size);
    if size > 0 && page >= 1 then
      FirstRowOnPage(|s|, page, size);
      Slice(s, first, first + size)
    else
      Slice(s, first, first + size)
  }

  /** Page `page` starts inside a list of n rows exactly when it is one of
      the first CeilDiv(n, size) pages. */
  lemma FirstRowOnPage(n: nat, page: int, size: nat)
    requires size > 0 && page >= 1
    ensures (page - 1) * size < n <==> page <= CeilDiv(n, size)
  {
    var t := CeilDiv(n, size);
    if page <= t {
      MulMono(page - 1, t - 1, size);
    } else {
      MulMono(t, page - 1, size);
    }
  }

  lemma NextPageOffset(page: int, size: nat)
    ensures page * size == (page - 1) * size + size
  {
  }

  lemma NonNegativeProduct(a: int, size: nat)
    ensures a >= 0 ==> a * size >= 0
  {
  }

  lemma MulMono(a: int, b: int, size: nat)
    requires a <= b
    ensures a * size <= b * size
  {
  }

  /** Pages 1..k one after the other. */
  function PagesUpTo<T>(s: seq<T>, size: nat, k: nat): seq<T>
  {
    if k == 0 then [] else PagesUpTo(s, size, k - 1) + Page(s, k, size)
  }

  /** Pages 1..k together are the first k * size rows. */
  lemma {:induction false} PagesUpToIsPrefix<T>(s: seq<T>, size: nat, k: nat)
    ensures PagesUpTo(s, size, k) == s[..Min(k * size, |s|)]
  {
    if k > 0 {
      PagesUpToIsPrefix(s, size, k - 1);
      var a, b := (k - 1) * size, k * size;
      NextPageOffset(k, size);
      assert Page(s, k, size) == s[Min(a, |s|)..Min(b, |s|)];
      PrefixThenSlice(s, a, b);
    }
  }

  /** The first a rows followed by rows a to b are the first b rows. */
  lemma PrefixThenSlice<T>(s: seq<T>, a: int, b: int)
    requires 0 <= a <= b
    ensures s[..Min(a, |s|)] + s[Min(a, |s|)..Min(b, |s|)] == s[..Min(b, |s|)]
  {
  }

  /** Pages 1..totalPages together are the whole list, in order. */
  lemma AllPagesCoverList<T>(s: seq<T>, size: nat)
    requires size > 0
    ensures PagesUpTo(s, size, CeilDiv(|s|, size)) == s
  {
    PagesUpToIsPrefix(s, size, CeilDiv(|s|, size));
  }

  /** There is more than one page exactly when the list is longer than a page. */
  lemma SeveralPagesIff(n: nat, size: nat)
    requires size > 0
    ensures CeilDiv(n, size) > 1 <==> n > size
  {
    var t := CeilDiv(n, size);
    if t > 1 {
      MulMono(1, t - 1, size);
    }
    if n > size && t <= 1 {
      MulMono(t, 1, size);
    }
  }
}
