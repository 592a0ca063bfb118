/** Pages of a list (packages/utils/src/pagination.ts). */
module Pagination {

  /** `Math.ceil(totalItems / pageSize)` */
  function CeilDiv(n: nat, d: nat): nat
    requires d >= 1
  {
    (n + d - 1) / d
  }

  function TotalPages(totalItems: nat, pageSize: nat): nat
    requires pageSize >= 1
  {
    if CeilDiv(totalItems, pageSize) > 1 then CeilDiv(totalItems, pageSize) else 1
  }

  datatype Window = Window(skip: nat, take: nat)

  function PaginationToOffset(page: nat, pageSize: nat): Window
    requires page >= 1
  {
    Window((page - 1) * pageSize, pageSize)
  }

  /** What OFFSET/LIMIT returns: nothing past the end. */
  function Slice<T>(items: seq<T>, w: Window): seq<T> {
    if w.skip >= |items| then []
    else if w.skip + w.take >= |items| then items[w.skip..]
    else items[w.skip..w.skip + w.take]
  }

  function Page<T>(items: seq<T>, page: nat, pageSize: nat): seq<T>
    requires page >= 1
  {
    Slice(items, PaginationToOffset(page, pageSize))
  }

  function FirstPages<T>(items: seq<T>, pages: nat, pageSize: nat): seq<T> {
    if pages == 0 then [] else FirstPages(items, pages - 1, pageSize) + Page(items, pages, pageSize)
  }

  function Min(a: nat, b: nat): nat {
    if a < b then a else b
  }

  lemma CeilDivIsLeast(n: nat, d: nat)
    requires d >= 1
    ensures CeilDiv(n, d) * d >= n
    ensures forall k: nat | k < CeilDiv(n, d) :: k * d < n
  {
    var q := CeilDiv(n, d);
    assert n + d - 1 == d * q + (n + d - 1) % d;
    forall k: nat | k < q ensures k * d < n {
      assert k * d <= (q - 1) * d by { MulMono(k, q - 1, d); }
    }
  }

  lemma MulMono(a: nat, b: nat, d: nat)
    requires a <= b
    ensures a * d <= b * d
  {
  }

  lemma NextPage<T>(items: seq<T>, pages: nat, pageSize: nat)
    requires pages >= 1
    ensures items[..Min((pages - 1) * pageSize, |items|)] + Page(items, pages, pageSize)
            == items[..Min(pages * pageSize, |items|)]
  {
    var skip := (pages - 1) * pageSize;
    assert pages * pageSize == skip + pageSize;
  }

  lemma {:induction false} FirstPagesIsPrefix<T>(items: seq<T>, pages: nat, pageSize: nat)
    requires pageSize >= 1
    ensures FirstPages(items, pages, pageSize) == items[..Min(pages * pageSize, |items|)]
  {
    if pages > 0 {
      FirstPagesIsPrefix(items, pages - 1, pageSize);
      NextPage(items, pages, pageSize);
    }
  }

  /**
   * The pages 1..totalPages, one after the other, are the list; and totalPages is
   * the least number of pages, at least one, for which that holds.
   */
  lemma PagesPartition<T>(items: seq<T>, pageSize: nat)
    requires pageSize >= 1
    ensures var total := TotalPages(|items|, pageSize);
            && total >= 1
            && FirstPages(items, total, pageSize) == items
            && forall k: nat | 1 <= k < total :: FirstPages(items, k, pageSize) != items
  {
    var total := TotalPages(|items|, pageSize);
    CeilDivIsLeast(|items|, pageSize);
    FirstPagesIsPrefix(items, total, pageSize);
    if CeilDiv(|items|, pageSize) <= 1 {
      MulMono(CeilDiv(|items|, pageSize), 1, pageSize);
    }
    forall k: nat | 1 <= k < total ensures FirstPages(items, k, pageSize) != items {
      FirstPagesIsPrefix(items, k, pageSize);
      assert k * pageSize < |items|;
    }
  }

  /** Index i of the list is on page p. */
  predicate OnPage(i: nat, p: nat, pageSize: nat)
    requires p >= 1
  {
    PaginationToOffset(p, pageSize).skip <= i < PaginationToOffset(p, pageSize).skip + pageSize
  }

  lemma OnOnePageOnly(i: nat, p: nat, q: nat, pageSize: nat)
    requires 1 <= p <= q && OnPage(i, p, pageSize) && OnPage(i, q, pageSize)
    ensures p == q
  {
    assert p * pageSize == (p - 1) * pageSize + pageSize;
    if p < q {
      MulMono(p, q - 1, pageSize);
    }
  }

  lemma PageExists(n: nat, pageSize: nat, i: nat)
    requires pageSize >= 1 && i < n
    ensures i / pageSize + 1 <= TotalPages(n, pageSize)
    ensures OnPage(i, i / pageSize + 1, pageSize)
  {
    var p := i / pageSize + 1;
    assert (p - 1) * pageSize + i % pageSize == i;
    CeilDivIsLeast(n, pageSize);
    if p > TotalPages(n, pageSize) {
      MulMono(CeilDiv(n, pageSize), p - 1, pageSize);
    }
  }

  lemma PlaceOnPage<T>(items: seq<T>, p: nat, pageSize: nat, r: nat)
    requires p >= 1 && r < pageSize && (p - 1) * pageSize + r < |items|
    ensures r < |Page(items, p, pageSize)| && Page(items, p, pageSize)[r] == items[(p - 1) * pageSize + r]
  {
    var skip := (p - 1) * pageSize;
    assert PaginationToOffset(p, pageSize) == Window(skip, pageSize);
  }

  /** Every index is on exactly one of the pages, at the place the slice gives it. */
  lemma EachIndexOnOnePage<T>(items: seq<T>, pageSize: nat, i: nat, q: nat)
    requires pageSize >= 1 && i < |items| && q >= 1
    ensures var p := i / pageSize + 1;
            && p <= TotalPages(|items|, pageSize)
            && i % pageSize < |Page(items, p, pageSize)| && Page(items, p, pageSize)[i % pageSize] == items[i]
            && (OnPage(i, q, pageSize) <==> q == p)
  {
    var p, r := i / pageSize + 1, i % pageSize;
    assert (p - 1) * pageSize + r == i;
    PageExists(|items|, pageSize, i);
    PlaceOnPage(items, p, pageSize, r);
    if OnPage(i, q, pageSize) {
      if q < p {
        OnOnePageOnly(i, q, p, pageSize);
      } else {
        OnOnePageOnly(i, p, q, pageSize);
      }
    }
  }
}
