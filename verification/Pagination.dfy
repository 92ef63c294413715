/** Page requests and the pages they select from an ordered result. */
module Pagination {
  import opened Domain

  datatype PageRequest = PageRequest(page: int, pageSize: int) {
    function Offset(): int {
      (page - 1) * pageSize
    }
  }

  datatype PaginationMetadata = PaginationMetadata(page: int, pageSize: int, totalItems: int, totalPages: int)

  /** Parameters are parsed elsewhere; None stands for an absent parameter, `Invalid` for one that is no integer. */
  datatype Parameter = Absent | Number(n: int) | Invalid

  function ParsePositive(value: Parameter, default: int): Option<int> {
    match value
    case Absent => Some(default)
    case Invalid => None
    case Number(n) => if n <= 0 then None else Some(n)
  }

  function ParsePageRequest(page: Parameter, pageSize: Parameter, defaultSize: int, maxSize: int): Option<PageRequest> {
    var parsedPage, parsedSize := ParsePositive(page, 1), ParsePositive(pageSize, defaultSize);
    if parsedPage.None? || parsedSize.None? || parsedSize.value > maxSize then None
    else Some(PageRequest(parsedPage.value, parsedSize.value))
  }

  function BuildMetadata(request: PageRequest, totalItems: nat): PaginationMetadata
    requires request.pageSize >= 1
  {
    PaginationMetadata(request.page, request.pageSize, totalItems,
        (totalItems + request.pageSize - 1) / request.pageSize)
  }

  /** LIMIT and OFFSET applied to an ordered result. */
  function Limited<T>(items: seq<T>, limit: nat, offset: nat): seq<T> {
    var from := if offset <= |items| then offset else |items|;
    var to := if from + limit <= |items| then from + limit else |items|;
    items[from..to]
  }

  function Page<T>(items: seq<T>, request: PageRequest): seq<T>
    requires request.page >= 1 && request.pageSize >= 1
  {
    OffsetIsNatural(request);
    Limited(items, request.pageSize, request.Offset())
  }

  lemma OffsetIsNatural(request: PageRequest)
    requires request.page >= 1 && request.pageSize >= 1
    ensures request.Offset() >= 0
  {
    MulMonotone(0, request.page - 1, request.pageSize);
  }

  lemma MulMonotone(a: nat, b: nat, size: nat)
    requires a <= b
    ensures a * size <= b * size
  {
    assert b * size == a * size + (b - a) * size;
  }

  /** The first `n` pages one after the other. */
  function FirstPages<T>(items: seq<T>, size: nat, n: nat): seq<T>
    requires size >= 1
  {
    if n == 0 then [] else FirstPages(items, size, n - 1) + Page(items, PageRequest(n, size))
  }

  function Min(a: int, b: int): int {
    if a <= b then a else b
  }

  lemma {:induction false} FirstPagesArePrefix<T>(items: seq<T>, size: nat, n: nat)
    requires size >= 1
    ensures 0 <= Min(n * size, |items|)
    ensures FirstPages(items, size, n) == items[..Min(n * size, |items|)]
  {
    if n != 0 {
      FirstPagesArePrefix(items, size, n - 1);
      assert n * size == (n - 1) * size + size;
    }
  }

  /** The answer repeats the request and the total; its pages are enough to hold everything, and none is in vain. */
  lemma PageCount(page: int, total: nat, size: nat)
    requires size >= 1
    ensures var metadata := BuildMetadata(PageRequest(page, size), total);
            var pages := metadata.totalPages;
            && metadata.page == page && metadata.pageSize == size && metadata.totalItems == total
            && pages >= 0
            && (pages == 0 <==> total == 0)
            && (pages > 0 ==> (pages - 1) * size < total)
            && total <= pages * size
  {
    var pages := (total + size - 1) / size;
    var rest := (total + size - 1) % size;
    assert total + size - 1 == size * pages + rest;
    assert size * pages == pages * size;
    if pages > 0 {
      assert (pages - 1) * size == pages * size - size;
    }
  }

  /**
   * Pages 1 to `totalPages` partition the result: in order they give it back exactly, each of them is
   * non-empty and all but the last are full; every later page is empty.
   */
  lemma PagesPartition<T>(items: seq<T>, size: nat)
    requires size >= 1
    ensures var pages := BuildMetadata(PageRequest(1, size), |items|).totalPages;
            && pages >= 0
            && FirstPages(items, size, pages) == items
            && (forall n :: 1 <= n <= pages ==> 0 < |Page(items, PageRequest(n, size))| <= size)
            && (forall n :: 1 <= n < pages ==> |Page(items, PageRequest(n, size))| == size)
            && (forall n :: n > pages ==> Page(items, PageRequest(n, size)) == [])
  {
    var pages := BuildMetadata(PageRequest(1, size), |items|).totalPages;
    PageCount(1, |items|, size);
    FirstPagesArePrefix(items, size, pages);
    assert items[..|items|] == items;
    forall n | n >= 1
      ensures n <= pages ==> 0 < |Page(items, PageRequest(n, size))| <= size
      ensures n < pages ==> |Page(items, PageRequest(n, size))| == size
      ensures n > pages ==> Page(items, PageRequest(n, size)) == []
    {
      PageLength(items, size, n, pages);
    }
  }

  lemma PageLength<T>(items: seq<T>, size: nat, n: nat, pages: nat)
    requires size >= 1 && n >= 1
    requires pages > 0 ==> (pages - 1) * size < |items|
    requires |items| <= pages * size
    ensures n <= pages ==> 0 < |Page(items, PageRequest(n, size))| <= size
    ensures n < pages ==> |Page(items, PageRequest(n, size))| == size
    ensures n > pages ==> Page(items, PageRequest(n, size)) == []
  {
    if n <= pages {
      MulMonotone(n - 1, pages - 1, size);
      if n < pages {
        MulMonotone(n, pages - 1, size);
        assert n * size == (n - 1) * size + size;
      }
    } else {
      MulMonotone(pages, n - 1, size);
    }
  }

  /** An accepted request is the one asked for, or the default, and in range; a refused one had a bad parameter. */
  lemma AcceptedRequests(page: Parameter, pageSize: Parameter, defaultSize: int, maxSize: int)
    requires 1 <= defaultSize <= maxSize
    ensures var request := ParsePageRequest(page, pageSize, defaultSize, maxSize);
            && (request.Some? ==> 1 <= request.value.page && 1 <= request.value.pageSize <= maxSize)
            && (request.None? <==>
                  || page.Invalid? || (page.Number? && page.n <= 0)
                  || pageSize.Invalid? || (pageSize.Number? && !(1 <= pageSize.n <= maxSize)))
            && (request.Some? ==>
                  && (if page.Number? then request.value.page == page.n else request.value.page == 1)
                  && (if pageSize.Number? then request.value.pageSize == pageSize.n
                      else request.value.pageSize == defaultSize))
  {
  }
}
