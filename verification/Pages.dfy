/** Listing users page by page. */
module Pages {
  /** The page size that is used: fifty when none is asked for, at most a hundred. */
  function Clamp(perPage: int): (size: nat)
    ensures 1 <= size <= 100
  {
    if perPage <= 0 then 50 else if perPage > 100 then 100 else perPage
  }

  const WORD := 0x1_0000_0000_0000_0000

  /** The value of an integer in 64 bits. */
  function Wrap(n: int): (w: int)
    ensures -WORD / 2 <= w < WORD / 2
  {
    (n + WORD / 2) % WORD - WORD / 2
  }

  function Min(a: nat, b: nat): nat {
    if a < b then a else b
  }

  /** `LIMIT size OFFSET offset`; a negative offset counts as none. */
  function Window<T>(list: seq<T>, size: nat, offset: int): seq<T> {
    var from := if offset < 0 then 0 else offset;
    if from >= |list| then [] else list[from..Min(from + size, |list|)]
  }

  /** The page that a request gets, from the users it selects in their order. */
  function Page<T>(list: seq<T>, page: int, perPage: int): seq<T> {
    Window(list, Clamp(perPage), Wrap(page * Clamp(perPage)))
  }

  /** The number of pages, rounded up. */
  function PageCount(n: nat, size: nat): nat
    requires size > 0
  {
    (n + size - 1) / size
  }

  /** The first `count` pages one after another. */
  function Pages<T>(list: seq<T>, count: nat, perPage: int): seq<T> {
    if count == 0 then [] else Pages(list, count - 1, perPage) + Page(list, count - 1, perPage)
  }

  lemma WrapSmall(n: int)
    requires 0 <= n < WORD / 2
    ensures Wrap(n) == n
  {
  }

  /** The first `count` pages are a prefix of the list. */
  lemma {:induction false} PagesPrefix<T>(list: seq<T>, count: nat, perPage: int)
    requires |list| < WORD / 2
    requires count == 0 || (count - 1) * Clamp(perPage) < WORD / 2
    ensures Pages(list, count, perPage) == list[..Min(count * Clamp(perPage), |list|)]
    decreases count
  {
    var size := Clamp(perPage);
    if count > 0 {
      assert count > 1 ==> (count - 2) * size <= (count - 1) * size;
      PagesPrefix(list, count - 1, perPage);
      WrapSmall((count - 1) * size);
      assert count * size == (count - 1) * size + size;
      var from, to := Min((count - 1) * size, |list|), Min(count * size, |list|);
      assert Page(list, count - 1, perPage) == list[from..to];
      assert list[..to] == list[..from] + list[from..to];
    }
  }

  lemma CountCovers(n: nat, size: nat)
    requires size > 0
    ensures PageCount(n, size) * size >= n
    ensures PageCount(n, size) > 0 ==> (PageCount(n, size) - 1) * size < n
  {
    var q := PageCount(n, size);
    assert n + size - 1 == q * size + (n + size - 1) % size;
    assert q > 0 ==> (q - 1) * size == q * size - size;
  }

  /** Whatever page size is asked for, the pages up to the last make up the whole list, in order and
      without omission or repetition. */
  lemma AllPages<T>(list: seq<T>, perPage: int)
    requires |list| < WORD / 2
    ensures Pages(list, PageCount(|list|, Clamp(perPage)), perPage) == list
  {
    var size := Clamp(perPage);
    CountCovers(|list|, size);
    PagesPrefix(list, PageCount(|list|, size), perPage);
    assert list[..|list|] == list;
  }

  /** A page beyond the last is empty exactly when its offset, as it comes out in 64 bits, is still
      beyond the list. */
  lemma LaterPageIff<T>(list: seq<T>, page: int, perPage: int)
    ensures Page(list, page, perPage) == [] <==>
              list == [] || Wrap(page * Clamp(perPage)) >= |list|
  {
  }

  /** Below the wrap-around the later pages are empty. */
  lemma LaterPagesEmpty<T>(list: seq<T>, page: int, perPage: int)
    requires PageCount(|list|, Clamp(perPage)) <= page && page * Clamp(perPage) < WORD / 2
    ensures Page(list, page, perPage) == []
  {
    var size := Clamp(perPage);
    CountCovers(|list|, size);
    assert PageCount(|list|, size) * size <= page * size;
    WrapSmall(page * size);
  }

  /** At the wrap-around they are not: this page number is far beyond the end, and gives the first page. */
  lemma WrappedPageIsFirst<T>(list: seq<T>)
    requires list != []
    ensures Page(list, 0x4000_0000_0000_0000, 100) == Page(list, 0, 100) != []
  {
    assert 0x4000_0000_0000_0000 * 100 == 25 * WORD;
  }

  /** The rows of a window, appended one by one. */
  method Rows<T>(list: seq<T>, size: nat, offset: int) returns (rows: seq<T>)
    requires size > 0
    ensures rows == Window(list, size, offset)
  {
    rows := [];
    var from := if offset < 0 then 0 else offset;
    var row := from;
    while row < |list| && |rows| < size
      invariant from <= row && (row == from || row <= |list|) && |rows| == row - from <= size
      invariant from <= |list| ==> rows == list[from..row]
    {
      rows := rows + [list[row]];
      row := row + 1;
    }
  }

  /** `matching` are the users the search selects, in the order the database has for this query. */
  method ListUsers<T>(matching: seq<T>, page: int, perPage: int) returns (users: seq<T>)
    ensures users == Page(matching, page, perPage)
  {
    var size := perPage;
    if size <= 0 {
      size := 50;
    }
    if size > 100 {
      size := 100;
    }
    assert size == Clamp(perPage);
    users := Rows(matching, size, Wrap(page * size));
  }
}
