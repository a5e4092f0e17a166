/** The page arithmetic both in-memory API stores share (src/services/leadsApiService.js
    and src/services/vendorsApiService.js): `slice(page*size, page*size+size)` over the
    filtered list, with the page metadata computed from it. */
module MockPaging {
  import opened Wrappers
  import opened ApiTypes

  /** `params.page || 0`. */
  function PageNumber(page: Option<nat>): nat {
    if page.Some? then page.value else 0
  }

  /** `params.size || 10`: a missing or zero size means ten. */
  function PageSize(size: Option<nat>): (r: nat)
    ensures r >= 1
  {
    if size.Some? && size.value != 0 then size.value else 10
  }

  function Min(a: int, b: int): int { if a < b then a else b }

  /** `Array.prototype.slice(start, end)` for `0 <= start <= end`. */
  function Slice<T>(items: seq<T>, start: nat, end: nat): (r: seq<T>)
    requires start <= end
    ensures |r| == if start >= |items| then 0 else Min(end, |items|) - start
    ensures forall k :: 0 <= k < |r| ==> r[k] == items[start + k]
  {
    if start >= |items| then [] else items[start..Min(end, |items|)]
  }

  /** The page a store answers for the filtered list `items`. */
  function PageOf<T>(items: seq<T>, page: Option<nat>, size: Option<nat>): Page<T> {
    var p, s := PageNumber(page), PageSize(size);
    var start := p * s;
    var end := start + s;
    Page(Slice(items, start, end), |items|, (|items| + s - 1) / s, s, p,
         p == 0, end >= |items|, Min(s, |items| - start), |items| == 0)
  }

  /** The content is the run of at most `size` items starting at `page * size`. */
  lemma PageContent<T>(items: seq<T>, page: Option<nat>, size: Option<nat>)
    ensures var r, n, p, s := PageOf(items, page, size), |items|, PageNumber(page), PageSize(size);
      && r.size == s && r.number == p && r.totalElements == n
      && |r.content| <= s
      && (forall k :: 0 <= k < |r.content| ==> r.content[k] == items[p * s + k])
      && (p * s < n ==> |r.content| == Min(s, n - p * s))
      && (p * s >= n ==> r.content == [])
  {
  }

  /** `totalPages` is the least number of pages of `size` items that hold the list. */
  lemma PageTotals<T>(items: seq<T>, page: Option<nat>, size: Option<nat>)
    ensures var r, n, s := PageOf(items, page, size), |items|, PageSize(size);
      r.totalPages * s >= n && (r.totalPages > 0 ==> (r.totalPages - 1) * s < n)
  {
    CeilDiv(|items|, PageSize(size));
  }

  /** `first` is page 0, `last` is a page reaching the end of the list, `empty` an
      empty list, and `numberOfElements` is computed without clamping at 0. */
  lemma PageFlags<T>(items: seq<T>, page: Option<nat>, size: Option<nat>)
    ensures var r, n, p, s := PageOf(items, page, size), |items|, PageNumber(page), PageSize(size);
      && (r.first <==> p == 0)
      && (r.last <==> (p + 1) * s >= n)
      && (r.empty <==> n == 0)
      && r.numberOfElements == Min(s, n - p * s)
  {
    var p, s := PageNumber(page), PageSize(size);
    PageProducts(p + 1, s);
  }

  /** `Math.ceil(n / s)` as integer division. */
  lemma CeilDiv(n: nat, s: nat)
    requires s >= 1
    ensures var q := (n + s - 1) / s; q * s >= n && (q > 0 ==> (q - 1) * s < n)
  {
    var q := (n + s - 1) / s;
    var m := (n + s - 1) % s;
    assert n + s - 1 == q * s + m && 0 <= m < s;
    if q > 0 {
      assert (q - 1) * s == q * s - s;
    }
  }

  /** `numberOfElements` is the length of the content for pages that start inside the
      list, and negative for pages past its end. */
  lemma NumberOfElementsPastEnd<T>(items: seq<T>, page: Option<nat>, size: Option<nat>)
    ensures var r := PageOf(items, page, size);
      (PageNumber(page) * PageSize(size) <= |items| ==> r.numberOfElements == |r.content|)
      && (PageNumber(page) * PageSize(size) > |items| ==> r.numberOfElements < 0)
  {
    PageContent(items, page, size);
  }

  /** The items of pages `0 .. k-1` for page size `s`, in page order: page `i` holds
      the items from `i * s` up to `i * s + s` (`PageIsSlice`). */
  function PagesUpTo<T>(items: seq<T>, s: nat, k: nat): seq<T>
    requires s >= 1
  {
    if k == 0 then [] else PagesUpTo(items, s, k - 1) + Slice(items, (k - 1) * s, (k - 1) * s + s)
  }

  /** Page `i` of size `s` is the slice of the list between `i * s` and `i * s + s`. */
  lemma PageIsSlice<T>(items: seq<T>, i: nat, s: nat)
    requires s >= 1
    ensures PageOf(items, Some(i), Some(s)).content == Slice(items, i * s, i * s + s)
  {
    assert PageNumber(Some(i)) == i && PageSize(Some(s)) == s;
  }

  /** Every item of a page comes from the list it pages over. */
  lemma ContentFromItems<T>(items: seq<T>, page: Option<nat>, size: Option<nat>)
    ensures var c := PageOf(items, page, size).content;
      forall k :: 0 <= k < |c| ==> c[k] in items
  {
    PageContent(items, page, size);
  }

  /** With no page and no size, the content is the first ten items. */
  lemma FirstPageDefault<T>(items: seq<T>)
    ensures PageOf(items, None, None).content == items[..Min(10, |items|)]
  {
    assert PageNumber(None) == 0 && PageSize(None) == 10;
    SliceClamped(items, 0, 10, 0, Min(10, |items|));
  }

  /** A slice is the run between its two ends clamped to the list's length. */
  lemma SliceClamped<T>(items: seq<T>, start: nat, end: nat, lo: nat, hi: nat)
    requires start <= end && lo == Min(start, |items|) && hi == Min(end, |items|)
    ensures lo <= hi && Slice(items, start, end) == items[lo..hi]
  {
  }

  /** The items before `a` followed by those from `a` to `b` are the items before `b`. */
  lemma PrefixThenRun<T>(items: seq<T>, a: nat, b: nat)
    requires a <= b <= |items|
    ensures items[..a] + items[a..b] == items[..b]
  {
    assert forall i :: 0 <= i < b ==> (items[..a] + items[a..b])[i] == items[i];
  }

  /** The products the page walk steps through. */
  lemma PageProducts(k: nat, s: nat)
    requires k >= 1
    ensures 0 <= (k - 1) * s <= k * s && (k - 1) * s + s == k * s
  {
    var j: nat := k - 1;
    assert j * s >= 0;
    assert (j + 1) * s == j * s + s;
  }

  /** Adding page `k - 1`, which starts at `start`, to the items before `start` gives
      the items before `start + s`. */
  lemma PagesStep<T>(items: seq<T>, s: nat, k: nat, start: nat, a: nat, b: nat)
    requires s >= 1 && k >= 1 && start == (k - 1) * s
    requires a == Min(start, |items|) && b == Min(start + s, |items|)
    requires PagesUpTo(items, s, k - 1) == items[..a]
    ensures PagesUpTo(items, s, k) == items[..b]
  {
    SliceClamped(items, start, start + s, a, b);
    PrefixThenRun(items, a, b);
  }

  /** The first `k` pages are the first `k * s` items. */
  lemma {:induction false} PagesUpToPrefix<T>(items: seq<T>, s: nat, k: nat)
    requires s >= 1
    ensures PagesUpTo(items, s, k) == items[..Min(k * s, |items|)]
  {
    if k > 0 {
      PagesUpToPrefix(items, s, k - 1);
      PageProducts(k, s);
      var start: nat := (k - 1) * s;
      PagesStep(items, s, k, start, Min(start, |items|), Min(start + s, |items|));
    }
  }

  /** Walking every page from 0 to `totalPages - 1` lists each item once, in order. */
  lemma PagesCoverAll<T>(items: seq<T>, size: Option<nat>)
    ensures var s := PageSize(size);
      PagesUpTo(items, s, PageOf(items, None, size).totalPages) == items
  {
    var s := PageSize(size);
    var t := PageOf(items, None, size).totalPages;
    PagesUpToPrefix(items, s, t);
    PageTotals(items, None, size);
    assert items[..Min(t * s, |items|)] == items;
  }
}
