/**
 * The catalogue query of the product service: keep the products that offer
 * one of the requested sizes, then sort the result by each requested key in
 * turn. The catalogue is a parameter; latency and the Promise are not modelled.
 */
module ProductService {
  import opened Dtos

  datatype ProductQuery = ProductQuery(sizes: Option<seq<string>>)

  /** Paging fields are accepted but never used by the query. */
  datatype PageRequest = PageRequest(page: Option<int>, limit: Option<int>, sort: Option<seq<Sort>>)

  // ---------------------------------------------------------------------------
  // Size filter
  // ---------------------------------------------------------------------------

  /** Some available size of `p` is one of `sizes`. */
  predicate SharesSize(p: ProductDto, sizes: seq<string>) {
    exists s :: s in p.availableSizes && s in sizes
  }

  /** `r` is obtained from `s` by dropping elements, keeping the order of the rest. */
  ghost predicate IsSubsequence<T>(r: seq<T>, s: seq<T>)
    decreases |s|
  {
    if r == [] then true
    else if s == [] then false
    else (r[0] == s[0] && IsSubsequence(r[1..], s[1..])) || IsSubsequence(r, s[1..])
  }

  lemma {:induction false} SubsequenceReflexive<T>(s: seq<T>)
    ensures IsSubsequence(s, s)
    decreases |s|
  {
    if s != [] {
      SubsequenceReflexive(s[1..]);
    }
  }

  /** The products of `catalogue` offering one of `sizes`, in catalogue order. */
  function FilterBySizes(catalogue: seq<ProductDto>, sizes: seq<string>): (r: seq<ProductDto>)
    ensures forall p :: p in r ==> SharesSize(p, sizes)
    ensures forall p :: p in catalogue && SharesSize(p, sizes) ==> p in r
    ensures forall p :: multiset(r)[p] == if SharesSize(p, sizes) then multiset(catalogue)[p] else 0
    ensures IsSubsequence(r, catalogue)
  {
    if catalogue == [] then []
    else
      var rest := FilterBySizes(catalogue[1..], sizes);
      assert catalogue == [catalogue[0]] + catalogue[1..];
      if SharesSize(catalogue[0], sizes) then [catalogue[0]] + rest else rest
  }

  /**
   * The sizes the query asks for; none when the query or its sizes are absent.
   * The filter runs exactly when this is non-empty, as `query?.sizes?.length`
   * is truthy exactly for a present, non-empty size list.
   */
  function RequestedSizes(query: Option<ProductQuery>): (r: seq<string>)
    ensures r != [] <==> query.Some? && query.value.sizes.Some? && query.value.sizes.value != []
    ensures r != [] ==> query.value.sizes == Some(r)
  {
    if query.Some? && query.value.sizes.Some? then query.value.sizes.value else []
  }

  /** The sort keys of the page request; none when it or its sort list is absent. */
  function SortKeys(pageable: Option<PageRequest>): (r: seq<Sort>)
    ensures pageable.None? || pageable.value.sort.None? ==> r == []
    ensures pageable.Some? && pageable.value.sort.Some? ==> r == pageable.value.sort.value
  {
    if pageable.Some? && pageable.value.sort.Some? then pageable.value.sort.value else []
  }

  /** The list the service sorts: the size filter applies only to a non-empty size list. */
  function Filtered(catalogue: seq<ProductDto>, query: Option<ProductQuery>): (r: seq<ProductDto>)
    ensures RequestedSizes(query) == [] ==> r == catalogue
    ensures IsSubsequence(r, catalogue)
    ensures forall p ::
              multiset(r)[p] ==
              if RequestedSizes(query) == [] || SharesSize(p, RequestedSizes(query)) then multiset(catalogue)[p] else 0
  {
    var sizes := RequestedSizes(query);
    if |sizes| > 0 then FilterBySizes(catalogue, sizes)
    else
      SubsequenceReflexive(catalogue);
      catalogue
  }

  // ---------------------------------------------------------------------------
  // Sorting
  // ---------------------------------------------------------------------------

  /**
   * The comparator handed to the array sort: 1 when `a`'s property is at least
   * `b`'s and -1 otherwise, negated for a descending key. It is not a
   * consistent comparator: on equal keys it answers the same both ways round.
   */
  function Compare(a: ProductDto, b: ProductDto, key: Sort): (r: int)
    ensures r == 1 || r == -1
    ensures r < 0 <==> if key.order == Asc then KeyOf(a, key.property) < KeyOf(b, key.property)
                       else KeyOf(a, key.property) >= KeyOf(b, key.property)
    ensures KeyOf(a, key.property) == KeyOf(b, key.property) ==> r == (if key.order == Asc then 1 else -1)
  {
    var result := if KeyOf(a, key.property) >= KeyOf(b, key.property) then 1 else -1;
    var order := if key.order == Asc then 1 else -1;
    result * order
  }

  /** The key's property of `p`, negated for a descending key, so that both orders ascend in it. */
  function Rank(p: ProductDto, key: Sort): int {
    if key.order == Asc then KeyOf(p, key.property) else -KeyOf(p, key.property)
  }

  /** `a` may stand before `b` in a list ordered by `key`: non-decreasing for `Asc`, non-increasing for `Desc`. */
  predicate InOrder(a: ProductDto, b: ProductDto, key: Sort)
    ensures InOrder(a, b, key) <==> if key.order == Asc then KeyOf(a, key.property) <= KeyOf(b, key.property)
                                     else KeyOf(a, key.property) >= KeyOf(b, key.property)
  {
    Rank(a, key) <= Rank(b, key)
  }

  /** Non-decreasing in the key's property for `Asc`, non-increasing for `Desc`. */
  predicate SortedBy(s: seq<ProductDto>, key: Sort) {
    forall i, j :: 0 <= i < j < |s| ==> InOrder(s[i], s[j], key)
  }

  /** The comparator asks to move `a` before `b` only when that keeps the order, and otherwise `b` may precede `a`. */
  lemma CompareAgreesWithOrder(a: ProductDto, b: ProductDto, key: Sort)
    ensures Compare(a, b, key) < 0 ==> InOrder(a, b, key)
    ensures Compare(a, b, key) >= 0 ==> InOrder(b, a, key)
  {
  }

  /** Exchanges `a[p]` and `a[q]`. */
  method Swap(a: array<ProductDto>, p: int, q: int)
    requires 0 <= p < a.Length && 0 <= q < a.Length
    modifies a
    ensures a[p] == old(a[q]) && a[q] == old(a[p])
    ensures forall k :: 0 <= k < a.Length && k != p && k != q ==> a[k] == old(a[k])
    ensures multiset(a[..]) == multiset(old(a[..]))
  {
    a[p], a[q] := a[q], a[p];
  }

  /** The first `n` elements of `a` are in the key's order. */
  ghost predicate PrefixSorted(a: array<ProductDto>, n: int, key: Sort)
    reads a
  {
    forall k, m :: 0 <= k < m < n && m < a.Length ==> InOrder(a[k], a[m], key)
  }

  /**
   * One pass of the insertion sort: moves `a[i]` one place left exactly while
   * the comparator returns a negative value for it and its left neighbour.
   */
  method InsertLeft(a: array<ProductDto>, i: int, key: Sort)
    requires 0 <= i < a.Length
    requires PrefixSorted(a, i, key)
    modifies a
    ensures PrefixSorted(a, i + 1, key)
    ensures forall k :: i < k < a.Length ==> a[k] == old(a[k])
    ensures multiset(a[..]) == multiset(old(a[..]))
  {
    var j := i;
    while j > 0 && Compare(a[j], a[j - 1], key) < 0
      invariant 0 <= j <= i
      invariant forall k, m :: 0 <= k < m <= i && k != j && m != j ==> InOrder(a[k], a[m], key)
      invariant forall m :: j < m <= i ==> InOrder(a[j], a[m], key)
      invariant forall k :: i < k < a.Length ==> a[k] == old(a[k])
      invariant multiset(a[..]) == multiset(old(a[..]))
    {
      CompareAgreesWithOrder(a[j], a[j - 1], key);
      Swap(a, j - 1, j);
      j := j - 1;
    }
    if j > 0 {
      CompareAgreesWithOrder(a[j], a[j - 1], key);
    }
  }

  /** Sorts `a` in place with the comparator, by insertion. */
  method SortByKey(a: array<ProductDto>, key: Sort)
    modifies a
    ensures SortedBy(a[..], key)
    ensures multiset(a[..]) == multiset(old(a[..]))
  {
    var i := 0;
    while i < a.Length
      invariant 0 <= i <= a.Length
      invariant PrefixSorted(a, i, key)
      invariant multiset(a[..]) == multiset(old(a[..]))
    {
      InsertLeft(a, i, key);
      i := i + 1;
    }
  }

  /** Sorts `a` by every key in turn, each sort starting from the result of the previous one. */
  method SortByEach(a: array<ProductDto>, keys: seq<Sort>)
    modifies a
    ensures multiset(a[..]) == multiset(old(a[..]))
    ensures keys == [] ==> a[..] == old(a[..])
    ensures keys != [] ==> SortedBy(a[..], keys[|keys| - 1])
  {
    var i := 0;
    while i < |keys|
      invariant 0 <= i <= |keys|
      invariant multiset(a[..]) == multiset(old(a[..]))
      invariant i == 0 ==> a[..] == old(a[..])
      invariant 0 < i ==> SortedBy(a[..], keys[i - 1])
    {
      SortByKey(a, keys[i]);
      i := i + 1;
    }
  }

  /**
   * The query: copy the catalogue, apply the size filter, then sort the list
   * by every key of the request in turn.
   */
  method GetProducts(catalogue: seq<ProductDto>, query: Option<ProductQuery>, pageable: Option<PageRequest>)
    returns (products: seq<ProductDto>)
    ensures multiset(products) == multiset(Filtered(catalogue, query))
    ensures SortKeys(pageable) == [] ==> products == Filtered(catalogue, query)
    ensures SortKeys(pageable) != [] ==> SortedBy(products, SortKeys(pageable)[|SortKeys(pageable)| - 1])
  {
    var list := Filtered(catalogue, query);
    products := list;
    if pageable.Some? && pageable.value.sort.Some? {
      var a := new ProductDto[|list|](k requires 0 <= k < |list| => list[k]);
      assert a[..] == list;
      SortByEach(a, pageable.value.sort.value);
      products := a[..];
    }
  }
}
