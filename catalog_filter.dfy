/** The catalog search of the customer app's Discover tab: a category chip
    ("ALL" or one category) and a free-text query narrow the catalog, keeping
    its order. */
module CatalogFilter {
  import opened Types
  import opened Text
  import opened Catalog

  /** The category chip: every category, or exactly one. */
  datatype CategoryFilter = All | Only(category: ServiceCategory)

  /** Keeps the elements `keep` accepts, in their order. */
  function Filter<T(==)>(s: seq<T>, keep: T -> bool): (r: seq<T>)
    ensures |r| <= |s|
    ensures forall i :: 0 <= i < |r| ==> r[i] in s && keep(r[i])
    ensures forall i :: 0 <= i < |s| && keep(s[i]) ==> s[i] in r
  {
    if s == [] then []
    else (if keep(s[0]) then [s[0]] else []) + Filter(s[1..], keep)
  }

  /** `idx` lists, in increasing order, exactly the positions of `s` whose
      element `keep` accepts, and `r` holds those elements in that order:
      `r` is the order-preserving subsequence of `s` selected by `keep`. */
  ghost predicate Selects<T>(s: seq<T>, keep: T -> bool, r: seq<T>, idx: seq<int>) {
    && |idx| == |r|
    && (forall k :: 0 <= k < |idx| ==> 0 <= idx[k] < |s| && r[k] == s[idx[k]] && keep(s[idx[k]]))
    && (forall k, l :: 0 <= k < l < |idx| ==> idx[k] < idx[l])
    && (forall i {:trigger keep(s[i])} :: 0 <= i < |s| && keep(s[i]) ==> i in idx)
  }

  /** `Filter` returns the order-preserving subsequence its predicate selects. */
  lemma {:induction false} FilterSelects<T>(s: seq<T>, keep: T -> bool) returns (idx: seq<int>)
    ensures Selects(s, keep, Filter(s, keep), idx)
  {
    if s == [] {
      idx := [];
    } else {
      var rest := Filter(s[1..], keep);
      var tail := FilterSelects(s[1..], keep);
      ShiftedPositions(s, keep, rest, tail);
      ShiftedComplete(s, keep, rest, tail);
      idx := SelectsCons(s, keep, rest, Shift(tail));
    }
  }

  /** One step of `FilterSelects`: a selection of `rest` from every position
      of `s` but 0, preceded by position 0 when `s[0]` is kept, selects from `s`. */
  lemma SelectsCons<T>(s: seq<T>, keep: T -> bool, rest: seq<T>, shifted: seq<int>) returns (idx: seq<int>)
    requires s != [] && |shifted| == |rest|
    requires forall k :: 0 <= k < |rest| ==> 1 <= shifted[k] < |s| && rest[k] == s[shifted[k]] && keep(rest[k])
    requires forall k, l :: 0 <= k < l < |rest| ==> shifted[k] < shifted[l]
    requires forall i {:trigger keep(s[i])} :: 1 <= i < |s| && keep(s[i]) ==> i in shifted
    ensures Selects(s, keep, (if keep(s[0]) then [s[0]] else []) + rest, idx)
  {
    if keep(s[0]) {
      idx := [0] + shifted;
      ConsPositions(s, keep, rest, shifted);
      ConsComplete(s, keep, shifted);
    } else {
      idx := shifted;
      assert [] + rest == rest;
      forall i | 0 <= i < |s| && keep(s[i]) ensures i in idx {
        assert i != 0;
      }
    }
  }

  /** Position 0 in front of positions that are all at least 1 keeps them
      increasing and in step with `[s[0]] + rest`. */
  lemma ConsPositions<T>(s: seq<T>, keep: T -> bool, rest: seq<T>, shifted: seq<int>)
    requires s != [] && keep(s[0]) && |shifted| == |rest|
    requires forall k :: 0 <= k < |rest| ==> 1 <= shifted[k] < |s| && rest[k] == s[shifted[k]] && keep(rest[k])
    requires forall k, l :: 0 <= k < l < |rest| ==> shifted[k] < shifted[l]
    ensures var idx, r := [0] + shifted, [s[0]] + rest;
      && (forall k :: 0 <= k < |idx| ==> 0 <= idx[k] < |s| && r[k] == s[idx[k]] && keep(s[idx[k]]))
      && (forall k, l :: 0 <= k < l < |idx| ==> idx[k] < idx[l])
  {
    var idx, r := [0] + shifted, [s[0]] + rest;
    assert forall k :: 1 <= k < |idx| ==> idx[k] == shifted[k - 1] && r[k] == rest[k - 1];
  }

  /** Position 0 in front of every other kept position gives every kept position. */
  lemma ConsComplete<T>(s: seq<T>, keep: T -> bool, shifted: seq<int>)
    requires s != []
    requires forall i {:trigger keep(s[i])} :: 1 <= i < |s| && keep(s[i]) ==> i in shifted
    ensures forall i {:trigger keep(s[i])} :: 0 <= i < |s| && keep(s[i]) ==> i in [0] + shifted
  {
    forall i | 0 <= i < |s| && keep(s[i]) ensures i in [0] + shifted {
      if i > 0 {
        assert i in shifted;
      }
    }
  }

  /** Every position in `tail`, plus one. */
  function Shift(tail: seq<int>): (shifted: seq<int>)
    ensures |shifted| == |tail|
    ensures forall k :: 0 <= k < |tail| ==> shifted[k] == tail[k] + 1
  {
    seq(|tail|, k requires 0 <= k < |tail| => tail[k] + 1)
  }

  /** A selection from `s[1..]`, shifted, picks the same elements from `s`, in
      the same order. */
  lemma ShiftedPositions<T>(s: seq<T>, keep: T -> bool, rest: seq<T>, tail: seq<int>)
    requires s != [] && Selects(s[1..], keep, rest, tail)
    ensures |Shift(tail)| == |rest|
    ensures forall k :: 0 <= k < |rest| ==> 1 <= Shift(tail)[k] < |s| && rest[k] == s[Shift(tail)[k]] && keep(rest[k])
    ensures forall k, l :: 0 <= k < l < |rest| ==> Shift(tail)[k] < Shift(tail)[l]
  {
    forall k | 0 <= k < |rest| ensures 1 <= Shift(tail)[k] < |s| && rest[k] == s[Shift(tail)[k]] && keep(rest[k]) {
      assert s[1..][tail[k]] == s[Shift(tail)[k]];
    }
  }

  /** A selection from `s[1..]`, shifted, misses no kept position of `s` but 0. */
  lemma ShiftedComplete<T>(s: seq<T>, keep: T -> bool, rest: seq<T>, tail: seq<int>)
    requires s != [] && Selects(s[1..], keep, rest, tail)
    ensures forall i {:trigger keep(s[i])} :: 1 <= i < |s| && keep(s[i]) ==> i in Shift(tail)
  {
    var shifted := Shift(tail);
    forall i | 1 <= i < |s| && keep(s[i]) ensures i in shifted {
      assert s[1..][i - 1] == s[i];
      var k :| 0 <= k < |tail| && tail[k] == i - 1;
      assert shifted[k] == i;
    }
  }

  /** Filtering by a predicate that accepts every element changes nothing. */
  lemma {:induction false} FilterKeepsAll<T>(s: seq<T>, keep: T -> bool)
    requires forall i :: 0 <= i < |s| ==> keep(s[i])
    ensures Filter(s, keep) == s
  {
    if s != [] {
      FilterKeepsAll(s[1..], keep);
    }
  }

  /** Only the predicates' verdicts on the elements of `s` matter. */
  lemma {:induction false} FilterCongruent<T>(s: seq<T>, p: T -> bool, q: T -> bool)
    requires forall i :: 0 <= i < |s| ==> p(s[i]) == q(s[i])
    ensures Filter(s, p) == Filter(s, q)
  {
    if s != [] {
      FilterCongruent(s[1..], p, q);
    }
  }

  /** Two filters in a row are one filter by the conjunction. */
  lemma {:induction false} FilterTwice<T>(s: seq<T>, p: T -> bool, q: T -> bool, pq: T -> bool)
    requires forall x :: pq(x) == (p(x) && q(x))
    ensures Filter(Filter(s, p), q) == Filter(s, pq)
  {
    if s != [] {
      FilterTwice(s[1..], p, q, pq);
      var rest := Filter(s[1..], p);
      if p(s[0]) {
        assert Filter(s, p) == [s[0]] + rest;
        assert ([s[0]] + rest)[1..] == rest;
      } else {
        assert Filter(s, p) == rest;
      }
    }
  }

  /** A service passes the search: its category is the chosen one (any, for
      `All`), and its name contains the query ignoring case (any name, when
      the query is empty). */
  predicate Matches(filter: CategoryFilter, query: string, s: Service) {
    && (filter.All? || s.category == filter.category)
    && (query == [] || ContainsIgnoringCase(s.name, query))
  }

  function MatchesFn(filter: CategoryFilter, query: string): Service -> bool {
    s => Matches(filter, query, s)
  }

  /** The services shown on the Discover tab: first narrowed by category
      unless the chip is `All`, then by name when the query is non-empty. */
  function FilteredServices(catalog: seq<Service>, filter: CategoryFilter, query: string): (r: seq<Service>)
    ensures forall s :: s in r <==> s in catalog && Matches(filter, query, s)
    ensures filter == All && query == [] ==> r == catalog
  {
    var byCategory :=
      if filter.All? then catalog
      else Filter(catalog, (s: Service) => s.category == filter.category);
    if query != [] then Filter(byCategory, (s: Service) => ContainsIgnoringCase(s.name, query))
    else byCategory
  }

  /** The two chained filters are one filter by `Matches`. */
  lemma FilteredServicesIsOneFilter(catalog: seq<Service>, filter: CategoryFilter, query: string)
    ensures FilteredServices(catalog, filter, query) == Filter(catalog, MatchesFn(filter, query))
  {
    var byName := (s: Service) => ContainsIgnoringCase(s.name, query);
    var keep := MatchesFn(filter, query);
    match filter
    case All =>
      if query == [] {
        FilterKeepsAll(catalog, keep);
      } else {
        FilterCongruent(catalog, byName, keep);
      }
    case Only(c) =>
      var byCat := (s: Service) => s.category == c;
      if query == [] {
        FilterCongruent(catalog, byCat, keep);
      } else {
        FilterTwice(catalog, byCat, byName, keep);
      }
  }

  /** The Discover list is the order-preserving subsequence of the catalog
      made of exactly the services that match the search. */
  lemma FilteredServicesSelects(catalog: seq<Service>, filter: CategoryFilter, query: string)
    returns (idx: seq<int>)
    ensures Selects(catalog, MatchesFn(filter, query), FilteredServices(catalog, filter, query), idx)
  {
    FilteredServicesIsOneFilter(catalog, filter, query);
    idx := FilterSelects(catalog, MatchesFn(filter, query));
  }

  /** The "CLEANING" chip with no query shows only Regular Cleaning. */
  lemma CleaningChipExample()
    ensures FilteredServices(LondonServices, Only(Cleaning), "") == [RegularCleaning]
  {
    var keep := (s: Service) => s.category == Cleaning;
    var others := [LaundryAndIroning, BoilerService, ApplianceRepair,
                   VerifiedChildcare, MathsTutoring, FullValet, PersonalErrands];
    assert LondonServices == [RegularCleaning] + others;
    FilterDropsAll(others, keep);
  }

  /** Filtering by a predicate that rejects every element leaves nothing. */
  lemma {:induction false} FilterDropsAll<T>(s: seq<T>, keep: T -> bool)
    requires forall i :: 0 <= i < |s| ==> !keep(s[i])
    ensures Filter(s, keep) == []
  {
    if s != [] {
      FilterDropsAll(s[1..], keep);
    }
  }
}
