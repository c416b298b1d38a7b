/** Catalog matching: the dimension predicate, substring containment and
    the first-match search over the catalog. */
module PartLookup {
  import opened Types

  /** Tolerance for an exact-size constraint, in millimetres (strict). */
  const Tolerance: real := 1.0

  function Abs(x: real): real
  {
    if x < 0.0 then -x else x
  }

  /** Does the requested size `v` satisfy the catalog constraint `c`? */
  function MatchesDimension(c: Option<DimConstraint>, v: real): (b: bool)
    ensures c.None? ==> b
    ensures c.Some? && c.value.Exact? ==> (b <==> c.value.size - Tolerance < v < c.value.size + Tolerance)
    ensures c.Some? && c.value.Range? ==> (b <==> c.value.min <= v && v <= c.value.max)
  {
    match c
    case None => true
    case Some(Exact(size)) => Abs(size - v) < Tolerance
    case Some(Range(lo, hi)) => v >= lo && v <= hi
  }

  /** The boundary cases of the exact-size tolerance. */
  lemma ExactToleranceBoundary()
    ensures MatchesDimension(Some(Exact(500.0)), 500.999)
    ensures MatchesDimension(Some(Exact(500.0)), 499.001)
    ensures !MatchesDimension(Some(Exact(500.0)), 501.0)
    ensures !MatchesDimension(Some(Exact(500.0)), 499.0)
    ensures !MatchesDimension(Some(Exact(500.0)), 498.9)
  {
  }

  /** The boundary cases of an inclusive range. */
  lemma RangeInclusiveBoundary()
    ensures MatchesDimension(Some(Range(400.0, 600.0)), 400.0)
    ensures MatchesDimension(Some(Range(400.0, 600.0)), 600.0)
    ensures !MatchesDimension(Some(Range(400.0, 600.0)), 399.999)
    ensures !MatchesDimension(Some(Range(400.0, 600.0)), 600.001)
  {
  }

  /** `pattern` occurs in `s` starting at position `i`. */
  predicate OccursAt(s: string, pattern: string, i: int)
  {
    0 <= i <= |s| - |pattern| && s[i..i + |pattern|] == pattern
  }

  /** `pattern` occurs in `s` as a contiguous substring. */
  predicate Includes(s: string, pattern: string)
  {
    exists i | 0 <= i <= |s| - |pattern| :: OccursAt(s, pattern, i)
  }

  /** Containment is the same as `s` splitting as `prefix + pattern + suffix`. */
  lemma IncludesIffSplit(s: string, pattern: string)
    ensures Includes(s, pattern) <==>
      exists pre, post :: s == pre + pattern + post
  {
    if Includes(s, pattern) {
      var i :| 0 <= i <= |s| - |pattern| && OccursAt(s, pattern, i);
      assert s == s[..i] + pattern + s[i + |pattern|..];
    }
    if exists pre, post :: s == pre + pattern + post {
      var pre, post :| s == pre + pattern + post;
      assert OccursAt(s, pattern, |pre|);
    }
  }

  /** Every string includes the empty pattern. */
  lemma IncludesEmpty(s: string)
    ensures Includes(s, "")
  {
    assert OccursAt(s, "", 0);
  }

  /** One catalog query: the role's category and part-number pattern, the
      module's finish, and the sizes to check (`None` = axis not queried). */
  datatype Query = Query(
    category: Category,
    finish: Finish,
    pattern: Option<string>,
    width: Option<real>,
    height: Option<real>)

  /** The search predicate, as the checks are applied: category, finish,
      part-number pattern (an empty pattern counts as no pattern), width, height. */
  predicate Accepts(item: CatalogItem, q: Query)
  {
    item.category == q.category &&
    item.finish == q.finish &&
    (q.pattern.Some? && q.pattern.value != "" ==> Includes(item.partId, q.pattern.value)) &&
    (q.width.Some? ==> MatchesDimension(item.dimensions.width, q.width.value)) &&
    (q.height.Some? ==> MatchesDimension(item.dimensions.height, q.height.value))
  }

  /** Index of the first catalog entry the query accepts, if any. */
  function FindIndex(catalog: seq<CatalogItem>, q: Query): (r: Option<nat>)
    ensures r.Some? ==> r.value < |catalog|
    decreases |catalog|
  {
    if catalog == [] then None
    else if Accepts(catalog[0], q) then Some(0)
    else
      match FindIndex(catalog[1..], q)
      case None => None
      case Some(i) => Some(i + 1)
  }

  /** The search returns the first accepted index, and `None` exactly when no
      entry is accepted. */
  lemma {:induction false} FindIndexFirst(catalog: seq<CatalogItem>, q: Query)
    ensures FindIndex(catalog, q).Some? ==>
      FindIndex(catalog, q).value < |catalog| && Accepts(catalog[FindIndex(catalog, q).value], q)
    ensures FindIndex(catalog, q).Some? ==>
      forall j :: 0 <= j < FindIndex(catalog, q).value ==> !Accepts(catalog[j], q)
    ensures FindIndex(catalog, q).None? <==> forall j :: 0 <= j < |catalog| ==> !Accepts(catalog[j], q)
    decreases |catalog|
  {
    if catalog != [] && !Accepts(catalog[0], q) {
      FindIndexFirst(catalog[1..], q);
      forall j | 1 <= j < |catalog| ensures catalog[1..][j - 1] == catalog[j] { }
    }
  }

  /** The first catalog entry the query accepts, or `None` when there is none. */
  function FindPart(catalog: seq<CatalogItem>, q: Query): Option<CatalogItem>
  {
    match FindIndex(catalog, q)
    case None => None
    case Some(i) => Some(catalog[i])
  }

  /** `FindPart` returns an accepted entry preceded by no accepted entry, and
      `None` exactly when no entry is accepted. */
  lemma FindPartFirst(catalog: seq<CatalogItem>, q: Query)
    ensures FindPart(catalog, q).None? <==> forall j :: 0 <= j < |catalog| ==> !Accepts(catalog[j], q)
    ensures FindPart(catalog, q).Some? ==>
      Accepts(FindPart(catalog, q).value, q) &&
      (exists i :: 0 <= i < |catalog| && catalog[i] == FindPart(catalog, q).value &&
                   (forall j :: 0 <= j < i ==> !Accepts(catalog[j], q)))
  {
    FindIndexFirst(catalog, q);
  }

  /** Two catalogs agree on everything query `q` looks at: part number,
      finish, category, and each dimension that `q` actually queries. */
  predicate AgreeFor(c1: seq<CatalogItem>, c2: seq<CatalogItem>, q: Query)
  {
    |c1| == |c2| &&
    forall i :: 0 <= i < |c1| ==>
      c1[i].partId == c2[i].partId && c1[i].finish == c2[i].finish &&
      c1[i].category == c2[i].category &&
      (q.width.Some? ==> c1[i].dimensions.width == c2[i].dimensions.width) &&
      (q.height.Some? ==> c1[i].dimensions.height == c2[i].dimensions.height)
  }

  /** An axis the query omits is never consulted (nor are depth and
      description): catalogs that differ only there give the same match. */
  lemma {:induction false} OmittedAxisIgnored(c1: seq<CatalogItem>, c2: seq<CatalogItem>, q: Query)
    requires AgreeFor(c1, c2, q)
    ensures FindIndex(c1, q) == FindIndex(c2, q)
    decreases |c1|
  {
    if c1 != [] {
      assert Accepts(c1[0], q) == Accepts(c2[0], q);
      assert AgreeFor(c1[1..], c2[1..], q) by {
        forall i | 0 <= i < |c1[1..]|
          ensures c1[1..][i] == c1[i + 1] && c2[1..][i] == c2[i + 1]
        {
        }
      }
      OmittedAxisIgnored(c1[1..], c2[1..], q);
    }
  }

  /** First match wins: entries appended after a match never change it, and
      when the prefix has no match the search continues into the suffix. */
  lemma FirstMatchStable(c1: seq<CatalogItem>, c2: seq<CatalogItem>, q: Query)
    ensures FindIndex(c1, q).Some? ==> FindIndex(c1 + c2, q) == FindIndex(c1, q)
    ensures FindIndex(c1, q).None? ==>
      FindIndex(c1 + c2, q) == (match FindIndex(c2, q)
                                case None => None
                                case Some(i) => Some(|c1| + i))
  {
    FindIndexFirst(c1, q);
    FindIndexFirst(c2, q);
    FindIndexFirst(c1 + c2, q);
    forall j | 0 <= j < |c1| ensures (c1 + c2)[j] == c1[j] { }
    forall j | 0 <= j < |c2| ensures (c1 + c2)[|c1| + j] == c2[j] { }
  }
}
