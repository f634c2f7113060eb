/** The champion record shared by the backend and both grid components, the grids' search
    filter, and the shapes of the `/api/champions` answer as the browser sees it. */
module Champions {
  import opened Strings
  import opened PyJson

  /** One champion in the shape the backend builds and the grids declare. */
  datatype Champion = Champion(championId: string, name: string, iconUrl: string)

  /** The search rule of both grids: the lowercased name contains the lowercased search text. */
  predicate Matches(c: Champion, search: string)
    ensures search == "" ==> Matches(c, search)
    ensures Matches(c, search) ==> |search| <= |c.name|
  {
    Contains(Lower(c.name), Lower(search))
  }

  /** `champions.filter(c => c.name.toLowerCase().includes(search.toLowerCase()))` */
  function Filter(cs: seq<Champion>, search: string): (r: seq<Champion>)
    ensures |r| <= |cs|
    ensures forall c :: c in r ==> c in cs && Matches(c, search)
  {
    if cs == [] then []
    else if Matches(cs[0], search) then [cs[0]] + Filter(cs[1..], search)
    else Filter(cs[1..], search)
  }

  /** `a` is obtained from `b` by deleting elements, keeping the order of the rest. */
  predicate IsSubsequence<T(==)>(a: seq<T>, b: seq<T>)
    decreases |b|
  {
    a == [] || (b != [] && ((a[0] == b[0] && IsSubsequence(a[1..], b[1..])) || IsSubsequence(a, b[1..])))
  }

  /** The filtered list keeps the original order. */
  lemma {:induction false} FilterIsSubsequence(cs: seq<Champion>, search: string)
    ensures IsSubsequence(Filter(cs, search), cs)
  {
    if cs != [] {
      FilterIsSubsequence(cs[1..], search);
      if Matches(cs[0], search) {
        var r := Filter(cs, search);
        assert r[0] == cs[0] && r[1..] == Filter(cs[1..], search);
      }
    }
  }

  /** Sound and complete, multiplicities included: a champion occurs in the filtered list
      as often as in the original when it matches, and not at all otherwise. */
  lemma {:induction false} FilterCount(cs: seq<Champion>, search: string, c: Champion)
    ensures multiset(Filter(cs, search))[c] == if Matches(c, search) then multiset(cs)[c] else 0
  {
    if cs != [] {
      FilterCount(cs[1..], search, c);
      assert cs == [cs[0]] + cs[1..];
      assert multiset(cs) == multiset([cs[0]]) + multiset(cs[1..]);
      if Matches(cs[0], search) {
        assert multiset(Filter(cs, search)) == multiset([cs[0]]) + multiset(Filter(cs[1..], search));
      }
    }
  }

  lemma FilterKeeps(cs: seq<Champion>, search: string, c: Champion)
    ensures c in Filter(cs, search) <==> c in cs && Matches(c, search)
  {
    FilterCount(cs, search, c);
  }

  /** Nothing is shown by the filter exactly when no champion matches. */
  lemma FilterEmptyIff(cs: seq<Champion>, search: string)
    ensures Filter(cs, search) == [] <==> forall c :: c in cs ==> !Matches(c, search)
  {
    if Filter(cs, search) == [] {
      forall c | c in cs ensures !Matches(c, search) {
        FilterKeeps(cs, search, c);
      }
    }
  }

  /** The filter's whole specification: an order-preserving selection of exactly the
      matching champions, empty exactly when nothing matches. */
  lemma FilterSpec(cs: seq<Champion>, search: string)
    ensures IsSubsequence(Filter(cs, search), cs)
    ensures forall c :: c in Filter(cs, search) <==> c in cs && Matches(c, search)
    ensures Filter(cs, search) == [] <==> forall c :: c in cs ==> !Matches(c, search)
  {
    FilterIsSubsequence(cs, search);
    FilterEmptyIff(cs, search);
    forall c ensures c in Filter(cs, search) <==> c in cs && Matches(c, search) {
      FilterKeeps(cs, search, c);
    }
  }

  /** The empty search keeps every champion. */
  lemma {:induction false} FilterEmptySearch(cs: seq<Champion>)
    ensures Filter(cs, "") == cs
  {
    if cs != [] {
      FilterEmptySearch(cs[1..]);
      assert Matches(cs[0], "");
    }
  }

  /** Filtering twice with the same search is filtering once. */
  lemma {:induction false} FilterIdempotent(cs: seq<Champion>, search: string)
    ensures Filter(Filter(cs, search), search) == Filter(cs, search)
  {
    if cs != [] {
      FilterIdempotent(cs[1..], search);
      if Matches(cs[0], search) {
        var r := Filter(cs, search);
        assert r[0] == cs[0] && r[1..] == Filter(cs[1..], search);
      }
    }
  }

  /** The search ignores the case of ASCII letters in the search text. */
  lemma FilterIgnoresSearchCase(cs: seq<Champion>, search: string)
    ensures Filter(cs, Lower(search)) == Filter(cs, search)
    decreases |cs|
  {
    LowerIdempotent(search);
    if cs != [] {
      FilterIgnoresSearchCase(cs[1..], search);
    }
  }

  /** The JSON value the browser parsed from `/api/champions`, as the grids use it:
      `null` (whose `.success` throws), or an object whose `success` member is truthy or
      not and whose `champions` member is the list the grid stores. */
  datatype Body = NullBody | Payload(success: bool, champions: seq<Champion>)

  /** How the browser's fetch of `/api/champions` settles. */
  datatype FetchOutcome =
    | FetchRejected   // `fetch` itself rejects
    | BodyReadFailed  // the response arrived but reading its body rejects
    | Unparsable      // the body is not JSON
    | Parsed(body: Body)

  /** The only error text either grid ever sets. */
  const LoadError := "Failed to load champions"

  /** The fetch delivered a list that the grid stores. */
  predicate Delivers(o: FetchOutcome)
  {
    o.Parsed? && o.body.Payload? && o.body.success
  }

  /** JavaScript truthiness of a parsed JSON value. */
  predicate Truthy(j: Json)
    ensures Truthy(j) <==> j != JNull && j != JBool(false) && j != JNum(0) && j != JStr("")
  {
    match j
    case JNull => false
    case JBool(b) => b
    case JNum(n) => n != 0
    case JStr(s) => s != ""
    case _ => true
  }

  /** `data.success` for a parsed value other than `null`: only an object can carry the
      member, and a missing member reads as `undefined`, which is falsy. */
  predicate SuccessOf(j: Json)
    ensures SuccessOf(j) ==> j.JObj? && "success" in j.fields
    ensures j.JObj? && "success" in j.fields && j.fields["success"] == JBool(true) ==> SuccessOf(j)
  {
    j.JObj? && "success" in j.fields && Truthy(j.fields["success"])
  }

  /** The body a grid sees for a parsed value whose `champions` member it would store. */
  function BodyOf(j: Json, champions: seq<Champion>): (b: Body)
    ensures b == NullBody <==> j.JNull?
    ensures b.Payload? ==> (b.success <==> j.JObj? && "success" in j.fields && Truthy(j.fields["success"]))
  {
    if j.JNull? then NullBody else Payload(SuccessOf(j), champions)
  }
}
