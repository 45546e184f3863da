/** What the store's `findMany` does with the `where`, `orderBy` and `take`
    arguments the listing routes pass: filter the service table, order it
    promoted-first then newest-first, and keep a prefix. */
module Query {
  import opened Common
  import opened Store

  /** `contains` with `mode: "insensitive"`, for ASCII text. */
  predicate ContainsInsensitive(text: string, needle: string)
  {
    exists i :: 0 <= i <= |text| && OccursAt(LowerStr(needle), LowerStr(text), i)
  }

  predicate OccursAt(needle: string, text: string, i: nat)
  {
    i + |needle| <= |text| && text[i..i + |needle|] == needle
  }

  /** How the needle is written does not matter. */
  lemma ContainsIgnoresNeedleCase(text: string, needle: string)
    ensures ContainsInsensitive(text, needle) == ContainsInsensitive(text, UpperStr(needle))
    ensures ContainsInsensitive(text, needle) == ContainsInsensitive(text, LowerStr(needle))
  {
    LowerStrForgetsCase(needle);
  }

  /** `{ gte?: n, lte?: n }` on the price column. */
  datatype PriceRange = PriceRange(gte: Option<int>, lte: Option<int>)

  /** The `where` argument: a status, an optional OR over title, description
      and country, and optional category, country-code and price filters. */
  datatype Where = Where(status: ServiceStatus, text: Option<string>, category: Option<string>,
                         countryCode: Option<string>, price: Option<PriceRange>)

  predicate InRange(price: int, r: PriceRange)
  {
    (r.gte.None? || price >= r.gte.value) && (r.lte.None? || price <= r.lte.value)
  }

  predicate Matches(w: Where, s: Service)
  {
    && s.status == w.status
    && (w.text.None? || ContainsInsensitive(s.title, w.text.value) ||
        ContainsInsensitive(s.description, w.text.value) ||
        ContainsInsensitive(s.country, w.text.value))
    && (w.category.None? || CategoryName(s.category) == w.category.value)
    && (w.countryCode.None? || s.countryCode == w.countryCode.value)
    && (w.price.None? || InRange(s.price, w.price.value))
  }

  /** The rows matching `w`, each as often as the table holds it. */
  function Filter(table: seq<Service>, w: Where): (r: seq<Service>)
    ensures forall s :: s in r ==> Matches(w, s)
    ensures forall s :: multiset(r)[s] == if Matches(w, s) then multiset(table)[s] else 0
  {
    if table == [] then []
    else
      assert table == [table[0]] + table[1..];
      (if Matches(w, table[0]) then [table[0]] else []) + Filter(table[1..], w)
  }

  /** `orderBy: [{ isPromoted: "desc" }, { createdAt: "desc" }]`. */
  predicate RanksBefore(a: Service, b: Service)
  {
    (a.isPromoted && !b.isPromoted) || (a.isPromoted == b.isPromoted && a.createdAt >= b.createdAt)
  }

  predicate Ranked(s: seq<Service>)
  {
    forall i, j :: 0 <= i < j < |s| ==> RanksBefore(s[i], s[j])
  }

  lemma RanksBeforeTransitive(a: Service, b: Service, c: Service)
    requires RanksBefore(a, b) && RanksBefore(b, c)
    ensures RanksBefore(a, c)
  {
  }

  /** A row that ranks before every row of a ranked sequence may lead it. */
  lemma RankedCons(x: Service, s: seq<Service>)
    requires Ranked(s)
    requires forall y :: y in s ==> RanksBefore(x, y)
    ensures Ranked([x] + s)
  {
    forall i, j | 0 <= i < j < |[x] + s|
      ensures RanksBefore(([x] + s)[i], ([x] + s)[j])
    {
      assert ([x] + s)[j] == s[j - 1];
      if i > 0 {
        assert ([x] + s)[i] == s[i - 1];
      }
    }
  }

  /** Puts `x` in front of the first row it ranks before. */
  function Insert(x: Service, s: seq<Service>): (r: seq<Service>)
    requires Ranked(s)
    ensures Ranked(r)
    ensures multiset(r) == multiset(s) + multiset{x}
  {
    if s == [] then [x]
    else if RanksBefore(x, s[0]) then
      forall y | y in s
        ensures RanksBefore(x, y)
      {
        if y != s[0] {
          RanksBeforeTransitive(x, s[0], y);
        }
      }
      RankedCons(x, s);
      [x] + s
    else
      var rest := Insert(x, s[1..]);
      assert s == [s[0]] + s[1..];
      forall y | y in rest
        ensures RanksBefore(s[0], y)
      {
        assert y in multiset(rest);
        assert y == x || y in multiset(s[1..]);
      }
      RankedCons(s[0], rest);
      [s[0]] + rest
  }

  /** The table ordered as the store returns it.  Rows that tie on both
      keys come back in an order the store does not specify; this is one
      of the orders it may use. */
  function OrderByRank(s: seq<Service>): (r: seq<Service>)
    ensures Ranked(r)
    ensures multiset(r) == multiset(s)
  {
    if s == [] then []
    else
      assert s == [s[0]] + s[1..];
      Insert(s[0], OrderByRank(s[1..]))
  }

  /** `take: n`. */
  function Take(s: seq<Service>, n: nat): (r: seq<Service>)
    ensures |r| == if |s| <= n then |s| else n
    ensures r == s[..|r|]
  {
    if |s| <= n then s else s[..n]
  }

  /** Keeping the first rows of a ranked result keeps the best-ranked ones:
      every row kept ranks before every row left out. */
  lemma {:induction false} TakeKeepsBest(s: seq<Service>, n: nat)
    requires Ranked(s)
    ensures Ranked(Take(s, n))
    ensures forall x, y :: x in Take(s, n) && y in s[|Take(s, n)|..] ==> RanksBefore(x, y)
  {
    var k := |Take(s, n)|;
    forall x, y | x in Take(s, n) && y in s[k..]
      ensures RanksBefore(x, y)
    {
      var i :| 0 <= i < k && s[i] == x;
      var j :| 0 <= j < |s| - k && s[k..][j] == y;
      assert s[k + j] == y;
    }
  }
}
