/** Full-text search over published services with optional category,
    country and price filters; at most 50 results, best-ranked first, each
    with its average rating over published reviews. */
module SearchRoute {
  import opened Common
  import opened Store
  import opened Http
  import opened Query

  /** The query parameters.  A missing parameter and an empty one are
      alike (both are falsy); a price is a number once parsed. */
  datatype SearchParams = SearchParams(q: string, category: string, country: string,
                                       minPrice: Option<int>, maxPrice: Option<int>)

  const Limit := 50

  /** What a search promises of each result, in the request's own terms. */
  predicate SearchSpec(p: SearchParams, s: Service)
  {
    && s.status == PUBLISHED
    && (p.q != "" ==> ContainsInsensitive(s.title, p.q) || ContainsInsensitive(s.description, p.q) ||
                      ContainsInsensitive(s.country, p.q))
    && (p.category != "" ==> CategoryName(s.category) == p.category)
    && (p.country != "" ==> s.countryCode == UpperStr(p.country))
    && (p.minPrice.Some? ==> s.price >= p.minPrice.value)
    && (p.maxPrice.Some? ==> s.price <= p.maxPrice.value)
  }

  /** The `where` object, built one filter at a time; it selects exactly
      the services the request asks for. */
  method BuildWhere(p: SearchParams) returns (w: Where)
    ensures forall s :: Matches(w, s) <==> SearchSpec(p, s)
  {
    w := Where(PUBLISHED, if p.q != "" then Some(p.q) else None, None, None, None);
    if p.category != "" {
      w := w.(category := Some(p.category));
    }
    if p.country != "" {
      w := w.(countryCode := Some(UpperStr(p.country)));
    }
    if p.minPrice.Some? || p.maxPrice.Some? {
      w := w.(price := Some(PriceRange(None, None)));
      if p.minPrice.Some? {
        w := w.(price := Some(w.price.value.(gte := p.minPrice)));
      }
      if p.maxPrice.Some? {
        w := w.(price := Some(w.price.value.(lte := p.maxPrice)));
      }
    }
  }

  /** Whether a review enters a service's average: published and about it. */
  predicate Rates(r: Review, service: ServiceId)
  {
    r.serviceId == service && r.status == PUBLISHED_REVIEW
  }

  function RatingSum(reviews: seq<Review>, service: ServiceId): int
  {
    if reviews == [] then 0
    else (if Rates(reviews[0], service) then reviews[0].rating else 0) + RatingSum(reviews[1..], service)
  }

  function RatingCount(reviews: seq<Review>, service: ServiceId): nat
  {
    if reviews == [] then 0
    else (if Rates(reviews[0], service) then 1 else 0) + RatingCount(reviews[1..], service)
  }

  function AverageOf(reviews: seq<Review>, service: ServiceId): Average
  {
    Average(RatingSum(reviews, service), RatingCount(reviews, service))
  }

  /** With every rating between 1 and 5, the sum of n ratings lies between
      n and 5n: an average is 0 without ratings and between 1 and 5 otherwise. */
  lemma {:induction false} RatingSumBounds(reviews: seq<Review>, service: ServiceId)
    requires RatingsInRange(reviews)
    ensures RatingCount(reviews, service) <= RatingSum(reviews, service) <= 5 * RatingCount(reviews, service)
  {
    if reviews != [] {
      assert reviews[0] in reviews;
      assert RatingsInRange(reviews[1..]) by {
        forall r | r in reviews[1..] ensures 1 <= r.rating <= 5 {
          assert r in reviews;
        }
      }
      RatingSumBounds(reviews[1..], service);
    }
  }

  /** A newly stored review moves only the average of its own service, by
      exactly its rating. */
  lemma {:induction false} AverageAfterReview(reviews: seq<Review>, r: Review, service: ServiceId)
    ensures RatingCount(reviews + [r], service) ==
              RatingCount(reviews, service) + (if Rates(r, service) then 1 else 0)
    ensures RatingSum(reviews + [r], service) ==
              RatingSum(reviews, service) + (if Rates(r, service) then r.rating else 0)
  {
    if reviews == [] {
      assert reviews + [r] == [r];
    } else {
      assert (reviews + [r])[1..] == reviews[1..] + [r];
      AverageAfterReview(reviews[1..], r, service);
    }
  }

  function ServicesOf(results: seq<RatedService>): (s: seq<Service>)
    ensures |s| == |results|
    ensures forall i :: 0 <= i < |s| ==> s[i] == results[i].service
  {
    seq(|results|, i requires 0 <= i < |results| => results[i].service)
  }

  /** The `map` that attaches each service's average rating. */
  function WithRatings(services: seq<Service>, reviews: seq<Review>): (r: seq<RatedService>)
    ensures ServicesOf(r) == services
    ensures forall i :: 0 <= i < |r| ==> r[i].averageRating == AverageOf(reviews, services[i].id)
  {
    seq(|services|, i requires 0 <= i < |services| =>
      RatedService(services[i], AverageOf(reviews, services[i].id)))
  }

  /** The rows the search returns for a `where`: the matches, ranked, at
      most `Limit` of them. */
  function Select(table: seq<Service>, w: Where): seq<Service>
  {
    Take(OrderByRank(Filter(table, w)), Limit)
  }

  /** A prefix holds each row no more often than the whole. */
  lemma PrefixMultiset(s: seq<Service>, k: nat)
    requires k <= |s|
    ensures forall x :: multiset(s[..k])[x] <= multiset(s)[x]
  {
    assert s == s[..k] + s[k..];
  }

  /** A row of `s` missing from a prefix is in the remainder. */
  lemma OutsidePrefix(s: seq<Service>, k: nat, y: Service)
    requires k <= |s| && y in s && y !in s[..k]
    ensures y in s[k..]
  {
    var j :| 0 <= j < |s| && s[j] == y;
    assert j >= k;
    assert s[k..][j - k] == y;
  }

  /** The selection keeps only matches, each no more often than the table
      holds it; below the cap it keeps every match; it is ranked; and every
      row kept ranks before every match left out. */
  lemma SelectCorrect(table: seq<Service>, w: Where)
    ensures |Select(table, w)| <= Limit
    ensures forall s :: s in Select(table, w) ==> Matches(w, s)
    ensures forall s :: multiset(Select(table, w))[s] <= multiset(table)[s]
    ensures |Select(table, w)| < Limit ==>
              forall s :: Matches(w, s) ==> multiset(Select(table, w))[s] == multiset(table)[s]
    ensures Ranked(Select(table, w))
    ensures forall x, y ::
              (x in Select(table, w) && y in table && Matches(w, y) && y !in Select(table, w)) ==>
                RanksBefore(x, y)
  {
    var ordered := OrderByRank(Filter(table, w));
    var found := Take(ordered, Limit);
    TakeKeepsBest(ordered, Limit);
    PrefixMultiset(ordered, |found|);
    forall s | s in found ensures Matches(w, s) {
      assert s in multiset(found);
    }
    forall x, y | x in found && y in table && Matches(w, y) && y !in found
      ensures RanksBefore(x, y)
    {
      assert y in multiset(table);
      assert y in multiset(ordered);
      OutsidePrefix(ordered, |found|, y);
    }
  }

  /** GET /api/search. */
  method Get(db: Db, p: SearchParams) returns (resp: Response)
    ensures resp.status == 200 && resp.payload.SearchResults?
    ensures resp.payload.count == |resp.payload.results|
    ensures var found := ServicesOf(resp.payload.results);
            && |found| <= Limit
            && (forall s :: s in found ==> SearchSpec(p, s))
            && (forall s :: multiset(found)[s] <= multiset(db.services)[s])
            && (|found| < Limit ==> forall s :: SearchSpec(p, s) ==>
                                       multiset(found)[s] == multiset(db.services)[s])
            && Ranked(found)
            && (forall x, y :: x in found && y in db.services && SearchSpec(p, y) && y !in found ==>
                                 RanksBefore(x, y))
    ensures forall i :: 0 <= i < |resp.payload.results| ==>
              resp.payload.results[i].averageRating ==
                AverageOf(db.reviews, resp.payload.results[i].service.id)
    ensures db.Valid() ==> forall i :: 0 <= i < |resp.payload.results| ==>
              var a := resp.payload.results[i].averageRating;
              a.count <= a.sum <= 5 * a.count
  {
    var w := BuildWhere(p);
    var found := Select(db.services, w);
    SelectCorrect(db.services, w);
    var results := WithRatings(found, db.reviews);
    resp := Response(200, SearchResults(results, |results|));
    if db.Valid() {
      forall i | 0 <= i < |results|
        ensures var a := results[i].averageRating; a.count <= a.sum <= 5 * a.count
      {
        RatingSumBounds(db.reviews, found[i].id);
      }
    }
  }
}
