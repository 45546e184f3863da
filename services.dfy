/** The service listing route: GET lists published services, POST lets a
    provider (or an admin with a provider profile) create a DRAFT service. */
module ServicesRoute {
  import opened Common
  import opened Store
  import opened Schema
  import opened Http
  import opened Query
  import Slug

  /** The JSON body of POST. */
  datatype ServiceBody = ServiceBody(
    category: Option<string>,
    title: Option<string>,
    description: Option<string>,
    price: Option<int>,
    country: Option<string>,
    countryCode: Option<string>,
    features: Option<seq<string>>,
    processingTime: Option<string>,
    requirements: Option<seq<string>>)

  const ShortTitle := "Název musí mít alespoň 5 znaků"
  const ShortDescription := "Popis musí mít alespoň 50 znaků"
  const PriceNotPositive := "Cena musí být kladné číslo"
  const NoCountry := "Zadejte zemi"
  const BadCountryCode := "Kód země musí mít 2 znaky"
  const NoFeatures := "Přidejte alespoň 1 výhodu"
  const Unauthorized := "Unauthorized"
  const NoProviderProfile := "Provider profile not found"
  const CreateFailed := "Chyba při vytváření služby"

  /** The message of a category outside the enum. */
  function BadCategory(received: string): string
  {
    "Invalid enum value. Expected 'CITIZENSHIP' | 'RESIDENCY' | 'COMPANY_INCORPORATION' | " +
    "'BANKING' | 'INSURANCE' | 'SHIPPING', received '" + received + "'"
  }

  predicate Accepted(b: ServiceBody)
  {
    && b.category.Some? && ParseCategory(b.category.value).Some?
    && b.title.Some? && |b.title.value| >= 5
    && b.description.Some? && |b.description.value| >= 50
    && b.price.Some? && b.price.value > 0
    && b.country.Some? && |b.country.value| >= 2
    && b.countryCode.Some? && |b.countryCode.value| == 2
    && b.features.Some? && |b.features.value| >= 1
  }

  /** The issues of the service schema, in field order. */
  function ServiceIssues(b: ServiceBody): (r: seq<Issue>)
    ensures r == [] <==> Accepted(b)
    ensures b.category.None? ==> r[0] == Issue("category", Required)
    ensures b.category.Some? && ParseCategory(b.category.value).None? ==>
              r[0] == Issue("category", BadCategory(b.category.value))
    ensures b.title.Some? && |b.title.value| < 5 ==> Issue("title", ShortTitle) in r
    ensures b.description.Some? && |b.description.value| < 50 ==>
              Issue("description", ShortDescription) in r
    ensures b.price.Some? && b.price.value <= 0 ==> Issue("price", PriceNotPositive) in r
    ensures b.country.Some? && |b.country.value| < 2 ==> Issue("country", NoCountry) in r
    ensures b.countryCode.Some? && |b.countryCode.value| != 2 ==>
              Issue("countryCode", BadCountryCode) in r
    ensures b.features.Some? && |b.features.value| < 1 ==> Issue("features", NoFeatures) in r
  {
    CheckCategory(b.category)
    + CheckMinLength("title", b.title, 5, ShortTitle)
    + CheckMinLength("description", b.description, 50, ShortDescription)
    + CheckPositive(b.price)
    + CheckMinLength("country", b.country, 2, NoCountry)
    + CheckString("countryCode", b.countryCode, (c: string) => |c| == 2, BadCountryCode)
    + CheckFeatures(b.features)
  }

  /** `z.enum([...])` on the category. */
  function CheckCategory(v: Option<string>): (r: seq<Issue>)
    ensures |r| <= 1
    ensures r == [] <==> v.Some? && ParseCategory(v.value).Some?
    ensures r != [] ==> r[0] == Issue("category", if v.None? then Required else BadCategory(v.value))
  {
    match v
    case None => [Issue("category", Required)]
    case Some(c) => if ParseCategory(c).Some? then [] else [Issue("category", BadCategory(c))]
  }

  /** `z.number().positive(...)` on the price. */
  function CheckPositive(v: Option<int>): (r: seq<Issue>)
    ensures |r| <= 1
    ensures r == [] <==> v.Some? && v.value > 0
    ensures r != [] ==> r[0] == Issue("price", if v.None? then Required else PriceNotPositive)
  {
    match v
    case None => [Issue("price", Required)]
    case Some(p) => if p > 0 then [] else [Issue("price", PriceNotPositive)]
  }

  /** `z.array(z.string()).min(1, ...)` on the features. */
  function CheckFeatures(v: Option<seq<string>>): (r: seq<Issue>)
    ensures |r| <= 1
    ensures r == [] <==> v.Some? && |v.value| >= 1
    ensures r != [] ==> r[0] == Issue("features", if v.None? then Required else NoFeatures)
  {
    match v
    case None => [Issue("features", Required)]
    case Some(f) => if |f| >= 1 then [] else [Issue("features", NoFeatures)]
  }

  /** Providers and admins may create services. */
  predicate MayCreate(session: Option<SessionUser>)
  {
    session.Some? && (session.value.role == PROVIDER || session.value.role == ADMIN)
  }

  /** The row POST inserts, field by field. */
  ghost predicate CreatedFrom(s: Service, id: ServiceId, providerId: ProviderId, b: ServiceBody,
                              suffix: Slug.Suffix, now: int)
    requires Accepted(b)
  {
    && s.id == id
    && s.providerId == providerId
    && CategoryName(s.category) == b.category.value
    && s.title == b.title.value
    && s.description == b.description.value
    && s.price == b.price.value
    && s.country == b.country.value
    && s.countryCode == UpperStr(b.countryCode.value)
    && s.features == b.features.value
    && s.processingTime == b.processingTime
    && s.requirements == b.requirements
    && s.slug == Slug.Slug(b.title.value, suffix)
    && s.status == DRAFT
    && !s.isPromoted
    && s.createdAt == now
  }

  /** POST /api/services.  The new row's id, the random slug suffix and the
      creation time are parameters. */
  method Post(db: Db, session: Option<SessionUser>, body: Body<ServiceBody>, newId: ServiceId,
              suffix: Slug.Suffix, now: int) returns (resp: Response)
    requires db.Valid()
    modifies db`services
    ensures db.Valid()
    ensures resp.status != 201 ==> db.services == old(db.services)
    ensures !MayCreate(session) ==> resp == Response(401, Error(Unauthorized))
    ensures MayCreate(session) && FindProviderByUser(db.providers, session.value.id).None? ==>
              resp == Response(404, Error(NoProviderProfile))
    ensures MayCreate(session) && FindProviderByUser(db.providers, session.value.id).Some? ==>
              && (body.Unparseable? ==> resp == Response(500, Error(CreateFailed)))
              && (body.Json? && !Accepted(body.value) ==>
                    resp == Response(400, Error(ServiceIssues(body.value)[0].message)))
              && (body.Json? && Accepted(body.value) &&
                  SlugTaken(old(db.services), Slug.Slug(body.value.title.value, suffix)) ==>
                    resp == Response(500, Error(CreateFailed)))
              && (body.Json? && Accepted(body.value) &&
                  !SlugTaken(old(db.services), Slug.Slug(body.value.title.value, suffix)) ==>
                    && resp.status == 201 && resp.payload.OneService?
                    && db.services == old(db.services) + [resp.payload.service]
                    && CreatedFrom(resp.payload.service, newId,
                                   FindProviderByUser(db.providers, session.value.id).value.id,
                                   body.value, suffix, now))
  {
    if !MayCreate(session) {
      return Response(401, Error(Unauthorized));
    }
    var provider := FindProviderByUser(db.providers, session.value.id);
    if provider.None? {
      return Response(404, Error(NoProviderProfile));
    }
    if body.Unparseable? {
      return Response(500, Error(CreateFailed));
    }
    var b := body.value;
    var issues := ServiceIssues(b);
    if issues != [] {
      return Response(400, Error(issues[0].message));
    }
    var slug := Slug.Slug(b.title.value, suffix);
    if SlugTaken(db.services, slug) {
      return Response(500, Error(CreateFailed));
    }
    var service := Service(newId, provider.value.id, ParseCategory(b.category.value).value,
                           b.title.value, b.description.value, b.price.value, b.country.value,
                           UpperStr(b.countryCode.value), b.features.value, b.processingTime,
                           b.requirements, slug, DRAFT, false, now);
    db.CreateService(service);
    resp := Response(201, OneService(service));
  }

  /** What GET promises in the request's own terms: published, and of the
      requested category and country code when those are given. */
  predicate Listed(category: string, country: string, s: Service)
  {
    && s.status == PUBLISHED
    && (category != "" ==> CategoryName(s.category) == category)
    && (country != "" ==> s.countryCode == country)
  }

  /** The `where` of GET; an empty query parameter is no filter. */
  function ListWhere(category: string, country: string): (w: Where)
    ensures forall s :: Matches(w, s) <==> Listed(category, country, s)
  {
    Where(PUBLISHED, None, if category != "" then Some(category) else None,
          if country != "" then Some(country) else None, None)
  }

  /** GET /api/services: every published service of the requested category
      and country code, exactly as often as the table holds it,
      promoted-first then newest-first. */
  method Get(db: Db, category: string, country: string) returns (resp: Response)
    ensures resp.status == 200 && resp.payload.ServiceList?
    ensures forall s :: s in resp.payload.list ==> Listed(category, country, s)
    ensures forall s :: multiset(resp.payload.list)[s] ==
                          if Listed(category, country, s) then multiset(db.services)[s] else 0
    ensures Ranked(resp.payload.list)
  {
    var found := OrderByRank(Filter(db.services, ListWhere(category, country)));
    resp := Response(200, ServiceList(found));
    assert forall s :: s in found ==> s in multiset(found);
  }

  /** A service fresh from POST is a DRAFT, so no listing shows it. */
  lemma CreatedServiceNotListed(s: Service, id: ServiceId, providerId: ProviderId, b: ServiceBody,
                                suffix: Slug.Suffix, now: int, category: string, country: string)
    requires Accepted(b) && CreatedFrom(s, id, providerId, b, suffix, now)
    ensures !Listed(category, country, s)
  {
  }

  /** POST stores the country code upper-cased while GET compares it as
      given, so a lower-case country filter never finds a service created
      through POST. */
  lemma {:induction false} LowerCaseCountryMissesCreated(s: Service, id: ServiceId, providerId: ProviderId,
                                     b: ServiceBody, suffix: Slug.Suffix, now: int,
                                     country: string, k: nat)
    requires Accepted(b) && CreatedFrom(s, id, providerId, b, suffix, now)
    requires k < |country| && IsLowerAscii(country[k])
    ensures s.countryCode != country
  {
    if |s.countryCode| == |country| {
      assert !IsLowerAscii(s.countryCode[k]);
    }
  }
}
