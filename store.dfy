/** The tables of the relational store (users, providers, services,
    transactions, reviews) held in memory, the lookups the routes perform on
    them, and the store handle whose create operations append one row. */
module Store {
  import opened Common

  type UserId = string
  type ProviderId = string
  type ServiceId = string
  type ReviewId = string

  datatype User = User(
    id: UserId,
    email: string,
    password: Option<string>,  // a password hash; absent for accounts without credentials
    name: Option<string>,
    role: Role,
    image: Option<string>)

  /** The provider profile that extends a user. */
  datatype Provider = Provider(id: ProviderId, userId: UserId, companyName: string)

  datatype Category =
    | CITIZENSHIP
    | RESIDENCY
    | COMPANY_INCORPORATION
    | BANKING
    | INSURANCE
    | SHIPPING

  datatype ServiceStatus = DRAFT | PUBLISHED | PAUSED

  datatype Service = Service(
    id: ServiceId,
    providerId: ProviderId,
    category: Category,
    title: string,
    description: string,
    price: int,
    country: string,
    countryCode: string,
    features: seq<string>,
    processingTime: Option<string>,
    requirements: Option<seq<string>>,
    slug: string,
    status: ServiceStatus,
    isPromoted: bool,
    createdAt: int)

  datatype Transaction = Transaction(id: string, buyerId: UserId, serviceId: ServiceId)

  /** Reviews are created PUBLISHED; any other moderation state is `HIDDEN` here. */
  datatype ReviewStatus = PUBLISHED_REVIEW | HIDDEN

  datatype Review = Review(
    id: ReviewId,
    serviceId: ServiceId,
    userId: UserId,
    rating: int,
    comment: Option<string>,
    status: ReviewStatus)

  /** The enum value as it is written in requests and in the store. */
  function CategoryName(c: Category): string
  {
    match c
    case CITIZENSHIP => "CITIZENSHIP"
    case RESIDENCY => "RESIDENCY"
    case COMPANY_INCORPORATION => "COMPANY_INCORPORATION"
    case BANKING => "BANKING"
    case INSURANCE => "INSURANCE"
    case SHIPPING => "SHIPPING"
  }

  /** Reading a category back from a request string: exactly the six enum
      names are accepted, each as the category it names. */
  function ParseCategory(s: string): (r: Option<Category>)
    ensures r.Some? ==> CategoryName(r.value) == s
    ensures forall c :: CategoryName(c) == s ==> r == Some(c)
  {
    if s == "CITIZENSHIP" then Some(CITIZENSHIP)
    else if s == "RESIDENCY" then Some(RESIDENCY)
    else if s == "COMPANY_INCORPORATION" then Some(COMPANY_INCORPORATION)
    else if s == "BANKING" then Some(BANKING)
    else if s == "INSURANCE" then Some(INSURANCE)
    else if s == "SHIPPING" then Some(SHIPPING)
    else None
  }

  /** `findFirst`/`findUnique`: the first row satisfying `p`, if any. */
  function Find<T>(s: seq<T>, p: T -> bool): (r: Option<T>)
    ensures r.None? <==> forall i :: 0 <= i < |s| ==> !p(s[i])
    ensures r.Some? ==> exists i :: 0 <= i < |s| && s[i] == r.value && p(s[i]) &&
                                    forall j :: 0 <= j < i ==> !p(s[j])
  {
    if s == [] then None
    else if p(s[0]) then Some(s[0])
    else
      var r := Find(s[1..], p);
      assert r.Some? ==> exists i :: 0 <= i < |s[1..]| && s[1..][i] == r.value && p(s[1..][i]) &&
                                     forall j :: 0 <= j < i ==> !p(s[1..][j]);
      assert r.Some? ==> exists i :: 1 <= i < |s| && s[i] == r.value && p(s[i]) &&
                                     forall j :: 0 <= j < i ==> !p(s[j]);
      r
  }

  function FindUserByEmail(users: seq<User>, email: string): Option<User>
  {
    Find(users, (u: User) => u.email == email)
  }

  function FindProviderByUser(providers: seq<Provider>, userId: UserId): Option<Provider>
  {
    Find(providers, (p: Provider) => p.userId == userId)
  }

  function FindService(services: seq<Service>, id: ServiceId): Option<Service>
  {
    Find(services, (s: Service) => s.id == id)
  }

  predicate HasPurchased(transactions: seq<Transaction>, buyer: UserId, service: ServiceId)
  {
    exists t :: t in transactions && t.buyerId == buyer && t.serviceId == service
  }

  predicate HasReviewed(reviews: seq<Review>, user: UserId, service: ServiceId)
  {
    exists r :: r in reviews && r.userId == user && r.serviceId == service
  }

  /** Whether a stored service already has this slug. */
  predicate SlugTaken(services: seq<Service>, slug: string)
  {
    exists s :: s in services && s.slug == slug
  }

  ghost predicate UniqueEmails(users: seq<User>)
  {
    forall i, j :: 0 <= i < j < |users| ==> users[i].email != users[j].email
  }

  ghost predicate UniqueSlugs(services: seq<Service>)
  {
    forall i, j :: 0 <= i < j < |services| ==> services[i].slug != services[j].slug
  }

  ghost predicate OneReviewPerPair(reviews: seq<Review>)
  {
    forall i, j :: 0 <= i < j < |reviews| ==>
      reviews[i].userId != reviews[j].userId || reviews[i].serviceId != reviews[j].serviceId
  }

  ghost predicate RatingsInRange(reviews: seq<Review>)
  {
    forall r :: r in reviews ==> 1 <= r.rating <= 5
  }

  /** With unique emails, looking a user up by email finds the one row
      holding that email. */
  lemma {:induction false} FindUserByEmailUnique(users: seq<User>, i: nat)
    requires UniqueEmails(users) && i < |users|
    ensures FindUserByEmail(users, users[i].email) == Some(users[i])
  {
    var r := FindUserByEmail(users, users[i].email);
    assert r.Some?;
    var k :| 0 <= k < |users| && users[k] == r.value && users[k].email == users[i].email &&
             forall j :: 0 <= j < k ==> users[j].email != users[i].email;
    assert k == i;
  }

  /** The store handle: one sequence per table.  Valid() is what the
      routes keep true: emails and service slugs are unique, a user reviews
      a service at most once, and every rating is between 1 and 5. */
  class Db {
    var users: seq<User>
    var providers: seq<Provider>
    var services: seq<Service>
    var transactions: seq<Transaction>
    var reviews: seq<Review>

    ghost predicate Valid()
      reads this
    {
      UniqueEmails(users) && UniqueSlugs(services) && OneReviewPerPair(reviews) &&
      RatingsInRange(reviews)
    }

    constructor (users: seq<User>, providers: seq<Provider>, services: seq<Service>,
                 transactions: seq<Transaction>, reviews: seq<Review>)
      requires UniqueEmails(users) && UniqueSlugs(services) && OneReviewPerPair(reviews) &&
      RatingsInRange(reviews)
      ensures Valid()
      ensures this.users == users && this.providers == providers && this.services == services
      ensures this.transactions == transactions && this.reviews == reviews
    {
      this.users := users;
      this.providers := providers;
      this.services := services;
      this.transactions := transactions;
      this.reviews := reviews;
    }

    /** `prisma.user.create`; the email column is unique. */
    method CreateUser(u: User)
      requires Valid()
      requires FindUserByEmail(users, u.email).None?
      modifies this`users
      ensures Valid()
      ensures users == old(users) + [u]
    {
      users := users + [u];
    }

    /** `prisma.service.create`; the slug column is unique. */
    method CreateService(s: Service)
      requires Valid()
      requires !SlugTaken(services, s.slug)
      modifies this`services
      ensures Valid()
      ensures services == old(services) + [s]
    {
      services := services + [s];
    }

    /** `prisma.review.create`, called only after the review route's checks. */
    method CreateReview(r: Review)
      requires Valid()
      requires !HasReviewed(reviews, r.userId, r.serviceId)
      requires 1 <= r.rating <= 5
      modifies this`reviews
      ensures Valid()
      ensures reviews == old(reviews) + [r]
    {
      reviews := reviews + [r];
    }
  }
}
