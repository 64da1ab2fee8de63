// The content store: per-collection getters that seed built-in defaults on first read,
// whole-collection save, add, update-by-id and delete-by-id, and the derived queries.

module DataService {
  import opened Optional
  import opened Types
  import opened Storage
  import opened Defaults
  import opened Lists

  // ---------------------------------------------------------------------------
  // What a getter returns for a given state of local storage
  // ---------------------------------------------------------------------------

  const SERVICES_SEED := ServicesData(DEFAULT_SERVICES)
  const BLOGS_SEED := BlogsData(DEFAULT_BLOGS)
  const CATEGORIES_SEED := CategoriesData(DEFAULT_CATEGORIES)
  const PORTFOLIOS_SEED := PortfoliosData(DEFAULT_PORTFOLIOS)
  const CONFIG_SEED := ConfigData(DEFAULT_CONFIG)
  const TESTIMONIALS_SEED := TestimonialsData(DEFAULT_TESTIMONIALS)
  const HOME_STATS_SEED := HomeStatsData(DEFAULT_HOME_STATS)
  const HOME_CONTENT_SEED := HomeContentData(DEFAULT_HOME_CONTENT)
  const AUTH_SEED := AuthData(DEFAULT_AUTH)

  function ServicesOf(st: map<Key, Stored>): seq<Service>
  {
    var v := Current(st, ServicesKey, SERVICES_SEED);
    if v.ServicesData? then v.services else DEFAULT_SERVICES
  }

  function BlogsOf(st: map<Key, Stored>): seq<BlogPost>
  {
    var v := Current(st, BlogKey, BLOGS_SEED);
    if v.BlogsData? then v.blogs else DEFAULT_BLOGS
  }

  function CategoriesOf(st: map<Key, Stored>): seq<string>
  {
    var v := Current(st, BlogCategoriesKey, CATEGORIES_SEED);
    if v.CategoriesData? then v.categories else DEFAULT_CATEGORIES
  }

  function PortfoliosOf(st: map<Key, Stored>): seq<PortfolioItem>
  {
    var v := Current(st, PortfoliosKey, PORTFOLIOS_SEED);
    if v.PortfoliosData? then v.portfolios else DEFAULT_PORTFOLIOS
  }

  function ConfigOf(st: map<Key, Stored>): SiteConfig
  {
    var v := Current(st, ConfigKey, CONFIG_SEED);
    if v.ConfigData? then v.config else DEFAULT_CONFIG
  }

  function TestimonialsOf(st: map<Key, Stored>): seq<Testimonial>
  {
    var v := Current(st, TestimonialsKey, TESTIMONIALS_SEED);
    if v.TestimonialsData? then v.testimonials else DEFAULT_TESTIMONIALS
  }

  function HomeStatsOf(st: map<Key, Stored>): seq<HomeStat>
  {
    var v := Current(st, HomeStatsKey, HOME_STATS_SEED);
    if v.HomeStatsData? then v.stats else DEFAULT_HOME_STATS
  }

  function HomeContentOf(st: map<Key, Stored>): HomeContent
  {
    var v := Current(st, HomeContentKey, HOME_CONTENT_SEED);
    if v.HomeContentData? then v.content else DEFAULT_HOME_CONTENT
  }

  function CredentialsOf(st: map<Key, Stored>): AdminCredentials
  {
    var v := Current(st, AuthKey, AUTH_SEED);
    if v.AuthData? then v.credentials else DEFAULT_AUTH
  }

  /** On empty storage every getter returns the built-in defaults. */
  lemma EmptyStorageGivesDefaults()
    ensures ServicesOf(map[]) == DEFAULT_SERVICES && BlogsOf(map[]) == DEFAULT_BLOGS
    ensures CategoriesOf(map[]) == DEFAULT_CATEGORIES && PortfoliosOf(map[]) == DEFAULT_PORTFOLIOS
    ensures ConfigOf(map[]) == DEFAULT_CONFIG && TestimonialsOf(map[]) == DEFAULT_TESTIMONIALS
    ensures HomeStatsOf(map[]) == DEFAULT_HOME_STATS && HomeContentOf(map[]) == DEFAULT_HOME_CONTENT
    ensures CredentialsOf(map[]) == DEFAULT_AUTH
  {
  }

  /** Seeding is idempotent and does not change what the services getter returns, so a second
      read without a write in between returns the same collection. */
  lemma {:induction false} ServicesSeedStable(st: map<Key, Stored>)
    requires WellTyped(st)
    ensures Seed(Seed(st, ServicesKey, SERVICES_SEED), ServicesKey, SERVICES_SEED) == Seed(st, ServicesKey, SERVICES_SEED)
    ensures ServicesOf(Seed(st, ServicesKey, SERVICES_SEED)) == ServicesOf(st)
    ensures BlogsOf(Seed(st, ServicesKey, SERVICES_SEED)) == BlogsOf(st)
  {
  }

  /** The same for the blog collection. */
  lemma {:induction false} BlogsSeedStable(st: map<Key, Stored>)
    requires WellTyped(st)
    ensures Seed(Seed(st, BlogKey, BLOGS_SEED), BlogKey, BLOGS_SEED) == Seed(st, BlogKey, BLOGS_SEED)
    ensures BlogsOf(Seed(st, BlogKey, BLOGS_SEED)) == BlogsOf(st)
    ensures ServicesOf(Seed(st, BlogKey, BLOGS_SEED)) == ServicesOf(st)
  {
  }

  // ---------------------------------------------------------------------------
  // Element tests, as values for the sequence operations
  // ---------------------------------------------------------------------------

  function ServiceIdIs(id: string): Service -> bool { (s: Service) => s.id == id }
  function ServiceIdIsNot(id: string): Service -> bool { (s: Service) => s.id != id }
  function ServiceSlugIs(slug: string): Service -> bool { (s: Service) => s.slug == slug }
  function ChildOf(parentId: string): Service -> bool { (s: Service) => s.parentServiceId == Some(parentId) }
  function BlogIdIs(id: string): BlogPost -> bool { (b: BlogPost) => b.id == id }
  function BlogIdIsNot(id: string): BlogPost -> bool { (b: BlogPost) => b.id != id }
  function BlogSlugIs(slug: string): BlogPost -> bool { (b: BlogPost) => b.slug == slug }
  function PortfolioIdIs(id: string): PortfolioItem -> bool { (p: PortfolioItem) => p.id == id }
  function PortfolioIdIsNot(id: string): PortfolioItem -> bool { (p: PortfolioItem) => p.id != id }
  function CategoryIsNot(c: string): string -> bool { (d: string) => d != c }

  predicate IsPublished(b: BlogPost) { b.status == Published }

  /** A post that may be listed as related to the post with `currentSlug` in `category`. */
  function RelatedTo(currentSlug: string, category: string): BlogPost -> bool
  {
    (b: BlogPost) => b.slug != currentSlug && b.category == category
  }

  // ---------------------------------------------------------------------------
  // Derived queries over the collections
  // ---------------------------------------------------------------------------

  /** The main services: those whose parent id is falsy, in collection order. */
  function MainServices(services: seq<Service>): (r: seq<Service>)
    ensures forall s :: s in r <==> s in services && IsMain(s)
    ensures IsSubsequence(r, services)
  {
    FilterIsSubsequence(services, IsMain);
    FilterMembers(services, IsMain);
    Filter(services, IsMain)
  }

  /** The services whose parent id is `parentId`, in collection order. */
  function SubServices(services: seq<Service>, parentId: string): (r: seq<Service>)
    ensures forall s :: s in r <==> s in services && s.parentServiceId == Some(parentId)
    ensures IsSubsequence(r, services)
  {
    FilterIsSubsequence(services, ChildOf(parentId));
    FilterMembers(services, ChildOf(parentId));
    Filter(services, ChildOf(parentId))
  }

  /** No service is both main and a child of a non-empty parent id. */
  lemma MainAndSubDisjoint(services: seq<Service>, parentId: string)
    requires parentId != ""
    ensures forall s :: !(s in MainServices(services) && s in SubServices(services, parentId))
  {
  }

  /** The falsy test lets a parent id that is present but empty through both filters. */
  lemma EmptyParentInBoth(services: seq<Service>, s: Service)
    requires s in services && s.parentServiceId == Some("")
    ensures s in MainServices(services) && s in SubServices(services, "")
  {
  }

  /** Every service is a main service or a child of its own parent. */
  lemma MainOrSub(services: seq<Service>, s: Service)
    requires s in services
    ensures s in MainServices(services) || s in SubServices(services, s.parentServiceId.value)
  {
  }

  /** The defaults hold three main services and two children of service "1". */
  lemma DefaultHierarchy()
    ensures MainServices(DEFAULT_SERVICES) == [WEBSITE_SERVICE, ADS_SERVICE, BRANDING_SERVICE]
    ensures SubServices(DEFAULT_SERVICES, "1") == [RENTAL_SERVICE, CLINIC_SERVICE]
  {
    MainOfFive(WEBSITE_SERVICE, RENTAL_SERVICE, CLINIC_SERVICE, ADS_SERVICE, BRANDING_SERVICE);
    ChildrenOfFive(WEBSITE_SERVICE, RENTAL_SERVICE, CLINIC_SERVICE, ADS_SERVICE, BRANDING_SERVICE, "1");
  }

  lemma MainOfFive(w: Service, r: Service, c: Service, a: Service, b: Service)
    requires IsMain(w) && !IsMain(r) && !IsMain(c) && IsMain(a) && IsMain(b)
    ensures Filter([w, r, c, a, b], IsMain) == [w, a, b]
  {
    FilterOfFive(w, r, c, a, b, IsMain);
  }

  lemma FilterOfFive<T>(w: T, r: T, c: T, a: T, b: T, p: T -> bool)
    requires p(w) && !p(r) && !p(c) && p(a) && p(b)
    ensures Filter([w, r, c, a, b], p) == [w, a, b]
  {
    FilterOfThree(c, a, b, p);
    var t := [r] + [c, a, b];
    assert Filter(t, p) == [a, b] by { FilterCons(r, [c, a, b], p); }
    assert Filter([w] + t, p) == [w] + [a, b] by { FilterCons(w, t, p); }
    assert [w] + t == [w, r, c, a, b];
  }

  lemma FilterOfThree<T>(c: T, a: T, b: T, p: T -> bool)
    requires !p(c) && p(a) && p(b)
    ensures Filter([c, a, b], p) == [a, b]
  {
    assert Filter([b], p) == [b] by { FilterCons(b, [], p); }
    assert Filter([a] + [b], p) == [a, b] by { FilterCons(a, [b], p); }
    assert [c] + ([a] + [b]) == [c, a, b];
    FilterCons(c, [a] + [b], p);
  }

  lemma ChildrenOfFive(w: Service, r: Service, c: Service, a: Service, b: Service, parentId: string)
    requires !ChildOf(parentId)(w) && ChildOf(parentId)(r) && ChildOf(parentId)(c)
    requires !ChildOf(parentId)(a) && !ChildOf(parentId)(b)
    ensures Filter([w, r, c, a, b], ChildOf(parentId)) == [r, c]
  {
    var p := ChildOf(parentId);
    var t3 := [b];
    var t2 := [a] + t3;
    var t1 := [c] + t2;
    var t0 := [r] + t1;
    assert Filter(t3, p) == [] by { FilterCons(b, [], p); }
    assert Filter(t2, p) == [] by { FilterCons(a, t3, p); }
    assert Filter(t1, p) == [c] by { FilterCons(c, t2, p); }
    assert Filter(t0, p) == [r, c] by { FilterCons(r, t1, p); }
    assert Filter([w] + t0, p) == [r, c] by { FilterCons(w, t0, p); }
    assert [w] + t0 == [w, r, c, a, b];
  }

  /** The first service with this slug (Array.prototype.find). */
  function ServiceBySlug(services: seq<Service>, slug: string): (r: Option<Service>)
    ensures r.Some? ==> r.value in services && r.value.slug == slug
    ensures r.Some? ==> exists j :: 0 <= j < |services| && services[j] == r.value &&
                          (forall k :: 0 <= k < j ==> services[k].slug != slug)
    ensures r.None? <==> forall s :: s in services ==> s.slug != slug
  {
    Find(services, ServiceSlugIs(slug))
  }

  /** The published posts, in collection order. */
  function PublishedBlogs(blogs: seq<BlogPost>): (r: seq<BlogPost>)
    ensures forall b :: b in r <==> b in blogs && b.status == Published
    ensures IsSubsequence(r, blogs)
  {
    FilterIsSubsequence(blogs, IsPublished);
    FilterMembers(blogs, IsPublished);
    Filter(blogs, IsPublished)
  }

  /** The first `limit` published posts (slice(0, limit)); the page passes 3 by default. */
  function RecentBlogs(blogs: seq<BlogPost>, limit: int): (r: seq<BlogPost>)
    ensures forall i :: 0 <= i < |r| ==> r[i].status == Published
    ensures 0 <= limit ==> r == PublishedBlogs(blogs)[..if limit < |PublishedBlogs(blogs)| then limit else |PublishedBlogs(blogs)|]
    ensures limit < 0 ==> r == var p := PublishedBlogs(blogs); if |p| + limit <= 0 then [] else p[..|p| + limit]
  {
    var p := PublishedBlogs(blogs);
    if 0 <= limit then
      PrefixSlice(p, limit);
      JsSlice(p, 0, limit)
    else
      NegativePrefixSlice(p, limit);
      JsSlice(p, 0, limit)
  }

  /** The first published post with this slug: a draft is never found. */
  function BlogBySlug(blogs: seq<BlogPost>, slug: string): (r: Option<BlogPost>)
    ensures r.Some? ==> r.value in blogs && r.value.slug == slug && r.value.status == Published
    ensures r.Some? ==> var p := PublishedBlogs(blogs);
              exists j :: 0 <= j < |p| && p[j] == r.value && forall k :: 0 <= k < j ==> p[k].slug != slug
    ensures r.None? <==> forall b :: b in blogs && b.slug == slug ==> b.status == Draft
  {
    var p := PublishedBlogs(blogs);
    Find(p, BlogSlugIs(slug))
  }

  /** The posts getRelatedBlogs slices: the published posts of `category` other than the one
      with `currentSlug`, in collection order. */
  function RelatedCandidates(blogs: seq<BlogPost>, currentSlug: string, category: string): seq<BlogPost>
  {
    Filter(PublishedBlogs(blogs), RelatedTo(currentSlug, category))
  }

  /** A post is a candidate exactly when it is published, in the category and not the current
      post. */
  lemma RelatedCandidatesMembers(blogs: seq<BlogPost>, currentSlug: string, category: string)
    ensures forall b :: b in RelatedCandidates(blogs, currentSlug, category) <==>
              b in blogs && b.status == Published && b.category == category && b.slug != currentSlug
  {
    FilterMembers(PublishedBlogs(blogs), RelatedTo(currentSlug, category));
  }

  /** The first `limit` related posts (slice(0, limit)), including JavaScript's negative limits. */
  function RelatedBlogs(blogs: seq<BlogPost>, currentSlug: string, category: string, limit: int): (r: seq<BlogPost>)
    ensures 0 <= limit ==> |r| <= limit
    ensures forall i :: 0 <= i < |r| ==>
              r[i] in blogs && r[i].status == Published && r[i].category == category && r[i].slug != currentSlug
    ensures 0 <= limit ==> r == var c := RelatedCandidates(blogs, currentSlug, category);
              c[..if limit < |c| then limit else |c|]
    ensures limit < 0 ==> r == var c := RelatedCandidates(blogs, currentSlug, category);
              if |c| + limit <= 0 then [] else c[..|c| + limit]
  {
    var candidates := RelatedCandidates(blogs, currentSlug, category);
    RelatedCandidatesMembers(blogs, currentSlug, category);
    var r := JsSlice(candidates, 0, limit);
    assert forall i :: 0 <= i < |r| ==> r[i] in candidates;
    if 0 <= limit then
      PrefixSlice(candidates, limit);
      r
    else
      NegativePrefixSlice(candidates, limit);
      r
  }

  /** With a limit no smaller than the collection, every related post is listed. */
  lemma RelatedBlogsListsAll(blogs: seq<BlogPost>, currentSlug: string, category: string, limit: int)
    requires |blogs| <= limit
    ensures forall b :: b in RelatedBlogs(blogs, currentSlug, category, limit) <==>
              b in blogs && b.status == Published && b.category == category && b.slug != currentSlug
  {
    var c := RelatedCandidates(blogs, currentSlug, category);
    FilterShrinks(blogs, IsPublished);
    FilterShrinks(PublishedBlogs(blogs), RelatedTo(currentSlug, category));
    assert c[..|c|] == c;
    RelatedCandidatesMembers(blogs, currentSlug, category);
  }

  /** A global portfolio item with the slug and title of the service it links to. */
  datatype PortfolioEntry = PortfolioEntry(item: PortfolioItem, serviceSlug: string, serviceTitle: string)

  /** The first service with the id a portfolio item links to, if the item has one and it
      exists. */
  function LinkedService(item: PortfolioItem, services: seq<Service>): (r: Option<Service>)
    ensures r.None? <==> item.serviceId.None? || forall s :: s in services ==> s.id != item.serviceId.value
    ensures r.Some? ==> r.value in services && Some(r.value.id) == item.serviceId
    ensures r.Some? ==> exists j :: 0 <= j < |services| && services[j] == r.value &&
                          (forall k :: 0 <= k < j ==> services[k].id != r.value.id)
  {
    if item.serviceId.None? then None
    else
      Find(services, ServiceIdIs(item.serviceId.value))
  }

  /** getAllPortfolios: each global item, in order, with its service's slug ('' when none)
      and title ('General' when none or empty). */
  function AllPortfolios(items: seq<PortfolioItem>, services: seq<Service>): (r: seq<PortfolioEntry>)
    ensures |r| == |items|
    ensures forall i :: 0 <= i < |r| ==> r[i].item == items[i] && r[i].serviceTitle != ""
    ensures forall i :: 0 <= i < |r| && LinkedService(items[i], services).None? ==>
              r[i].serviceSlug == "" && r[i].serviceTitle == "General"
    ensures forall i :: 0 <= i < |r| && LinkedService(items[i], services).Some? ==>
              var s := LinkedService(items[i], services).value;
              r[i].serviceSlug == s.slug && r[i].serviceTitle == (if s.title != "" then s.title else "General")
  {
    seq(|items|, i requires 0 <= i < |items| =>
      var svc := LinkedService(items[i], services);
      PortfolioEntry(items[i],
        if svc.Some? && svc.value.slug != "" then svc.value.slug else "",
        if svc.Some? && svc.value.title != "" then svc.value.title else "General"))
  }

  /** When service ids are unique, an item that names an existing service is shown with that
      service's slug and title. */
  lemma PortfolioShowsItsService(items: seq<PortfolioItem>, services: seq<Service>, i: int, s: Service)
    requires forall a, b :: 0 <= a < b < |services| ==> services[a].id != services[b].id
    requires 0 <= i < |items| && s in services && items[i].serviceId == Some(s.id)
    ensures AllPortfolios(items, services)[i].serviceSlug == s.slug
    ensures AllPortfolios(items, services)[i].serviceTitle == if s.title != "" then s.title else "General"
  {
    var linked := LinkedService(items[i], services);
    assert linked.Some?;
    var j :| 0 <= j < |services| && services[j] == linked.value;
    var k :| 0 <= k < |services| && services[k] == s;
    assert services[j].id == services[k].id;
    assert j == k;
  }

  /** The category list after adding `c`: unchanged when `c` is already present, else appended. */
  function WithCategory(cats: seq<string>, c: string): (r: seq<string>)
    ensures c in r
    ensures forall d :: d in cats ==> d in r
    ensures c in cats ==> r == cats
    ensures c !in cats ==> r == cats + [c]
  {
    if c in cats then cats else cats + [c]
  }

  /** Adding a category never introduces a duplicate. */
  lemma WithCategoryNoDuplicates(cats: seq<string>, c: string)
    requires forall i, j :: 0 <= i < j < |cats| ==> cats[i] != cats[j]
    ensures var r := WithCategory(cats, c); forall i, j :: 0 <= i < j < |r| ==> r[i] != r[j]
  {
  }

  /** The category list after deleting `c`: every occurrence gone, the rest kept in order. */
  function WithoutCategory(cats: seq<string>, c: string): (r: seq<string>)
    ensures c !in r
    ensures forall d :: d in cats && d != c ==> d in r
    ensures IsSubsequence(r, cats)
  {
    FilterIsSubsequence(cats, CategoryIsNot(c));
    FilterMembers(cats, CategoryIsNot(c));
    var r := Filter(cats, CategoryIsNot(c));
    assert forall i :: 0 <= i < |r| ==> CategoryIsNot(c)(r[i]);
    r
  }

  /** Deleting by id removes every element with that id and keeps the others in order. */
  lemma DeleteServiceSpec(services: seq<Service>, id: string)
    ensures forall s :: s in Filter(services, ServiceIdIsNot(id)) <==> s in services && s.id != id
    ensures IsSubsequence(Filter(services, ServiceIdIsNot(id)), services)
    ensures (forall s :: s in services ==> s.id != id) ==> Filter(services, ServiceIdIsNot(id)) == services
  {
    FilterIsSubsequence(services, ServiceIdIsNot(id));
    if forall s :: s in services ==> s.id != id {
      FilterKeepsAll(services, ServiceIdIsNot(id));
    }
  }

  /** The same for posts: deleting an absent id leaves the collection as it was. */
  lemma DeleteBlogSpec(blogs: seq<BlogPost>, id: string)
    ensures forall b :: b in Filter(blogs, BlogIdIsNot(id)) <==> b in blogs && b.id != id
    ensures IsSubsequence(Filter(blogs, BlogIdIsNot(id)), blogs)
    ensures (forall b :: b in blogs ==> b.id != id) ==> Filter(blogs, BlogIdIsNot(id)) == blogs
  {
    FilterIsSubsequence(blogs, BlogIdIsNot(id));
    if forall b :: b in blogs ==> b.id != id {
      FilterKeepsAll(blogs, BlogIdIsNot(id));
    }
  }

  /** The same for global portfolio items. */
  lemma DeletePortfolioSpec(items: seq<PortfolioItem>, id: string)
    ensures forall p :: p in Filter(items, PortfolioIdIsNot(id)) <==> p in items && p.id != id
    ensures IsSubsequence(Filter(items, PortfolioIdIsNot(id)), items)
    ensures (forall p :: p in items ==> p.id != id) ==> Filter(items, PortfolioIdIsNot(id)) == items
  {
    FilterIsSubsequence(items, PortfolioIdIsNot(id));
    if forall p :: p in items ==> p.id != id {
      FilterKeepsAll(items, PortfolioIdIsNot(id));
    }
  }

  /** Updating by id replaces exactly the first element with that id; nothing else moves. */
  lemma UpdateServiceSpec(services: seq<Service>, updated: Service)
    ensures |ReplaceFirst(services, ServiceIdIs(updated.id), updated)| == |services|
    ensures forall j :: 0 <= j < |services| && services[j].id != updated.id ==>
              ReplaceFirst(services, ServiceIdIs(updated.id), updated)[j] == services[j]
    ensures var i := IndexOfFirst(services, ServiceIdIs(updated.id));
              0 <= i ==> ReplaceFirst(services, ServiceIdIs(updated.id), updated)[i] == updated
    ensures var i := IndexOfFirst(services, ServiceIdIs(updated.id));
              forall j :: 0 <= j < |services| && j != i ==>
                ReplaceFirst(services, ServiceIdIs(updated.id), updated)[j] == services[j]
    ensures IndexOfFirst(services, ServiceIdIs(updated.id)) == -1 ==>
              ReplaceFirst(services, ServiceIdIs(updated.id), updated) == services
  {
    var p := ServiceIdIs(updated.id);
    var i := IndexOfFirst(services, p);
    forall j | 0 <= j < |services| && j != i && p(services[j])
      ensures !NoneBefore(services, p, j)
    {
      assert 0 <= i < j;
      assert p(services[i]);
    }
  }

  // ---------------------------------------------------------------------------
  // The store's functions over local storage
  // ---------------------------------------------------------------------------

  /** The read every getter performs: the stored entry, or the default, which is then written. */
  method Read(ls: LocalStorage, key: Key, default: Stored) returns (v: Stored)
    modifies ls
    ensures v == Current(old(ls.entries), key, default)
    ensures ls.entries == Seed(old(ls.entries), key, default)
  {
    var stored := ls.GetItem(key);
    if stored.None? {
      ls.SetItem(key, default);
      v := default;
    } else {
      v := stored.value;
    }
  }

  method GetAdminCredentials(ls: LocalStorage) returns (r: AdminCredentials)
    requires WellTyped(ls.entries)
    modifies ls
    ensures r == CredentialsOf(old(ls.entries))
    ensures ls.entries == Seed(old(ls.entries), AuthKey, AUTH_SEED) && WellTyped(ls.entries)
  {
    var v := Read(ls, AuthKey, AUTH_SEED);
    r := v.credentials;
  }

  method SaveAdminCredentials(ls: LocalStorage, creds: AdminCredentials)
    requires WellTyped(ls.entries)
    modifies ls
    ensures ls.entries == old(ls.entries)[AuthKey := AuthData(creds)] && WellTyped(ls.entries)
    ensures CredentialsOf(ls.entries) == creds
  {
    ls.SetItem(AuthKey, AuthData(creds));
  }

  // --- Services ---

  method GetServices(ls: LocalStorage) returns (r: seq<Service>)
    requires WellTyped(ls.entries)
    modifies ls
    ensures r == ServicesOf(old(ls.entries))
    ensures ls.entries == Seed(old(ls.entries), ServicesKey, SERVICES_SEED) && WellTyped(ls.entries)
  {
    var v := Read(ls, ServicesKey, SERVICES_SEED);
    r := v.services;
  }

  method GetMainServices(ls: LocalStorage) returns (r: seq<Service>)
    requires WellTyped(ls.entries)
    modifies ls
    ensures r == MainServices(ServicesOf(old(ls.entries)))
    ensures ls.entries == Seed(old(ls.entries), ServicesKey, SERVICES_SEED) && WellTyped(ls.entries)
  {
    var services := GetServices(ls);
    r := MainServices(services);
  }

  method GetSubServices(ls: LocalStorage, parentId: string) returns (r: seq<Service>)
    requires WellTyped(ls.entries)
    modifies ls
    ensures r == SubServices(ServicesOf(old(ls.entries)), parentId)
    ensures ls.entries == Seed(old(ls.entries), ServicesKey, SERVICES_SEED) && WellTyped(ls.entries)
  {
    var services := GetServices(ls);
    r := SubServices(services, parentId);
  }

  method GetServiceBySlug(ls: LocalStorage, slug: string) returns (r: Option<Service>)
    requires WellTyped(ls.entries)
    modifies ls
    ensures r == ServiceBySlug(ServicesOf(old(ls.entries)), slug)
    ensures ls.entries == Seed(old(ls.entries), ServicesKey, SERVICES_SEED) && WellTyped(ls.entries)
  {
    var services := GetServices(ls);
    r := ServiceBySlug(services, slug);
  }

  method SaveServices(ls: LocalStorage, services: seq<Service>)
    requires WellTyped(ls.entries)
    modifies ls
    ensures ls.entries == old(ls.entries)[ServicesKey := ServicesData(services)] && WellTyped(ls.entries)
    ensures ServicesOf(ls.entries) == services
  {
    ls.SetItem(ServicesKey, ServicesData(services));
  }

  /** Appends the service; the other services keep their order. */
  method AddService(ls: LocalStorage, service: Service)
    requires WellTyped(ls.entries)
    modifies ls
    ensures ls.entries == old(ls.entries)[ServicesKey := ServicesData(ServicesOf(old(ls.entries)) + [service])]
    ensures WellTyped(ls.entries)
  {
    ghost var st := ls.entries;
    var current := GetServices(ls);
    SaveServices(ls, current + [service]);
    SeedThenSet(st, ServicesKey, SERVICES_SEED, ServicesData(current + [service]));
  }

  /** Replaces the first service with the same id; with no such service only the seeding read
      has happened. */
  method UpdateService(ls: LocalStorage, updated: Service)
    requires WellTyped(ls.entries)
    modifies ls
    ensures var cur := ServicesOf(old(ls.entries));
      ls.entries == if IndexOfFirst(cur, ServiceIdIs(updated.id)) == -1
                    then Seed(old(ls.entries), ServicesKey, SERVICES_SEED)
                    else old(ls.entries)[ServicesKey := ServicesData(ReplaceFirst(cur, ServiceIdIs(updated.id), updated))]
    ensures WellTyped(ls.entries)
  {
    ghost var st := ls.entries;
    var services := GetServices(ls);
    var index := IndexOfFirst(services, ServiceIdIs(updated.id));
    if index != -1 {
      services := services[index := updated];
      SaveServices(ls, services);
      SeedThenSet(st, ServicesKey, SERVICES_SEED, ServicesData(services));
    }
  }

  /** Removes every service with the id. */
  method DeleteService(ls: LocalStorage, id: string)
    requires WellTyped(ls.entries)
    modifies ls
    ensures ls.entries == old(ls.entries)[ServicesKey := ServicesData(Filter(ServicesOf(old(ls.entries)), ServiceIdIsNot(id)))]
    ensures WellTyped(ls.entries)
  {
    ghost var st := ls.entries;
    var current := GetServices(ls);
    SaveServices(ls, Filter(current, ServiceIdIsNot(id)));
    SeedThenSet(st, ServicesKey, SERVICES_SEED, ServicesData(Filter(current, ServiceIdIsNot(id))));
  }

  // --- Global portfolios ---

  method GetGlobalPortfolios(ls: LocalStorage) returns (r: seq<PortfolioItem>)
    requires WellTyped(ls.entries)
    modifies ls
    ensures r == PortfoliosOf(old(ls.entries))
    ensures ls.entries == Seed(old(ls.entries), PortfoliosKey, PORTFOLIOS_SEED) && WellTyped(ls.entries)
  {
    var v := Read(ls, PortfoliosKey, PORTFOLIOS_SEED);
    r := v.portfolios;
  }

  method SaveGlobalPortfolios(ls: LocalStorage, items: seq<PortfolioItem>)
    requires WellTyped(ls.entries)
    modifies ls
    ensures ls.entries == old(ls.entries)[PortfoliosKey := PortfoliosData(items)] && WellTyped(ls.entries)
    ensures PortfoliosOf(ls.entries) == items
  {
    ls.SetItem(PortfoliosKey, PortfoliosData(items));
  }

  /** Prepends the item. */
  method AddGlobalPortfolio(ls: LocalStorage, item: PortfolioItem)
    requires WellTyped(ls.entries)
    modifies ls
    ensures ls.entries == old(ls.entries)[PortfoliosKey := PortfoliosData([item] + PortfoliosOf(old(ls.entries)))]
    ensures WellTyped(ls.entries)
  {
    var current := GetGlobalPortfolios(ls);
    SaveGlobalPortfolios(ls, [item] + current);
  }

  /** Replaces the first item with the same id. */
  method UpdateGlobalPortfolio(ls: LocalStorage, item: PortfolioItem)
    requires WellTyped(ls.entries)
    modifies ls
    ensures var cur := PortfoliosOf(old(ls.entries));
      ls.entries == if IndexOfFirst(cur, PortfolioIdIs(item.id)) == -1
                    then Seed(old(ls.entries), PortfoliosKey, PORTFOLIOS_SEED)
                    else old(ls.entries)[PortfoliosKey := PortfoliosData(ReplaceFirst(cur, PortfolioIdIs(item.id), item))]
    ensures WellTyped(ls.entries)
  {
    ghost var st := ls.entries;
    var current := GetGlobalPortfolios(ls);
    var idx := IndexOfFirst(current, PortfolioIdIs(item.id));
    if idx != -1 {
      current := current[idx := item];
      SaveGlobalPortfolios(ls, current);
      SeedThenSet(st, PortfoliosKey, PORTFOLIOS_SEED, PortfoliosData(current));
    }
  }

  method DeleteGlobalPortfolio(ls: LocalStorage, id: string)
    requires WellTyped(ls.entries)
    modifies ls
    ensures ls.entries == old(ls.entries)[PortfoliosKey := PortfoliosData(Filter(PortfoliosOf(old(ls.entries)), PortfolioIdIsNot(id)))]
    ensures WellTyped(ls.entries)
  {
    var current := GetGlobalPortfolios(ls);
    SaveGlobalPortfolios(ls, Filter(current, PortfolioIdIsNot(id)));
  }

  method GetAllPortfolios(ls: LocalStorage) returns (r: seq<PortfolioEntry>)
    requires WellTyped(ls.entries)
    modifies ls
    ensures r == AllPortfolios(PortfoliosOf(old(ls.entries)), ServicesOf(old(ls.entries)))
    ensures ls.entries == Seed(Seed(old(ls.entries), PortfoliosKey, PORTFOLIOS_SEED), ServicesKey, SERVICES_SEED)
    ensures WellTyped(ls.entries)
  {
    var items := GetGlobalPortfolios(ls);
    var services := GetServices(ls);
    r := AllPortfolios(items, services);
  }

  // --- Blogs ---

  method GetBlogs(ls: LocalStorage) returns (r: seq<BlogPost>)
    requires WellTyped(ls.entries)
    modifies ls
    ensures r == BlogsOf(old(ls.entries))
    ensures ls.entries == Seed(old(ls.entries), BlogKey, BLOGS_SEED) && WellTyped(ls.entries)
  {
    var v := Read(ls, BlogKey, BLOGS_SEED);
    r := v.blogs;
  }

  method GetPublishedBlogs(ls: LocalStorage) returns (r: seq<BlogPost>)
    requires WellTyped(ls.entries)
    modifies ls
    ensures r == PublishedBlogs(BlogsOf(old(ls.entries)))
    ensures ls.entries == Seed(old(ls.entries), BlogKey, BLOGS_SEED) && WellTyped(ls.entries)
  {
    var blogs := GetBlogs(ls);
    r := PublishedBlogs(blogs);
  }

  method GetRecentBlogs(ls: LocalStorage, limit: int := 3) returns (r: seq<BlogPost>)
    requires WellTyped(ls.entries)
    modifies ls
    ensures r == RecentBlogs(BlogsOf(old(ls.entries)), limit)
    ensures ls.entries == Seed(old(ls.entries), BlogKey, BLOGS_SEED) && WellTyped(ls.entries)
  {
    var blogs := GetPublishedBlogs(ls);
    r := JsSlice(blogs, 0, limit);
  }

  method GetBlogBySlug(ls: LocalStorage, slug: string) returns (r: Option<BlogPost>)
    requires WellTyped(ls.entries)
    modifies ls
    ensures r == BlogBySlug(BlogsOf(old(ls.entries)), slug)
    ensures ls.entries == Seed(old(ls.entries), BlogKey, BLOGS_SEED) && WellTyped(ls.entries)
  {
    var blogs := GetPublishedBlogs(ls);
    r := Find(blogs, BlogSlugIs(slug));
  }

  method GetRelatedBlogs(ls: LocalStorage, currentSlug: string, category: string, limit: int := 3)
    returns (r: seq<BlogPost>)
    requires WellTyped(ls.entries)
    modifies ls
    ensures r == RelatedBlogs(BlogsOf(old(ls.entries)), currentSlug, category, limit)
    ensures ls.entries == Seed(old(ls.entries), BlogKey, BLOGS_SEED) && WellTyped(ls.entries)
  {
    var blogs := GetPublishedBlogs(ls);
    r := JsSlice(Filter(blogs, RelatedTo(currentSlug, category)), 0, limit);
  }

  method GetBlogCategories(ls: LocalStorage) returns (r: seq<string>)
    requires WellTyped(ls.entries)
    modifies ls
    ensures r == CategoriesOf(old(ls.entries))
    ensures ls.entries == Seed(old(ls.entries), BlogCategoriesKey, CATEGORIES_SEED) && WellTyped(ls.entries)
  {
    var v := Read(ls, BlogCategoriesKey, CATEGORIES_SEED);
    r := v.categories;
  }

  method SaveBlogCategories(ls: LocalStorage, categories: seq<string>)
    requires WellTyped(ls.entries)
    modifies ls
    ensures ls.entries == old(ls.entries)[BlogCategoriesKey := CategoriesData(categories)] && WellTyped(ls.entries)
  {
    ls.SetItem(BlogCategoriesKey, CategoriesData(categories));
  }

  /** Appends the category unless present; when present only the seeding read happens. */
  method AddBlogCategory(ls: LocalStorage, category: string)
    requires WellTyped(ls.entries)
    modifies ls
    ensures var cats := CategoriesOf(old(ls.entries));
      ls.entries == if category in cats then Seed(old(ls.entries), BlogCategoriesKey, CATEGORIES_SEED)
                    else old(ls.entries)[BlogCategoriesKey := CategoriesData(WithCategory(cats, category))]
    ensures CategoriesOf(ls.entries) == WithCategory(CategoriesOf(old(ls.entries)), category)
    ensures WellTyped(ls.entries)
  {
    var cats := GetBlogCategories(ls);
    if category !in cats {
      SaveBlogCategories(ls, cats + [category]);
    }
  }

  method DeleteBlogCategory(ls: LocalStorage, category: string)
    requires WellTyped(ls.entries)
    modifies ls
    ensures ls.entries == old(ls.entries)[BlogCategoriesKey := CategoriesData(WithoutCategory(CategoriesOf(old(ls.entries)), category))]
    ensures WellTyped(ls.entries)
  {
    var cats := GetBlogCategories(ls);
    SaveBlogCategories(ls, Filter(cats, CategoryIsNot(category)));
  }

  method SaveBlogs(ls: LocalStorage, blogs: seq<BlogPost>)
    requires WellTyped(ls.entries)
    modifies ls
    ensures ls.entries == old(ls.entries)[BlogKey := BlogsData(blogs)] && WellTyped(ls.entries)
    ensures BlogsOf(ls.entries) == blogs
  {
    ls.SetItem(BlogKey, BlogsData(blogs));
  }

  /** Prepends the post: the collection is newest first. */
  method AddBlog(ls: LocalStorage, blog: BlogPost)
    requires WellTyped(ls.entries)
    modifies ls
    ensures ls.entries == old(ls.entries)[BlogKey := BlogsData([blog] + BlogsOf(old(ls.entries)))]
    ensures WellTyped(ls.entries)
  {
    var current := GetBlogs(ls);
    SaveBlogs(ls, [blog] + current);
  }

  method UpdateBlog(ls: LocalStorage, updated: BlogPost)
    requires WellTyped(ls.entries)
    modifies ls
    ensures var cur := BlogsOf(old(ls.entries));
      ls.entries == if IndexOfFirst(cur, BlogIdIs(updated.id)) == -1
                    then Seed(old(ls.entries), BlogKey, BLOGS_SEED)
                    else old(ls.entries)[BlogKey := BlogsData(ReplaceFirst(cur, BlogIdIs(updated.id), updated))]
    ensures WellTyped(ls.entries)
  {
    ghost var st := ls.entries;
    var blogs := GetBlogs(ls);
    var index := IndexOfFirst(blogs, BlogIdIs(updated.id));
    if index != -1 {
      blogs := blogs[index := updated];
      SaveBlogs(ls, blogs);
      SeedThenSet(st, BlogKey, BLOGS_SEED, BlogsData(blogs));
    }
  }

  method DeleteBlog(ls: LocalStorage, id: string)
    requires WellTyped(ls.entries)
    modifies ls
    ensures ls.entries == old(ls.entries)[BlogKey := BlogsData(Filter(BlogsOf(old(ls.entries)), BlogIdIsNot(id)))]
    ensures WellTyped(ls.entries)
  {
    var current := GetBlogs(ls);
    SaveBlogs(ls, Filter(current, BlogIdIsNot(id)));
  }

  // --- Singletons and the remaining collections ---

  method GetSiteConfig(ls: LocalStorage) returns (r: SiteConfig)
    requires WellTyped(ls.entries)
    modifies ls
    ensures r == ConfigOf(old(ls.entries))
    ensures ls.entries == Seed(old(ls.entries), ConfigKey, CONFIG_SEED) && WellTyped(ls.entries)
  {
    var v := Read(ls, ConfigKey, CONFIG_SEED);
    r := v.config;
  }

  method SaveSiteConfig(ls: LocalStorage, config: SiteConfig)
    requires WellTyped(ls.entries)
    modifies ls
    ensures ls.entries == old(ls.entries)[ConfigKey := ConfigData(config)] && WellTyped(ls.entries)
    ensures ConfigOf(ls.entries) == config
  {
    ls.SetItem(ConfigKey, ConfigData(config));
  }

  method GetTestimonials(ls: LocalStorage) returns (r: seq<Testimonial>)
    requires WellTyped(ls.entries)
    modifies ls
    ensures r == TestimonialsOf(old(ls.entries))
    ensures ls.entries == Seed(old(ls.entries), TestimonialsKey, TESTIMONIALS_SEED) && WellTyped(ls.entries)
  {
    var v := Read(ls, TestimonialsKey, TESTIMONIALS_SEED);
    r := v.testimonials;
  }

  method SaveTestimonials(ls: LocalStorage, data: seq<Testimonial>)
    requires WellTyped(ls.entries)
    modifies ls
    ensures ls.entries == old(ls.entries)[TestimonialsKey := TestimonialsData(data)] && WellTyped(ls.entries)
  {
    ls.SetItem(TestimonialsKey, TestimonialsData(data));
  }

  method GetHomeStats(ls: LocalStorage) returns (r: seq<HomeStat>)
    requires WellTyped(ls.entries)
    modifies ls
    ensures r == HomeStatsOf(old(ls.entries))
    ensures ls.entries == Seed(old(ls.entries), HomeStatsKey, HOME_STATS_SEED) && WellTyped(ls.entries)
  {
    var v := Read(ls, HomeStatsKey, HOME_STATS_SEED);
    r := v.stats;
  }

  method SaveHomeStats(ls: LocalStorage, data: seq<HomeStat>)
    requires WellTyped(ls.entries)
    modifies ls
    ensures ls.entries == old(ls.entries)[HomeStatsKey := HomeStatsData(data)] && WellTyped(ls.entries)
  {
    ls.SetItem(HomeStatsKey, HomeStatsData(data));
  }

  method GetHomeContent(ls: LocalStorage) returns (r: HomeContent)
    requires WellTyped(ls.entries)
    modifies ls
    ensures r == HomeContentOf(old(ls.entries))
    ensures ls.entries == Seed(old(ls.entries), HomeContentKey, HOME_CONTENT_SEED) && WellTyped(ls.entries)
  {
    var v := Read(ls, HomeContentKey, HOME_CONTENT_SEED);
    r := v.content;
  }

  method SaveHomeContent(ls: LocalStorage, data: HomeContent)
    requires WellTyped(ls.entries)
    modifies ls
    ensures ls.entries == old(ls.entries)[HomeContentKey := HomeContentData(data)] && WellTyped(ls.entries)
  {
    ls.SetItem(HomeContentKey, HomeContentData(data));
  }

  /** Services embed copies of portfolio items: reading or writing the global gallery leaves
      the services as they were. */
  lemma PortfolioWriteLeavesServices(st: map<Key, Stored>, items: seq<PortfolioItem>)
    ensures ServicesOf(st[PortfoliosKey := PortfoliosData(items)]) == ServicesOf(st)
    ensures ServicesOf(Seed(st, PortfoliosKey, PORTFOLIOS_SEED)) == ServicesOf(st)
  {
  }

  /** A write followed by a read of the same collection returns what was written, whatever else
      is in storage: here for the services after AddService. */
  lemma AddThenRead(st: map<Key, Stored>, service: Service)
    ensures var st' := st[ServicesKey := ServicesData(ServicesOf(st) + [service])];
      ServicesOf(st') == ServicesOf(st) + [service] && service in ServicesOf(st')
      && BlogsOf(st') == BlogsOf(st)
  {
  }
}
