// The page for a single top-level path segment: a service page when a service has that
// slug, otherwise a blog page when a published post has it, otherwise "not found".

module PageResolver {
  import opened Optional
  import opened Types
  import opened Storage
  import opened DataService

  /** What the path segment resolves to.  The not-found view shows the segment it was given. */
  datatype View =
    | ServiceView(service: Service)
    | BlogView(post: BlogPost)
    | NotFoundView(slug: Option<string>)

  /** The classification, given the stored collections.  A falsy segment (absent or empty)
      is looked up nowhere. */
  function Resolve(services: seq<Service>, blogs: seq<BlogPost>, slug: Option<string>): (v: View)
    ensures v.ServiceView? ==> Truthy(slug) && v.service in services && v.service.slug == slug.value
    ensures v.BlogView? ==> Truthy(slug) && v.post in blogs && v.post.slug == slug.value && v.post.status == Published
    ensures v.NotFoundView? ==> v.slug == slug
  {
    var service := if Truthy(slug) then ServiceBySlug(services, slug.value) else None;
    if service.Some? then ServiceView(service.value)
    else
      var blog := if Truthy(slug) then BlogBySlug(blogs, slug.value) else None;
      if blog.Some? then BlogView(blog.value)
      else NotFoundView(slug)
  }

  /** A service with the slug wins, even when a published post has the same slug. */
  lemma ServiceWins(services: seq<Service>, blogs: seq<BlogPost>, slug: string, s: Service)
    requires slug != "" && s in services && s.slug == slug
    ensures Resolve(services, blogs, Some(slug)).ServiceView?
  {
  }

  /** The blog view is chosen exactly when no service has the slug and a published post does. */
  lemma BlogViewExactly(services: seq<Service>, blogs: seq<BlogPost>, slug: string)
    requires slug != ""
    ensures Resolve(services, blogs, Some(slug)).BlogView? <==>
      (forall s :: s in services ==> s.slug != slug) &&
      (exists b :: b in blogs && b.slug == slug && b.status == Published)
  {
  }

  /** A draft is never shown: with no service and only drafts under the slug, the page is
      not found and shows that slug. */
  lemma DraftIsNotFound(services: seq<Service>, blogs: seq<BlogPost>, slug: string)
    requires slug != ""
    requires forall s :: s in services ==> s.slug != slug
    requires forall b :: b in blogs && b.slug == slug ==> b.status == Draft
    ensures Resolve(services, blogs, Some(slug)) == NotFoundView(Some(slug))
  {
  }

  /** A missing or empty segment is not found, whatever is stored. */
  lemma MissingSlugNotFound(services: seq<Service>, blogs: seq<BlogPost>, slug: Option<string>)
    requires !Truthy(slug)
    ensures Resolve(services, blogs, slug) == NotFoundView(slug)
  {
  }

  /** What resolving does to local storage: the service lookup's getter seeds the services when
      the segment is truthy, and the blog lookup's getter seeds the posts when no service matched. */
  function ResolveEffect(st: map<Key, Stored>, slug: Option<string>): (r: map<Key, Stored>)
  {
    if !Truthy(slug) then st
    else
      var st1 := Seed(st, ServicesKey, SERVICES_SEED);
      if ServiceBySlug(ServicesOf(st), slug.value).Some? then st1
      else Seed(st1, BlogKey, BLOGS_SEED)
  }

  /** Resolving writes no content: every collection reads the same afterwards, and every entry
      that existed before is still there, unchanged. */
  lemma ResolveWritesNoContent(st: map<Key, Stored>, slug: Option<string>)
    requires WellTyped(st)
    ensures var st' := ResolveEffect(st, slug);
      && WellTyped(st')
      && (forall k :: k in st ==> k in st' && st'[k] == st[k])
      && st'.Keys <= st.Keys + {ServicesKey, BlogKey}
      && ServicesOf(st') == ServicesOf(st) && BlogsOf(st') == BlogsOf(st)
  {
    if Truthy(slug) {
      ServicesSeedStable(st);
      var st1 := Seed(st, ServicesKey, SERVICES_SEED);
      SeedWellTyped(st, ServicesKey, SERVICES_SEED);
      BlogsSeedStable(st1);
      SeedWellTyped(st1, BlogKey, BLOGS_SEED);
    }
  }

  /** The resolver as the page runs it: one lookup per getter, service first. */
  method ResolvePage(ls: LocalStorage, slug: Option<string>) returns (v: View)
    requires WellTyped(ls.entries)
    modifies ls
    ensures v == Resolve(ServicesOf(old(ls.entries)), BlogsOf(old(ls.entries)), slug)
    ensures ls.entries == ResolveEffect(old(ls.entries), slug)
    ensures WellTyped(ls.entries)
  {
    if !Truthy(slug) {
      return NotFoundView(slug);
    }
    ghost var st := ls.entries;
    var service := GetServiceBySlug(ls, slug.value);
    if service.Some? {
      return ServiceView(service.value);
    }
    var blog := GetBlogBySlug(ls, slug.value);
    assert BlogsOf(Seed(st, ServicesKey, SERVICES_SEED)) == BlogsOf(st);
    if blog.Some? {
      return BlogView(blog.value);
    }
    return NotFoundView(slug);
  }
}
