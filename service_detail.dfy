// The service page: the related-services list (children, then siblings other than the service
// itself), the offer prices as bare digits, and the structured-data graph, which carries an FAQ
// node only when the service has questions.

module ServiceDetail {
  import opened Optional
  import opened Types
  import opened Storage
  import opened Lists
  import opened Strings
  import opened DataService

  /** The siblings shown on a sub-service's page: the other children of its parent.  A main
      service (falsy parent) has none. */
  function Siblings(services: seq<Service>, found: Service): (r: seq<Service>)
    ensures forall s :: s in r <==>
      Truthy(found.parentServiceId) && s in services && s.parentServiceId == found.parentServiceId && s.id != found.id
    ensures !Truthy(found.parentServiceId) ==> r == []
    ensures IsSubsequence(r, services)
  {
    if Truthy(found.parentServiceId) then
      var sibs := SubServices(services, found.parentServiceId.value);
      var r := Filter(sibs, ServiceIdIsNot(found.id));
      FilterMembers(sibs, ServiceIdIsNot(found.id));
      FilterIsSubsequence(sibs, ServiceIdIsNot(found.id));
      IsSubsequenceTrans(r, sibs, services);
      assert forall i :: 0 <= i < |r| ==> ServiceIdIsNot(found.id)(r[i]);
      assert forall i :: 0 <= i < |sibs| && sibs[i].id != found.id ==> ServiceIdIsNot(found.id)(sibs[i]);
      r
    else
      EmptyIsSubsequence(services);
      []
  }

  /** The related services: the found service's children followed by its siblings.  Every
      listed service is a child of the found service or one of its siblings, never the found
      service itself as a sibling, and every child and every sibling is listed; the children
      come first, each group in the order of the service list. */
  function RelatedServices(services: seq<Service>, found: Service): (r: seq<Service>)
    ensures forall s :: s in r <==>
      s in services &&
      (s.parentServiceId == Some(found.id) ||
       (Truthy(found.parentServiceId) && s.parentServiceId == found.parentServiceId && s.id != found.id))
    ensures var c := SubServices(services, found.id);
      |c| <= |r| && r[..|c|] == c && r[|c|..] == Siblings(services, found) &&
      IsSubsequence(r[..|c|], services) && IsSubsequence(r[|c|..], services)
  {
    SubServices(services, found.id) + Siblings(services, found)
  }

  /** On a main service's page the related list is exactly its children. */
  lemma MainServiceRelatedAreChildren(services: seq<Service>, found: Service)
    requires IsMain(found)
    ensures RelatedServices(services, found) == SubServices(services, found.id)
  {
    assert Siblings(services, found) == [];
  }

  /** The sibling part never lists the found service. */
  lemma SiblingsExcludeSelf(services: seq<Service>, found: Service)
    ensures found !in Siblings(services, found)
  {
  }

  /** The default "website" service relates to its two sub-services; each sub-service relates
      to the other one. */
  lemma DefaultRelated()
    ensures RelatedServices(Defaults.DEFAULT_SERVICES, Defaults.WEBSITE_SERVICE)
      == [Defaults.RENTAL_SERVICE, Defaults.CLINIC_SERVICE]
  {
    DefaultHierarchy();
  }

  /** The price of an offer in the structured data is the plan's display price without its
      non-digits: the default "Starter" plan's price becomes the bare amount. */
  lemma PriceDigitsExample()
    ensures DigitsOnly("Rp 1.500.000") == "1500000"
  {
  }

  /** One offer of the service's offer catalogue. */
  datatype Offer = Offer(name: string, price: string)

  /** A node of the page's structured-data graph. */
  datatype SchemaNode =
    | ServiceNode(name: string, description: string, offers: seq<Offer>)
    | FaqNode(entries: seq<ServiceFaq>)

  /** The structured-data graph: the service node, then the FAQ node when there are questions. */
  function SchemaGraph(service: Service): (r: seq<SchemaNode>)
    ensures |r| >= 1 && r[0].ServiceNode?
    ensures r[0].name == service.title && r[0].description == service.shortDescription
    ensures |r[0].offers| == |service.plans|
    ensures forall i :: 0 <= i < |service.plans| ==>
      r[0].offers[i] == Offer(service.plans[i].name, DigitsOnly(service.plans[i].price))
    ensures (exists k :: 0 <= k < |r| && r[k].FaqNode?) <==> |service.faqs| > 0
    ensures |r| == if |service.faqs| > 0 then 2 else 1
    ensures |service.faqs| > 0 ==> r[1] == FaqNode(service.faqs)
  {
    var offers := seq(|service.plans|, i requires 0 <= i < |service.plans| =>
      Offer(service.plans[i].name, DigitsOnly(service.plans[i].price)));
    var serviceNode := ServiceNode(service.title, service.shortDescription, offers);
    if |service.faqs| > 0 then
      var r := [serviceNode, FaqNode(service.faqs)];
      assert r[1].FaqNode?;
      r
    else [serviceNode]
  }

  /** The title the page gives the search engines: the SEO title when truthy, else the title. */
  function SeoTitle(service: Service): (r: string)
    ensures Truthy(service.seoTitle) ==> r == service.seoTitle.value
    ensures !Truthy(service.seoTitle) ==> r == service.title
  {
    if Truthy(service.seoTitle) then service.seoTitle.value else service.title
  }

  /** What the page shows once its data is loaded. */
  datatype Detail =
    | DetailNotFound
    | DetailFound(service: Service, related: seq<Service>)

  /** The page's data for a path segment. */
  function LoadedDetail(services: seq<Service>, slug: Option<string>): (d: Detail)
    ensures d.DetailNotFound? <==> !Truthy(slug) || forall s :: s in services ==> s.slug != slug.value
    ensures d.DetailFound? ==>
      d.service in services && d.service.slug == slug.value && d.related == RelatedServices(services, d.service)
  {
    if !Truthy(slug) then DetailNotFound
    else
      var found := ServiceBySlug(services, slug.value);
      if found.None? then DetailNotFound
      else DetailFound(found.value, RelatedServices(services, found.value))
  }

  /** The page's loading effect: look the service up, then its children, then (for a
      sub-service) its parent's children without itself. */
  method LoadDetail(ls: LocalStorage, slug: Option<string>) returns (d: Detail)
    requires WellTyped(ls.entries)
    modifies ls
    ensures d == LoadedDetail(ServicesOf(old(ls.entries)), slug)
    ensures ls.entries == if Truthy(slug) then Seed(old(ls.entries), ServicesKey, SERVICES_SEED) else old(ls.entries)
    ensures WellTyped(ls.entries)
  {
    if !Truthy(slug) {
      return DetailNotFound;
    }
    ghost var st := ls.entries;
    var found := GetServiceBySlug(ls, slug.value);
    if found.None? {
      return DetailNotFound;
    }
    ServicesSeedStable(st);
    var children := GetSubServices(ls, found.value.id);
    var siblings: seq<Service> := [];
    if Truthy(found.value.parentServiceId) {
      var all := GetSubServices(ls, found.value.parentServiceId.value);
      siblings := Filter(all, ServiceIdIsNot(found.value.id));
    }
    d := DetailFound(found.value, children + siblings);
  }
}
