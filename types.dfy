// The record shapes of the content: every entity is a plain value.  Optional fields are
// `Option`s; a Service embeds copies of PortfolioItem values, never references to them.

module Types {
  import opened Optional

  datatype PricingFeature = PricingFeature(text: string, included: bool)

  /** A pricing plan; `price` is a display string such as "Rp 1.500.000", not an amount. */
  datatype PricingPlan = PricingPlan(
    id: string,
    name: string,
    price: string,
    features: seq<PricingFeature>,
    recommended: Option<bool>)

  datatype ServiceFeature = ServiceFeature(title: string, description: string, icon: Option<string>)

  datatype ServiceBenefit = ServiceBenefit(title: string, description: string)

  datatype ServiceFaq = ServiceFaq(question: string, answer: string)

  /** A portfolio item of the global gallery, optionally linked to a service by id. */
  datatype PortfolioItem = PortfolioItem(
    id: string,
    image: string,
    title: string,
    category: string,
    serviceId: Option<string>)

  /** The five icon names a service may carry. */
  datatype IconName = Code | Megaphone | Palette | Search | Globe

  /** A service.  `parentServiceId` absent (or empty) marks a main service; present, a sub-service. */
  datatype Service = Service(
    id: string,
    title: string,
    slug: string,
    iconName: IconName,
    parentServiceId: Option<string>,
    seoTitle: Option<string>,
    seoKeywords: Option<seq<string>>,
    shortDescription: string,
    fullDescription: string,
    contentSectionTitle: Option<string>,
    contentSectionBody: Option<string>,
    features: seq<ServiceFeature>,
    benefits: seq<ServiceBenefit>,
    portfolio: seq<PortfolioItem>,
    faqs: seq<ServiceFaq>,
    plans: seq<PricingPlan>)

  /** A post is either published or a draft, nothing else. */
  datatype PostStatus = Published | Draft

  datatype BlogPost = BlogPost(
    id: string,
    title: string,
    slug: string,
    category: string,
    summary: string,
    content: string,
    author: string,
    date: string,
    imageUrl: string,
    tags: seq<string>,
    status: PostStatus)

  datatype SiteConfig = SiteConfig(
    whatsappNumber: string,
    email: string,
    address: string,
    logoUrl: Option<string>,
    instagram: Option<string>,
    facebook: Option<string>,
    linkedin: Option<string>,
    youtube: Option<string>,
    tiktok: Option<string>)

  datatype AdminCredentials = AdminCredentials(username: string, password: string)

  datatype Testimonial = Testimonial(id: string, name: string, role: string, content: string, rating: int)

  // The stat's `label` is called `caption` here: `label` is a reserved word.
  datatype HomeStat = HomeStat(id: string, caption: string, value: string, icon: string, color: string)

  datatype TrustedBrand = TrustedBrand(id: string, name: string, logoUrl: string)

  datatype ProcessStep = ProcessStep(step: string, title: string, description: string, icon: string)

  datatype HomeContent = HomeContent(
    heroTitle: string,
    heroSubtitle: string,
    heroButtonText: string,
    showTrustedBrands: bool,
    trustedBrands: seq<TrustedBrand>,
    howItWorks: seq<ProcessStep>)

  /** JavaScript truthiness of an optional string: present and not empty. */
  predicate Truthy(s: Option<string>)
  {
    s.Some? && s.value != ""
  }

  /** A main service: its parent id is falsy (`!s.parentServiceId`). */
  predicate IsMain(s: Service)
  {
    !Truthy(s.parentServiceId)
  }
}
