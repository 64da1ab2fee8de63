// The browser's local storage, holding one typed value per fixed key.  Values are kept as
// typed data rather than JSON text.

module Storage {
  import opened Optional
  import opened Types

  /** The storage keys the site writes. */
  datatype Key =
    | ServicesKey | BlogKey | BlogCategoriesKey | PortfoliosKey | ConfigKey
    | TestimonialsKey | HomeStatsKey | HomeContentKey | AuthKey
      /** The key the page layout keeps the colour theme under. */
    | ThemeKey

  /** The name each key has in the browser's storage. */
  function KeyName(k: Key): string
  {
    match k
    case ServicesKey => "mazmodev_services"
    case BlogKey => "mazmodev_blogs"
    case BlogCategoriesKey => "mazmodev_blog_categories"
    case PortfoliosKey => "mazmodev_portfolios"
    case ConfigKey => "mazmodev_config"
    case TestimonialsKey => "mazmodev_testimonials"
    case HomeStatsKey => "mazmodev_home_stats"
    case HomeContentKey => "mazmodev_home_content"
    case AuthKey => "mazmodev_auth"
    case ThemeKey => "theme"
  }

  /** No two keys share a name, so a map over keys is a map over the stored names. */
  lemma KeyNamesDistinct(a: Key, b: Key)
    ensures KeyName(a) == KeyName(b) <==> a == b
  {
    if a != b {
      assert KeyName(a) != KeyName(b) by {
        var x, y := KeyName(a), KeyName(b);
        if |x| == |y| {
          assert x[..10] != y[..10] || x[10..] != y[10..];
        }
      }
    }
  }

  /** What one storage entry holds. */
  datatype Stored =
    | ServicesData(services: seq<Service>)
    | BlogsData(blogs: seq<BlogPost>)
    | CategoriesData(categories: seq<string>)
    | PortfoliosData(portfolios: seq<PortfolioItem>)
    | ConfigData(config: SiteConfig)
    | TestimonialsData(testimonials: seq<Testimonial>)
    | HomeStatsData(stats: seq<HomeStat>)
    | HomeContentData(content: HomeContent)
    | AuthData(credentials: AdminCredentials)
    | TextData(text: string)

  /** The entry under `key` has the shape that key is written with. */
  predicate TypedFor(key: Key, v: Stored)
  {
    match key
    case ServicesKey => v.ServicesData?
    case BlogKey => v.BlogsData?
    case BlogCategoriesKey => v.CategoriesData?
    case PortfoliosKey => v.PortfoliosData?
    case ConfigKey => v.ConfigData?
    case TestimonialsKey => v.TestimonialsData?
    case HomeStatsKey => v.HomeStatsData?
    case HomeContentKey => v.HomeContentData?
    case AuthKey => v.AuthData?
    case ThemeKey => v.TextData?
  }

  /** Every entry has the shape of its key. */
  predicate WellTyped(entries: map<Key, Stored>)
  {
    forall k :: k in entries ==> TypedFor(k, entries[k])
  }

  /** The entry under `key`, or `default` when there is none. */
  function Current(entries: map<Key, Stored>, key: Key, default: Stored): (v: Stored)
    ensures key in entries ==> v == entries[key]
    ensures key !in entries ==> v == default
  {
    if key in entries then entries[key] else default
  }

  /** The entries after a read of `key` that seeds `default` when the key is absent. */
  function Seed(entries: map<Key, Stored>, key: Key, default: Stored): map<Key, Stored>
  {
    if key in entries then entries else entries[key := default]
  }

  /** A seeding read leaves the key holding what the read returned, keeps every other entry and
      adds no key but its own. */
  lemma SeedFacts(entries: map<Key, Stored>, key: Key, default: Stored)
    ensures var r := Seed(entries, key, default);
      && key in r && r[key] == Current(entries, key, default)
      && (forall k :: k in entries ==> k in r && r[k] == entries[k])
      && r.Keys == entries.Keys + {key}
  {
  }

  /** Seeding twice is seeding once. */
  lemma SeedIdempotent(entries: map<Key, Stored>, key: Key, default: Stored)
    ensures Seed(Seed(entries, key, default), key, default) == Seed(entries, key, default)
  {
  }

  /** A write after a seeding read of the same key is the write alone. */
  lemma SeedThenSet(entries: map<Key, Stored>, key: Key, default: Stored, v: Stored)
    ensures Seed(entries, key, default)[key := v] == entries[key := v]
  {
  }

  /** Seeding a well-typed default keeps the entries well typed. */
  lemma SeedWellTyped(entries: map<Key, Stored>, key: Key, default: Stored)
    requires WellTyped(entries) && TypedFor(key, default)
    ensures WellTyped(Seed(entries, key, default))
  {
  }

  /** localStorage: a map from key to value, read and written one key at a time. */
  class LocalStorage {
    var entries: map<Key, Stored>

    constructor ()
      ensures entries == map[]
    {
      entries := map[];
    }

    /** localStorage.getItem: the entry, or nothing. */
    method GetItem(key: Key) returns (v: Option<Stored>)
      ensures v.Some? <==> key in entries
      ensures v.Some? ==> v.value == entries[key]
    {
      if key in entries {
        v := Some(entries[key]);
      } else {
        v := None;
      }
    }

    /** localStorage.setItem: replaces the entry under `key` and leaves every other entry. */
    method SetItem(key: Key, v: Stored)
      modifies this
      ensures entries == old(entries)[key := v]
    {
      entries := entries[key := v];
    }
  }
}
