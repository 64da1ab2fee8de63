// The administration dashboard: login, the slug a title turns into, the plan and portfolio
// editors of a service, the blog editor (tags, category fallback, save as new or as update),
// the searched and paginated post list, categories and the profile form.

module AdminDashboard {
  import opened Optional
  import opened Types
  import opened Storage
  import opened Lists
  import opened Strings
  import opened DataService

  // ---------------------------------------------------------------------------
  // Login and profile
  // ---------------------------------------------------------------------------

  /** The one message every failed login shows, whichever field was wrong. */
  const LOGIN_ERROR := "Username atau Password salah!"

  /** A login succeeds when both fields equal the stored credentials. */
  function LoginAccepted(username: string, password: string, creds: AdminCredentials): (r: bool)
    ensures r <==> AdminCredentials(username, password) == creds
  {
    username == creds.username && password == creds.password
  }

  /** On a fresh browser only the built-in account logs in. */
  lemma DefaultLogin(username: string, password: string)
    ensures LoginAccepted(username, password, CredentialsOf(map[])) <==>
      username == "admin" && password == "admin123"
  {
  }

  /** The profile form saves only a non-empty password typed twice alike. */
  predicate ProfileSaveAllowed(password: string, confirmation: string)
  {
    password != "" && password == confirmation
  }

  /** What the profile form does to storage. */
  function ProfileEffect(st: map<Key, Stored>, username: string, password: string, confirmation: string)
    : (r: map<Key, Stored>)
    ensures !ProfileSaveAllowed(password, confirmation) ==> r == st
    ensures ProfileSaveAllowed(password, confirmation) ==> CredentialsOf(r) == AdminCredentials(username, password)
  {
    if ProfileSaveAllowed(password, confirmation) then st[AuthKey := AuthData(AdminCredentials(username, password))]
    else st
  }

  /** After an accepted profile change exactly the new pair logs in (so never an empty
      password); after a rejected one the login is as before. */
  lemma ProfileThenLogin(st: map<Key, Stored>, username: string, password: string, confirmation: string,
                         u: string, p: string)
    ensures ProfileSaveAllowed(password, confirmation) ==>
      (LoginAccepted(u, p, CredentialsOf(ProfileEffect(st, username, password, confirmation))) <==>
       u == username && p == password)
    ensures ProfileSaveAllowed(password, confirmation) ==>
      !LoginAccepted(u, "", CredentialsOf(ProfileEffect(st, username, password, confirmation)))
    ensures !ProfileSaveAllowed(password, confirmation) ==>
      (LoginAccepted(u, p, CredentialsOf(ProfileEffect(st, username, password, confirmation))) <==>
       LoginAccepted(u, p, CredentialsOf(st)))
  {
  }

  // ---------------------------------------------------------------------------
  // Slugs: lower-case, drop what is not a word character, whitespace or '-', then turn each
  // whitespace run into one '-'
  // ---------------------------------------------------------------------------

  /** A character the second step keeps. */
  predicate KeptInSlug(c: char)
  {
    IsWordChar(c) || IsSpace(c) || c == '-'
  }

  /** A character a slug is made of. */
  predicate IsSlugChar(c: char)
  {
    'a' <= c <= 'z' || IsDigit(c) || c == '_' || c == '-'
  }

  /** Each run of whitespace replaced by a single '-' (replace(/\s+/g, '-')). */
  function DashSpaceRuns(s: string): (r: string)
    ensures forall i :: 0 <= i < |r| ==> !IsSpace(r[i])
    ensures (forall i :: 0 <= i < |s| ==> IsSlugChar(s[i]) || IsSpace(s[i])) ==>
      forall i :: 0 <= i < |r| ==> IsSlugChar(r[i])
    ensures (forall i :: 0 <= i < |s| ==> !IsSpace(s[i])) ==> r == s
    decreases |s|
  {
    if s == [] then []
    else if IsSpace(s[0]) then
      var rest := TrimStart(s[1..]);
      assert forall i :: 0 <= i < |rest| ==> rest[i] == s[1..][|s| - 1 - |rest| + i];
      "-" + DashSpaceRuns(rest)
    else [s[0]] + DashSpaceRuns(s[1..])
  }

  /** The slug of a title. */
  function Slugify(title: string): (r: string)
    ensures forall i :: 0 <= i < |r| ==> IsSlugChar(r[i])
  {
    var lower := Lower(title);
    var kept := Filter(lower, KeptInSlug);
    FilterMembers(lower, KeptInSlug);
    assert forall i :: 0 <= i < |kept| ==> IsSlugChar(kept[i]) || IsSpace(kept[i]) by {
      forall i | 0 <= i < |kept| ensures IsSlugChar(kept[i]) || IsSpace(kept[i]) {
        assert KeptInSlug(kept[i]);
        var j :| 0 <= j < |lower| && lower[j] == kept[i];
        assert !('A' <= lower[j] <= 'Z');
      }
    }
    DashSpaceRuns(kept)
  }

  /** A slug has no whitespace. */
  lemma SlugHasNoSpace(title: string)
    ensures forall i :: 0 <= i < |Slugify(title)| ==> !IsSpace(Slugify(title)[i])
  {
    var r := Slugify(title);
    forall i | 0 <= i < |r| ensures !IsSpace(r[i]) {
      assert IsSlugChar(r[i]);
    }
  }

  /** Deriving the slug of a slug changes nothing. */
  lemma SlugifyIdempotent(title: string)
    ensures Slugify(Slugify(title)) == Slugify(title)
  {
    var s := Slugify(title);
    assert Lower(s) == s;
    FilterKeepsAll(s, KeptInSlug);
    SlugHasNoSpace(title);
  }

  /** A whitespace run between two words becomes exactly one '-'. */
  lemma {:induction false} SpaceRunBecomesDash(a: string, pad: string, b: string)
    requires forall i :: 0 <= i < |a| ==> !IsSpace(a[i])
    requires forall i :: 0 <= i < |b| ==> !IsSpace(b[i])
    requires pad != [] && forall i :: 0 <= i < |pad| ==> IsSpace(pad[i])
    ensures DashSpaceRuns(a + pad + b) == a + "-" + b
  {
    if a == [] {
      assert a + pad + b == pad + b;
      assert (pad + b)[1..] == pad[1..] + b;
      TrimStartPadded(pad[1..], b);
    } else {
      assert (a + pad + b)[1..] == a[1..] + pad + b;
      SpaceRunBecomesDash(a[1..], pad, b);
    }
  }

  // ---------------------------------------------------------------------------
  // Services and their plans, items and portfolio
  // ---------------------------------------------------------------------------

  /** The service a new name creates: slug of the name, globe icon, placeholder descriptions,
      the name as SEO title and no content yet. */
  function NewService(name: string, id: string): (r: Service)
    ensures r.id == id && r.title == name && r.slug == Slugify(name) && r.seoTitle == Some(name)
    ensures IsMain(r)
    ensures r.features == [] && r.benefits == [] && r.portfolio == [] && r.faqs == [] && r.plans == []
  {
    Service(id, name, Slugify(name), Globe, None, Some(name), Some([]),
      "Deskripsi singkat...", "<p>Deskripsi lengkap...</p>", None, None, [], [], [], [], [])
  }

  /** The marker the plan editor uses for a plan that is not in the list yet. */
  const NEW_PLAN := "NEW"

  function PlanKey(p: PricingPlan): string { p.id }

  function PlanIdIs(id: string): PricingPlan -> bool { (p: PricingPlan) => p.id == id }

  function PlanIdIsNot(id: string): PricingPlan -> bool { (p: PricingPlan) => p.id != id }

  /** The plan a fresh "add plan" starts from. */
  function NewPlan(id: string): (r: PricingPlan)
    ensures r.id == id && |r.features| == 1
  {
    PricingPlan(id, "Paket Baru", "Rp 0", [PricingFeature("Fitur 1", true)], Some(false))
  }

  /** The plans after saving the plan being edited: appended when it is new, otherwise put in
      the place of the first plan with its id, or nothing when there is none. */
  function PlansAfterSave(plans: seq<PricingPlan>, editingPlanId: Option<string>, temp: PricingPlan)
    : (r: seq<PricingPlan>)
    ensures editingPlanId == Some(NEW_PLAN) ==> r == plans + [temp]
    ensures editingPlanId != Some(NEW_PLAN) && (forall j :: 0 <= j < |plans| ==> plans[j].id != temp.id) ==>
      r == plans
    ensures editingPlanId != Some(NEW_PLAN) && IndexOfFirst(plans, PlanIdIs(temp.id)) != -1 ==>
      r == plans[IndexOfFirst(plans, PlanIdIs(temp.id)) := temp]
  {
    if editingPlanId == Some(NEW_PLAN) then plans + [temp]
    else
      var idx := IndexOfFirst(plans, PlanIdIs(temp.id));
      if idx != -1 then plans[idx := temp] else plans
  }

  /** Saving never duplicates a plan id: an edit keeps the ids as they were, and a new plan
      with an unused id adds one. */
  lemma SavePlanKeepsIdsUnique(plans: seq<PricingPlan>, editingPlanId: Option<string>, temp: PricingPlan)
    requires UniqueKeys(plans, PlanKey)
    requires editingPlanId == Some(NEW_PLAN) ==> forall j :: 0 <= j < |plans| ==> plans[j].id != temp.id
    ensures UniqueKeys(PlansAfterSave(plans, editingPlanId, temp), PlanKey)
  {
    var r := PlansAfterSave(plans, editingPlanId, temp);
    if editingPlanId == Some(NEW_PLAN) {
      forall i, j | 0 <= i < j < |r| ensures PlanKey(r[i]) != PlanKey(r[j]) {
        if j < |plans| {
          assert r[i] == plans[i] && r[j] == plans[j];
        } else {
          assert r[i] == plans[i] && r[j] == temp;
        }
      }
    } else {
      var idx := IndexOfFirst(plans, PlanIdIs(temp.id));
      if idx != -1 {
        assert PlanIdIs(temp.id)(plans[idx]);
        assert forall k :: 0 <= k < |r| ==> PlanKey(r[k]) == PlanKey(plans[k]);
      }
    }
  }

  /** Opening a listed plan and saving it without changes leaves the plans as they were. */
  lemma SaveUnchangedPlan(plans: seq<PricingPlan>, j: int)
    requires UniqueKeys(plans, PlanKey)
    requires 0 <= j < |plans| && plans[j].id != NEW_PLAN
    ensures PlansAfterSave(plans, Some(plans[j].id), plans[j]) == plans
  {
    assert PlanIdIs(plans[j].id)(plans[j]);
    assert forall k :: 0 <= k < j ==> PlanKey(plans[k]) != PlanKey(plans[j]);
  }

  /** The plans after the delete button: those without the id, when confirmed. */
  function PlansAfterDelete(plans: seq<PricingPlan>, id: string, confirmed: bool): (r: seq<PricingPlan>)
    ensures !confirmed ==> r == plans
    ensures IsSubsequence(r, plans)
  {
    if confirmed then
      FilterIsSubsequence(plans, PlanIdIsNot(id));
      Filter(plans, PlanIdIsNot(id))
    else
      IsSubsequenceRefl(plans);
      plans
  }

  /** A confirmed delete removes exactly the plans with the id. */
  lemma DeletePlanExactly(plans: seq<PricingPlan>, id: string)
    ensures forall p :: p in PlansAfterDelete(plans, id, true) <==> p in plans && p.id != id
  {
    FilterMembers(plans, PlanIdIsNot(id));
    var r := PlansAfterDelete(plans, id, true);
    assert forall i :: 0 <= i < |r| ==> PlanIdIsNot(id)(r[i]);
  }

  /** The four item lists of a service the editor can remove from. */
  datatype ItemList = Features | Benefits | PortfolioItems | Faqs

  /** The service with position `index` of one item list removed; nothing else changes. */
  function WithoutItem(s: Service, list: ItemList, index: int): (r: Service)
    ensures r.(features := s.features, benefits := s.benefits, portfolio := s.portfolio, faqs := s.faqs) == s
    ensures list == Features ==> r.features == RemoveAt(s.features, index)
    ensures list != Features ==> r.features == s.features
    ensures list == Benefits ==> r.benefits == RemoveAt(s.benefits, index)
    ensures list != Benefits ==> r.benefits == s.benefits
    ensures list == PortfolioItems ==> r.portfolio == RemoveAt(s.portfolio, index)
    ensures list != PortfolioItems ==> r.portfolio == s.portfolio
    ensures list == Faqs ==> r.faqs == RemoveAt(s.faqs, index)
    ensures list != Faqs ==> r.faqs == s.faqs
  {
    match list
    case Features => s.(features := RemoveAt(s.features, index))
    case Benefits => s.(benefits := RemoveAt(s.benefits, index))
    case PortfolioItems => s.(portfolio := RemoveAt(s.portfolio, index))
    case Faqs => s.(faqs := RemoveAt(s.faqs, index))
  }

  function PortfolioKey(p: PortfolioItem): string { p.id }

  /** The service portfolio after linking the selected global item: `None` when nothing changes
      (no selection, no such item, or an item with that id already linked). */
  function LinkPortfolio(portfolio: seq<PortfolioItem>, global: seq<PortfolioItem>, selectedId: string)
    : (r: Option<seq<PortfolioItem>>)
    ensures r.Some? <==>
      selectedId != "" && (exists j :: 0 <= j < |global| && global[j].id == selectedId) &&
      forall j :: 0 <= j < |portfolio| ==> portfolio[j].id != selectedId
    ensures r.Some? ==>
      |r.value| == |portfolio| + 1 && r.value[..|portfolio|] == portfolio &&
      r.value[|portfolio|].id == selectedId && r.value[|portfolio|] in global
    ensures r.Some? ==>
      exists j :: 0 <= j < |global| && global[j] == r.value[|portfolio|] &&
        NoneBefore(global, PortfolioIdIs(selectedId), j)
  {
    if selectedId == "" then None
    else
      var item := Find(global, PortfolioIdIs(selectedId));
      if item.None? then
        assert forall j :: 0 <= j < |global| ==> !PortfolioIdIs(selectedId)(global[j]);
        None
      else if exists j :: 0 <= j < |portfolio| && portfolio[j].id == item.value.id then None
      else
        var r := portfolio + [item.value];
        assert r[..|portfolio|] == portfolio;
        Some(r)
  }

  /** Linking never duplicates an id, and linking the same item again changes nothing. */
  lemma LinkKeepsIdsUnique(portfolio: seq<PortfolioItem>, global: seq<PortfolioItem>, selectedId: string)
    requires UniqueKeys(portfolio, PortfolioKey)
    ensures var r := LinkPortfolio(portfolio, global, selectedId);
      r.Some? ==> UniqueKeys(r.value, PortfolioKey) && LinkPortfolio(r.value, global, selectedId).None?
  {
    var r := LinkPortfolio(portfolio, global, selectedId);
    if r.Some? {
      var n := |portfolio|;
      forall i, j | 0 <= i < j < |r.value| ensures PortfolioKey(r.value[i]) != PortfolioKey(r.value[j]) {
        if j < n {
          assert r.value[i] == portfolio[i] && r.value[j] == portfolio[j];
        } else {
          assert r.value[i] == portfolio[i];
        }
      }
      assert r.value[n].id == selectedId;
    }
  }

  // ---------------------------------------------------------------------------
  // Blog editor
  // ---------------------------------------------------------------------------

  predicate NonEmpty(s: string) { s != "" }

  function TrimAll(pieces: seq<string>): (r: seq<string>)
    ensures |r| == |pieces| && forall k :: 0 <= k < |r| ==> r[k] == Trim(pieces[k])
  {
    seq(|pieces|, k requires 0 <= k < |pieces| => Trim(pieces[k]))
  }

  /** A tag as the editor stores it: non-empty, trimmed, without a comma. */
  predicate IsTag(t: string)
  {
    t != "" && IsTrimmed(t) && ',' !in t
  }

  /** The tags of a keyword string: the comma-separated pieces, trimmed, empty ones dropped. */
  function ParseTags(keywords: string): (r: seq<string>)
    ensures forall k :: 0 <= k < |r| ==> IsTag(r[k])
  {
    var pieces := TrimAll(Split(keywords, ','));
    FilterMembers(pieces, NonEmpty);
    var r := Filter(pieces, NonEmpty);
    assert forall k :: 0 <= k < |r| ==> IsTag(r[k]) by {
      forall k | 0 <= k < |r| ensures IsTag(r[k]) {
        assert NonEmpty(r[k]);
        var j :| 0 <= j < |pieces| && pieces[j] == r[k];
        assert ',' !in Split(keywords, ',')[j];
      }
    }
    r
  }

  /** The keyword string the editor shows for a post's tags. */
  function TagsText(tags: seq<string>): string
  {
    Join(tags, ", ")
  }

  /** Trimming pieces that are tags with at most a blank in front gives the tags. */
  lemma TrimPaddedTags(pieces: seq<string>, tags: seq<string>)
    requires |pieces| == |tags|
    requires forall k :: 0 <= k < |tags| ==> IsTag(tags[k])
    requires forall k :: 0 <= k < |tags| ==> pieces[k] == tags[k] || pieces[k] == " " + tags[k]
    ensures TrimAll(pieces) == tags
  {
    forall k | 0 <= k < |tags| ensures Trim(pieces[k]) == tags[k] {
      if pieces[k] == tags[k] {
        assert pieces[k] == "" + tags[k];
        TrimPadded("", tags[k]);
      } else {
        TrimPadded(" ", tags[k]);
      }
    }
  }

  /** The comma-split pieces of the shown tags, trimmed, are the tags. */
  lemma TrimmedPiecesAreTags(tags: seq<string>)
    requires |tags| >= 1
    requires forall k :: 0 <= k < |tags| ==> IsTag(tags[k])
    ensures TrimAll(Split(TagsText(tags), ',')) == tags
  {
    var text := TagsText(tags);
    assert [','] + " " == ", ";
    assert "" + text == text;
    SplitJoin(tags, "", ',', " ");
    var pieces := Split(text, ',');
    assert pieces[0] == "" + tags[0] == tags[0];
    TrimPaddedTags(pieces, tags);
  }

  /** Opening a post in the editor and saving it gives back its tags. */
  lemma TagsRoundTrip(tags: seq<string>)
    requires forall k :: 0 <= k < |tags| ==> IsTag(tags[k])
    ensures ParseTags(TagsText(tags)) == tags
  {
    if tags == [] {
      SplitNoSeparator(TagsText(tags), ',');
      assert TrimAll(Split(TagsText(tags), ',')) == [""];
    } else {
      TrimmedPiecesAreTags(tags);
      FilterKeepsAll(tags, NonEmpty);
    }
  }

  /** Parsing is a normal form: re-parsing the shown tags gives the same tags. */
  lemma ParseTagsStable(keywords: string)
    ensures ParseTags(TagsText(ParseTags(keywords))) == ParseTags(keywords)
  {
    TagsRoundTrip(ParseTags(keywords));
  }

  /** The category a saved post gets: the chosen one, else the first custom category, else
      "Uncategorized"; an empty string counts as not chosen. */
  function CategoryFallback(chosen: string, custom: seq<string>): (r: string)
    ensures r != ""
    ensures chosen != "" ==> r == chosen
    ensures chosen == "" && |custom| > 0 && custom[0] != "" ==> r == custom[0]
    ensures chosen == "" && (|custom| == 0 || custom[0] == "") ==> r == "Uncategorized"
  {
    if chosen != "" then chosen
    else if |custom| > 0 && custom[0] != "" then custom[0]
    else "Uncategorized"
  }

  /** The editor's fields; `editingId` is the post being edited, absent for a new one. */
  datatype BlogEditor = BlogEditor(
    editingId: Option<string>,
    title: string,
    category: string,
    image: string,
    keywords: string,
    content: string,
    summary: string)

  const EMPTY_EDITOR := BlogEditor(None, "", "", "", "", "", "")

  /** The editor opened on a post. */
  function EditorFor(post: BlogPost): (e: BlogEditor)
    ensures e.editingId == Some(post.id) && e.keywords == TagsText(post.tags)
  {
    BlogEditor(Some(post.id), post.title, post.category, post.imageUrl, TagsText(post.tags), post.content, post.summary)
  }

  /** The post a save builds, or `None` when the title is empty.  It keeps the edited post's id
      (a truthy one), or takes `freshId`; `today` is the save date. */
  function BuildBlogPost(e: BlogEditor, custom: seq<string>, freshId: string, today: string, status: PostStatus)
    : (r: Option<BlogPost>)
    ensures r.None? <==> e.title == ""
    ensures r.Some? ==> r.value.id == (if Truthy(e.editingId) then e.editingId.value else freshId)
    ensures r.Some? ==> r.value.title == e.title && r.value.status == status && r.value.author == "Admin"
    ensures r.Some? ==> r.value.slug == Slugify(e.title) && r.value.category == CategoryFallback(e.category, custom)
    ensures r.Some? ==> r.value.tags == ParseTags(e.keywords) && r.value.date == today
    ensures r.Some? ==> r.value.summary == e.summary && r.value.content == e.content && r.value.imageUrl == e.image
  {
    if e.title == "" then None
    else
      Some(BlogPost(
        if Truthy(e.editingId) then e.editingId.value else freshId,
        e.title, Slugify(e.title), CategoryFallback(e.category, custom),
        e.summary, e.content, "Admin", today, e.image, ParseTags(e.keywords), status))
  }

  /** A built post always has a category (the chosen one when there is one), a slug of slug
      characters only and well-formed tags. */
  lemma BuiltPostWellFormed(e: BlogEditor, custom: seq<string>, freshId: string, today: string, status: PostStatus)
    requires e.title != ""
    ensures var p := BuildBlogPost(e, custom, freshId, today, status).value;
      && p.category != "" && (e.category != "" ==> p.category == e.category)
      && (forall k :: 0 <= k < |p.slug| ==> IsSlugChar(p.slug[k]))
      && (forall k :: 0 <= k < |p.tags| ==> IsTag(p.tags[k]))
  {
  }

  /** Opening a post and saving it unchanged gives the same post, except for the recomputed slug,
      the author, the date and the status the save button sets. */
  lemma EditRoundTrip(post: BlogPost, custom: seq<string>, freshId: string, today: string, status: PostStatus)
    requires post.id != "" && post.title != "" && post.category != ""
    requires forall k :: 0 <= k < |post.tags| ==> IsTag(post.tags[k])
    ensures BuildBlogPost(EditorFor(post), custom, freshId, today, status)
      == Some(post.(slug := Slugify(post.title), author := "Admin", date := today, status := status))
  {
    var e := EditorFor(post);
    TagsRoundTrip(post.tags);
    assert ParseTags(e.keywords) == post.tags;
    assert Truthy(e.editingId) && e.editingId.value == post.id;
    assert CategoryFallback(e.category, custom) == post.category;
  }

  /** A category is added only when it is non-empty and not listed yet. */
  predicate ShouldAddCategory(name: string, categories: seq<string>)
  {
    name != "" && name !in categories
  }

  /** After adding, the same name is not added again. */
  lemma AddCategoryOnce(name: string, categories: seq<string>)
    requires ShouldAddCategory(name, categories)
    ensures !ShouldAddCategory(name, WithCategory(categories, name))
  {
  }

  // ---------------------------------------------------------------------------
  // The searched and paginated post list
  // ---------------------------------------------------------------------------

  const BLOGS_PER_PAGE := 5

  /** `sub` occurs in `s` (String.prototype.includes). */
  predicate Includes(s: string, sub: string)
  {
    exists i :: 0 <= i <= |s| && StartsWith(s[i..], sub)
  }

  /** A post the search matches: its title or its category contains the query, ignoring case. */
  function MatchesSearch(query: string): BlogPost -> bool
  {
    (b: BlogPost) => Includes(Lower(b.title), Lower(query)) || Includes(Lower(b.category), Lower(query))
  }

  /** The posts the list shows for a query, in stored order. */
  function SearchBlogs(blogs: seq<BlogPost>, query: string): (r: seq<BlogPost>)
    ensures IsSubsequence(r, blogs)
  {
    FilterIsSubsequence(blogs, MatchesSearch(query));
    Filter(blogs, MatchesSearch(query))
  }

  /** A post is listed exactly when the search matches it. */
  lemma SearchExactly(blogs: seq<BlogPost>, query: string)
    ensures forall b :: b in SearchBlogs(blogs, query) <==> b in blogs && MatchesSearch(query)(b)
  {
    FilterMembers(blogs, MatchesSearch(query));
    var r := SearchBlogs(blogs, query);
    assert forall i :: 0 <= i < |r| ==> MatchesSearch(query)(r[i]);
  }

  /** An empty query lists every post. */
  lemma EmptySearchListsAll(blogs: seq<BlogPost>)
    ensures SearchBlogs(blogs, "") == blogs
  {
    forall i | 0 <= i < |blogs| ensures MatchesSearch("")(blogs[i]) {
      assert StartsWith(Lower(blogs[i].title)[0..], Lower(""));
    }
    FilterKeepsAll(blogs, MatchesSearch(""));
  }

  lemma LowerTwice(s: string)
    ensures Lower(Lower(s)) == Lower(s)
  {
  }

  /** The search ignores the case of the query. */
  lemma SearchIgnoresCase(blogs: seq<BlogPost>, query: string)
    ensures SearchBlogs(blogs, Lower(query)) == SearchBlogs(blogs, query)
  {
    LowerTwice(query);
    FilterSameTest(blogs, MatchesSearch(Lower(query)), MatchesSearch(query));
  }

  /** The number of pages: n / 5 rounded up. */
  function TotalPages(n: nat): (r: nat)
    ensures n == 0 <==> r == 0
    ensures n > 0 ==> (r - 1) * BLOGS_PER_PAGE < n <= r * BLOGS_PER_PAGE
  {
    (n + BLOGS_PER_PAGE - 1) / BLOGS_PER_PAGE
  }

  /** The posts on page `page` (counted from 1): positions (page - 1) * 5 up to page * 5. */
  function PageOf(shown: seq<BlogPost>, page: int): (r: seq<BlogPost>)
    ensures |r| <= BLOGS_PER_PAGE
    ensures page >= 1 ==> forall k :: 0 <= k < |r| ==>
      (page - 1) * BLOGS_PER_PAGE + k < |shown| && r[k] == shown[(page - 1) * BLOGS_PER_PAGE + k]
  {
    JsSlice(shown, page * BLOGS_PER_PAGE - BLOGS_PER_PAGE, page * BLOGS_PER_PAGE)
  }

  /** Every listed post is on exactly the page its position says, and that page exists. */
  lemma EveryPostOnItsPage(shown: seq<BlogPost>, i: int)
    requires 0 <= i < |shown|
    ensures 1 <= i / BLOGS_PER_PAGE + 1 <= TotalPages(|shown|)
    ensures i % BLOGS_PER_PAGE < |PageOf(shown, i / BLOGS_PER_PAGE + 1)|
    ensures PageOf(shown, i / BLOGS_PER_PAGE + 1)[i % BLOGS_PER_PAGE] == shown[i]
  {
    var p := i / BLOGS_PER_PAGE + 1;
    assert (p - 1) * BLOGS_PER_PAGE + i % BLOGS_PER_PAGE == i;
  }

  /** The pages in range hold posts; the pages past the last are empty. */
  lemma PagesInRange(shown: seq<BlogPost>, page: int)
    requires page >= 1
    ensures page <= TotalPages(|shown|) <==> |PageOf(shown, page)| > 0
  {
    var n := |shown|;
    if page <= TotalPages(n) {
      assert (page - 1) * BLOGS_PER_PAGE < n;
      assert RelativeIndex(n, page * BLOGS_PER_PAGE - BLOGS_PER_PAGE) < RelativeIndex(n, page * BLOGS_PER_PAGE);
    }
  }

  /** The Prev button's page. */
  function PrevPage(page: int): (r: int)
    ensures r >= 1
    ensures page > 1 ==> r == page - 1
  {
    if page - 1 > 1 then page - 1 else 1
  }

  /** The Next button's page. */
  function NextPage(page: int, total: int): (r: int)
    ensures r <= total
    ensures page < total ==> r == page + 1
  {
    if page + 1 < total then page + 1 else total
  }

  /** Prev and Next keep the page within [1, totalPages]; each button leaves the page where it
      is exactly at the end it is disabled at. */
  lemma NavigationStaysInRange(page: int, total: int)
    requires 1 <= page <= total
    ensures 1 <= PrevPage(page) <= total && 1 <= NextPage(page, total) <= total
    ensures PrevPage(page) == page <==> page == 1
    ensures NextPage(page, total) == page <==> page == total
  {
  }

  // ---------------------------------------------------------------------------
  // Deleting a post from the list
  // ---------------------------------------------------------------------------

  /** The delete handler leaves the page number as it was (Dashboard.HandleDeleteBlog).  Deleting
      the only post of the last page when that page is the second leaves the list on an empty
      page although posts remain, and with one page left the Prev and Next buttons
      are not shown, so no button leads back. */
  lemma DeleteStrandsPage(shown: seq<BlogPost>)
    requires |shown| == 6
    requires forall j :: 0 <= j < 5 ==> shown[j].id != shown[5].id
    ensures var after := Filter(shown, BlogIdIsNot(shown[5].id));
      |after| == 5 && TotalPages(|after|) == 1 &&
      PageOf(after, 2) == []
  {
    var id := shown[5].id;
    assert shown == shown[..5] + [shown[5]];
    FilterAppend(shown[..5], [shown[5]], BlogIdIsNot(id));
    FilterKeepsAll(shown[..5], BlogIdIsNot(id));
    assert Filter([shown[5]], BlogIdIsNot(id)) == [];
    var after := Filter(shown, BlogIdIsNot(id));
    assert |after| == 5;
  }

  /** The page after a delete, moved back to the last page when it no longer exists. */
  function PageAfterDelete(page: int, remaining: nat): (r: int)
    ensures page >= 1 ==> r >= 1
    ensures 1 <= page <= TotalPages(remaining) ==> r == page
    ensures page >= 1 && remaining > 0 ==> r <= TotalPages(remaining)
  {
    if page > TotalPages(remaining) then (if TotalPages(remaining) > 1 then TotalPages(remaining) else 1)
    else page
  }

  /** With the page moved back, a list that still has posts never shows an empty page. */
  lemma DeleteKeepsPageFilled(shown: seq<BlogPost>, page: int)
    requires page >= 1 && |shown| > 0
    ensures |PageOf(shown, PageAfterDelete(page, |shown|))| > 0
  {
    PagesInRange(shown, PageAfterDelete(page, |shown|));
  }

  // ---------------------------------------------------------------------------
  // What the handlers do to local storage
  // ---------------------------------------------------------------------------

  /** Storage after the first three reads of a data refresh: services, posts, categories. */
  function ContentSeeded(st: map<Key, Stored>): map<Key, Stored>
  {
    Seed(Seed(Seed(st, ServicesKey, SERVICES_SEED), BlogKey, BLOGS_SEED), BlogCategoriesKey, CATEGORIES_SEED)
  }

  /** Storage after the last four reads of a data refresh: home content, stats, testimonials
      and the portfolio gallery. */
  function HomeSeeded(st: map<Key, Stored>): map<Key, Stored>
  {
    Seed(Seed(Seed(Seed(st, HomeContentKey, HOME_CONTENT_SEED), HomeStatsKey, HOME_STATS_SEED),
      TestimonialsKey, TESTIMONIALS_SEED), PortfoliosKey, PORTFOLIOS_SEED)
  }

  /** Storage after a data refresh: each of the seven getters it calls seeds its key. */
  function Refreshed(st: map<Key, Stored>): map<Key, Stored>
  {
    HomeSeeded(ContentSeeded(st))
  }

  /** Seeding a key leaves what any read sees, except a read of that key with another default. */
  lemma SeedKeepsCurrent(st: map<Key, Stored>, key: Key, d: Stored, k: Key, e: Stored)
    requires key != k || d == e
    ensures Current(Seed(st, key, d), k, e) == Current(st, k, e)
  {
  }

  /** A read with the default its getter uses sees the same entry after a refresh. */
  lemma RefreshKeepsCurrent(st: map<Key, Stored>, k: Key, e: Stored)
    requires k == ServicesKey ==> e == SERVICES_SEED
    requires k == BlogKey ==> e == BLOGS_SEED
    requires k == BlogCategoriesKey ==> e == CATEGORIES_SEED
    requires k == HomeContentKey ==> e == HOME_CONTENT_SEED
    requires k == HomeStatsKey ==> e == HOME_STATS_SEED
    requires k == TestimonialsKey ==> e == TESTIMONIALS_SEED
    requires k == PortfoliosKey ==> e == PORTFOLIOS_SEED
    ensures Current(Refreshed(st), k, e) == Current(st, k, e)
  {
    var st1 := Seed(st, ServicesKey, SERVICES_SEED);
    var st2 := Seed(st1, BlogKey, BLOGS_SEED);
    var st3 := ContentSeeded(st);
    var st4 := Seed(st3, HomeContentKey, HOME_CONTENT_SEED);
    var st5 := Seed(st4, HomeStatsKey, HOME_STATS_SEED);
    var st6 := Seed(st5, TestimonialsKey, TESTIMONIALS_SEED);
    SeedKeepsCurrent(st, ServicesKey, SERVICES_SEED, k, e);
    SeedKeepsCurrent(st1, BlogKey, BLOGS_SEED, k, e);
    SeedKeepsCurrent(st2, BlogCategoriesKey, CATEGORIES_SEED, k, e);
    SeedKeepsCurrent(st3, HomeContentKey, HOME_CONTENT_SEED, k, e);
    SeedKeepsCurrent(st4, HomeStatsKey, HOME_STATS_SEED, k, e);
    SeedKeepsCurrent(st5, TestimonialsKey, TESTIMONIALS_SEED, k, e);
    SeedKeepsCurrent(st6, PortfoliosKey, PORTFOLIOS_SEED, k, e);
  }

  /** A refresh writes no content: every collection reads the same afterwards. */
  lemma RefreshWritesNoContent(st: map<Key, Stored>)
    ensures var r := Refreshed(st);
      && ServicesOf(r) == ServicesOf(st) && BlogsOf(r) == BlogsOf(st)
      && CategoriesOf(r) == CategoriesOf(st) && PortfoliosOf(r) == PortfoliosOf(st)
  {
    RefreshKeepsCurrent(st, ServicesKey, SERVICES_SEED);
    RefreshKeepsCurrent(st, BlogKey, BLOGS_SEED);
    RefreshKeepsCurrent(st, BlogCategoriesKey, CATEGORIES_SEED);
    RefreshKeepsCurrent(st, PortfoliosKey, PORTFOLIOS_SEED);
  }

  /** Nor does a refresh touch the login or the site settings. */
  lemma RefreshKeepsSettings(st: map<Key, Stored>)
    ensures CredentialsOf(Refreshed(st)) == CredentialsOf(st) && ConfigOf(Refreshed(st)) == ConfigOf(st)
  {
    RefreshKeepsCurrent(st, AuthKey, AUTH_SEED);
    RefreshKeepsCurrent(st, ConfigKey, CONFIG_SEED);
  }

  /** Storage after a blog save: an update replaces the first post with the id (and only seeds
      when there is none); a new post goes in front. */
  function SaveBlogEffect(st: map<Key, Stored>, post: BlogPost, isUpdate: bool): (r: map<Key, Stored>)
  {
    var cur := BlogsOf(st);
    if !isUpdate then st[BlogKey := BlogsData([post] + cur)]
    else if IndexOfFirst(cur, BlogIdIs(post.id)) == -1 then Seed(st, BlogKey, BLOGS_SEED)
    else st[BlogKey := BlogsData(ReplaceFirst(cur, BlogIdIs(post.id), post))]
  }

  /** A new post is listed first; an updated post takes its old place; an update whose post is
      gone saves nothing. */
  lemma SavedPostListed(st: map<Key, Stored>, post: BlogPost, isUpdate: bool)
    requires WellTyped(st)
    ensures !isUpdate ==> BlogsOf(SaveBlogEffect(st, post, isUpdate)) == [post] + BlogsOf(st)
    ensures isUpdate && (exists j :: 0 <= j < |BlogsOf(st)| && BlogsOf(st)[j].id == post.id) ==>
      |BlogsOf(SaveBlogEffect(st, post, isUpdate))| == |BlogsOf(st)| && post in BlogsOf(SaveBlogEffect(st, post, isUpdate))
    ensures isUpdate && (forall j :: 0 <= j < |BlogsOf(st)| ==> BlogsOf(st)[j].id != post.id) ==>
      BlogsOf(SaveBlogEffect(st, post, isUpdate)) == BlogsOf(st)
  {
    var cur := BlogsOf(st);
    if isUpdate {
      var i := IndexOfFirst(cur, BlogIdIs(post.id));
      if i != -1 {
        assert ReplaceFirst(cur, BlogIdIs(post.id), post)[i] == post;
      } else {
        BlogsSeedStable(st);
      }
    }
  }

  /** A post published from an empty editor is what the public blog page then finds at the
      slug of its title: the new post goes in front, so no older post with that slug hides it. */
  lemma PublishedPostFoundAtSlug(st: map<Key, Stored>, e: BlogEditor, custom: seq<string>, freshId: string, today: string)
    requires WellTyped(st) && e.title != "" && !Truthy(e.editingId)
    ensures var post := BuildBlogPost(e, custom, freshId, today, Published).value;
      BlogBySlug(BlogsOf(SaveBlogEffect(st, post, false)), Slugify(e.title)) == Some(post)
  {
    var post := BuildBlogPost(e, custom, freshId, today, Published).value;
    var blogs := BlogsOf(SaveBlogEffect(st, post, false));
    SavedPostListed(st, post, false);
    FilterCons(post, BlogsOf(st), IsPublished);
    var p := PublishedBlogs(blogs);
    assert p[0] == post;
    var r := BlogBySlug(blogs, post.slug);
    assert r.Some? by { assert post in blogs; }
    var j :| 0 <= j < |p| && p[j] == r.value && forall k :: 0 <= k < j ==> p[k].slug != post.slug;
    assert j == 0;
  }

  /** Storage after the add-category button for a name the dashboard does not list yet. */
  function CategoryAdded(st: map<Key, Stored>, name: string): (r: map<Key, Stored>)
  {
    var cats := CategoriesOf(st);
    if name in cats then Seed(st, BlogCategoriesKey, CATEGORIES_SEED)
    else st[BlogCategoriesKey := CategoriesData(WithCategory(cats, name))]
  }

  /** After adding, the category is stored exactly once, and the others stay. */
  lemma CategoryStoredOnce(st: map<Key, Stored>, name: string)
    requires WellTyped(st)
    requires forall i, j :: 0 <= i < j < |CategoriesOf(st)| ==> CategoriesOf(st)[i] != CategoriesOf(st)[j]
    ensures var cats := CategoriesOf(CategoryAdded(st, name));
      name in cats && (forall c :: c in CategoriesOf(st) ==> c in cats) &&
      forall i, j :: 0 <= i < j < |cats| ==> cats[i] != cats[j]
  {
    WithCategoryNoDuplicates(CategoriesOf(st), name);
  }

  // ---------------------------------------------------------------------------
  // The dashboard's state and handlers
  // ---------------------------------------------------------------------------

  /** The storage side of a blog save: an update when a post is being edited, else an add. */
  method StoreBlog(ls: LocalStorage, post: BlogPost, isUpdate: bool)
    requires WellTyped(ls.entries)
    modifies ls
    ensures ls.entries == SaveBlogEffect(old(ls.entries), post, isUpdate) && WellTyped(ls.entries)
  {
    if isUpdate {
      UpdateBlog(ls, post);
    } else {
      AddBlog(ls, post);
    }
  }

  /** Which part of the blog tab is open. */
  datatype BlogPane = ListPane | EditorPane

  class Dashboard {
    var isAuthenticated: bool
    var loginError: string
    var services: seq<Service>
    var blogs: seq<BlogPost>
    var customCategories: seq<string>
    var globalPortfolios: seq<PortfolioItem>
    /** The service open in the editor, a working copy saved only on request. */
    var editingService: Option<Service>
    /** The plan being edited: NEW_PLAN for a plan not in the list yet. */
    var editingPlanId: Option<string>
    var tempPlan: Option<PricingPlan>
    var selectedPortfolioId: string
    var newCategoryName: string
    var blogSearch: string
    var blogPage: int
    var editor: BlogEditor
    var pane: BlogPane
    var profileUsername: string
    var profilePassword: string
    var profileConfirmation: string

    /** The page counter starts at 1 and every handler keeps it there or above. */
    ghost predicate Valid()
      reads this
    {
      blogPage >= 1
    }

    /** The first render: every field at its initial value, and the home-content state's
        initial value read through getHomeContent, which seeds that key. */
    constructor (ls: LocalStorage)
      requires WellTyped(ls.entries)
      modifies ls
      ensures ls.entries == Seed(old(ls.entries), HomeContentKey, HOME_CONTENT_SEED) && WellTyped(ls.entries)
      ensures Valid() && !isAuthenticated && loginError == ""
      ensures services == [] && blogs == [] && customCategories == [] && globalPortfolios == []
      ensures editingService.None? && editingPlanId.None? && tempPlan.None? && selectedPortfolioId == ""
      ensures newCategoryName == "" && blogSearch == "" && blogPage == 1 && editor == EMPTY_EDITOR && pane == ListPane
      ensures profileUsername == "" && profilePassword == "" && profileConfirmation == ""
    {
      isAuthenticated := false;
      loginError := "";
      services := [];
      blogs := [];
      customCategories := [];
      globalPortfolios := [];
      editingService := None;
      editingPlanId := None;
      tempPlan := None;
      selectedPortfolioId := "";
      newCategoryName := "";
      blogSearch := "";
      blogPage := 1;
      editor := EMPTY_EDITOR;
      pane := ListPane;
      profileUsername := "";
      profilePassword := "";
      profileConfirmation := "";
      new;
      var _ := GetHomeContent(ls);
    }

    /** The posts the list shows for the current search. */
    function ShownBlogs(): (r: seq<BlogPost>)
      reads this
      ensures IsSubsequence(r, blogs)
    {
      SearchBlogs(blogs, blogSearch)
    }

    /** The posts on the current page. */
    function CurrentBlogs(): (r: seq<BlogPost>)
      reads this
      ensures |r| <= BLOGS_PER_PAGE
    {
      PageOf(ShownBlogs(), blogPage)
    }

    function Pages(): nat
      reads this
    {
      TotalPages(|ShownBlogs()|)
    }

    /** Reload the collections from storage (each getter seeding its default). */
    method Refresh(ls: LocalStorage)
      requires WellTyped(ls.entries)
      modifies ls, this`services, this`blogs, this`customCategories, this`globalPortfolios
      ensures ls.entries == Refreshed(old(ls.entries)) && WellTyped(ls.entries)
      ensures services == ServicesOf(old(ls.entries)) && blogs == BlogsOf(old(ls.entries))
      ensures customCategories == CategoriesOf(old(ls.entries)) && globalPortfolios == PortfoliosOf(old(ls.entries))
    {
      ghost var st := ls.entries;
      RefreshContent(ls);
      RefreshHome(ls);
      RefreshKeepsCurrent(st, PortfoliosKey, PORTFOLIOS_SEED);
    }

    /** The first three reads of a refresh. */
    method RefreshContent(ls: LocalStorage)
      requires WellTyped(ls.entries)
      modifies ls, this`services, this`blogs, this`customCategories
      ensures ls.entries == ContentSeeded(old(ls.entries)) && WellTyped(ls.entries)
      ensures services == ServicesOf(old(ls.entries)) && blogs == BlogsOf(old(ls.entries))
      ensures customCategories == CategoriesOf(old(ls.entries))
    {
      services := GetServices(ls);
      blogs := GetBlogs(ls);
      customCategories := GetBlogCategories(ls);
    }

    /** The last four reads of a refresh; only the portfolio gallery is kept here. */
    method RefreshHome(ls: LocalStorage)
      requires WellTyped(ls.entries)
      modifies ls, this`globalPortfolios
      ensures ls.entries == HomeSeeded(old(ls.entries)) && WellTyped(ls.entries)
      ensures globalPortfolios == PortfoliosOf(old(ls.entries))
    {
      var _ := GetHomeContent(ls);
      var _ := GetHomeStats(ls);
      var _ := GetTestimonials(ls);
      globalPortfolios := GetGlobalPortfolios(ls);
    }

    /** The effect that runs once logged in: reload the collections and fill the profile form
        with the stored credentials. */
    method LoadAfterLogin(ls: LocalStorage)
      requires WellTyped(ls.entries)
      modifies ls, this`services, this`blogs, this`customCategories, this`globalPortfolios
      modifies this`profileUsername, this`profilePassword, this`profileConfirmation
      ensures ls.entries == Seed(Refreshed(old(ls.entries)), AuthKey, AUTH_SEED) && WellTyped(ls.entries)
      ensures services == ServicesOf(old(ls.entries)) && blogs == BlogsOf(old(ls.entries))
      ensures customCategories == CategoriesOf(old(ls.entries)) && globalPortfolios == PortfoliosOf(old(ls.entries))
      ensures var creds := CredentialsOf(old(ls.entries));
        profileUsername == creds.username && profilePassword == creds.password && profileConfirmation == creds.password
    {
      Refresh(ls);
      var creds := GetAdminCredentials(ls);
      profileUsername := creds.username;
      profilePassword := creds.password;
      profileConfirmation := creds.password;
    }

    /** Log in against the stored credentials; a failure keeps the state and shows the error. */
    method HandleLogin(ls: LocalStorage, username: string, password: string)
      requires WellTyped(ls.entries)
      modifies ls, this`isAuthenticated, this`loginError
      ensures ls.entries == Seed(old(ls.entries), AuthKey, AUTH_SEED) && WellTyped(ls.entries)
      ensures LoginAccepted(username, password, CredentialsOf(old(ls.entries))) ==> isAuthenticated && loginError == ""
      ensures !LoginAccepted(username, password, CredentialsOf(old(ls.entries))) ==>
        isAuthenticated == old(isAuthenticated) && loginError == LOGIN_ERROR
    {
      var creds := GetAdminCredentials(ls);
      if username == creds.username && password == creds.password {
        isAuthenticated := true;
        loginError := "";
      } else {
        loginError := LOGIN_ERROR;
      }
    }

    /** Save the profile form's credentials when the password is non-empty and confirmed;
        `saved` tells which message is shown. */
    method HandleSaveProfile(ls: LocalStorage) returns (saved: bool)
      requires WellTyped(ls.entries)
      modifies ls
      ensures saved == ProfileSaveAllowed(profilePassword, profileConfirmation)
      ensures ls.entries == ProfileEffect(old(ls.entries), profileUsername, profilePassword, profileConfirmation)
      ensures WellTyped(ls.entries)
    {
      saved := profilePassword != "" && profilePassword == profileConfirmation;
      if saved {
        SaveAdminCredentials(ls, AdminCredentials(profileUsername, profilePassword));
      }
    }

    /** Create a service from a name, store it, reload, and open it in the editor. */
    method HandleAddService(ls: LocalStorage, name: string, freshId: string)
      requires WellTyped(ls.entries)
      modifies ls, this`services, this`blogs, this`customCategories, this`globalPortfolios
      modifies this`editingService, this`editingPlanId
      ensures var added := old(ls.entries)[ServicesKey := ServicesData(ServicesOf(old(ls.entries)) + [NewService(name, freshId)])];
        ls.entries == Refreshed(added) && services == ServicesOf(added) && blogs == BlogsOf(added)
        && customCategories == CategoriesOf(added) && globalPortfolios == PortfoliosOf(added)
      ensures services == ServicesOf(old(ls.entries)) + [NewService(name, freshId)]
      ensures WellTyped(ls.entries)
      ensures editingService == Some(NewService(name, freshId)) && editingPlanId.None?
    {
      var service := NewService(name, freshId);
      AddService(ls, service);
      Refresh(ls);
      editingService := Some(service);
      editingPlanId := None;
    }

    /** Start a new plan with a fresh id. */
    method StartAddPlan(freshId: string)
      modifies this`tempPlan, this`editingPlanId
      ensures tempPlan == Some(NewPlan(freshId)) && editingPlanId == Some(NEW_PLAN)
    {
      tempPlan := Some(NewPlan(freshId));
      editingPlanId := Some(NEW_PLAN);
    }

    /** Open a listed plan for editing. */
    method StartEditPlan(plan: PricingPlan)
      modifies this`tempPlan, this`editingPlanId
      ensures tempPlan == Some(plan) && editingPlanId == Some(plan.id)
    {
      tempPlan := Some(plan);
      editingPlanId := Some(plan.id);
    }

    /** Put the plan being edited into the open service's plans and close the plan editor. */
    method SavePlan()
      modifies this`editingService, this`editingPlanId, this`tempPlan
      ensures old(editingService).None? || old(tempPlan).None? ==>
        editingService == old(editingService) && editingPlanId == old(editingPlanId) && tempPlan == old(tempPlan)
      ensures old(editingService).Some? && old(tempPlan).Some? ==>
        editingService == Some(old(editingService).value.(plans :=
          PlansAfterSave(old(editingService).value.plans, old(editingPlanId), old(tempPlan).value)))
        && editingPlanId.None? && tempPlan.None?
    {
      if editingService.None? || tempPlan.None? {
        return;
      }
      var s := editingService.value;
      editingService := Some(s.(plans := PlansAfterSave(s.plans, editingPlanId, tempPlan.value)));
      editingPlanId := None;
      tempPlan := None;
    }

    /** Remove the plans with the id from the open service, once confirmed. */
    method DeletePlan(id: string, confirmed: bool)
      modifies this`editingService
      ensures old(editingService).None? ==> editingService.None?
      ensures old(editingService).Some? ==>
        editingService == Some(old(editingService).value.(plans := PlansAfterDelete(old(editingService).value.plans, id, confirmed)))
    {
      if editingService.None? {
        return;
      }
      var s := editingService.value;
      editingService := Some(s.(plans := PlansAfterDelete(s.plans, id, confirmed)));
    }

    /** Remove one entry of an item list of the open service. */
    method RemoveArrayItem(list: ItemList, index: int)
      modifies this`editingService
      ensures old(editingService).None? ==> editingService.None?
      ensures old(editingService).Some? ==> editingService == Some(WithoutItem(old(editingService).value, list, index))
    {
      if editingService.None? {
        return;
      }
      editingService := Some(WithoutItem(editingService.value, list, index));
    }

    /** Copy the selected global portfolio item into the open service, unless its id is there. */
    method LinkGlobalPortfolio()
      modifies this`editingService, this`selectedPortfolioId
      ensures old(editingService).None? ==> unchanged(this)
      ensures old(editingService).Some? ==>
        var r := LinkPortfolio(old(editingService).value.portfolio, globalPortfolios, old(selectedPortfolioId));
        if r.None? then unchanged(this)
        else editingService == Some(old(editingService).value.(portfolio := r.value)) && selectedPortfolioId == ""
    {
      if editingService.None? || selectedPortfolioId == "" {
        return;
      }
      var s := editingService.value;
      var item := Find(globalPortfolios, PortfolioIdIs(selectedPortfolioId));
      if item.Some? {
        var linked := IndexOfFirst(s.portfolio, PortfolioIdIs(item.value.id)) != -1;
        if linked {
          return;
        }
        editingService := Some(s.(portfolio := s.portfolio + [item.value]));
        selectedPortfolioId := "";
      }
    }

    /** Open a post in the editor. */
    method StartEditBlog(post: BlogPost)
      modifies this`editor, this`pane
      ensures editor == EditorFor(post) && pane == EditorPane
    {
      editor := EditorFor(post);
      pane := EditorPane;
    }

    /** Save the editor's post with the status of the button pressed: rejected without a
        title; otherwise an update when a post is being edited, else an add; then reload, go
        back to the list and clear the editor (the chosen category stays). */
    method HandleSaveBlog(ls: LocalStorage, status: PostStatus, freshId: string, today: string)
      requires WellTyped(ls.entries)
      modifies ls, this`services, this`blogs, this`customCategories, this`globalPortfolios, this`editor, this`pane
      ensures old(editor.title) == "" ==> unchanged(this) && ls.entries == old(ls.entries)
      ensures old(editor.title) != "" ==>
        var post := BuildBlogPost(old(editor), old(customCategories), freshId, today, status).value;
        var saved := SaveBlogEffect(old(ls.entries), post, Truthy(old(editor.editingId)));
        && ls.entries == Refreshed(saved)
        && blogs == BlogsOf(saved) && services == ServicesOf(saved)
        && customCategories == CategoriesOf(saved) && globalPortfolios == PortfoliosOf(saved)
        && pane == ListPane && editor == EMPTY_EDITOR.(category := old(editor.category))
      ensures WellTyped(ls.entries)
    {
      if editor.title == "" {
        return;
      }
      var post := BuildBlogPost(editor, customCategories, freshId, today, status).value;
      SaveAndReload(ls, post, Truthy(editor.editingId));
      pane := ListPane;
      editor := EMPTY_EDITOR.(category := editor.category);
    }

    /** Store a built post, then reload the collections. */
    method SaveAndReload(ls: LocalStorage, post: BlogPost, isUpdate: bool)
      requires WellTyped(ls.entries)
      modifies ls, this`services, this`blogs, this`customCategories, this`globalPortfolios
      ensures var saved := SaveBlogEffect(old(ls.entries), post, isUpdate);
        && ls.entries == Refreshed(saved) && WellTyped(ls.entries)
        && blogs == BlogsOf(saved) && services == ServicesOf(saved)
        && customCategories == CategoriesOf(saved) && globalPortfolios == PortfoliosOf(saved)
    {
      StoreBlog(ls, post, isUpdate);
      Refresh(ls);
    }

    /** Delete a post once confirmed, from the list shown and from storage.  The page number is
        left as it was, so the page shown can be empty (see DeleteStrandsPage). */
    method HandleDeleteBlog(ls: LocalStorage, id: string, confirmed: bool)
      requires WellTyped(ls.entries)
      modifies ls, this`blogs
      ensures !confirmed ==> unchanged(this) && ls.entries == old(ls.entries)
      ensures confirmed ==>
        && blogs == Filter(old(blogs), BlogIdIsNot(id))
        && ls.entries == old(ls.entries)[BlogKey := BlogsData(Filter(BlogsOf(old(ls.entries)), BlogIdIsNot(id)))]
      ensures blogPage == old(blogPage) && blogSearch == old(blogSearch)
      ensures WellTyped(ls.entries)
    {
      if !confirmed {
        return;
      }
      DropPost(id);
      DeleteBlog(ls, id);
    }

    /** The list side of a delete: drop the post; the page number stays. */
    method DropPost(id: string)
      modifies this`blogs
      ensures blogs == Filter(old(blogs), BlogIdIsNot(id))
      ensures blogPage == old(blogPage)
    {
      blogs := Filter(blogs, BlogIdIsNot(id));
    }

    /** The delete with the page moved back when it no longer exists (see PageAfterDelete):
        a list that still shows posts never lands on an empty page. */
    method HandleDeleteBlogClamped(ls: LocalStorage, id: string, confirmed: bool)
      requires WellTyped(ls.entries) && Valid()
      modifies ls, this`blogs, this`blogPage
      ensures !confirmed ==> unchanged(this) && ls.entries == old(ls.entries)
      ensures confirmed ==>
        && blogs == Filter(old(blogs), BlogIdIsNot(id))
        && ls.entries == old(ls.entries)[BlogKey := BlogsData(Filter(BlogsOf(old(ls.entries)), BlogIdIsNot(id)))]
        && blogPage == PageAfterDelete(old(blogPage), |ShownBlogs()|)
      ensures Valid() && WellTyped(ls.entries)
      ensures confirmed && |ShownBlogs()| > 0 ==> |CurrentBlogs()| > 0
    {
      HandleDeleteBlog(ls, id, confirmed);
      if confirmed {
        ClampPage();
      }
    }

    /** Move the page back to the last one when it no longer exists. */
    method ClampPage()
      requires Valid()
      modifies this`blogPage
      ensures blogPage == PageAfterDelete(old(blogPage), |ShownBlogs()|)
      ensures Valid()
      ensures |ShownBlogs()| > 0 ==> |CurrentBlogs()| > 0
    {
      var shown := SearchBlogs(blogs, blogSearch);
      var page := blogPage;
      blogPage := PageAfterDelete(page, |shown|);
      if |shown| > 0 {
        DeleteKeepsPageFilled(shown, page);
      }
    }

    /** Add the typed category when it is non-empty and not listed, then clear the field and
        reload. */
    method HandleAddCategory(ls: LocalStorage)
      requires WellTyped(ls.entries)
      modifies ls, this`services, this`blogs, this`customCategories, this`globalPortfolios, this`newCategoryName
      ensures !ShouldAddCategory(old(newCategoryName), old(customCategories)) ==>
        unchanged(this) && ls.entries == old(ls.entries)
      ensures ShouldAddCategory(old(newCategoryName), old(customCategories)) ==>
        var added := CategoryAdded(old(ls.entries), old(newCategoryName));
        && ls.entries == Refreshed(added)
        && customCategories == WithCategory(CategoriesOf(old(ls.entries)), old(newCategoryName))
        && blogs == BlogsOf(added) && services == ServicesOf(added) && globalPortfolios == PortfoliosOf(added)
        && newCategoryName == ""
      ensures WellTyped(ls.entries)
    {
      if newCategoryName == "" || newCategoryName in customCategories {
        return;
      }
      AddBlogCategory(ls, newCategoryName);
      newCategoryName := "";
      Refresh(ls);
    }

    /** Typing in the search box goes back to the first page. */
    method SetBlogSearch(query: string)
      modifies this`blogSearch, this`blogPage
      ensures blogSearch == query && blogPage == 1 && Valid()
    {
      blogSearch := query;
      blogPage := 1;
    }

    /** The Prev button. */
    method GoPrev()
      modifies this`blogPage
      ensures blogPage == PrevPage(old(blogPage)) && Valid()
    {
      blogPage := if blogPage - 1 > 1 then blogPage - 1 else 1;
    }

    /** The Next button, shown only when there is more than one page. */
    method GoNext()
      requires Valid() && Pages() > 1
      modifies this`blogPage
      ensures blogPage == NextPage(old(blogPage), Pages()) && Valid()
    {
      var total := Pages();
      blogPage := if blogPage + 1 < total then blogPage + 1 else total;
    }
  }
}
