// The blog index: the published posts, a row of category buttons headed by "All", and the
// posts of the selected category.

module BlogList {
  import opened Types
  import opened Storage
  import opened Lists
  import opened DataService

  const ALL := "All"

  /** The category buttons: "All", then the stored categories in their order. */
  function CategoryButtons(categories: seq<string>): (r: seq<string>)
    ensures |r| == |categories| + 1 && r[0] == ALL && r[1..] == categories
  {
    [ALL] + categories
  }

  function InCategory(category: string): BlogPost -> bool
  {
    (b: BlogPost) => b.category == category
  }

  /** The posts shown for the selected category: all of them for "All", otherwise those of
      that category. */
  function FilteredBlogs(blogs: seq<BlogPost>, selected: string): (r: seq<BlogPost>)
    ensures selected == ALL ==> r == blogs
    ensures selected != ALL ==> forall i :: 0 <= i < |r| ==> r[i].category == selected
    ensures IsSubsequence(r, blogs)
  {
    if selected == ALL then
      IsSubsequenceRefl(blogs);
      blogs
    else
      FilterIsSubsequence(blogs, InCategory(selected));
      FilterSatisfies(blogs, InCategory(selected));
      var r := Filter(blogs, InCategory(selected));
      assert forall i :: 0 <= i < |r| ==> InCategory(selected)(r[i]);
      r
  }

  /** With a category selected, a post is shown exactly when it is in that category. */
  lemma FilteredExactly(blogs: seq<BlogPost>, selected: string)
    requires selected != ALL
    ensures forall b :: b in FilteredBlogs(blogs, selected) <==> b in blogs && b.category == selected
  {
    FilterMembers(blogs, InCategory(selected));
  }

  /** The page lists only published posts, whatever the selection. */
  lemma OnlyPublishedListed(stored: seq<BlogPost>, selected: string)
    ensures forall b :: b in FilteredBlogs(PublishedBlogs(stored), selected) ==> b in stored && b.status == Published
  {
    var p := PublishedBlogs(stored);
    if selected != ALL {
      FilteredExactly(p, selected);
    }
  }

  /** What the page shows once loaded. */
  datatype Listing = Listing(blogs: seq<BlogPost>, categories: seq<string>)

  /** The mount effect: load the published posts and the categories. */
  method LoadListing(ls: LocalStorage) returns (l: Listing)
    requires WellTyped(ls.entries)
    modifies ls
    ensures l.blogs == PublishedBlogs(BlogsOf(old(ls.entries)))
    ensures l.categories == CategoryButtons(CategoriesOf(old(ls.entries)))
    ensures ls.entries == Seed(Seed(old(ls.entries), BlogKey, BLOGS_SEED), BlogCategoriesKey, CATEGORIES_SEED)
    ensures WellTyped(ls.entries)
  {
    var blogs := GetPublishedBlogs(ls);
    var cats := GetBlogCategories(ls);
    l := Listing(blogs, [ALL] + cats);
  }
}
