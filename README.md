# MazmoDev web: content store, page resolution and admin rules

This project models the data-handling core of the MazmoDev agency website, a single-page
application that keeps all of its content in the browser's local storage.

- **Storage** (`storage.dfy`): local storage as a class whose one field maps a fixed key
  (`Key`) to a typed value (`Stored`). There is no JSON text. `WellTyped` says each key holds
  the shape it is written with.
- **Content store** (`data_service.dfy`): every getter and mutator of the store, written as a
  method on that storage. A getter that finds its key missing writes the built-in defaults
  (`defaults.dfy`) and returns them. Mutators read the whole collection, change it and write
  it back. Each method is specified against a pure function of the storage map (`ServicesOf`,
  `BlogsOf`, ...) and against the pure queries (main and sub-services, published, recent and
  related posts, find by slug).
- **Page resolution** (`page_resolver.dfy`): one path segment resolves to a service page, a
  published post or "not found", with the service lookup first.
- **Admin dashboard** (`admin_dashboard.dfy`):
  - login and the profile form;
  - the slug of a title;
  - the plan, item and portfolio editors of a service;
  - the blog editor: tags, category fallback, save as update or as new post;
  - the searched, 5-per-page post list with Prev/Next;
  - categories.

  The dashboard's state is a class whose handlers are methods.
- **Service page** (`service_detail.dfy`): related services, offer prices as digits, and the
  structured-data graph.
- **Configuration provider** (`config_context.dfy`): the fallback configuration, the
  configuration update, and the WhatsApp chat link with a parser that reads it back.
- **Page frame** (`layout.dfy`): the active navigation test, the footer's social links, and
  the colour theme stored under the `theme` key.
- **Blog index** (`blog_list.dfy`): the category buttons and the category filter.
- **Record shapes** (`types.dfy`): one datatype per entity.
- **Sequence and string helpers** (`lists.dfy`, `strings.dfy`): JavaScript's `filter`,
  `findIndex`, `find`, `slice`, `split`, `join`, `trim` and `toLowerCase`.  `trim` and the
  `\s` class use the full ECMAScript whitespace set; only `toLowerCase` and the `\w` class
  are restricted to ASCII.

## Model

| member | source | states |
|---|---|---|
| Storage.KeyNamesDistinct | services/dataService.ts:5-13 | the nine store keys and the theme key have pairwise different names, so a map over `Key` is a map over stored names |
| Storage.SeedFacts | services/dataService.ts:253-260 | a seeding read leaves its key holding what the read returned, keeps every other entry and adds no other key |
| Storage.SeedIdempotent | services/dataService.ts:253-260 | seeding twice is seeding once |
| Storage.SeedThenSet | services/dataService.ts:281-285 | a write after a seeding read of the same key equals the write alone |
| Storage.SeedWellTyped | services/dataService.ts:253-260 | seeding a default of the key's shape keeps every entry of its key's shape |
| Storage.LocalStorage.GetItem | services/dataService.ts:239 | returns the entry exactly when the key is present, and nothing otherwise |
| Storage.LocalStorage.SetItem | services/dataService.ts:248 | replaces the one entry and leaves every other entry |
| DataService.Read | services/dataService.ts:253-260 | returns the stored entry, or the default when the key is missing; the new storage is the seeded storage |
| DataService.EmptyStorageGivesDefaults | services/dataService.ts:238-245 | on empty storage every getter yields its built-in default |
| DataService.ServicesSeedStable | services/dataService.ts:253-260 | a second services read with no write in between returns the same list; seeding the services does not change what the posts getter returns |
| DataService.BlogsSeedStable | services/dataService.ts:357-364 | the same for the posts |
| DataService.GetAdminCredentials | services/dataService.ts:238-245 | returns the stored credentials or the default account, seeding the key |
| DataService.SaveAdminCredentials | services/dataService.ts:247-249 | the next credentials read returns the saved pair |
| DataService.GetServices | services/dataService.ts:253-260 | returns the stored services or the defaults, seeding only the services key |
| DataService.MainServices | services/dataService.ts:263-265 | a service is listed iff its parent id is falsy; the list is an order-preserving subsequence of the services |
| DataService.SubServices | services/dataService.ts:268-270 | a service is listed iff its parent id equals the given id; the list is an order-preserving subsequence |
| DataService.MainAndSubDisjoint | services/dataService.ts:263-270 | for a non-empty parent id, no service is both main and a child |
| DataService.EmptyParentInBoth | services/dataService.ts:263-270 | a parent id that is present but empty passes both filters (for the id "") |
| DataService.MainOrSub | services/dataService.ts:263-270 | every service is main or a child of its own parent |
| DataService.DefaultHierarchy | services/dataService.ts:38-158 | the defaults hold three main services and two children of service "1", in that order |
| DataService.GetMainServices | services/dataService.ts:263-265 | returns the main services of what the getter reads |
| DataService.GetSubServices | services/dataService.ts:268-270 | returns the children of `parentId` of what the getter reads |
| DataService.ServiceBySlug | services/dataService.ts:272-275 | the result is the first service with the slug: no service before it has that slug; nothing is found iff no service has the slug |
| DataService.GetServiceBySlug | services/dataService.ts:272-275 | returns the first service with the slug of what the getter reads |
| DataService.SaveServices | services/dataService.ts:277-279 | the next services read returns the saved list |
| DataService.AddService | services/dataService.ts:281-285 | the stored services become the old services followed by the new one; nothing else changes |
| DataService.AddThenRead | services/dataService.ts:281-285 | after an add, reading gives the old list plus the service, and the posts are untouched |
| DataService.UpdateServiceSpec | services/dataService.ts:287-294 | the replacement keeps the length and puts the update at the first position with the id; every other position, later duplicates of the id included, is unchanged; an absent id changes nothing |
| DataService.UpdateService | services/dataService.ts:287-294 | with a matching id the first match is replaced and written back; without one only the seeding read happens |
| DataService.DeleteServiceSpec | services/dataService.ts:296-300 | deleting keeps exactly the services without the id, in order; deleting an absent id leaves the list equal |
| DataService.DeleteService | services/dataService.ts:296-300 | the stored services become those without the id |
| DataService.GetGlobalPortfolios | services/dataService.ts:304-311 | returns the stored gallery or the defaults, seeding its key |
| DataService.SaveGlobalPortfolios | services/dataService.ts:313-315 | the next gallery read returns the saved list |
| DataService.AddGlobalPortfolio | services/dataService.ts:317-320 | the item goes in front of the stored gallery |
| DataService.UpdateGlobalPortfolio | services/dataService.ts:322-329 | replaces the first item with the id, or only seeds when there is none |
| DataService.DeletePortfolioSpec | services/dataService.ts:331-334 | deleting keeps exactly the items without the id, in order; an absent id changes nothing |
| DataService.DeleteGlobalPortfolio | services/dataService.ts:331-334 | the stored gallery becomes the items without the id |
| DataService.PortfolioWriteLeavesServices | types.ts:37-60 | services embed copies of gallery items, so writing or seeding the gallery leaves the services as they were |
| DataService.LinkedService | services/dataService.ts:346 | a service is found iff the item has a service id and some service has that id; the found service is the first with that id |
| DataService.AllPortfolios | services/dataService.ts:338-353 | one entry per gallery item, in order; a linked item carries its service's slug and its title, or 'General' for an empty title; an unlinked item gets '' and 'General' |
| DataService.PortfolioShowsItsService | services/dataService.ts:344-350 | with unique service ids, an item naming an existing service shows that service's slug and title |
| DataService.GetAllPortfolios | services/dataService.ts:338-353 | returns the entries of the stored gallery and services, seeding both keys |
| DataService.GetBlogs | services/dataService.ts:357-364 | returns the stored posts or the defaults, seeding the posts key |
| DataService.PublishedBlogs | services/dataService.ts:367-369 | a post is listed iff it is stored and published (so never a draft); the list keeps the stored order |
| DataService.GetPublishedBlogs | services/dataService.ts:367-369 | returns the published posts of what the getter reads |
| DataService.RecentBlogs | services/dataService.ts:371-374 | for a limit n >= 0, the first min(n, #published) published posts; for a negative limit, slice's drop-from-the-end rule |
| DataService.GetRecentBlogs | services/dataService.ts:371-374 | returns the recent posts of what the getter reads |
| DataService.BlogBySlug | services/dataService.ts:376-379 | the result is published, has the slug and is the first published post with it; nothing is found iff every post with the slug is a draft |
| DataService.GetBlogBySlug | services/dataService.ts:376-379 | returns the first published post with the slug |
| DataService.RelatedBlogs | services/dataService.ts:381-386 | exactly `slice(0, limit)` of the related candidates, negative limits included; each listed post is stored, published, in the category and not the current one |
| DataService.RelatedCandidatesMembers | services/dataService.ts:382-385 | a post is a candidate iff it is stored, published, in the category and has another slug |
| DataService.RelatedBlogsListsAll | services/dataService.ts:381-386 | with a limit at least the number of posts, a post is listed iff it is a related published post |
| DataService.GetRelatedBlogs | services/dataService.ts:381-386 | returns the related posts of what the getter reads |
| DataService.GetBlogCategories | services/dataService.ts:389-396 | returns the stored categories or the defaults, seeding the key |
| DataService.SaveBlogCategories | services/dataService.ts:398-400 | writes exactly the categories key |
| DataService.WithCategory | services/dataService.ts:402-407 | the category ends up listed; every old one stays; a present category changes nothing; a new one is appended |
| DataService.WithCategoryNoDuplicates | services/dataService.ts:402-407 | adding a category to a duplicate-free list keeps it duplicate-free |
| DataService.AddBlogCategory | services/dataService.ts:402-407 | appends a new category and writes it; a present one only seeds |
| DataService.WithoutCategory | services/dataService.ts:409-412 | no occurrence of the category is left; every other category stays, in order |
| DataService.DeleteBlogCategory | services/dataService.ts:409-412 | the stored categories become those without the category |
| DataService.SaveBlogs | services/dataService.ts:414-416 | the next posts read returns the saved list |
| DataService.AddBlog | services/dataService.ts:418-422 | the post goes in front of the stored posts |
| DataService.UpdateBlog | services/dataService.ts:424-431 | replaces the first post with the id, or only seeds when there is none |
| DataService.DeleteBlogSpec | services/dataService.ts:433-437 | deleting keeps exactly the posts without the id, in order; an absent id changes nothing |
| DataService.DeleteBlog | services/dataService.ts:433-437 | the stored posts become those without the id |
| DataService.GetSiteConfig | services/dataService.ts:441-448 | returns the stored configuration or the default, seeding the key |
| DataService.SaveSiteConfig | services/dataService.ts:450-452 | the next configuration read returns the saved one |
| DataService.GetTestimonials | services/dataService.ts:456-463 | returns the stored testimonials or the defaults, seeding the key |
| DataService.SaveTestimonials | services/dataService.ts:465-467 | writes exactly the testimonials key |
| DataService.GetHomeStats | services/dataService.ts:471-478 | returns the stored stats or the defaults, seeding the key |
| DataService.SaveHomeStats | services/dataService.ts:480-482 | writes exactly the stats key |
| DataService.GetHomeContent | services/dataService.ts:486-493 | returns the stored home content or the default, seeding the key |
| DataService.SaveHomeContent | services/dataService.ts:495-497 | writes exactly the home content key |
| PageResolver.Resolve | pages/PageResolver.tsx:9-37 | a service view carries a stored service with the slug; a blog view carries a stored published post with the slug; not-found shows the segment it was given |
| PageResolver.ServiceWins | pages/PageResolver.tsx:12-16 | a service with the slug is chosen even when a post has the same slug |
| PageResolver.BlogViewExactly | pages/PageResolver.tsx:18-22 | the blog view is chosen iff no service has the slug and a published post does |
| PageResolver.DraftIsNotFound | pages/PageResolver.tsx:18-31 | with no service and only drafts under the slug, the page is not found and shows the slug |
| PageResolver.MissingSlugNotFound | pages/PageResolver.tsx:13-19 | a missing or empty segment is not found, whatever is stored |
| PageResolver.ResolveWritesNoContent | pages/PageResolver.tsx:13-19 | resolving only seeds the services and posts keys: every existing entry stays, and both collections read the same afterwards |
| PageResolver.ResolvePage | pages/PageResolver.tsx:9-37 | the page's two getter calls give the view `Resolve` classifies, with exactly the seeding `ResolveEffect` describes |
| AdminDashboard.DefaultLogin | services/dataService.ts:233-236 | on a fresh browser exactly admin / admin123 logs in |
| AdminDashboard.LoginAccepted | pages/AdminDashboard.tsx:238 | a login is accepted iff the typed pair equals the stored credentials |
| AdminDashboard.Dashboard.HandleLogin | pages/AdminDashboard.tsx:235-245 | authenticated with no error iff both fields equal the stored credentials; otherwise the state is kept and the one error message is shown |
| AdminDashboard.ProfileEffect | pages/AdminDashboard.tsx:563-570 | storage is unchanged unless the password is non-empty and confirmed; then the stored credentials are the new pair |
| AdminDashboard.ProfileThenLogin | pages/AdminDashboard.tsx:563-570 | after an accepted change exactly the new pair logs in, never with an empty password; after a rejected one the login is as before |
| AdminDashboard.Dashboard.HandleSaveProfile | pages/AdminDashboard.tsx:563-570 | reports whether the save was allowed and leaves storage as `ProfileEffect` says |
| AdminDashboard.Dashboard.LoadAfterLogin | pages/AdminDashboard.tsx:198-206 | reloads the four collections the dashboard keeps and fills the profile form with the stored credentials; storage is only seeded |
| AdminDashboard.DashSpaceRuns | pages/AdminDashboard.tsx:260 | the result has no whitespace; slug characters stay slug characters; a string without whitespace is unchanged |
| AdminDashboard.Slugify | pages/AdminDashboard.tsx:260 | a slug consists only of lower-case ASCII letters, digits, '_' and '-' |
| AdminDashboard.SlugHasNoSpace | pages/AdminDashboard.tsx:400 | a slug contains no whitespace |
| AdminDashboard.SlugifyIdempotent | pages/AdminDashboard.tsx:260 | the slug of a slug is the slug itself |
| AdminDashboard.SpaceRunBecomesDash | pages/AdminDashboard.tsx:260 | a whitespace run between two words becomes exactly one '-' |
| AdminDashboard.NewService | pages/AdminDashboard.tsx:258-271 | a new service has the name as title and SEO title, the slug of the name, no parent, and empty item lists |
| AdminDashboard.Dashboard.HandleAddService | pages/AdminDashboard.tsx:258-277 | the stored services gain the new service at the end, the dashboard reloads, and the new service is open in the editor with no plan open |
| AdminDashboard.NewPlan | pages/AdminDashboard.tsx:362-365 | a new plan has the fresh id and one feature |
| AdminDashboard.Dashboard.StartAddPlan | pages/AdminDashboard.tsx:362-365 | the plan editor holds a new plan and the NEW marker |
| AdminDashboard.Dashboard.StartEditPlan | pages/AdminDashboard.tsx:367-370 | the plan editor holds the plan and its id |
| AdminDashboard.PlansAfterSave | pages/AdminDashboard.tsx:372-384 | a NEW plan is appended; otherwise the first plan with the id is replaced in place, and without a match the plans are unchanged |
| AdminDashboard.SavePlanKeepsIdsUnique | pages/AdminDashboard.tsx:372-384 | saving keeps plan ids unique when a new plan brings an unused id |
| AdminDashboard.SaveUnchangedPlan | pages/AdminDashboard.tsx:367-384 | opening a listed plan and saving it unchanged leaves the plans as they were |
| AdminDashboard.Dashboard.SavePlan | pages/AdminDashboard.tsx:372-384 | with an open service and plan, the service's plans become `PlansAfterSave` and the plan editor closes; otherwise nothing changes |
| AdminDashboard.PlansAfterDelete | pages/AdminDashboard.tsx:386-392 | an unconfirmed delete changes nothing; the result is always a subsequence of the plans |
| AdminDashboard.DeletePlanExactly | pages/AdminDashboard.tsx:389 | a confirmed delete keeps exactly the plans without the id |
| AdminDashboard.Dashboard.DeletePlan | pages/AdminDashboard.tsx:386-392 | the open service's plans become `PlansAfterDelete` |
| AdminDashboard.WithoutItem | pages/AdminDashboard.tsx:305-311 | exactly position `index` of the chosen item list is removed; the other lists and fields are unchanged |
| AdminDashboard.Dashboard.RemoveArrayItem | pages/AdminDashboard.tsx:305-311 | the open service becomes `WithoutItem`; with no open service nothing changes |
| AdminDashboard.LinkPortfolio | pages/AdminDashboard.tsx:324-342 | the portfolio changes iff an item is selected, it exists in the gallery and its id is not linked yet; then exactly that item is appended, and it is the first gallery item with the selected id |
| AdminDashboard.LinkKeepsIdsUnique | pages/AdminDashboard.tsx:324-342 | linking keeps portfolio ids unique, and linking the same item again changes nothing |
| AdminDashboard.Dashboard.LinkGlobalPortfolio | pages/AdminDashboard.tsx:324-342 | the open service's portfolio and the selection change exactly as `LinkPortfolio` says |
| AdminDashboard.ParseTags | pages/AdminDashboard.tsx:407 | every tag is non-empty, trimmed and comma-free |
| AdminDashboard.TrimmedPiecesAreTags | pages/AdminDashboard.tsx:407 | splitting the shown tag text at commas and trimming gives the tags back |
| AdminDashboard.TagsRoundTrip | pages/AdminDashboard.tsx:407-465 | parsing the text the editor shows for well-formed tags gives the same tags |
| AdminDashboard.ParseTagsStable | pages/AdminDashboard.tsx:407-465 | parsing is a normal form: re-parsing the shown tags changes nothing |
| AdminDashboard.CategoryFallback | pages/AdminDashboard.tsx:401 | never empty: the chosen category, else the first custom one, else 'Uncategorized' |
| AdminDashboard.EditorFor | pages/AdminDashboard.tsx:458-467 | the editor holds the post's id and its tags joined with ", " |
| AdminDashboard.Dashboard.StartEditBlog | pages/AdminDashboard.tsx:458-467 | the editor is filled from the post and shown |
| AdminDashboard.BuildBlogPost | pages/AdminDashboard.tsx:395-409 | no post iff the title is empty; the id is the edited post's (when truthy) or the fresh one; the slug is `Slugify` of the title, the category `CategoryFallback`, the tags `ParseTags` of the keywords, the date `today`, author 'Admin', and title, summary, content and image come from the editor |
| AdminDashboard.BuiltPostWellFormed | pages/AdminDashboard.tsx:400-407 | a built post has a non-empty category (the chosen one when there is one), a slug of slug characters and well-formed tags |
| AdminDashboard.PublishedPostFoundAtSlug | pages/AdminDashboard.tsx:394-410 | a new post published from the editor is what getBlogBySlug then finds at its slug |
| AdminDashboard.EditRoundTrip | pages/AdminDashboard.tsx:395-467 | opening a post and saving it unchanged rebuilds the same post, apart from slug, author, date and status |
| AdminDashboard.SavedPostListed | pages/AdminDashboard.tsx:410-411 | a new post is stored first; an update of a stored id keeps the length and stores the post; an update of a missing id stores nothing |
| AdminDashboard.StoreBlog | pages/AdminDashboard.tsx:410-411 | an edited post goes through the update, a new post through the add |
| AdminDashboard.Dashboard.HandleSaveBlog | pages/AdminDashboard.tsx:395-418 | an empty title changes nothing; otherwise the post is stored, the dashboard reloads, the list is shown and the editor is cleared except for the category |
| AdminDashboard.Dashboard.SaveAndReload | pages/AdminDashboard.tsx:410-413 | storage is the saved storage after a refresh, and the four collections are read from it |
| AdminDashboard.SeedKeepsCurrent | pages/AdminDashboard.tsx:210-218 | seeding one key changes no read, except a read of that key with another default |
| AdminDashboard.RefreshKeepsCurrent | pages/AdminDashboard.tsx:210-218 | after the seven getter calls of a refresh, each getter reads what it read before |
| AdminDashboard.RefreshWritesNoContent | pages/AdminDashboard.tsx:210-218 | a refresh changes no collection |
| AdminDashboard.RefreshKeepsSettings | pages/AdminDashboard.tsx:210-218 | a refresh changes neither the credentials nor the configuration |
| AdminDashboard.Dashboard.Refresh | pages/AdminDashboard.tsx:210-218 | storage is seeded by the seven getters, and the four collections the dashboard keeps are what was stored |
| AdminDashboard.Dashboard.RefreshContent | pages/AdminDashboard.tsx:211-213 | the first three getters: services, posts and categories |
| AdminDashboard.Dashboard.RefreshHome | pages/AdminDashboard.tsx:214-217 | the last four getters; only the gallery is kept |
| AdminDashboard.AddCategoryOnce | pages/AdminDashboard.tsx:438-445 | after adding a name, the same name is not added again |
| AdminDashboard.CategoryStoredOnce | pages/AdminDashboard.tsx:438-445 | after adding, the category is stored exactly once and the other categories stay |
| AdminDashboard.Dashboard.HandleAddCategory | pages/AdminDashboard.tsx:438-445 | an empty or listed name changes nothing; otherwise it is stored, the field is cleared and the dashboard reloads |
| AdminDashboard.SearchBlogs | pages/AdminDashboard.tsx:448-451 | the search result is an order-preserving subsequence of the posts |
| AdminDashboard.SearchExactly | pages/AdminDashboard.tsx:448-451 | a post is listed iff its lower-cased title or category contains the lower-cased query |
| AdminDashboard.EmptySearchListsAll | pages/AdminDashboard.tsx:448-451 | an empty query lists every post |
| AdminDashboard.SearchIgnoresCase | pages/AdminDashboard.tsx:448-451 | lower-casing the query changes nothing |
| AdminDashboard.Dashboard.SetBlogSearch | pages/AdminDashboard.tsx:1159 | typing a query goes back to page 1 |
| AdminDashboard.TotalPages | pages/AdminDashboard.tsx:456 | zero pages iff no posts; otherwise the least page count whose pages of 5 hold every post |
| AdminDashboard.PageOf | pages/AdminDashboard.tsx:453-455 | a page has at most 5 posts; page p holds positions (p-1)*5 onward of the list |
| AdminDashboard.EveryPostOnItsPage | pages/AdminDashboard.tsx:453-456 | post i is on page i/5+1, at place i%5, and that page exists |
| AdminDashboard.PagesInRange | pages/AdminDashboard.tsx:453-456 | a page from 1 on holds posts iff it is at most `totalPages` |
| AdminDashboard.Dashboard.ShownBlogs | pages/AdminDashboard.tsx:448-451 | the shown posts are a subsequence of the dashboard's posts |
| AdminDashboard.Dashboard.CurrentBlogs | pages/AdminDashboard.tsx:455 | the current page shows at most 5 posts |
| AdminDashboard.PrevPage | pages/AdminDashboard.tsx:1232 | never below 1; one less when above 1 |
| AdminDashboard.NextPage | pages/AdminDashboard.tsx:1239 | never above `totalPages`; one more when below it |
| AdminDashboard.NavigationStaysInRange | pages/AdminDashboard.tsx:1227-1240 | Prev and Next keep the page in [1, totalPages]; each keeps the page exactly at the end where it is disabled |
| AdminDashboard.Dashboard.GoPrev | pages/AdminDashboard.tsx:1232 | the page becomes `PrevPage` and stays at least 1 |
| AdminDashboard.Dashboard.GoNext | pages/AdminDashboard.tsx:1227-1240 | with more than one page shown, the page becomes `NextPage` and stays at least 1 |
| AdminDashboard.DeleteStrandsPage | pages/AdminDashboard.tsx:430-436 | as written (the handler keeps the page number): deleting the sixth and last post from page 2 leaves page 2 empty while five posts remain on the single page |
| AdminDashboard.PageAfterDelete | pages/AdminDashboard.tsx:430-456 | a page in range is kept; otherwise it moves back to the last page, never below 1 |
| AdminDashboard.DeleteKeepsPageFilled | pages/AdminDashboard.tsx:430-456 | with the page moved back, a list that still has posts never shows an empty page |
| AdminDashboard.Dashboard.HandleDeleteBlog | pages/AdminDashboard.tsx:430-436 | unconfirmed: nothing changes; confirmed: the posts without the id are kept in the list and in storage; the page number and the search stay as they were |
| AdminDashboard.Dashboard.DropPost | pages/AdminDashboard.tsx:433 | the list side of a delete: the posts without the id remain and the page number stays |
| AdminDashboard.Dashboard.HandleDeleteBlogClamped | pages/AdminDashboard.tsx:430-456 | the corrected delete: the same list and storage effect, then the page moves back as `PageAfterDelete` says, so it is never empty while posts are shown |
| AdminDashboard.Dashboard.ClampPage | pages/AdminDashboard.tsx:450-456 | the page becomes `PageAfterDelete` of the shown count and is non-empty whenever posts are shown |
| AdminDashboard.Dashboard.constructor | pages/AdminDashboard.tsx:129-195 | the dashboard starts logged out, empty, on page 1, with the editors closed; the initial `getHomeContent()` seeds the home-content key and nothing else |
| ServiceDetail.Siblings | pages/ServiceDetail.tsx:29-34 | the siblings are the other services with the same truthy parent, in the order of the service list; a main service has none |
| ServiceDetail.RelatedServices | pages/ServiceDetail.tsx:27-36 | a service is listed iff it is a child of the found service or one of its siblings other than itself; all children come first, then the siblings, each group in the order of the service list |
| ServiceDetail.MainServiceRelatedAreChildren | pages/ServiceDetail.tsx:30-36 | on a main service's page the related list is exactly its children |
| ServiceDetail.SiblingsExcludeSelf | pages/ServiceDetail.tsx:33 | the sibling list never contains the found service |
| ServiceDetail.DefaultRelated | pages/ServiceDetail.tsx:27-36 | the default website service relates to its two sub-services |
| ServiceDetail.PriceDigitsExample | pages/ServiceDetail.tsx:83 | 'Rp 1.500.000' becomes '1500000' |
| Strings.DigitsOnly | pages/ServiceDetail.tsx:83 | `replace(/[^0-9]/g, '')`: the result holds digits only |
| Strings.DigitsInOrder | contexts/ConfigContext.tsx:37 | the digits keep their order, and each digit occurs in the result exactly as often as in the input |
| Strings.TrimRemovesOnlyEnds | pages/AdminDashboard.tsx:407 | `trim()` removes whitespace at the two ends and nothing else: the input is whitespace, the result, whitespace |
| ServiceDetail.SchemaGraph | pages/ServiceDetail.tsx:59-108 | the service node carries one offer per plan with the plan's price digits; an FAQ node is present iff the service has questions |
| ServiceDetail.SeoTitle | pages/ServiceDetail.tsx:113 | the truthy SEO title, else the title |
| ServiceDetail.LoadedDetail | pages/ServiceDetail.tsx:18-55 | not found iff the segment is falsy or no service has the slug; otherwise the service with the slug and its related services |
| ServiceDetail.LoadDetail | pages/ServiceDetail.tsx:18-43 | the effect's getter calls give `LoadedDetail` and only seed the services key |
| ConfigContext.WhatsappLink | contexts/ConfigContext.tsx:36-40 | the link starts with "https://wa.me/" and is as long as prefix, digits, "?text=" and encoded message together |
| ConfigContext.ParseLink | contexts/ConfigContext.tsx:36-40 | a parsed link starts with the prefix and its phone part has no '?' |
| ConfigContext.ParseAssembled | contexts/ConfigContext.tsx:39 | any phone part without '?' and any text, once assembled into a link, parse back into the same two |
| ConfigContext.LinkRoundTrip | contexts/ConfigContext.tsx:36-40 | the link carries exactly the digits of the number and the encoded message, whatever the message and its encoding contain |
| ConfigContext.LinkPhoneIsDigits | contexts/ConfigContext.tsx:37 | the phone part holds only digits, in the order of the configured number |
| ConfigContext.LinkStableAcrossFirstLoad | contexts/ConfigContext.tsx:15-33 | the fallback and the default configuration differ but give the same chat link |
| ConfigContext.ConfigProvider.constructor | contexts/ConfigContext.tsx:24 | before loading, the fallback configuration is in force |
| ConfigContext.ConfigProvider.Load | contexts/ConfigContext.tsx:26-33 | after loading, the configuration is the stored one (or the seeded default) |
| ConfigContext.ConfigProvider.UpdateConfig | contexts/ConfigContext.tsx:42-45 | the new configuration is stored and in force |
| ConfigContext.ConfigProvider.Link | contexts/ConfigContext.tsx:36-40 | the link parses back into the digits of the configuration in force and the encoded message |
| ConfigContext.UpdateThenLoad | contexts/ConfigContext.tsx:26-45 | loading after an update gives the updated configuration |
| Layout.IsActive | components/Layout.tsx:41 | the exact path is active, and an active path is a prefix of the pathname |
| Layout.IsActiveExactly | components/Layout.tsx:41 | active iff the pathname is the path or the path, '/', and anything after |
| Layout.IsActiveNeedsSegment | components/Layout.tsx:41 | '/blog' is not active on '/blogger', but is on '/blog/tips' |
| Layout.AllSocialLinks | components/Layout.tsx:56-61 | Instagram, LinkedIn, Facebook, YouTube and TikTok, in that order, each with its configured url |
| Layout.SocialLinks | components/Layout.tsx:56-62 | at most five links, each with a non-blank url, in the fixed platform order |
| Layout.SocialLinkShownExactly | components/Layout.tsx:62 | a platform is shown iff its url is present and non-blank after trimming |
| Layout.BlankUrlHidden | components/Layout.tsx:62 | a whitespace-only url hides its platform |
| Layout.SavedTheme | components/Layout.tsx:19 | the text stored under the theme key when there is one, else nothing |
| Layout.InitialDark | components/Layout.tsx:19-26 | dark iff 'dark' is saved, or nothing (or an empty string) is saved and the system prefers dark |
| Layout.ThemeName | components/Layout.tsx:32-36 | the stored name is 'dark' exactly for the dark mode |
| Layout.ToggleSurvivesReload | components/Layout.tsx:19-39 | the toggled mode is restored on the next mount, whatever the system prefers |
| Layout.ThemeState.constructor | components/Layout.tsx:17-27 | the frame starts light until the mount effect has run |
| Layout.ThemeState.Mount | components/Layout.tsx:17-27 | the mode is `InitialDark` of what is saved, and storage is not written |
| Layout.ThemeState.ToggleTheme | components/Layout.tsx:29-39 | the mode flips, its name is stored under the theme key, and the next mount restores it |
| BlogList.CategoryButtons | pages/BlogList.tsx:23 | 'All' followed by the stored categories |
| BlogList.FilteredBlogs | pages/BlogList.tsx:29-31 | with 'All' the list is the loaded posts; otherwise every shown post is in the selected category; always a subsequence of the loaded posts |
| BlogList.FilteredExactly | pages/BlogList.tsx:31 | with a category selected, a post is shown iff it is in that category |
| BlogList.OnlyPublishedListed | pages/BlogList.tsx:19-31 | only stored published posts are ever listed |
| BlogList.LoadListing | pages/BlogList.tsx:14-27 | the page holds the published posts and the category buttons, and storage is only seeded |

## Left out

- JSON encoding and parsing: storage holds typed values. A stored value that does not parse,
  or whose shape differs from its key's, is not modelled (`WellTyped` rules it out).
- The empty string as a stored value: the getters treat it like a missing key. The model has
  no stored text for the content keys, so this case cannot arise in it.
- Keys other than the nine store keys and `theme`: no other local storage key is modelled.
- `async`/`await`: the store's functions are synchronous, and their callers are modelled
  sequentially.
- The remote database client is not part of this model. The store never uses it.
- `Date.now()` ids and `new Date()` dates become the parameters `freshId` and `today`.
- `window.confirm` becomes the parameter `confirmed`.
- `encodeURIComponent` becomes the uninterpreted parameter `encode`.
- `window.matchMedia` becomes the parameter `prefersDark`.
- Form fields typed by the user become method parameters: the login fields, the new service
  name, and the save status. The profile form, the blog editor and the category field are
  dashboard fields.
- Unicode: `toLowerCase`, `\w` and `\s` are modelled on ASCII letters, digits and '_', plus
  the ECMAScript whitespace set. Other letters are dropped from a slug, not lower-cased.
- Aliasing: on a first read a getter returns the default constant itself, and
  `updateService`, `updateBlog` and `updateGlobalPortfolio` then assign into that array. The
  model works on values, so the constant is never changed.
- The dashboard's home content, stats and testimonials are read during a refresh but not kept
  as dashboard fields. Their editors are not modelled, nor are the other dashboard handlers:
  - service save and delete;
  - item add and update;
  - the AI FAQ and article generators;
  - the home, config and testimonial editors;
  - image upload.
- The success toast after a blog save is not modelled. An update whose post has meanwhile
  disappeared from storage stores nothing, as in the source, although the toast still says
  the post was saved.
- Dashboard.constructor: models the first render only. Later renders call `getHomeContent()`
  again, but the key exists by then, so that read writes nothing (`Storage.SeedIdempotent`).
- The HomeStat field `label` is named `caption`, because `label` is a reserved word.
- Rendering: JSX, CSS classes, the dark-mode class on the document, toasts, SEO tag
  injection, the rich text editor, icons and scrolling. These are presentation only.
- The remaining pages (home, services, portfolio, blog detail, about, contact) and the router
  only call the store functions modelled here.

## Findings

| source | as written | input that shows it | evidently intended | confidence | as-written member | corrected member |
|---|---|---|---|---|---|---|
| pages/AdminDashboard.tsx:430-436 | deleting a post filters the list but leaves `blogPage` as it was (modelled by `Dashboard.HandleDeleteBlog`) | six listed posts, page 2 open, delete the sixth: page 2 is empty while five posts remain, and with one page left the Prev/Next footer (line 1227) is hidden | move the page back to the last page that still has posts (`Dashboard.HandleDeleteBlogClamped`) | not executed | AdminDashboard.DeleteStrandsPage | AdminDashboard.DeleteKeepsPageFilled |
