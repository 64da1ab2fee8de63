// The page frame: which navigation entry is highlighted, which social links the footer shows,
// and the colour theme, kept under the "theme" storage key.

module Layout {
  import opened Optional
  import opened Types
  import opened Storage
  import opened Lists
  import opened Strings

  /** A navigation entry for `path` is highlighted on `pathname` itself and below it. */
  function IsActive(pathname: string, path: string): (r: bool)
    ensures pathname == path ==> r
    ensures r ==> |path| <= |pathname| && pathname[..|path|] == path
  {
    pathname == path || StartsWith(pathname, path + "/")
  }

  /** Highlighted exactly on the path itself and on the paths one or more segments under it. */
  lemma IsActiveExactly(pathname: string, path: string)
    ensures IsActive(pathname, path) <==>
      pathname == path || exists rest :: pathname == path + "/" + rest
  {
    if StartsWith(pathname, path + "/") {
      var rest := pathname[|path| + 1..];
      assert pathname == path + "/" + rest;
    }
    if exists rest :: pathname == path + "/" + rest {
      var rest :| pathname == path + "/" + rest;
      assert pathname[..|path + "/"|] == path + "/";
    }
  }

  /** A shared prefix is not enough: the blog entry is not highlighted on "/blogger", but it is
      on a post's page. */
  lemma IsActiveNeedsSegment()
    ensures !IsActive("/blogger", "/blog")
    ensures IsActive("/blog/tips", "/blog")
  {
    assert ("/blog" + "/")[5] == '/' && "/blogger"[5] == 'g';
    assert "/blog" + "/" == "/blog/";
    assert "/blog/tips"[..6] == "/blog/";
  }

  /** A footer link to one social platform. */
  datatype SocialLink = SocialLink(name: string, url: Option<string>)

  /** The five platforms, in the order the footer lists them. */
  function AllSocialLinks(config: SiteConfig): (r: seq<SocialLink>)
    ensures |r| == 5
    ensures r[0] == SocialLink("Instagram", config.instagram) && r[1] == SocialLink("LinkedIn", config.linkedin)
    ensures r[2] == SocialLink("Facebook", config.facebook) && r[3] == SocialLink("YouTube", config.youtube)
    ensures r[4] == SocialLink("TikTok", config.tiktok)
  {
    [ SocialLink("Instagram", config.instagram),
      SocialLink("LinkedIn", config.linkedin),
      SocialLink("Facebook", config.facebook),
      SocialLink("YouTube", config.youtube),
      SocialLink("TikTok", config.tiktok) ]
  }

  /** A link the footer shows: its url is present and not blank. */
  predicate HasUrl(link: SocialLink)
  {
    link.url.Some? && Trim(link.url.value) != ""
  }

  /** The links the footer shows: those with a non-blank url, in the fixed platform order. */
  function SocialLinks(config: SiteConfig): (r: seq<SocialLink>)
    ensures |r| <= 5
    ensures forall i :: 0 <= i < |r| ==> HasUrl(r[i])
    ensures IsSubsequence(r, AllSocialLinks(config))
  {
    FilterIsSubsequence(AllSocialLinks(config), HasUrl);
    FilterSatisfies(AllSocialLinks(config), HasUrl);
    FilterShrinks(AllSocialLinks(config), HasUrl);
    Filter(AllSocialLinks(config), HasUrl)
  }

  /** A platform is shown exactly when its url is non-blank. */
  lemma SocialLinkShownExactly(config: SiteConfig, k: int)
    requires 0 <= k < 5
    ensures AllSocialLinks(config)[k] in SocialLinks(config) <==> HasUrl(AllSocialLinks(config)[k])
  {
    FilterMembers(AllSocialLinks(config), HasUrl);
  }

  /** A url of whitespace only counts as blank: that platform is not shown. */
  lemma BlankUrlHidden(config: SiteConfig)
    requires config.instagram.Some?
    requires forall i :: 0 <= i < |config.instagram.value| ==> IsSpace(config.instagram.value[i])
    ensures forall i :: 0 <= i < |SocialLinks(config)| ==> SocialLinks(config)[i].name != "Instagram"
  {
    var all := AllSocialLinks(config);
    FilterMembers(all, HasUrl);
    assert !HasUrl(all[0]);
    forall i | 0 <= i < |SocialLinks(config)| ensures SocialLinks(config)[i].name != "Instagram" {
      var l := SocialLinks(config)[i];
      assert l in all && HasUrl(l);
      assert l != all[0];
    }
  }

  /** The theme as stored, if any. */
  function SavedTheme(st: map<Key, Stored>): (r: Option<string>)
    ensures r.Some? ==> ThemeKey in st
    ensures ThemeKey in st && st[ThemeKey].TextData? ==> r == Some(st[ThemeKey].text)
    ensures !(ThemeKey in st && st[ThemeKey].TextData?) ==> r.None?
  {
    if ThemeKey in st && st[ThemeKey].TextData? then Some(st[ThemeKey].text) else None
  }

  /** The mode on mount: dark when "dark" is saved, or when nothing (or an empty string) is
      saved and the system prefers dark. */
  function InitialDark(saved: Option<string>, prefersDark: bool): (r: bool)
    ensures saved == Some("dark") ==> r
    ensures Truthy(saved) && saved != Some("dark") ==> !r
    ensures !Truthy(saved) ==> r == prefersDark
  {
    saved == Some("dark") || (!Truthy(saved) && prefersDark)
  }

  /** The name stored for a mode. */
  function ThemeName(dark: bool): (r: string)
    ensures r == "dark" <==> dark
  {
    if dark then "dark" else "light"
  }

  /** A toggled mode survives a reload whatever the system prefers. */
  lemma ToggleSurvivesReload(wasDark: bool, prefersDark: bool)
    ensures InitialDark(Some(ThemeName(!wasDark)), prefersDark) == !wasDark
  {
  }

  /** The frame's theme state. */
  class ThemeState {
    var isDark: bool

    /** Light until the mount effect has run. */
    constructor ()
      ensures !isDark
    {
      isDark := false;
    }

    /** The mount effect: read the saved theme and fall back on the system preference.  It
        reads storage and writes nothing there. */
    method Mount(ls: LocalStorage, prefersDark: bool)
      modifies this
      ensures isDark == InitialDark(SavedTheme(ls.entries), prefersDark)
    {
      var saved := ls.GetItem(ThemeKey);
      var savedTheme: Option<string> := if saved.Some? && saved.value.TextData? then Some(saved.value.text) else None;
      isDark := savedTheme == Some("dark") || (!Truthy(savedTheme) && prefersDark);
    }

    /** Flip the mode and store the new one's name. */
    method ToggleTheme(ls: LocalStorage)
      requires WellTyped(ls.entries)
      modifies this, ls
      ensures isDark == !old(isDark)
      ensures ls.entries == old(ls.entries)[ThemeKey := TextData(ThemeName(isDark))]
      ensures WellTyped(ls.entries)
      ensures InitialDark(SavedTheme(ls.entries), false) == isDark
      ensures InitialDark(SavedTheme(ls.entries), true) == isDark
    {
      if isDark {
        ls.SetItem(ThemeKey, TextData("light"));
        isDark := false;
      } else {
        ls.SetItem(ThemeKey, TextData("dark"));
        isDark := true;
      }
    }
  }
}
