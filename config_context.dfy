// The site configuration shared by every page: a fallback until the stored configuration is
// loaded, an update that persists, and the WhatsApp chat link built from the phone number.

module ConfigContext {
  import opened Optional
  import opened Types
  import opened Storage
  import opened Lists
  import opened Strings
  import opened DataService

  /** The configuration in force before the stored one is loaded. */
  const FALLBACK_CONFIG: SiteConfig := SiteConfig(
    "628123456789", "info@mazmodev.com", "Indonesia",
    Some(""), Some(""), Some(""), Some(""), Some(""), Some(""))

  const WA_PREFIX := "https://wa.me/"
  const TEXT_PARAM := "?text="

  /** The chat link: the digits of the configured number, then the encoded message.
      `encode` stands for encodeURIComponent; the message defaults to empty. */
  function WhatsappLink(config: SiteConfig, encode: string -> string, message: string := ""): (r: string)
    ensures StartsWith(r, WA_PREFIX)
    ensures |r| == |WA_PREFIX| + |DigitsOnly(config.whatsappNumber)| + |TEXT_PARAM| + |encode(message)|
  {
    WA_PREFIX + DigitsOnly(config.whatsappNumber) + TEXT_PARAM + encode(message)
  }

  /** Reads a chat link back: the phone part (up to the first '?') and the text parameter. */
  function ParseLink(link: string): (r: Option<(string, string)>)
    ensures r.Some? ==> StartsWith(link, WA_PREFIX) && '?' !in r.value.0
  {
    if !StartsWith(link, WA_PREFIX) then None
    else
      var rest := link[|WA_PREFIX|..];
      var q := IndexOfFirst(rest, IsChar('?'));
      if q == -1 || !StartsWith(rest[q..], TEXT_PARAM) then None
      else
        assert forall j :: 0 <= j < q ==> rest[..q][j] == rest[j] && !IsChar('?')(rest[j]);
        Some((rest[..q], rest[q + |TEXT_PARAM|..]))
  }

  /** A link assembled from a phone part without '?' and any text parses back into the two. */
  lemma {:induction false} ParseAssembled(phone: string, text: string)
    requires forall j :: 0 <= j < |phone| ==> phone[j] != '?'
    ensures ParseLink(WA_PREFIX + (phone + TEXT_PARAM + text)) == Some((phone, text))
  {
    var rest := phone + TEXT_PARAM + text;
    var link := WA_PREFIX + rest;
    assert link[..|WA_PREFIX|] == WA_PREFIX;
    assert link[|WA_PREFIX|..] == rest;
    assert forall j :: 0 <= j < |phone| ==> !IsChar('?')(rest[j]) by {
      forall j | 0 <= j < |phone| ensures !IsChar('?')(rest[j]) {
        assert rest[j] == phone[j];
      }
    }
    assert IsChar('?')(rest[|phone|]);
    IndexOfFirstAt(rest, IsChar('?'), |phone|);
    assert rest[|phone|..] == TEXT_PARAM + text;
    assert rest[|phone|..][..|TEXT_PARAM|] == TEXT_PARAM;
    assert rest[..|phone|] == phone;
    assert rest[|phone| + |TEXT_PARAM|..] == text;
  }

  /** The link carries exactly the digits of the configured number and the encoded message,
      whatever the message and its encoding contain. */
  lemma LinkRoundTrip(config: SiteConfig, encode: string -> string, message: string)
    ensures ParseLink(WhatsappLink(config, encode, message))
      == Some((DigitsOnly(config.whatsappNumber), encode(message)))
  {
    var phone := DigitsOnly(config.whatsappNumber);
    var text := encode(message);
    assert WhatsappLink(config, encode, message) == WA_PREFIX + (phone + TEXT_PARAM + text);
    assert forall j :: 0 <= j < |phone| ==> phone[j] != '?' by {
      forall j | 0 <= j < |phone| ensures phone[j] != '?' {
        assert IsDigit(phone[j]);
      }
    }
    ParseAssembled(phone, text);
  }

  /** The phone part of the link is made of digits only, in the order of the configured number. */
  lemma LinkPhoneIsDigits(config: SiteConfig, encode: string -> string, message: string)
    ensures var p := ParseLink(WhatsappLink(config, encode, message));
      p.Some? && (forall i :: 0 <= i < |p.value.0| ==> IsDigit(p.value.0[i]))
      && IsSubsequence(p.value.0, config.whatsappNumber)
  {
    LinkRoundTrip(config, encode, message);
    DigitsInOrder(config.whatsappNumber);
  }

  /** Fallback and default configurations carry the same number, so the chat link is the same
      before and after the first load on an empty storage. */
  lemma LinkStableAcrossFirstLoad(encode: string -> string, message: string)
    ensures WhatsappLink(FALLBACK_CONFIG, encode, message) == WhatsappLink(ConfigOf(map[]), encode, message)
    ensures FALLBACK_CONFIG != ConfigOf(map[])
  {
  }

  /** The configuration provider's state: the configuration the pages see. */
  class ConfigProvider {
    var config: SiteConfig

    /** Before loading, the fallback is in force. */
    constructor ()
      ensures config == FALLBACK_CONFIG
    {
      config := FALLBACK_CONFIG;
    }

    /** The mount effect: read the stored configuration (seeding the default) and use it. */
    method Load(ls: LocalStorage)
      requires WellTyped(ls.entries)
      modifies this, ls
      ensures config == ConfigOf(old(ls.entries))
      ensures ls.entries == Seed(old(ls.entries), ConfigKey, CONFIG_SEED) && WellTyped(ls.entries)
    {
      var data := GetSiteConfig(ls);
      config := data;
    }

    /** Persist the new configuration, then use it. */
    method UpdateConfig(ls: LocalStorage, newConfig: SiteConfig)
      requires WellTyped(ls.entries)
      modifies this, ls
      ensures config == newConfig
      ensures ls.entries == old(ls.entries)[ConfigKey := ConfigData(newConfig)] && WellTyped(ls.entries)
      ensures ConfigOf(ls.entries) == newConfig
    {
      SaveSiteConfig(ls, newConfig);
      config := newConfig;
    }

    /** The link the pages build from the configuration in force. */
    function Link(encode: string -> string, message: string := ""): (r: string)
      reads this
      ensures ParseLink(r) == Some((DigitsOnly(config.whatsappNumber), encode(message)))
    {
      LinkRoundTrip(config, encode, message);
      WhatsappLink(config, encode, message)
    }
  }

  /** An update survives a reload: loading after an update gives the updated configuration. */
  lemma UpdateThenLoad(st: map<Key, Stored>, c: SiteConfig)
    ensures ConfigOf(Seed(st[ConfigKey := ConfigData(c)], ConfigKey, CONFIG_SEED)) == c
  {
  }
}
