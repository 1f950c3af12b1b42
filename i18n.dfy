/**
 * Language selection (`src/i18n/index.ts`): the saved preference when it
 * names a supported language, else Nepali for a browser set to Nepali, else
 * English; and the English and Nepali translation tables.
 */
module I18n {
  import opened Wrappers
  import opened Strings

  /** The storage key of the saved preference. */
  const LanguageStorageKey: string := "app_language"

  const Supported: set<string> := {"en", "ne"}

  /**
   * `getUserLanguage`, with `saved` the stored preference (None when
   * absent) and `browserLanguage` the browser's `navigator.language`.
   */
  function GetUserLanguage(saved: Option<string>, browserLanguage: Option<string>): (r: string)
    ensures r in Supported
    ensures Truthy(saved) && saved.value in Supported ==> r == saved.value
    ensures !(Truthy(saved) && saved.value in Supported) ==>
              (r == "ne" <==> Truthy(browserLanguage) && "ne" <= browserLanguage.value)
  {
    if Truthy(saved) && saved.value in Supported then saved.value
    else if Truthy(browserLanguage) && "ne" <= browserLanguage.value then "ne"
    else "en"
  }

  /** An unsupported saved value is ignored: the answer is what it would be with nothing saved. */
  lemma UnsupportedPreferenceIgnored(saved: string, browserLanguage: Option<string>)
    requires saved !in Supported
    ensures GetUserLanguage(Some(saved), browserLanguage) == GetUserLanguage(None, browserLanguage)
  {
  }

  /** The English table. */
  const En: seq<(string, string)> := [
    ("welcome", "Welcome to Mamata Nepal"),
    ("resources", "Resources"),
    ("discussions", "Discussions"),
    ("login", "Login"),
    ("logout", "Logout"),
    ("createPost", "Create Post"),
    ("recentPosts", "Recent Posts"),
    ("popularResources", "Popular Resources"),
    ("switchLanguage", "भाषा परिवर्तन गर्नुहोस्"),
    ("readMore", "Read More"),
    ("profile", "Profile"),
    ("supportingMothers", "Supporting mothers through their pregnancy journey"),
    ("articles", "Articles"),
    ("videos", "Videos"),
    ("shorts", "Shorts"),
    ("watchNow", "Watch Now"),
    ("shareResource", "Share Resource"),
    ("about", "About")
  ]

  /** The Nepali table. */
  const Ne: seq<(string, string)> := [
    ("welcome", "ममता नेपालमा स्वागत छ"),
    ("resources", "स्रोतहरू"),
    ("discussions", "छलफलहरू"),
    ("login", "लग इन"),
    ("logout", "लग आउट"),
    ("createPost", "पोस्ट सिर्जना गर्नुहोस्"),
    ("recentPosts", "भर्खरका पोस्टहरू"),
    ("popularResources", "लोकप्रिय स्रोतहरू"),
    ("switchLanguage", "Switch Language"),
    ("readMore", "थप पढ्नुहोस्"),
    ("profile", "प्रोफाइल"),
    ("supportingMothers", "गर्भावस्थामा आमाहरूलाई सहयोग गर्दै"),
    ("articles", "लेखहरू"),
    ("videos", "भिडियोहरू"),
    ("shorts", "शर्ट्स"),
    ("watchNow", "अहिले हेर्नुहोस्"),
    ("shareResource", "साझा गर्नुहोस्"),
    ("about", "हाम्रोबारे")
  ]

  /** The keys of a table, in order. */
  function Keys(table: seq<(string, string)>): (r: seq<string>)
    ensures |r| == |table|
    ensures forall i :: 0 <= i < |table| ==> r[i] == table[i].0
  {
    seq(|table|, i requires 0 <= i < |table| => table[i].0)
  }

  /** The table for a supported language. */
  function Table(lang: string): seq<(string, string)>
    requires lang in Supported
  {
    if lang == "en" then En else Ne
  }

  /** The text of the first entry with the key, if any. */
  function Find(table: seq<(string, string)>, key: string): (r: Option<string>)
    ensures r.None? <==> key !in Keys(table)
    ensures r.Some? ==> (key, r.value) in table
    decreases |table|
  {
    if |table| == 0 then None
    else if table[0].0 == key then Some(table[0].1)
    else
      var rest := Find(table[1..], key);
      assert Keys(table[1..]) == Keys(table)[1..];
      rest
  }

  /** `t(key)` in a supported language: the table's text, or the key itself when the table lacks it. */
  function Translate(lang: string, key: string): (r: string)
    requires lang in Supported
    ensures key !in Keys(Table(lang)) ==> r == key
    ensures key in Keys(Table(lang)) ==> (key, r) in Table(lang)
  {
    Find(Table(lang), key).GetOr(key)
  }

  /**
   * Both tables translate the same keys, in the same order, so switching
   * language never loses a label.
   */
  lemma TablesHaveSameKeys()
    ensures |En| == |Ne| == 18
    ensures Keys(En) == Keys(Ne)
    ensures forall k :: k in Keys(En) <==> k in Keys(Ne)
  {
  }

  /** A key is translated in one language exactly when it is translated in the other. */
  lemma TranslatedInBoth(key: string)
    ensures key in Keys(En) <==> key in Keys(Ne)
    ensures key !in Keys(En) ==> Translate("en", key) == key && Translate("ne", key) == key
  {
    TablesHaveSameKeys();
  }
}
