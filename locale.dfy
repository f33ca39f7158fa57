/** `getDefaultLocale`: a stored preference wins; otherwise the browser
    language decides between Brazilian Portuguese and English. */
module Locale {
  import opened Json

  /** The localStorage key of the saved language preference. */
  const StorageKey: string := "cv-online-locale"

  /** `s.split(sep)[0]`: the text before the first `sep`, or all of `s`. */
  function BeforeFirst(s: string, sep: char): (r: string)
    ensures r <= s
    ensures sep !in r
    ensures |r| < |s| ==> s[|r|] == sep
  {
    if s == [] || s[0] == sep then [] else [s[0]] + BeforeFirst(s[1..], sep)
  }

  /** Lower-cases the letters A to Z. */
  function LowerChar(c: char): (l: char)
    ensures l == 'p' <==> c == 'p' || c == 'P'
    ensures l == 't' <==> c == 't' || c == 'T'
  {
    if 'A' <= c <= 'Z' then (c as int - 'A' as int + 'a' as int) as char else c
  }

  /** `s.toLowerCase()`, for the letters A to Z. */
  function ToLower(s: string): (r: string)
    ensures |r| == |s|
    ensures forall i :: 0 <= i < |s| ==> r[i] == LowerChar(s[i])
  {
    seq(|s|, i requires 0 <= i < |s| => LowerChar(s[i]))
  }

  /** The primary subtag of a language tag is "pt" in any letter case. */
  predicate PortugueseTag(tag: string)
  {
    && |tag| >= 2
    && (tag[0] == 'p' || tag[0] == 'P')
    && (tag[1] == 't' || tag[1] == 'T')
    && (|tag| == 2 || tag[2] == '-')
  }

  /** Splitting at the first `-` and lower-casing yields "pt" exactly for a
      Portuguese tag. */
  lemma PortuguesePrefix(tag: string)
    ensures ToLower(BeforeFirst(tag, '-')) == "pt" <==> PortugueseTag(tag)
  {
  }

  /** `getDefaultLocale`. `stored` is what localStorage holds under
      `StorageKey` (`None` when there is no localStorage or no entry), and
      `language` is `navigator.language` (`None` when unavailable). */
  function DefaultLocale(stored: Option<string>, language: Option<string>): (r: string)
    ensures r != ""
    ensures stored.Some? && stored.value != "" ==> r == stored.value
    ensures !(stored.Some? && stored.value != "") ==>
      && (r == "pt-br" || r == "en")
      && (r == "pt-br" <==> language.Some? && PortugueseTag(language.value))
  {
    if stored.Some? && stored.value != "" then stored.value
    else if language.Some? && language.value != "" then
      PortuguesePrefix(language.value);
      if ToLower(BeforeFirst(language.value, '-')) == "pt" then "pt-br" else "en"
    else "en"
  }

  /** What localStorage holds under `StorageKey`. */
  function StoredLocale(storage: Option<map<string, string>>): (r: Option<string>)
    ensures r.Some? <==> storage.Some? && StorageKey in storage.value
    ensures r.Some? ==> r.value == storage.value[StorageKey]
  {
    if storage.Some? && StorageKey in storage.value then Some(storage.value[StorageKey]) else None
  }

  /** Once a non-empty language is saved in localStorage, it is the default
      locale whatever the browser says. */
  lemma SavedLocaleWins(storage: map<string, string>, lang: string, language: Option<string>)
    requires lang != ""
    ensures DefaultLocale(StoredLocale(Some(storage[StorageKey := lang])), language) == lang
  {
  }
}
