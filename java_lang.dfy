/**
 * The library behaviour the admin tool relies on, stated on values:
 * `java.util.Properties` lookups, `StringUtils.isBlank` from Apache Commons Lang,
 * `Boolean.parseBoolean` and `String.toLowerCase` as far as the tool compares
 * their results with ASCII words.
 */
module JavaLang {
  import opened Wrappers

  /** A loaded properties file: string keys to string values. */
  type Properties = map<string, string>

  /** `Properties.getProperty(key)`: the value, or null when the key is absent. */
  function GetProperty(props: Properties, key: string): (r: Option<string>)
    ensures r.Some? <==> key in props
    ensures r.Some? ==> r.value == props[key]
  {
    if key in props then Some(props[key]) else None
  }

  /** `Properties.getProperty(key, default)`: never null. */
  function GetPropertyOr(props: Properties, key: string, default: string): (r: string)
    ensures key in props ==> r == props[key]
    ensures key !in props ==> r == default
  {
    GetProperty(props, key).GetOr(default)
  }

  /** `Character.isWhitespace` as of Java 9 (Unicode 6.3 and later): the Unicode space,
      line and paragraph separators other than the no-break spaces, and the ASCII and
      information-separator controls. Java 8 also counts U+180E. */
  predicate IsWhitespace(c: char)
    ensures c == ' ' || c == '\t' || c == '\n' || c == '\r' ==> IsWhitespace(c)
    ensures c == '\U{A0}' || c == '\U{2007}' || c == '\U{202F}' || c == '\U{180E}' ==> !IsWhitespace(c)
    ensures IsWhitespace(c) ==> c <= ' ' || '\U{1680}' <= c
  {
    || c == ' '
    || '\t' <= c <= '\r'
    || '\U{1C}' <= c <= '\U{1F}'
    || c == '\U{1680}'
    || '\U{2000}' <= c <= '\U{2006}'
    || '\U{2008}' <= c <= '\U{200A}'
    || c == '\U{2028}' || c == '\U{2029}'
    || c == '\U{205F}' || c == '\U{3000}'
  }

  /** `StringUtils.isBlank`: null, empty, or whitespace only. */
  predicate IsBlank(cs: Option<string>)
    ensures cs == None || cs == Some("") ==> IsBlank(cs)
    ensures cs.Some? && (exists c | c in cs.value :: !IsWhitespace(c)) ==> !IsBlank(cs)
    ensures cs.Some? && (forall c | c in cs.value :: IsWhitespace(c)) ==> IsBlank(cs)
  {
    match cs
    case None => true
    case Some(s) => forall i | 0 <= i < |s| :: IsWhitespace(s[i])
  }

  /** ASCII upper-case letters to lower case; every other character unchanged. */
  function LowerChar(c: char): char {
    if 'A' <= c <= 'Z' then (c as int + 32) as char else c
  }

  /** Lower-cases every ASCII letter of `s`. Compared with an all-ASCII lower-case
      word, this agrees with `String.toLowerCase` and with `equalsIgnoreCase`. */
  function LowerAscii(s: string): (r: string)
    ensures |r| == |s|
    ensures forall i | 0 <= i < |s| :: r[i] == LowerChar(s[i])
  {
    seq(|s|, i requires 0 <= i < |s| => LowerChar(s[i]))
  }

  /** Lower-casing matches a lower-case ASCII word exactly when the string spells that
      word with each letter in either case. */
  lemma LowerAsciiAnyCase(s: string, w: string)
    requires forall i | 0 <= i < |w| :: 'a' <= w[i] <= 'z'
    ensures LowerAscii(s) == w <==>
      |s| == |w| && forall i | 0 <= i < |s| :: s[i] == w[i] || s[i] as int == w[i] as int - 32
  {
    if |s| == |w| && forall i | 0 <= i < |s| :: s[i] == w[i] || s[i] as int == w[i] as int - 32 {
      assert forall i | 0 <= i < |s| :: LowerAscii(s)[i] == w[i];
    }
  }

  /** `Boolean.parseBoolean` of a non-null string: "true" in any letter case. */
  predicate ParseBoolean(s: string)
    ensures ParseBoolean(s) <==>
      && |s| == 4
      && (s[0] == 't' || s[0] == 'T') && (s[1] == 'r' || s[1] == 'R')
      && (s[2] == 'u' || s[2] == 'U') && (s[3] == 'e' || s[3] == 'E')
  {
    LowerAsciiAnyCase(s, "true");
    LowerAscii(s) == "true"
  }
}
