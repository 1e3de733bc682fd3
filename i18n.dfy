/** The localisation helpers of the front end: choosing a locale from the
    browser's language and the single-pass `{key}` placeholder substitution
    used for every translated text, together with the part of the
    translation table that the connection prompt relies on. */
module I18n {

  /** The keys of the translation table. */
  const Locales: set<string> := {"zh", "en", "es", "ru"}

  /** The locales chosen by a language prefix; every other language gets "en". */
  const PrefixLocales: set<string> := {"zh", "es", "ru"}

  /** The `offerConfirm.description` text of each locale, given as the text
      before and after its `{from}` token. */
  function OfferConfirmParts(locale: string): (parts: (string, string))
    requires locale in Locales
    ensures '{' !in parts.0
  {
    match locale
    case "zh" => ("用户 ", " 请求与您建立连接，是否接受？")
    case "en" => ("User ", " is requesting to connect with you. Accept?")
    case "es" => ("El usuario ", " solicita conectar contigo. ¿Aceptar?")
    case _ => ("Пользователь ", " хочет подключиться. Принять?")
  }

  /** The `offerConfirm.description` text of each locale. */
  function OfferConfirmDescription(locale: string): string
    requires locale in Locales
  {
    OfferConfirmParts(locale).0 + "{from}" + OfferConfirmParts(locale).1
  }

  // ---------------------------------------------------------------------------
  // Choosing a locale

  /** `navigator.language || navigator.languages?.[0] || 'en'`: the first
      non-empty candidate, where an empty string counts as missing. */
  function PreferredLanguage(language: string, languages: seq<string>): (l: string)
    ensures l != ""
    ensures language != "" ==> l == language
    ensures language == "" ==> l == (if |languages| > 0 && languages[0] != "" then languages[0] else "en")
  {
    if language != "" then language
    else if |languages| > 0 && languages[0] != "" then languages[0]
    else "en"
  }

  /** The locale for the browser's language: the table key that is a prefix of
      the preferred language, tried as "zh", "es", "ru", and "en" otherwise. */
  function BrowserLanguage(language: string, languages: seq<string>): (r: string)
    ensures r in Locales
    ensures var l := PreferredLanguage(language, languages);
      && (r != "en" ==> r in PrefixLocales && r <= l)
      && (forall loc :: loc in PrefixLocales && loc <= l ==> r == loc)
  {
    var l := PreferredLanguage(language, languages);
    if "zh" <= l then "zh"
    else if "es" <= l then "es"
    else if "ru" <= l then "ru"
    else "en"
  }

  // ---------------------------------------------------------------------------
  // Placeholder substitution: `message.replace(/\{(\w+)\}/g, ...)`

  /** A character of the regular-expression class `\w`. */
  predicate IsWordChar(c: char) {
    ('A' <= c <= 'Z') || ('a' <= c <= 'z') || ('0' <= c <= '9') || c == '_'
  }

  /** A whole `{key}` token: braces around one or more word characters. */
  predicate IsPlaceholder(t: string) {
    && |t| >= 3 && t[0] == '{' && t[|t| - 1] == '}'
    && forall i :: 1 <= i < |t| - 1 ==> IsWordChar(t[i])
  }

  /** Some `{key}` token occurs somewhere in `s`. */
  predicate HasPlaceholder(s: string) {
    exists i, j :: 0 <= i < j <= |s| && IsPlaceholder(s[i..j])
  }

  /** The length of the longest prefix of `s` made of word characters. */
  function WordRun(s: string): (n: nat)
    ensures n <= |s|
    ensures forall i :: 0 <= i < n ==> IsWordChar(s[i])
    ensures n < |s| ==> !IsWordChar(s[n])
  {
    if s != [] && IsWordChar(s[0]) then 1 + WordRun(s[1..]) else 0
  }

  /** The length of the `{key}` token the regular expression matches at the
      head of `s`, or 0 when it does not match there. */
  function MatchAt(s: string): (n: nat)
    ensures n <= |s|
    ensures n > 0 ==> IsPlaceholder(s[..n])
  {
    if s != [] && s[0] == '{' then
      var k := WordRun(s[1..]);
      if 0 < k && k + 1 < |s| && s[k + 1] == '}' then
        assert s[..k + 2][1..k + 1] == s[1..][..k];
        k + 2
      else 0
    else 0
  }

  /** The regular expression matches at the head of `s` exactly when `s`
      starts with a `{key}` token, and then it matches that whole token. */
  lemma MatchAtFindsToken(s: string, m: nat)
    requires 0 < m <= |s| && IsPlaceholder(s[..m])
    ensures MatchAt(s) == m
  {
    var t := s[1..];
    forall i | 0 <= i < m - 2 ensures IsWordChar(t[i]) {
      assert t[i] == s[..m][i + 1];
    }
    assert t[m - 2] == s[..m][m - 1];
    assert WordRun(t) == m - 2;
  }

  /** The replacement callback: `params[key]?.toString() || match`. */
  function Substitute(token: string, key: string, params: map<string, string>): string {
    if key in params && params[key] != "" then params[key] else token
  }

  /** One left-to-right pass of the global replace: at each position either a
      `{key}` token is replaced and skipped, or one character is copied. */
  function Format(s: string, params: map<string, string>): string
    decreases |s|
  {
    if s == [] then []
    else
      var n := MatchAt(s);
      if n == 0 then [s[0]] + Format(s[1..], params)
      else Substitute(s[..n], s[1..n - 1], params) + Format(s[n..], params)
  }

  /** With no parameters every token is kept, so the text comes back unchanged. */
  lemma {:induction false} FormatWithoutParams(s: string)
    ensures Format(s, map[]) == s
    decreases |s|
  {
    if s != [] {
      var n := MatchAt(s);
      if n == 0 {
        FormatWithoutParams(s[1..]);
      } else {
        FormatWithoutParams(s[n..]);
        assert s == s[..n] + s[n..];
      }
    }
  }

  /** A text holding no `{key}` token comes back unchanged, whatever the parameters. */
  lemma {:induction false} FormatWithoutPlaceholders(s: string, params: map<string, string>)
    requires !HasPlaceholder(s)
    ensures Format(s, params) == s
    decreases |s|
  {
    if s != [] {
      assert !IsPlaceholder(s[0..MatchAt(s)]);
      forall i, j | 0 <= i < j <= |s| - 1 ensures !IsPlaceholder(s[1..][i..j]) {
        assert s[1..][i..j] == s[i + 1..j + 1];
      }
      FormatWithoutPlaceholders(s[1..], params);
    }
  }

  /** Text before the first `{` is copied verbatim. */
  lemma {:induction false} FormatLiteralPrefix(pre: string, rest: string, params: map<string, string>)
    requires '{' !in pre
    ensures Format(pre + rest, params) == pre + Format(rest, params)
    decreases |pre|
  {
    if pre != [] {
      var s := pre + rest;
      assert s[0] == pre[0] && s[0] != '{';
      assert MatchAt(s) == 0;
      assert s[1..] == pre[1..] + rest;
      FormatLiteralPrefix(pre[1..], rest, params);
      calc {
        Format(s, params);
        [s[0]] + Format(s[1..], params);
        [pre[0]] + (pre[1..] + Format(rest, params));
        { assert pre == [pre[0]] + pre[1..]; }
        pre + Format(rest, params);
      }
    } else {
      assert pre + rest == rest;
    }
  }

  /** A `{key}` token after a brace-free prefix is replaced by the parameter's
      text when it is non-empty, kept otherwise, and scanning resumes after the
      token: the replacement itself is never scanned again. */
  lemma FormatReplacesToken(pre: string, key: string, post: string, params: map<string, string>)
    requires '{' !in pre
    requires IsPlaceholder("{" + key + "}")
    ensures Format(pre + "{" + key + "}" + post, params)
         == pre + (if key in params && params[key] != "" then params[key] else "{" + key + "}")
                + Format(post, params)
  {
    var token := "{" + key + "}";
    var s := token + post;
    assert s[..|token|] == token;
    MatchAtFindsToken(s, |token|);
    var n := MatchAt(s);
    assert s[1..n - 1] == key;
    assert s[n..] == post;
    assert pre + "{" + key + "}" + post == pre + s;
    FormatLiteralPrefix(pre, s, params);
  }

  /** Single pass: a token whose value itself looks like a token yields that
      value literally. */
  lemma SubstitutionIsNotRescanned(key: string, params: map<string, string>)
    requires IsPlaceholder("{" + key + "}")
    requires key in params && params[key] != ""
    ensures Format("{" + key + "}", params) == params[key]
  {
    FormatReplacesToken("", key, "", params);
    assert "" + "{" + key + "}" + "" == "{" + key + "}";
  }

  /** Braces that do not enclose a run of word characters alone (`{}`,
      `{a-b}`) are left as they are. */
  lemma FormatKeepsNonTokenBraces(inner: string, post: string, params: map<string, string>)
    requires '{' !in inner && '}' !in inner
    requires inner == [] || exists i :: 0 <= i < |inner| && !IsWordChar(inner[i])
    ensures Format("{" + inner + "}" + post, params) == "{" + inner + "}" + Format(post, params)
  {
    var s := "{" + inner + "}" + post;
    NoTokenAtNonTokenBrace(inner, post);
    var rest := inner + "}";
    assert '{' !in rest;
    assert s[1..] == rest + post;
    FormatLiteralPrefix(rest, post, params);
    calc {
      Format(s, params);
      [s[0]] + Format(s[1..], params);
      "{" + (rest + Format(post, params));
      { assert "{" + inner + "}" == "{" + rest; }
      "{" + inner + "}" + Format(post, params);
    }
  }

  lemma NoTokenAtNonTokenBrace(inner: string, post: string)
    requires '}' !in inner
    requires inner == [] || exists i :: 0 <= i < |inner| && !IsWordChar(inner[i])
    ensures MatchAt("{" + inner + "}" + post) == 0
  {
    var s := "{" + inner + "}" + post;
    var t := s[1..];
    assert t == inner + "}" + post;
    var k := WordRun(t);
    assert t[|inner|] == '}';
    assert k <= |inner|;
    if k < |inner| {
      assert s[k + 1] == inner[k];
    } else {
      assert forall i :: 0 <= i < |inner| ==> t[i] == inner[i];
      assert k == 0;
    }
  }

  /** A substring relation on texts. */
  predicate Contains(s: string, t: string) {
    exists i, j :: 0 <= i <= j <= |s| && s[i..j] == t
  }

  /** A prompt whose only brace before `{from}` is that token's names the
      peer once formatted with a non-empty `from`. */
  lemma PromptNamesPeer(pre: string, post: string, from: string)
    requires '{' !in pre
    requires from != ""
    ensures Contains(Format(pre + "{from}" + post, map["from" := from]), from)
  {
    var params := map["from" := from];
    assert "{from}" == "{" + "from" + "}";
    assert IsPlaceholder("{" + "from" + "}");
    FormatReplacesToken(pre, "from", post, params);
    assert pre + "{from}" + post == pre + "{" + "from" + "}" + post;
    var r := pre + from + Format(post, params);
    assert Format(pre + "{from}" + post, params) == r;
    assert r[|pre|..|pre| + |from|] == from;
  }

  /** Every locale's connection prompt names the offering peer once it is
      formatted with a non-empty `from`. */
  lemma OfferPromptNamesPeer(locale: string, from: string)
    requires locale in Locales
    requires from != ""
    ensures Contains(Format(OfferConfirmDescription(locale), map["from" := from]), from)
  {
    var parts := OfferConfirmParts(locale);
    PromptNamesPeer(parts.0, parts.1, from);
  }
}
