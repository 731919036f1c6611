/**
 * Turning raw search results into job listings (lib/normalise.ts): the
 * listing id, title clean-up, the relevance and junk filters, company, date
 * and salary extraction, the per-result decision and the per-batch loop that
 * counts drop reasons.
 *
 * The regular-expression lists are values of Host.Regex that the engine
 * decides; what is verified here is the order in which they are tried and
 * what each outcome leads to.
 */
module Normalise {
  import opened Basics
  import opened Host
  import opened Jobs
  import opened DateUtils
  import opened Logger

  // ---------------------------------------------------------------------------
  // hashUrl: a 32-bit polynomial hash, printed in base 36

  const TWO_31: int := 0x8000_0000
  const TWO_32: int := 0x1_0000_0000

  /** ToInt32: the signed 32-bit integer congruent to x modulo 2^32 (`x | 0`). */
  function ToInt32(x: int): (r: int)
    ensures -TWO_31 <= r < TWO_31
    ensures (x - r) % TWO_32 == 0
  {
    var m := x % TWO_32;
    if m >= TWO_31 then m - TWO_32 else m
  }

  /** Congruent numbers have the same 32-bit value. */
  lemma ToInt32Congruent(x: int, y: int)
    requires (x - y) % TWO_32 == 0
    ensures ToInt32(x) == ToInt32(y)
  {
    var k := (x - y) / TWO_32;
    assert x == y + k * TWO_32;
    assert x % TWO_32 == y % TWO_32;
  }

  /** One step of the loop: `hash = ((hash << 5) - hash + code) | 0`. */
  function HashStep(hash: int, code: int): int {
    ToInt32(ToInt32(hash * 32) - hash + code)
  }

  /** Each step computes 31·hash + code, wrapped to signed 32 bits. */
  lemma HashStepPolynomial(hash: int, code: int)
    ensures HashStep(hash, code) == ToInt32(31 * hash + code)
  {
    var a := ToInt32(hash * 32);
    assert (hash * 32 - a) % TWO_32 == 0;
    assert ((a - hash + code) - (31 * hash + code)) == a - hash * 32;
    assert ((a - hash + code) - (31 * hash + code)) % TWO_32 == 0;
    ToInt32Congruent(a - hash + code, 31 * hash + code);
  }

  /** The hash of a string: the step folded over its character codes from the left. */
  function HashValue(s: string): (h: int)
    ensures -TWO_31 <= h < TWO_31
  {
    if s == [] then 0 else HashStep(HashValue(s[..|s| - 1]), s[|s| - 1] as int)
  }

  function Abs(x: int): nat {
    if x < 0 then -x else x
  }

  /** The listing id of a URL: the absolute value of its hash in base 36. */
  function UrlId(url: string): string {
    Digits(Abs(HashValue(url)), 36)
  }

  /** hashUrl, as the loop the source runs. */
  method HashUrl(url: string) returns (id: string)
    ensures id == UrlId(url)
  {
    var hash := 0;
    for i := 0 to |url|
      invariant hash == HashValue(url[..i])
    {
      assert url[..i + 1][..i] == url[..i];
      hash := ToInt32(ToInt32(hash * 32) - hash + url[i] as int);
    }
    assert url[..|url|] == url;
    id := Digits(Abs(hash), 36);
  }

  /** The hash extends by one polynomial step per character, and an id is at
      most six base-36 digits that read back as the hash's absolute value. */
  lemma UrlIdFacts(url: string, c: char)
    ensures HashValue(url + [c]) == ToInt32(31 * HashValue(url) + c as int)
    ensures DigitsValue(UrlId(url), 36) == Abs(HashValue(url))
    ensures 1 <= |UrlId(url)| <= 6
    ensures forall i :: 0 <= i < |UrlId(url)| ==> DigitValue(UrlId(url)[i]) < 36
  {
    assert (url + [c])[..|url|] == url;
    HashStepPolynomial(HashValue(url), c as int);
    DigitsRoundTrip(Abs(HashValue(url)), 36);
    assert Pow(36, 6) == 2176782336;
    DigitsLength(Abs(HashValue(url)), 36, 6);
  }

  /** Two URLs share an id exactly when their hashes have the same absolute
      value: the base-36 digits lose nothing of the hash but its sign. */
  lemma UrlIdDistinguishes(u: string, v: string)
    ensures UrlId(u) == UrlId(v) <==> Abs(HashValue(u)) == Abs(HashValue(v))
  {
    if UrlId(u) == UrlId(v) {
      DigitsInjective(Abs(HashValue(u)), Abs(HashValue(v)), 36);
    }
  }

  // ---------------------------------------------------------------------------
  // cleanTitle

  /** Removes a leading "[hiring]" tag (any case) and the white space after it. */
  function StripHiringTag(s: string): (r: string)
    ensures |r| <= |s| && r == s[|s| - |r|..]
  {
    if |s| >= 8 && Lower(s[..8]) == "[hiring]" then TrimStart(s[8..]) else s
  }

  /** Removes a trailing board name (given in lower case, matched in any case)
      together with the "-" or "|" before it and the white space around that
      separator; a title without that ending is returned unchanged. */
  function StripBoardSuffix(s: string, board: string): (r: string)
    ensures |r| <= |s| && r == s[..|r|]
  {
    if |s| >= |board| && Lower(s[|s| - |board|..]) == board then
      var t := TrimEnd(s[..|s| - |board|]);
      if |t| > 0 && (t[|t| - 1] == '-' || t[|t| - 1] == '|') then
        var r := TrimEnd(t[..|t| - 1]);
        assert t == s[..|t|];
        assert t[..|t| - 1] == s[..|t| - 1];
        assert r == s[..|r|];
        r
      else s
    else s
  }

  /** The board names cleanTitle strips, in the order it strips them. */
  const TITLE_BOARD_SUFFIXES: seq<string> := ["remotive", "dribbble", "we work remotely", "weworkremotely"]

  /** cleanTitle: the hiring tag and the board suffixes removed, then trimmed.
      Only text at the two ends is removed, and the result is trimmed. */
  function CleanTitle(title: string): (r: string)
    ensures IsInfix(r, title)
    ensures IsTrimmed(r)
  {
    var s0 := StripHiringTag(title);
    var s1 := StripBoardSuffix(s0, "remotive");
    var s2 := StripBoardSuffix(s1, "dribbble");
    var s3 := StripBoardSuffix(s2, "we work remotely");
    var s4 := StripBoardSuffix(s3, "weworkremotely");
    var r := Trim(s4);
    SuffixIsInfix(s0, title);
    PrefixIsInfix(s1, s0);
    PrefixIsInfix(s2, s1);
    PrefixIsInfix(s3, s2);
    PrefixIsInfix(s4, s3);
    InfixTransitive(s1, s0, title);
    InfixTransitive(s2, s1, title);
    InfixTransitive(s3, s2, title);
    InfixTransitive(s4, s3, title);
    InfixTransitive(r, s4, title);
    r
  }

  /** A board name after a " - " or " | " separator is removed, whatever its
      case, and what came before it is kept exactly. */
  lemma StripBoardSuffixRemoves(core: string, sep: char, name: string, board: string)
    requires sep == '-' || sep == '|'
    requires core != [] && !IsSpace(core[|core| - 1])
    requires Lower(name) == board
    ensures StripBoardSuffix(core + " " + [sep] + " " + name, board) == core
  {
    var s := core + " " + [sep] + " " + name;
    assert s[|s| - |board|..] == name;
    assert s[..|s| - |board|] == core + " " + [sep] + " ";
    var t := TrimEnd(s[..|s| - |board|]);
    TrimEndKeeps(core + " " + [sep], " ");
    assert t == core + " " + [sep];
    assert t[..|t| - 1] == core + " ";
    TrimEndKeeps(core, " ");
  }

  /** Trailing white space goes and a non-space last character stops trimming. */
  lemma TrimEndKeeps(s: string, spaces: string)
    requires s != [] && !IsSpace(s[|s| - 1])
    requires forall i :: 0 <= i < |spaces| ==> IsSpace(spaces[i])
    ensures TrimEnd(s + spaces) == s
    decreases |spaces|
  {
    if spaces == [] {
      assert s + spaces == s;
    } else {
      var u := s + spaces;
      assert u[..|u| - 1] == s + spaces[..|spaces| - 1];
      TrimEndKeeps(s, spaces[..|spaces| - 1]);
    }
  }

  // ---------------------------------------------------------------------------
  // isTitleRelevant

  const RELEVANCE_KEYWORDS: seq<Regex> := [
    Regex(@"ux\s*research", "i"),
    Regex(@"user\s*research", "i"),
    Regex(@"ux\s*researcher", "i"),
    Regex(@"user\s*researcher", "i"),
    Regex(@"user\s*experience\s*research", "i"),
    Regex(@"design\s*research", "i"),
    Regex(@"usability", "i"),
    Regex(@"research\s*ops", "i"),
    Regex(@"research\s*operations", "i"),
    Regex(@"research\s*manager", "i"),
    Regex(@"research\s*lead", "i"),
    Regex(@"research\s*director", "i"),
    Regex(@"research\s*analyst", "i")
  ]

  /** `url.split("/").pop()`: the text after the last "/", or the whole URL. */
  function LastSegment(url: string): (r: string)
    ensures |r| <= |url| && r == url[|url| - |r|..]
    ensures forall i :: 0 <= i < |r| ==> r[i] != '/'
    ensures |r| == |url| || url[|url| - |r| - 1] == '/'
  {
    if url == [] || url[|url| - 1] == '/' then []
    else
      var r := LastSegment(url[..|url| - 1]) + [url[|url| - 1]];
      assert r == url[|url| - |r|..];
      r
  }

  /** The text the relevance keywords are matched against: the title, a space, and
      the URL's last path segment with dashes turned into spaces. */
  function RelevanceText(result: FirecrawlResult): string {
    result.title + " " + ReplaceChar(LastSegment(result.url), '-', ' ')
  }

  /** isTitleRelevant: some relevance keyword matches the title joined with the URL slug. */
  predicate IsTitleRelevant(e: Engine, result: FirecrawlResult) {
    AnyMatch(e, RELEVANCE_KEYWORDS, RelevanceText(result))
  }

  /** The slug counts as much as the title: a keyword found only in the URL's
      last segment makes a result relevant, and the segment carries no "/". */
  lemma RelevanceFromSlug(e: Engine, result: FirecrawlResult, k: nat)
    requires k < |RELEVANCE_KEYWORDS|
    requires Test(e, RELEVANCE_KEYWORDS[k], RelevanceText(result))
    ensures IsTitleRelevant(e, result)
    ensures EndsWith(RelevanceText(result), ReplaceChar(LastSegment(result.url), '-', ' '))
    ensures StartsWith(RelevanceText(result), result.title + " ")
  {
    var t := RelevanceText(result);
    var slug := ReplaceChar(LastSegment(result.url), '-', ' ');
    assert t[|t| - |slug|..] == slug;
    assert t[..|result.title| + 1] == result.title + " ";
  }

  // ---------------------------------------------------------------------------
  // isJunkResult

  const JUNK_URL_PATTERNS: seq<Regex> := [
    Regex(@"\.pdf$", "i"),
    Regex(@"\.doc$", "i"),
    Regex(@"wikipedia\.org", "i"),
    Regex(@"medium\.com", "i"),
    Regex(@"linkedin\.com\/pulse", "i"),
    Regex(@"youtube\.com", "i"),
    Regex(@"reddit\.com", "i"),
    Regex(@"arxiv\.org", "i"),
    Regex(@"scholar\.google", "i"),
    Regex(@"news\.", "i"),
    Regex(@"blog\.", "i"),
    Regex(@"\/search\?", "i"),
    Regex(@"\/search$", "i"),
    Regex(@"\/jobs\/new$", "i"),
    Regex(@"\/remote-jobs\/new$", "i")
  ]

  const JUNK_TITLE_PATTERNS: seq<Regex> := [
    Regex(@"\[pdf\]", "i"),
    Regex("how to", "i"),
    Regex("what is", "i"),
    Regex("guide to", "i"),
    Regex("tips for", "i"),
    Regex("course", "i"),
    Regex("certification", "i"),
    Regex("salary report", "i"),
    Regex("interview questions", "i")
  ]

  /** The junk verdict: the first URL pattern that matches the URL, else the
      first title pattern that matches the title, named by its source text;
      None when no pattern matches. */
  function JunkReason(e: Engine, result: FirecrawlResult): (r: Option<string>)
    ensures r.None? <==> !AnyMatch(e, JUNK_URL_PATTERNS, result.url) && !AnyMatch(e, JUNK_TITLE_PATTERNS, result.title)
  {
    match FirstMatch(e, JUNK_URL_PATTERNS, result.url)
    case Some(k) => Some("junk_url:" + JUNK_URL_PATTERNS[k].source)
    case None =>
      match FirstMatch(e, JUNK_TITLE_PATTERNS, result.title)
      case Some(k) => Some("junk_title:" + JUNK_TITLE_PATTERNS[k].source)
      case None => None
  }

  /** The junk URL patterns come first, and the first one that matches names the reason. */
  lemma JunkUrlFirst(e: Engine, result: FirecrawlResult, k: nat)
    requires k < |JUNK_URL_PATTERNS| && Test(e, JUNK_URL_PATTERNS[k], result.url)
    requires forall j :: 0 <= j < k ==> !Test(e, JUNK_URL_PATTERNS[j], result.url)
    ensures JunkReason(e, result) == Some("junk_url:" + JUNK_URL_PATTERNS[k].source)
  {
    var f := FirstMatch(e, JUNK_URL_PATTERNS, result.url);
    assert f == Some(k);
  }

  /** With no junk URL pattern matching, the first junk title pattern that
      matches the title names the reason. */
  lemma JunkTitleNext(e: Engine, result: FirecrawlResult, k: nat)
    requires !AnyMatch(e, JUNK_URL_PATTERNS, result.url)
    requires k < |JUNK_TITLE_PATTERNS| && Test(e, JUNK_TITLE_PATTERNS[k], result.title)
    requires forall j :: 0 <= j < k ==> !Test(e, JUNK_TITLE_PATTERNS[j], result.title)
    ensures JunkReason(e, result) == Some("junk_title:" + JUNK_TITLE_PATTERNS[k].source)
  {
    var f := FirstMatch(e, JUNK_TITLE_PATTERNS, result.title);
    assert f == Some(k);
  }

  /** isJunkResult, as the two loops with early return the source runs. */
  method IsJunkResult(e: Engine, result: FirecrawlResult) returns (r: Option<string>)
    ensures r == JunkReason(e, result)
  {
    for k := 0 to |JUNK_URL_PATTERNS|
      invariant forall j :: 0 <= j < k ==> !Test(e, JUNK_URL_PATTERNS[j], result.url)
    {
      if Test(e, JUNK_URL_PATTERNS[k], result.url) {
        JunkUrlFirst(e, result, k);
        return Some("junk_url:" + JUNK_URL_PATTERNS[k].source);
      }
    }
    assert !AnyMatch(e, JUNK_URL_PATTERNS, result.url);
    for k := 0 to |JUNK_TITLE_PATTERNS|
      invariant forall j :: 0 <= j < k ==> !Test(e, JUNK_TITLE_PATTERNS[j], result.title)
    {
      if Test(e, JUNK_TITLE_PATTERNS[k], result.title) {
        JunkTitleNext(e, result, k);
        return Some("junk_title:" + JUNK_TITLE_PATTERNS[k].source);
      }
    }
    assert !AnyMatch(e, JUNK_TITLE_PATTERNS, result.title);
    return None;
  }

  // ---------------------------------------------------------------------------
  // extractCompany

  const AT_SYMBOL: Regex := Regex(@"@(.+?)(?:\s*[-|]|$)", "")
  const AT_WORD: Regex := Regex(@"\bat\s+(.+?)(?:\s*[-|•·]|$)", "i")
  const BOARD_WORDS: Regex := Regex("remote|job|career|hire|remotive|dribbble|weworkremotely", "i")
  const BOARD_WORDS_THIRD: Regex := Regex("remote|job|career|hire|remotive|dribbble", "i")
  const REMOTIVE_HOST: Regex := Regex(@"remotive\.com", "")
  const REMOTIVE_JOB_URL: Regex := Regex(@"remotive\.com\/remote(?:\/jobs)?\/[^/]+\/([^/]+?)(?:-\d+)?$", "")

  /** The characters the title is split on: "-", "|", "•" and "·". */
  predicate IsSeparator(c: char) {
    c == '-' || c == '|' || c == '•' || c == '·'
  }

  function CountSeparators(s: string): nat {
    if s == [] then 0 else (if IsSeparator(s[0]) then 1 else 0) + CountSeparators(s[1..])
  }

  /** The pieces of s between separator characters. Splitting on
      `\s*[-|•·]\s*` gives these pieces with the white space next to each
      separator removed, so every piece after the first, once trimmed, is
      the same either way. */
  function SplitOnSeparators(s: string): (parts: seq<string>)
    ensures |parts| == CountSeparators(s) + 1
    ensures forall k, i :: 0 <= k < |parts| && 0 <= i < |parts[k]| ==> !IsSeparator(parts[k][i])
  {
    if s == [] then [""]
    else
      var rest := SplitOnSeparators(s[1..]);
      if IsSeparator(s[0]) then [""] + rest
      else
        var first := [s[0]] + rest[0];
        assert forall i :: 1 <= i < |first| ==> first[i] == rest[0][i - 1];
        [first] + rest[1..]
  }

  /** A segment that can be a company name: non-empty, under 50 characters,
      and not matched by the given board-and-generic-words pattern. */
  predicate Plausible(e: Engine, candidate: string, words: Regex) {
    candidate != "" && |candidate| < 50 && !Test(e, words, candidate)
  }

  function CompanyFromAtSymbol(e: Engine, title: string): Option<string> {
    match e.exec(AT_SYMBOL, title)
    case Some(m) => Some(Trim(Group(m, 1)))
    case None => None
  }

  function CompanyFromAtWord(e: Engine, title: string): Option<string> {
    match e.exec(AT_WORD, title)
    case Some(m) => Some(Trim(Group(m, 1)))
    case None => None
  }

  /** The second delimited segment, or failing that the third. */
  function CompanyFromSegments(e: Engine, title: string): (r: Option<string>)
    ensures r.Some? ==> r.value != "" && |r.value| < 50 && IsTrimmed(r.value)
    ensures r.Some? ==> |SplitOnSeparators(title)| >= 2
  {
    var parts := SplitOnSeparators(title);
    if |parts| < 2 then None
    else
      var candidate := Trim(parts[1]);
      if Plausible(e, candidate, BOARD_WORDS) then Some(candidate)
      else if |parts| >= 3 && Plausible(e, Trim(parts[2]), BOARD_WORDS_THIRD) then Some(Trim(parts[2]))
      else None
  }

  predicate IsWordChar(c: char) {
    'a' <= c <= 'z' || 'A' <= c <= 'Z' || '0' <= c <= '9' || c == '_'
  }

  /** A word character at a word boundary: the first character, or one
      after a non-word character. */
  predicate StartsWord(s: string, i: nat)
    requires i < |s|
  {
    IsWordChar(s[i]) && (i == 0 || !IsWordChar(s[i - 1]))
  }

  function TitleChar(s: string, i: nat): char
    requires i < |s|
  {
    if StartsWord(s, i) then UpperChar(s[i]) else s[i]
  }

  /** `s.replace(/\b\w/g, (c) => c.toUpperCase())`: each word character that
      starts a word is upper-cased; only letter case changes. */
  function TitleCase(s: string): (r: string)
    ensures |r| == |s|
    ensures forall i :: 0 <= i < |s| ==> LowerChar(r[i]) == LowerChar(s[i])
    ensures forall i :: 0 <= i < |s| && StartsWord(s, i) ==> !('a' <= r[i] <= 'z')
    ensures forall i :: 0 <= i < |s| && !StartsWord(s, i) ==> r[i] == s[i]
  {
    seq(|s|, i requires 0 <= i < |s| => TitleChar(s, i))
  }

  function CompanyFromRemotiveUrl(e: Engine, url: string): Option<string> {
    if Test(e, REMOTIVE_HOST, url) then
      match e.exec(REMOTIVE_JOB_URL, url)
      case Some(m) => Some(TitleCase(ReplaceChar(Group(m, 1), '-', ' ')))
      case None => None
    else None
  }

  /** The company rules, in the order extractCompany tries them. */
  function CompanyRules(e: Engine, result: FirecrawlResult): seq<Option<string>> {
    [ CompanyFromAtSymbol(e, result.title),
      CompanyFromAtWord(e, result.title),
      CompanyFromSegments(e, result.title),
      CompanyFromRemotiveUrl(e, result.url) ]
  }

  /** extractCompany: the first rule that yields a name, else "Unknown". */
  function ExtractCompany(e: Engine, result: FirecrawlResult): string {
    match FirstSome(CompanyRules(e, result))
    case Some(c) => c
    case None => "Unknown"
  }

  /** The fallback order of extractCompany: a rule decides only when every
      earlier rule found nothing, and "Unknown" only when none found anything. */
  lemma CompanyPriority(e: Engine, result: FirecrawlResult, k: nat)
    requires k < 4 && CompanyRules(e, result)[k].Some?
    requires forall j :: 0 <= j < k ==> CompanyRules(e, result)[j].None?
    ensures ExtractCompany(e, result) == CompanyRules(e, result)[k].value
  {
    FirstSomeAt(CompanyRules(e, result), k);
  }

  lemma CompanyUnknown(e: Engine, result: FirecrawlResult)
    requires CompanyFromAtSymbol(e, result.title).None? && CompanyFromAtWord(e, result.title).None?
    requires CompanyFromSegments(e, result.title).None? && CompanyFromRemotiveUrl(e, result.url).None?
    ensures ExtractCompany(e, result) == "Unknown"
  {
    var rules := CompanyRules(e, result);
    assert forall j :: 0 <= j < 4 ==> rules[j].None?;
  }

  // ---------------------------------------------------------------------------
  // extractDate

  const CONTEXT_DATE_PATTERNS: seq<Regex> := [
    Regex(@"(?:posted|published|listed|date)\s*:?\s*(\d{4}-\d{2}-\d{2})", "i"),
    Regex(@"(?:posted|published|listed|date)\s*:?\s*(\d{1,2}\s+(?:jan|feb|mar|apr|may|jun|jul|aug|sep|oct|nov|dec)\w*(?:\s+\d{4})?)", "i"),
    Regex(@"(?:posted|published|listed)\s*:?\s*(\d+\s+(?:day|hour|week|month)s?\s+ago)", "i")
  ]

  const RELATIVE_MENTION: Regex := Regex(@"(\d+\s*(?:d|h|w|m|day|hour|week|month)s?\s+ago)", "i")

  /** How much of the page text the standalone relative phrase is looked for in. */
  const TOP_CONTENT_LENGTH: nat := 500

  /** The page text: markdown, else content, else description. */
  function PageText(result: FirecrawlResult): string {
    if result.markdown != "" then result.markdown
    else if result.content != "" then result.content
    else result.description
  }

  /** The date in the first capture group of a pattern, when it matches and parses. */
  function DateFromPattern(e: Engine, c: Clock, p: Regex, text: string): Option<Date> {
    match e.exec(p, text)
    case Some(m) => JobDate(e, c, Group(m, 1))
    case None => None
  }

  /** The date sources of extractDate, in priority order: the metadata date,
      the three context patterns, and a relative phrase in the first 500
      characters. */
  function DateSources(e: Engine, c: Clock, result: FirecrawlResult): (sources: seq<Option<Date>>)
    ensures |sources| == 5
  {
    var text := PageText(result);
    [ JobDate(e, c, result.metadataDate),
      DateFromPattern(e, c, CONTEXT_DATE_PATTERNS[0], text),
      DateFromPattern(e, c, CONTEXT_DATE_PATTERNS[1], text),
      DateFromPattern(e, c, CONTEXT_DATE_PATTERNS[2], text),
      DateFromPattern(e, c, RELATIVE_MENTION, Take(text, TOP_CONTENT_LENGTH)) ]
  }

  /** extractDate: the first source that yields a date; None when none does. */
  function ExtractDate(e: Engine, c: Clock, result: FirecrawlResult): (r: Option<Date>)
    ensures r.None? <==> forall k :: 0 <= k < 5 ==> DateSources(e, c, result)[k].None?
    ensures r.Some? ==> exists k :: 0 <= k < 5 && DateSources(e, c, result)[k] == r &&
                          forall j :: 0 <= j < k ==> DateSources(e, c, result)[j].None?
  {
    FirstSome(DateSources(e, c, result))
  }

  /** A metadata date that parses wins over anything in the page text. */
  lemma MetadataDateWins(e: Engine, c: Clock, result: FirecrawlResult)
    requires JobDate(e, c, result.metadataDate).Some?
    ensures ExtractDate(e, c, result) == JobDate(e, c, result.metadataDate)
  {
    FirstSomeAt(DateSources(e, c, result), 0);
  }

  /** With no metadata date and no context pattern matching, the date is the
      standalone relative phrase, looked for in the first 500 characters only. */
  lemma TopContentFallback(e: Engine, c: Clock, result: FirecrawlResult)
    requires result.metadataDate == ""
    requires forall k :: 0 <= k < |CONTEXT_DATE_PATTERNS| ==>
               DateFromPattern(e, c, CONTEXT_DATE_PATTERNS[k], PageText(result)).None?
    ensures ExtractDate(e, c, result) == DateFromPattern(e, c, RELATIVE_MENTION, Take(PageText(result), TOP_CONTENT_LENGTH))
  {
    var sources := DateSources(e, c, result);
    assert sources[0].None? && sources[1].None? && sources[2].None? && sources[3].None?;
    if sources[4].Some? {
      FirstSomeAt(sources, 4);
    }
  }

  // ---------------------------------------------------------------------------
  // extractSalary

  const SALARY_RANGE: Regex :=
    Regex(@"\$[\d,]+(?:k)?\s*[-–]\s*\$[\d,]+(?:k)?(?:\s*(?:\/yr|\/year|\/hour|per year|per hour|annually))?", "i")
  const SALARY_QUALIFIED: Regex :=
    Regex(@"\$[\d,]+(?:k)?\s*(?:\/yr|\/year|\/hour|per year|per hour|annually)", "i")

  /** The text searched for a salary: the first 2000 characters of the
      markdown (or content), the description and the title, space-separated. */
  function SalaryText(result: FirecrawlResult): string {
    var body := if result.markdown != "" then result.markdown else result.content;
    Take(body, 2000) + " " + result.description + " " + result.title
  }

  function WholeMatch(e: Engine, p: Regex, text: string): Option<string> {
    match e.exec(p, text)
    case Some(m) => Some(Group(m, 0))
    case None => None
  }

  /** extractSalary: the text of a salary range if there is one, else of an
      amount with a rate, else None. */
  function ExtractSalary(e: Engine, result: FirecrawlResult): (r: Option<string>)
    ensures e.exec(SALARY_RANGE, SalaryText(result)).Some? ==>
              r == Some(Group(e.exec(SALARY_RANGE, SalaryText(result)).value, 0))
    ensures r.None? <==> !Test(e, SALARY_RANGE, SalaryText(result)) && !Test(e, SALARY_QUALIFIED, SalaryText(result))
  {
    var text := SalaryText(result);
    var alternatives := [WholeMatch(e, SALARY_RANGE, text), WholeMatch(e, SALARY_QUALIFIED, text)];
    assert alternatives[0].None? <==> !Test(e, SALARY_RANGE, text);
    assert alternatives[1].None? <==> !Test(e, SALARY_QUALIFIED, text);
    FirstSome(alternatives)
  }

  // ---------------------------------------------------------------------------
  // normaliseResult

  /** What normaliseResult decides for one result. */
  datatype Outcome = Kept(job: JobListing) | Dropped(reason: string)

  /** The listing built for an accepted result, posted on the given day. */
  function Listing(e: Engine, result: FirecrawlResult, boardName: string, layer: Layer, day: int): JobListing {
    JobListing(
      id := UrlId(result.url),
      title := CleanTitle(if result.title != "" then result.title else "Untitled"),
      company := ExtractCompany(e, result),
      location := "Remote",
      salary := ExtractSalary(e, result),
      datePosted := day,
      sourceBoard := boardName,
      sourceUrl := result.url,
      description := result.description,
      isRemote := true,
      remoteScope := UnknownScope,
      allowedCountries := [],
      layer := layer)
  }

  /** The fields every accepted listing shares, whatever its tier. */
  predicate WellFormedListing(job: JobListing, result: FirecrawlResult, boardName: string, layer: Layer) {
    && job.id == UrlId(result.url)
    && job.sourceUrl == result.url != ""
    && job.sourceBoard == boardName
    && job.layer == layer
    && job.location == "Remote"
    && job.isRemote
    && job.remoteScope == UnknownScope
    && job.allowedCountries == []
    && IsTrimmed(job.title)
  }

  /** normaliseResult: the rejections in order (no URL, junk, irrelevant
      title), then the tier rule for the date. */
  function NormaliseResult(e: Engine, c: Clock, result: FirecrawlResult, boardName: string, layer: Layer): (o: Outcome)
    ensures result.url == "" ==> o == Dropped("no_url")
    ensures result.url != "" && JunkReason(e, result).Some? ==> o == Dropped(JunkReason(e, result).value)
    ensures result.url != "" && JunkReason(e, result).None? && !IsTitleRelevant(e, result) ==>
              o == Dropped("title_irrelevant")
    ensures o.Kept? ==> WellFormedListing(o.job, result, boardName, layer)
  {
    if result.url == "" then Dropped("no_url")
    else match JunkReason(e, result)
      case Some(reason) => Dropped(reason)
      case None =>
        if !IsTitleRelevant(e, result) then Dropped("title_irrelevant")
        else
          var date := ExtractDate(e, c, result);
          match layer
          case Curated =>
            (match date
             case None => Kept(Listing(e, result, boardName, layer, DayOf(c.now)))
             case Some(d) =>
               if !WithinRecencyWindow(d, c.now) then Dropped("too_old")
               else Kept(Listing(e, result, boardName, layer, DayOf(d.ms))))
          case Discovery =>
            (match date
             case None => Dropped("no_date")
             case Some(d) =>
               if !WithinRecencyWindow(d, c.now) then Dropped("too_old")
               else Kept(Listing(e, result, boardName, layer, DayOf(d.ms))))
  }

  /** The trust-tier rule for a result that passed the filters. Curated: no
      date means posted today, an old date means "too_old". Discovery: no date
      means "no_date" (never today), an old date "too_old". A kept listing's
      date is the extracted one, within the recency window. */
  lemma TierRules(e: Engine, c: Clock, result: FirecrawlResult, boardName: string, layer: Layer)
    requires result.url != "" && JunkReason(e, result).None? && IsTitleRelevant(e, result)
    ensures var o := NormaliseResult(e, c, result, boardName, layer);
      && (layer == Curated && ExtractDate(e, c, result).None? ==> o.Kept? && o.job.datePosted == DayOf(c.now))
      && (layer == Discovery && ExtractDate(e, c, result).None? ==> o == Dropped("no_date"))
      && (ExtractDate(e, c, result).Some? ==>
            var d := ExtractDate(e, c, result).value;
            && (o == Dropped("too_old") <==> !WithinRecencyWindow(d, c.now))
            && (o.Kept? <==> WithinRecencyWindow(d, c.now))
            && (o.Kept? ==> d.At? && o.job.datePosted == DayOf(d.ms)))
      && (o.Dropped? ==> o.reason == "too_old" || o.reason == "no_date")
      && (o == Dropped("no_date") ==> layer == Discovery)
  {
  }

  /** A junk reason names its kind: "junk_url:" or "junk_title:", then the pattern. */
  lemma JunkReasonNamed(e: Engine, result: FirecrawlResult)
    ensures JunkReason(e, result).Some? ==>
              StartsWith(JunkReason(e, result).value, "junk_url:") ||
              StartsWith(JunkReason(e, result).value, "junk_title:")
  {
    match FirstMatch(e, JUNK_URL_PATTERNS, result.url)
    case Some(k) =>
      var reason := "junk_url:" + JUNK_URL_PATTERNS[k].source;
      assert reason[..9] == "junk_url:";
    case None =>
      match FirstMatch(e, JUNK_TITLE_PATTERNS, result.title)
      case Some(k) =>
        var reason := "junk_title:" + JUNK_TITLE_PATTERNS[k].source;
        assert reason[..11] == "junk_title:";
      case None =>
  }

  /** Every drop carries one of the known reason codes, never an empty one. */
  lemma DropReasonsKnown(e: Engine, c: Clock, result: FirecrawlResult, boardName: string, layer: Layer)
    ensures var o := NormaliseResult(e, c, result, boardName, layer);
      o.Dropped? ==>
        o.reason in {"no_url", "title_irrelevant", "too_old", "no_date"} ||
        StartsWith(o.reason, "junk_url:") || StartsWith(o.reason, "junk_title:")
  {
    if result.url != "" {
      if JunkReason(e, result).Some? {
        JunkReasonNamed(e, result);
      } else if IsTitleRelevant(e, result) {
        TierRules(e, c, result, boardName, layer);
      }
    }
  }

  // ---------------------------------------------------------------------------
  // normaliseResults

  /** The reason recorded for a drop: its code, or "unknown" for an empty one. */
  function RecordedReason(o: Outcome): string
    requires o.Dropped?
  {
    if o.reason != "" then o.reason else "unknown"
  }

  /** The outcome of each result of a batch. */
  function Outcomes(e: Engine, c: Clock, results: seq<FirecrawlResult>, boardName: string, layer: Layer): seq<Outcome> {
    seq(|results|, i requires 0 <= i < |results| => NormaliseResult(e, c, results[i], boardName, layer))
  }

  /** The listings of the kept outcomes, in order. */
  function KeptOf(os: seq<Outcome>): seq<JobListing> {
    if os == [] then []
    else KeptOf(os[..|os| - 1]) + (if os[|os| - 1].Kept? then [os[|os| - 1].job] else [])
  }

  /** The recorded reasons of the dropped outcomes, in order. */
  function ReasonsOf(os: seq<Outcome>): seq<string> {
    if os == [] then []
    else ReasonsOf(os[..|os| - 1]) + (if os[|os| - 1].Dropped? then [RecordedReason(os[|os| - 1])] else [])
  }

  /** The accepted listings of a batch, in input order. */
  function KeptJobs(e: Engine, c: Clock, results: seq<FirecrawlResult>, boardName: string, layer: Layer): seq<JobListing> {
    KeptOf(Outcomes(e, c, results, boardName, layer))
  }

  /** The recorded reasons of a batch's drops, in input order. */
  function DropReasons(e: Engine, c: Clock, results: seq<FirecrawlResult>, boardName: string, layer: Layer): seq<string> {
    ReasonsOf(Outcomes(e, c, results, boardName, layer))
  }

  /** One more outcome extends the kept listings or the drop reasons. */
  lemma OutcomeStep(os: seq<Outcome>, i: nat)
    requires i < |os|
    ensures KeptOf(os[..i + 1]) == KeptOf(os[..i]) + (if os[i].Kept? then [os[i].job] else [])
    ensures ReasonsOf(os[..i + 1]) == ReasonsOf(os[..i]) + (if os[i].Dropped? then [RecordedReason(os[i])] else [])
  {
    assert os[..i + 1][..i] == os[..i];
  }

  /** The loop step of normaliseResults: a kept outcome appends its listing,
      a dropped one bumps its recorded reason. */
  lemma BatchStep(os: seq<Outcome>, i: nat, jobs: seq<JobListing>, tally: Tally)
    requires i < |os|
    requires jobs == KeptOf(os[..i]) && tally == TallyOf(ReasonsOf(os[..i]))
    ensures os[i].Kept? ==> jobs + [os[i].job] == KeptOf(os[..i + 1]) && tally == TallyOf(ReasonsOf(os[..i + 1]))
    ensures os[i].Dropped? ==>
              jobs == KeptOf(os[..i + 1]) &&
              Bump(tally, if os[i].reason != "" then os[i].reason else "unknown") == TallyOf(ReasonsOf(os[..i + 1]))
  {
    OutcomeStep(os, i);
    if os[i].Dropped? {
      TallyAppend(ReasonsOf(os[..i]), RecordedReason(os[i]));
    } else {
      assert ReasonsOf(os[..i + 1]) == ReasonsOf(os[..i]);
    }
  }

  /** Every outcome is either kept or dropped. */
  lemma {:induction false} KeptPlusDropped(os: seq<Outcome>)
    ensures |KeptOf(os)| + |ReasonsOf(os)| == |os|
  {
    if os != [] {
      KeptPlusDropped(os[..|os| - 1]);
    }
  }

  /** The reason counts as `dropReasons` holds them: (reason, count) pairs in
      the order each reason first occurred. */
  type Tally = seq<(string, int)>

  /** `tally[reason] = (tally[reason] || 0) + 1`. */
  function Bump(tally: Tally, reason: string): Tally {
    if tally == [] then [(reason, 1)]
    else if tally[0].0 == reason then [(reason, tally[0].1 + 1)] + tally[1..]
    else [tally[0]] + Bump(tally[1..], reason)
  }

  /** The tally of a list of reasons, counted from the left. */
  function TallyOf(reasons: seq<string>): Tally {
    if reasons == [] then [] else Bump(TallyOf(reasons[..|reasons| - 1]), reasons[|reasons| - 1])
  }

  /** The reasons of a tally, in its order. */
  function Keys(tally: Tally): seq<string> {
    if tally == [] then [] else [tally[0].0] + Keys(tally[1..])
  }

  function Total(tally: Tally): int {
    if tally == [] then 0 else tally[0].1 + Total(tally[1..])
  }

  /** The count a tally holds for a reason (0 when it has no entry). */
  function CountIn(tally: Tally, reason: string): int {
    if tally == [] then 0 else (if tally[0].0 == reason then tally[0].1 else 0) + CountIn(tally[1..], reason)
  }

  function Count(reasons: seq<string>, reason: string): nat {
    if reasons == [] then 0
    else Count(reasons[..|reasons| - 1], reason) + (if reasons[|reasons| - 1] == reason then 1 else 0)
  }

  predicate Distinct(keys: seq<string>) {
    forall i, j :: 0 <= i < j < |keys| ==> keys[i] != keys[j]
  }

  /** A reason seen before keeps its place; a new one goes at the end. */
  lemma {:induction false} BumpKeys(tally: Tally, reason: string)
    ensures Keys(Bump(tally, reason)) == if reason in Keys(tally) then Keys(tally) else Keys(tally) + [reason]
  {
    if tally != [] && tally[0].0 != reason {
      BumpKeys(tally[1..], reason);
      assert reason in Keys(tally) <==> reason in Keys(tally[1..]);
    }
  }

  lemma {:induction false} BumpCounts(tally: Tally, reason: string, k: string)
    ensures Total(Bump(tally, reason)) == Total(tally) + 1
    ensures CountIn(Bump(tally, reason), k) == CountIn(tally, k) + (if k == reason then 1 else 0)
  {
    if tally != [] && tally[0].0 != reason {
      BumpCounts(tally[1..], reason, k);
    } else if tally != [] {
      assert Bump(tally, reason)[1..] == tally[1..];
    }
  }

  /** The tally counts every reason: the counts add up to the number of
      drops, each reason's count is how often it occurred, every reason that
      occurred has exactly one entry, and entries are in order of first
      occurrence. */
  lemma {:induction false} TallyCounts(reasons: seq<string>)
    ensures Total(TallyOf(reasons)) == |reasons|
    ensures forall k :: CountIn(TallyOf(reasons), k) == Count(reasons, k)
    ensures Distinct(Keys(TallyOf(reasons)))
    ensures forall k :: k in Keys(TallyOf(reasons)) <==> k in reasons
  {
    if reasons != [] {
      var init, last := reasons[..|reasons| - 1], reasons[|reasons| - 1];
      TallyCounts(init);
      forall k ensures CountIn(TallyOf(reasons), k) == Count(reasons, k) {
        BumpCounts(TallyOf(init), last, k);
      }
      BumpCounts(TallyOf(init), last, last);
      BumpKeys(TallyOf(init), last);
      assert forall k :: k in reasons <==> k in init || k == last by {
        assert reasons == init + [last];
      }
    }
  }

  lemma TallyAppend(reasons: seq<string>, r: string)
    ensures TallyOf(reasons + [r]) == Bump(TallyOf(reasons), r)
  {
    assert (reasons + [r])[..|reasons|] == reasons;
  }

  /** A reason's first drop appends it to the tally; later drops only count. */
  lemma TallyOrder(reasons: seq<string>, r: string)
    ensures Keys(TallyOf(reasons + [r])) == if r in reasons then Keys(TallyOf(reasons)) else Keys(TallyOf(reasons)) + [r]
  {
    TallyAppend(reasons, r);
    TallyCounts(reasons);
    BumpKeys(TallyOf(reasons), r);
  }

  /** The drop log's count equals the sum of its reason counts: the number of
      results minus the number of listings kept. */
  lemma DroppedCountMatchesReasons(e: Engine, c: Clock, results: seq<FirecrawlResult>, boardName: string, layer: Layer)
    ensures Total(TallyOf(DropReasons(e, c, results, boardName, layer))) ==
            |results| - |KeptJobs(e, c, results, boardName, layer)|
  {
    KeptPlusDropped(Outcomes(e, c, results, boardName, layer));
    TallyCounts(DropReasons(e, c, results, boardName, layer));
  }

  /** The log entry written for a batch with drops. */
  function DropLog(boardName: string, dropped: int, tally: Tally): PipelineLog {
    PipelineLog("normalise_drops", boardName, "", None, None, Some(dropped), Some(tally), "", None)
  }

  /** The loop of normaliseResults over the outcomes, in order: a kept
      outcome's listing is appended, a dropped one bumps its reason's count. */
  method CollectOutcomes(os: seq<Outcome>) returns (jobs: seq<JobListing>, dropReasons: Tally)
    ensures jobs == KeptOf(os)
    ensures dropReasons == TallyOf(ReasonsOf(os))
  {
    jobs := [];
    dropReasons := [];
    for i := 0 to |os|
      invariant jobs == KeptOf(os[..i])
      invariant dropReasons == TallyOf(ReasonsOf(os[..i]))
    {
      var o := os[i];
      BatchStep(os, i, jobs, dropReasons);
      if o.Kept? {
        jobs := jobs + [o.job];
      } else {
        var reason := if o.reason != "" then o.reason else "unknown";
        dropReasons := Bump(dropReasons, reason);
      }
    }
    assert os[..|os|] == os;
  }

  /** normaliseResults: normalises each result in order, keeps the accepted
      listings, counts the drop reasons, and logs the counts when there are
      any and a logger is given. */
  method NormaliseResults(e: Engine, c: Clock, results: seq<FirecrawlResult>, boardName: string, layer: Layer,
                          logger: PipelineLogger?)
    returns (jobs: seq<JobListing>)
    modifies logger
    ensures jobs == KeptJobs(e, c, results, boardName, layer)
    ensures logger != null ==>
      var reasons := DropReasons(e, c, results, boardName, layer);
      logger.logs == old(logger.logs) +
        (if reasons == [] then [] else [DropLog(boardName, |results| - |jobs|, TallyOf(reasons))])
  {
    var os := Outcomes(e, c, results, boardName, layer);
    var dropReasons;
    jobs, dropReasons := CollectOutcomes(os);
    assert dropReasons == [] <==> ReasonsOf(os) == [];
    if logger != null && dropReasons != [] {
      logger.Log(DropLog(boardName, |results| - |jobs|, dropReasons));
    }
  }
}
