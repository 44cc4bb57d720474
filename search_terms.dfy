/**
 * `_generate_adzuna_search_terms` of backend/app/services/recommendation_service.py:
 * progressively simplified job titles, from the title and then the title
 * hint, with case-insensitive repeats dropped.  The sets the source builds
 * are kept here as duplicate-free sequences in insertion order.
 */
module SearchTerms {
  import opened Wrappers
  import opened Text
  import opened CaseInsensitive

  /** Words left out of a candidate of two or more words. */
  predicate IsStopWord(w: string) {
    w in {"and", "of", "for", "with", "the", "to", "a", "an"}
  }

  /** Tokens dropped from the compact variant. */
  predicate IsFiller(w: string) {
    w in {"job", "jobs", "worker", "workers"}
  }

  /** Plural and noun forms rewritten to a job-title singular. */
  const Rewrites: map<string, string> := map[
    "analysts" := "analyst", "analysis" := "analyst", "analytics" := "analyst",
    "specialists" := "specialist", "managers" := "manager", "assistants" := "assistant",
    "coordinators" := "coordinator", "engineers" := "engineer", "technicians" := "technician",
    "scientists" := "scientist", "developers" := "developer", "consultants" := "consultant",
    "advisors" := "advisor", "practitioners" := "practitioner", "directors" := "director",
    "supervisors" := "supervisor", "strategists" := "strategist", "executives" := "executive",
    "leaders" := "leader", "analyses" := "analyst"]

  /** `_clean`: white-space runs become one space, then the ends are stripped. */
  function Clean(s: string): string {
    Strip(Collapse(s))
  }

  /** `[A-Za-z0-9+/]` */
  predicate IsTokenChar(c: char) {
    'A' <= c <= 'Z' || 'a' <= c <= 'z' || IsDigit(c) || c == '+' || c == '/'
  }

  /** `re.sub(r"[^A-Za-z0-9+/]", "", token)` */
  function Core(s: string): (r: string)
    ensures |r| <= |s|
    ensures forall i :: 0 <= i < |r| ==> IsTokenChar(r[i])
  {
    if s == [] then [] else (if IsTokenChar(s[0]) then [s[0]] else []) + Core(s[1..])
  }

  predicate IsUpper(c: char) { 'A' <= c <= 'Z' }

  /** `str.title()` of a one-word lower-case replacement. */
  function TitleWord(s: string): (r: string)
    ensures |r| == |s|
  {
    if s == [] then [] else [UpperChar(s[0])] + s[1..]
  }

  predicate EndsWith(s: string, suffix: string) {
    |suffix| <= |s| && s[|s| - |suffix|..] == suffix
  }

  /** `_normalize_token` */
  function NormalizeToken(token: string): (r: string)
    ensures r == [] <==> Core(token) == []
  {
    var core := Core(token);
    if core == [] then ""
    else
      var lower := Lower(core);
      LowerEach(core);
      if lower in Rewrites then
        var rep := Rewrites[lower];
        assert rep != [];
        if IsUpper(core[0]) then TitleWord(rep) else rep
      else if EndsWith(lower, "ies") && |core| > 3 then
        core[..|core| - 3] + (if IsUpper(core[0]) then "Y" else "y")
      else if EndsWith(lower, "s") && |core| > 4 then
        core[..|core| - 1]
      else core
  }

  /** The words kept by `_token_variations`: stop words go only when there are two or more words. */
  function KeptWords(words: seq<string>, many: bool): (r: seq<string>)
    ensures |r| <= |words|
  {
    if words == [] then []
    else if IsStopWord(Lower(words[0])) && many then KeptWords(words[1..], many)
    else [words[0]] + KeptWords(words[1..], many)
  }

  /** The non-empty normalised tokens of some words. */
  function Tokens(words: seq<string>): (r: seq<string>)
    ensures forall i :: 0 <= i < |r| ==> r[i] != []
  {
    if words == [] then []
    else
      var t := NormalizeToken(words[0]);
      (if t == [] then [] else [t]) + Tokens(words[1..])
  }

  function WithoutFiller(tokens: seq<string>): (r: seq<string>)
    ensures |r| <= |tokens|
  {
    if tokens == [] then []
    else (if IsFiller(Lower(tokens[0])) then [] else [tokens[0]]) + WithoutFiller(tokens[1..])
  }

  /** `set.add`, keeping first-insertion order. */
  function AddNew(xs: seq<string>, x: string): (r: seq<string>)
    ensures forall y :: y in r <==> y in xs || y == x
    ensures xs != [] ==> r != [] && r[0] == xs[0]
  {
    if x in xs then xs else xs + [x]
  }

  /** Set-add only a non-empty string (`if x: s.add(x)`). */
  function AddIf(xs: seq<string>, x: string): (r: seq<string>)
    ensures forall y :: y in r <==> y in xs || (y == x && x != [])
    ensures xs != [] ==> r != [] && r[0] == xs[0]
  {
    if x == [] then xs else AddNew(xs, x)
  }

  /** `variants.add(_clean(f"{tokens[0]} {token}"))` for every later token. */
  function PairsWithFirst(acc: seq<string>, first: string, rest: seq<string>): seq<string>
    decreases |rest|
  {
    if rest == [] then acc
    else PairsWithFirst(AddNew(acc, Clean(first + " " + rest[0])), first, rest[1..])
  }

  /** Everything but the empty strings, as the closing comprehension does. */
  function NonEmpty(xs: seq<string>): (r: seq<string>)
    ensures forall y :: y in r <==> y in xs && y != []
  {
    if xs == [] then [] else (if xs[0] == [] then [] else [xs[0]]) + NonEmpty(xs[1..])
  }

  /** The full token string, and the one without filler words when that differs. */
  function BaseVariants(normalized: seq<string>, trimmed: seq<string>): seq<string> {
    var v0 := AddIf([], Clean(Join(normalized, " ")));
    if trimmed != [] && trimmed != normalized then AddIf(v0, Clean(Join(trimmed, " "))) else v0
  }

  /** First two, last two, first with last, and first with each later token. */
  function PairVariants(v: seq<string>, tokens: seq<string>): seq<string>
    requires |tokens| >= 2
  {
    var a := AddNew(v, Clean(Join(tokens[..2], " ")));
    var b := AddNew(a, Clean(Join(tokens[|tokens| - 2..], " ")));
    var c := AddNew(b, Clean(tokens[0] + " " + tokens[|tokens| - 1]));
    PairsWithFirst(c, tokens[0], tokens[1..])
  }

  /** First three and last three. */
  function TripleVariants(v: seq<string>, tokens: seq<string>): seq<string>
    requires |tokens| >= 3
  {
    AddNew(AddNew(v, Clean(Join(tokens[..3], " "))), Clean(Join(tokens[|tokens| - 3..], " ")))
  }

  /** The normalised tokens `_token_variations` works from. */
  function NormalizedTokens(raw: string): seq<string> {
    var words := Words(raw);
    Tokens(KeptWords(words, |words| > 1))
  }

  /** `_token_variations(raw)` */
  function TokenVariations(raw: string): (r: seq<string>)
    ensures forall y :: y in r ==> y != []
  {
    var normalized := NormalizedTokens(raw);
    if normalized == [] then []
    else
      var trimmed := WithoutFiller(normalized);
      var tokens := if trimmed != [] then trimmed else normalized;
      var v1 := BaseVariants(normalized, trimmed);
      var v2 := if |tokens| >= 2 then PairVariants(v1, tokens) else v1;
      var v3 := if |tokens| >= 3 then TripleVariants(v2, tokens) else v2;
      NonEmpty(v3)
  }

  /** Everything after the first `)` of `s`. */
  function AfterClose(s: string): (r: string)
    requires ')' in s
    ensures |r| < |s|
  {
    if s[0] == ')' then s[1..] else AfterClose(s[1..])
  }

  /** `re.sub(r"\([^)]*\)", "", s)`: every `(` with a later `)` is cut through that `)`. */
  function RemoveParens(s: string): (r: string)
    ensures |r| <= |s|
    decreases |s|
  {
    if s == [] then []
    else if s[0] == '(' && ')' in s[1..] then RemoveParens(AfterClose(s[1..]))
    else [s[0]] + RemoveParens(s[1..])
  }

  /** The separators `_variants` cuts at: comma, hyphen, en dash, em dash, colon, slash, bar. */
  const Separators: seq<char> := [',', '-', '–', '—', ':', '/', '|']

  /** Head and tail around each separator the text contains. */
  function SeparatorPieces(acc: seq<string>, cleaned: string, seps: seq<char>): (r: seq<string>)
    ensures acc != [] ==> r != [] && r[0] == acc[0]
    decreases |seps|
  {
    if seps == [] then acc
    else if seps[0] in cleaned then
      var parts := Split(cleaned, seps[0]);
      var head := Strip(parts[0]);
      var tail := Strip(parts[|parts| - 1]);
      SeparatorPieces(AddIf(AddIf(acc, head), tail), cleaned, seps[1..])
    else SeparatorPieces(acc, cleaned, seps[1..])
  }

  /** The first four, three and two words, for texts longer than that. */
  function WordPrefixes(p: seq<string>, words: seq<string>): (r: seq<string>)
    ensures p != [] ==> r != [] && r[0] == p[0]
  {
    var p2 := if |words| > 4 then AddNew(p, Join(words[..4], " ")) else p;
    var p3 := if |words| > 3 then AddNew(p2, Join(words[..3], " ")) else p2;
    if |words| > 2 then AddNew(p3, Join(words[..2], " ")) else p3
  }

  /** `_variants(raw)`: the cleaned text first, then shorter pieces of it. */
  function Variants(raw: string): (r: seq<string>)
    ensures r == [] <==> Clean(raw) == []
    ensures r != [] ==> r[0] == Clean(raw)
  {
    var cleaned := Clean(raw);
    if cleaned == [] then []
    else
      var p0 := AddIf([cleaned], Strip(RemoveParens(cleaned)));
      WordPrefixes(SeparatorPieces(p0, cleaned, Separators), Words(cleaned))
  }

  /** The search options of one candidate list, in iteration order. */
  function OptionsOf(candidates: seq<string>): (r: seq<string>) {
    if candidates == [] then [] else TokenVariations(candidates[0]) + OptionsOf(candidates[1..])
  }

  /** The options from one source; `None` and "" give none. */
  function SourceOptions(source: Option<string>): seq<string> {
    match source
    case None => []
    case Some(s) => if s == [] then [] else OptionsOf(Variants(s))
  }

  /** `_generate_adzuna_search_terms(title, title_hint)` */
  method GenerateSearchTerms(title: Option<string>, hint: Option<string>) returns (terms: seq<string>)
    ensures terms == Dedupe({}, SourceOptions(title) + SourceOptions(hint))
  {
    terms := Collect(SourceOptions(title) + SourceOptions(hint));
  }

  /** Title-derived terms come first; hint-derived terms follow, minus what the title already gave. */
  lemma TitleTermsFirst(title: Option<string>, hint: Option<string>)
    ensures Dedupe({}, SourceOptions(title) + SourceOptions(hint))
      == Dedupe({}, SourceOptions(title)) + Dedupe(KeySet(SourceOptions(title)), SourceOptions(hint))
  {
    DedupeAppend({}, SourceOptions(title), SourceOptions(hint));
    assert {} + KeySet(SourceOptions(title)) == KeySet(SourceOptions(title));
  }

  /** The generated terms never repeat ignoring case, and each is one of the options. */
  lemma SearchTermsDistinct(title: Option<string>, hint: Option<string>)
    ensures var terms := Dedupe({}, SourceOptions(title) + SourceOptions(hint));
      && Distinct(Keys(terms))
      && forall t :: t in terms ==> t in SourceOptions(title) + SourceOptions(hint)
  {
    DedupeDistinct({}, SourceOptions(title) + SourceOptions(hint));
    DedupeCovers({}, SourceOptions(title) + SourceOptions(hint));
  }

  /** A one-word candidate keeps its word, stop word or not. */
  lemma {:induction false} OneWordKept(words: seq<string>)
    requires |words| == 1
    ensures KeptWords(words, |words| > 1) == words
  {
    assert words[1..] == [];
  }

  /** With two or more words, no kept word is a stop word, and every other word is kept in order. */
  lemma {:induction false} StopWordsDropped(words: seq<string>)
    ensures forall w :: w in KeptWords(words, true) ==> !IsStopWord(Lower(w))
    ensures forall w :: w in words && !IsStopWord(Lower(w)) ==> w in KeptWords(words, true)
    decreases |words|
  {
    if words != [] {
      StopWordsDropped(words[1..]);
    }
  }
}
