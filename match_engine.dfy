/**
 * The match engine of `FileProcessor.SearchContent`: keyword presence tests
 * and regular-expression occurrences over one extracted text, the groups
 * selected by the search mode.
 */
module MatchEngine {
  import opened Strings

  /** One entry of the result list: the matched text and the source of what found it. */
  datatype MatchRecord = MatchRecord(value: string, source: string)

  /** A configured (pattern, description) pair. */
  datatype RegexRule = RegexRule(pattern: string, description: string)

  /**
   * The .NET regular-expression engine, outside this model: whether a pattern
   * compiles (with `RegexOptions.IgnoreCase`), and the values of its
   * successive matches in a text, left to right.
   */
  datatype RegexEngine = RegexEngine(compiles: string -> bool, matches: (string, string) -> seq<string>)

  /** `new Regex(pattern, ...)` threw for this pattern. */
  datatype SearchError = InvalidPattern(pattern: string)

  datatype Result<+T> = Success(value: T) | Failure(error: SearchError)

  const KeywordSource: string := "Keyword"

  function RegexSource(description: string): string {
    "Regex (" + description + ")"
  }

  /** The mode names the keyword group ("keywords" or "both", ignoring case). */
  predicate RunsKeywords(mode: string) {
    EqualsIgnoreCase(mode, "keywords") || EqualsIgnoreCase(mode, "both")
  }

  /** The mode names the regex group ("regex" or "both", ignoring case). */
  predicate RunsRegex(mode: string) {
    EqualsIgnoreCase(mode, "regex") || EqualsIgnoreCase(mode, "both")
  }

  // ---------------------------------------------------------------------
  // Specification
  // ---------------------------------------------------------------------

  /** The keyword group: one record per listed keyword the content contains, in list order. */
  function KeywordMatches(content: string, keywords: seq<string>): seq<MatchRecord> {
    if keywords == [] then []
    else
      var n := |keywords| - 1;
      KeywordMatches(content, keywords[..n])
        + (if ContainsIgnoreCase(content, keywords[n]) then [MatchRecord(keywords[n], KeywordSource)] else [])
  }

  /** How many entries of `keywords` the content contains. */
  function CountContained(content: string, keywords: seq<string>): nat {
    if keywords == [] then 0
    else
      var n := |keywords| - 1;
      CountContained(content, keywords[..n]) + (if ContainsIgnoreCase(content, keywords[n]) then 1 else 0)
  }

  /** Each found value, in order, paired with one source. */
  function Labelled(found: seq<string>, source: string): (r: seq<MatchRecord>)
    ensures |r| == |found|
    ensures forall i :: 0 <= i < |found| ==> r[i] == MatchRecord(found[i], source)
  {
    if found == [] then []
    else Labelled(found[..|found| - 1], source) + [MatchRecord(found[|found| - 1], source)]
  }

  /** The records of one rule: every match of its pattern, labelled with its description. */
  function RuleMatches(content: string, rule: RegexRule, engine: RegexEngine): seq<MatchRecord> {
    Labelled(engine.matches(rule.pattern, content), RegexSource(rule.description))
  }

  /** The regex group: the records of every rule, rule after rule. */
  function RegexMatches(content: string, rules: seq<RegexRule>, engine: RegexEngine): seq<MatchRecord> {
    if rules == [] then []
    else
      var n := |rules| - 1;
      RegexMatches(content, rules[..n], engine) + RuleMatches(content, rules[n], engine)
  }

  /** The number of matches, summed over the rules. */
  function TotalMatches(content: string, rules: seq<RegexRule>, engine: RegexEngine): nat {
    if rules == [] then 0
    else
      var n := |rules| - 1;
      TotalMatches(content, rules[..n], engine) + |engine.matches(rules[n].pattern, content)|
  }

  /** The index of the first rule whose pattern does not compile, or |rules| when all compile. */
  function FirstInvalid(rules: seq<RegexRule>, engine: RegexEngine): (i: nat)
    ensures i <= |rules|
    ensures forall q :: 0 <= q < i ==> engine.compiles(rules[q].pattern)
    ensures i < |rules| ==> !engine.compiles(rules[i].pattern)
  {
    if rules == [] || !engine.compiles(rules[0].pattern) then 0
    else
      var i := 1 + FirstInvalid(rules[1..], engine);
      assert forall q :: 1 <= q < |rules| ==> rules[q] == rules[1..][q - 1];
      i
  }

  /**
   * What `SearchContent` returns: the keyword group, then the regex group,
   * each only when the mode names it; it throws (Failure) when the regex
   * group runs and some pattern does not compile.
   */
  function Search(content: string, rules: seq<RegexRule>, keywords: seq<string>, mode: string,
                  engine: RegexEngine): (r: Result<seq<MatchRecord>>)
    ensures r.Failure? <==>
              RunsRegex(mode) && exists j :: 0 <= j < |rules| && !engine.compiles(rules[j].pattern)
    ensures r.Success? ==>
              |r.value| == (if RunsKeywords(mode) then CountContained(content, keywords) else 0)
                           + (if RunsRegex(mode) then TotalMatches(content, rules, engine) else 0)
  {
    var bad := FirstInvalid(rules, engine);
    if RunsRegex(mode) && bad < |rules| then Failure(InvalidPattern(rules[bad].pattern))
    else
      var kw := if RunsKeywords(mode) then KeywordMatches(content, keywords) else [];
      var rx := if RunsRegex(mode) then RegexMatches(content, rules, engine) else [];
      KeywordCount(content, keywords);
      RegexCount(content, rules, engine);
      Success(kw + rx)
  }

  // ---------------------------------------------------------------------
  // The imperative search
  // ---------------------------------------------------------------------

  /** `FileProcessor.SearchContent`: fills the result list rule by rule, match by match. */
  method SearchContent(content: string, regexPatterns: seq<RegexRule>, keywords: seq<string>,
                       searchMode: string, engine: RegexEngine)
    returns (r: Result<seq<MatchRecord>>)
    ensures r == Search(content, regexPatterns, keywords, searchMode, engine)
  {
    var matches: seq<MatchRecord> := [];
    if RunsKeywords(searchMode) {
      matches := AddKeywordMatches(content, keywords);
    }
    if RunsRegex(searchMode) {
      var regexPart := AddRegexMatches(matches, content, regexPatterns, engine);
      if regexPart.Failure? {
        return regexPart;
      }
      matches := regexPart.value;
    }
    assert RunsRegex(searchMode) ==> FirstInvalid(regexPatterns, engine) == |regexPatterns|;
    assert matches == (if RunsKeywords(searchMode) then KeywordMatches(content, keywords) else [])
                    + (if RunsRegex(searchMode) then RegexMatches(content, regexPatterns, engine) else []);
    return Success(matches);
  }

  /** The keyword loop of `SearchContent`. */
  method AddKeywordMatches(content: string, keywords: seq<string>) returns (matches: seq<MatchRecord>)
    ensures matches == KeywordMatches(content, keywords)
  {
    matches := [];
    var i := 0;
    while i < |keywords|
      invariant 0 <= i <= |keywords|
      invariant matches == KeywordMatches(content, keywords[..i])
    {
      assert keywords[..i + 1][..i] == keywords[..i];
      if ContainsIgnoreCase(content, keywords[i]) {
        matches := matches + [MatchRecord(keywords[i], KeywordSource)];
      }
      i := i + 1;
    }
    assert keywords[..i] == keywords;
  }

  /**
   * The pattern loop of `SearchContent`: appends every rule's matches to
   * `matches`, or fails at the first pattern that does not compile.
   */
  method AddRegexMatches(matches: seq<MatchRecord>, content: string, regexPatterns: seq<RegexRule>, engine: RegexEngine)
    returns (r: Result<seq<MatchRecord>>)
    ensures var bad := FirstInvalid(regexPatterns, engine);
            r == if bad < |regexPatterns| then Failure(InvalidPattern(regexPatterns[bad].pattern))
                 else Success(matches + RegexMatches(content, regexPatterns, engine))
  {
    var collected := matches;
    var j := 0;
    while j < |regexPatterns|
      invariant 0 <= j <= |regexPatterns|
      invariant forall q :: 0 <= q < j ==> engine.compiles(regexPatterns[q].pattern)
      invariant collected == matches + RegexMatches(content, regexPatterns[..j], engine)
    {
      var rule := regexPatterns[j];
      if !engine.compiles(rule.pattern) {
        return Failure(InvalidPattern(rule.pattern));
      }
      var found := engine.matches(rule.pattern, content);
      collected := AddMatches(collected, found, RegexSource(rule.description));
      assert regexPatterns[..j + 1][..j] == regexPatterns[..j];
      j := j + 1;
    }
    assert regexPatterns[..j] == regexPatterns;
    return Success(collected);
  }

  /** The innermost loop of `SearchContent`: one record per match of a rule, in order. */
  method AddMatches(matches: seq<MatchRecord>, found: seq<string>, source: string) returns (r: seq<MatchRecord>)
    ensures r == matches + Labelled(found, source)
  {
    r := matches;
    var k := 0;
    while k < |found|
      invariant 0 <= k <= |found|
      invariant r == matches + Labelled(found[..k], source)
    {
      assert found[..k + 1][..k] == found[..k];
      r := r + [MatchRecord(found[k], source)];
      k := k + 1;
    }
    assert found[..k] == found;
  }

  // ---------------------------------------------------------------------
  // Properties
  // ---------------------------------------------------------------------

  /** The keyword group holds as many records as the list has contained entries. */
  lemma {:induction false} KeywordCount(content: string, keywords: seq<string>)
    ensures |KeywordMatches(content, keywords)| == CountContained(content, keywords)
  {
    if keywords != [] {
      KeywordCount(content, keywords[..|keywords| - 1]);
    }
  }

  /** The regex group holds one record per match of every rule. */
  lemma {:induction false} RegexCount(content: string, rules: seq<RegexRule>, engine: RegexEngine)
    ensures |RegexMatches(content, rules, engine)| == TotalMatches(content, rules, engine)
  {
    if rules != [] {
      RegexCount(content, rules[..|rules| - 1], engine);
    }
  }

  /**
   * A keyword record is emitted for a keyword if and only if it is listed
   * and the content contains it, ignoring case; nothing else is emitted.
   */
  lemma {:induction false} KeywordMatchesExactly(content: string, keywords: seq<string>, m: MatchRecord)
    ensures m in KeywordMatches(content, keywords) <==>
              m.source == KeywordSource && m.value in keywords && ContainsIgnoreCase(content, m.value)
  {
    if keywords != [] {
      var n := |keywords| - 1;
      KeywordMatchesExactly(content, keywords[..n], m);
      assert keywords == keywords[..n] + [keywords[n]];
    }
  }

  /** Every regex record carries the label of one of the rules. */
  lemma {:induction false} RegexMatchesLabelled(content: string, rules: seq<RegexRule>, engine: RegexEngine, i: nat)
    requires i < |RegexMatches(content, rules, engine)|
    ensures exists j :: 0 <= j < |rules| && RegexMatches(content, rules, engine)[i].source == RegexSource(rules[j].description)
  {
    var n := |rules| - 1;
    var prefix := RegexMatches(content, rules[..n], engine);
    if i < |prefix| {
      RegexMatchesLabelled(content, rules[..n], engine, i);
      var j :| 0 <= j < n && prefix[i].source == RegexSource(rules[..n][j].description);
      assert rules[..n][j] == rules[j];
    } else {
      assert RegexMatches(content, rules, engine)[i].source == RegexSource(rules[n].description);
    }
  }

  /**
   * A keyword is reported exactly once per time it is listed when the content
   * contains it, and never otherwise, however often it occurs in the text.
   */
  lemma {:induction false} KeywordReportedOncePerEntry(content: string, keywords: seq<string>, k: string)
    ensures multiset(KeywordMatches(content, keywords))[MatchRecord(k, KeywordSource)]
            == if ContainsIgnoreCase(content, k) then multiset(keywords)[k] else 0
  {
    if keywords != [] {
      var n := |keywords| - 1;
      KeywordReportedOncePerEntry(content, keywords[..n], k);
      assert keywords == keywords[..n] + [keywords[n]];
      assert multiset(keywords) == multiset(keywords[..n]) + multiset{keywords[n]};
    }
  }

  /** The keyword group depends on the content only through the presence of each keyword. */
  lemma {:induction false} KeywordPresenceOnly(c1: string, c2: string, keywords: seq<string>)
    requires forall k :: k in keywords ==> (ContainsIgnoreCase(c1, k) <==> ContainsIgnoreCase(c2, k))
    ensures KeywordMatches(c1, keywords) == KeywordMatches(c2, keywords)
  {
    if keywords != [] {
      var n := |keywords| - 1;
      assert keywords[n] in keywords;
      KeywordPresenceOnly(c1, c2, keywords[..n]);
    }
  }

  /** Keyword records follow the keyword list's order. */
  lemma {:induction false} KeywordMatchesAppend(content: string, a: seq<string>, b: seq<string>)
    ensures KeywordMatches(content, a + b) == KeywordMatches(content, a) + KeywordMatches(content, b)
    decreases |b|
  {
    if b == [] {
      assert a + b == a;
    } else {
      var n := |b| - 1;
      assert (a + b)[..|a + b| - 1] == a + b[..n];
      KeywordMatchesAppend(content, a, b[..n]);
    }
  }

  /** Regex records follow the rule list's order, each rule's matches together. */
  lemma {:induction false} RegexMatchesAppend(content: string, a: seq<RegexRule>, b: seq<RegexRule>, engine: RegexEngine)
    ensures RegexMatches(content, a + b, engine) == RegexMatches(content, a, engine) + RegexMatches(content, b, engine)
    decreases |b|
  {
    if b == [] {
      assert a + b == a;
    } else {
      var n := |b| - 1;
      assert (a + b)[..|a + b| - 1] == a + b[..n];
      RegexMatchesAppend(content, a, b[..n], engine);
    }
  }

  /** One rule yields one record per match, in occurrence order, with no deduplication. */
  lemma {:induction false} SingleRuleMatches(content: string, rule: RegexRule, engine: RegexEngine)
    ensures var found := engine.matches(rule.pattern, content);
            var r := RegexMatches(content, [rule], engine);
            |r| == |found| && forall i :: 0 <= i < |found| ==> r[i] == MatchRecord(found[i], RegexSource(rule.description))
  {
    assert [rule][..0] == [];
  }

  lemma RegexSourceIsNotKeyword(description: string)
    ensures RegexSource(description) != KeywordSource
  {
    assert RegexSource(description)[0] == 'R';
  }

  /**
   * The mode keeps the groups apart: "keywords" yields only keyword records,
   * "regex" none, and under "both" every keyword record comes before every
   * regex record.
   */
  lemma {:induction false} SearchGroups(content: string, rules: seq<RegexRule>, keywords: seq<string>, mode: string,
                                        engine: RegexEngine)
    requires Search(content, rules, keywords, mode, engine).Success?
    ensures var v := Search(content, rules, keywords, mode, engine).value;
            && (!RunsRegex(mode) ==> forall i :: 0 <= i < |v| ==> v[i].source == KeywordSource)
            && (!RunsKeywords(mode) ==> forall i :: 0 <= i < |v| ==> v[i].source != KeywordSource)
            && (forall i, j :: 0 <= i < j < |v| && v[j].source == KeywordSource ==> v[i].source == KeywordSource)
  {
    var v := Search(content, rules, keywords, mode, engine).value;
    var kw := if RunsKeywords(mode) then KeywordMatches(content, keywords) else [];
    var rx := if RunsRegex(mode) then RegexMatches(content, rules, engine) else [];
    assert v == kw + rx;
    forall i | 0 <= i < |kw|
      ensures kw[i].source == KeywordSource
    {
      KeywordMatchesExactly(content, keywords, kw[i]);
    }
    forall i | 0 <= i < |rx|
      ensures rx[i].source != KeywordSource
    {
      RegexMatchesLabelled(content, rules, engine, i);
      var j :| 0 <= j < |rules| && rx[i].source == RegexSource(rules[j].description);
      RegexSourceIsNotKeyword(rules[j].description);
    }
  }

  /** An unrecognised mode, or two empty rule lists, yield an empty (not absent) result. */
  lemma {:induction false} SearchFindsNothing(content: string, rules: seq<RegexRule>, keywords: seq<string>, mode: string,
                                              engine: RegexEngine)
    requires (!RunsKeywords(mode) && !RunsRegex(mode)) || (keywords == [] && rules == [])
    ensures Search(content, rules, keywords, mode, engine) == Success([])
  {
    if keywords == [] && rules == [] {
      assert KeywordMatches(content, keywords) == [];
      assert RegexMatches(content, rules, engine) == [];
    }
  }

  /** The mode is compared ignoring case: "BOTH" runs both groups, "kw" neither. */
  lemma ModeNames()
    ensures RunsKeywords("BOTH") && RunsRegex("BOTH")
    ensures RunsKeywords("Keywords") && !RunsRegex("Keywords")
    ensures RunsRegex("REGEX") && !RunsKeywords("REGEX")
    ensures !RunsKeywords("kw") && !RunsRegex("kw")
  {
    assert Fold("BOTH") == Fold("both") == "BOTH";
    assert Fold("Keywords") == Fold("keywords") == "KEYWORDS";
    assert Fold("REGEX") == Fold("regex") == "REGEX";
    assert Fold("Keywords") != Fold("regex") && Fold("REGEX") != Fold("keywords");
    assert Fold("Keywords")[0] != Fold("both")[0] && Fold("REGEX")[0] != Fold("both")[0];
  }

  /** "Secret SECRET secret" searched for the keyword "secret" gives exactly one keyword record. */
  lemma KeywordExample(engine: RegexEngine)
    ensures Search("Secret SECRET secret", [], ["secret"], "keywords", engine)
            == Success([MatchRecord("secret", KeywordSource)])
  {
    var content, rules := "Secret SECRET secret", [];
    assert !RunsRegex("keywords");
    assert OccursAt(Fold(content), Fold("secret"), 0);
    assert ["secret"][..0] == [];
    assert KeywordMatches(content, ["secret"]) == [MatchRecord("secret", KeywordSource)];
    assert Search(content, rules, ["secret"], "keywords", engine).Success?;
    assert Search(content, rules, ["secret"], "keywords", engine).value == KeywordMatches(content, ["secret"]);
  }

  /** Three matches of one rule give three records, each labelled with the rule's description. */
  lemma RegexExample(engine: RegexEngine)
    requires engine.compiles("a\\d")
    requires engine.matches("a\\d", "a1 a2 a3") == ["a1", "a2", "a3"]
    ensures Search("a1 a2 a3", [RegexRule("a\\d", "digit")], [], "regex", engine)
            == Success([MatchRecord("a1", "Regex (digit)"), MatchRecord("a2", "Regex (digit)"),
                        MatchRecord("a3", "Regex (digit)")])
  {
    var content, rule, keywords := "a1 a2 a3", RegexRule("a\\d", "digit"), [];
    assert !RunsKeywords("regex");
    assert FirstInvalid([rule], engine) == 1;
    SingleRuleMatches(content, rule, engine);
    assert RegexSource("digit") == "Regex (digit)";
    var r := RegexMatches(content, [rule], engine);
    assert r[0] == MatchRecord("a1", "Regex (digit)") && r[1] == MatchRecord("a2", "Regex (digit)")
        && r[2] == MatchRecord("a3", "Regex (digit)");
    assert Search(content, [rule], keywords, "regex", engine).Success?;
    assert Search(content, [rule], keywords, "regex", engine).value == r;
    assert r == [MatchRecord("a1", "Regex (digit)"), MatchRecord("a2", "Regex (digit)"), MatchRecord("a3", "Regex (digit)")];
  }

  /** The empty keyword is contained in every text, the empty text included. */
  lemma EmptyKeywordAlwaysMatches(content: string, engine: RegexEngine)
    ensures Search(content, [], [""], "keywords", engine) == Success([MatchRecord("", KeywordSource)])
  {
    var rules := [];
    assert !RunsRegex("keywords");
    assert OccursAt(Fold(content), Fold(""), 0);
    assert [""][..0] == [];
    assert KeywordMatches(content, [""]) == [MatchRecord("", KeywordSource)];
    assert Search(content, rules, [""], "keywords", engine).Success?;
    assert Search(content, rules, [""], "keywords", engine).value == KeywordMatches(content, [""]);
  }
}
