/**
 * The pipeline functions of `main.py`: folding the per-URL results into the
 * compiled data, the content outline, and the keyword ranking with its
 * de-duplication, positional score assignment and stable sorts.
 *
 * Records are values here: the source writes each score into the shared
 * keyword dictionary in place, and the model returns the updated records.
 */
module BriefPipeline {
  import opened Wrappers
  import opened OrderedDict
  import opened StableSort
  import opened PageData
  import KeywordDensityAnalyzer

  const TopKeywordsCount := 40

  /*** De-duplication and ranking (`analyze_keywords`) ***/

  /** `[kw for analysis in detailed_analysis for kw in analysis['all_keywords']]` */
  function AllKeywords(analyses: seq<PageAnalysis>): (records: seq<KeywordRecord>)
  {
    if analyses == [] then []
    else AllKeywords(analyses[..|analyses| - 1]) + analyses[|analyses| - 1].allKeywords
  }

  /** A record is gathered exactly when some page lists it. */
  lemma {:induction false} AllKeywordsMembers(analyses: seq<PageAnalysis>)
    ensures forall r :: r in AllKeywords(analyses) <==> exists i :: 0 <= i < |analyses| && r in analyses[i].allKeywords
  {
    if analyses != [] {
      var init := analyses[..|analyses| - 1];
      AllKeywordsMembers(init);
      forall r ensures r in AllKeywords(analyses) <==> exists i :: 0 <= i < |analyses| && r in analyses[i].allKeywords {
        if r in AllKeywords(init) {
          var i :| 0 <= i < |init| && r in init[i].allKeywords;
          assert analyses[i] == init[i];
        }
        if i :| 0 <= i < |analyses| && r in analyses[i].allKeywords {
          if i < |init| {
            assert init[i] == analyses[i];
          }
        }
      }
    }
  }

  /** The `(kw['keyword'], kw)` pairs the dict comprehension inserts, in order. */
  function KeywordPairs(records: seq<KeywordRecord>): (ps: seq<(string, KeywordRecord)>)
    ensures |ps| == |records|
    ensures forall i :: 0 <= i < |records| ==> ps[i] == (records[i].keyword, records[i])
  {
    seq(|records|, i requires 0 <= i < |records| => (records[i].keyword, records[i]))
  }

  /** `list({kw['keyword']: kw for kw in records}.values())` */
  function Dedup(records: seq<KeywordRecord>): seq<KeywordRecord> {
    FromPairs(KeywordPairs(records)).Values()
  }

  /** The position of the first record with keyword `k`, or `|records|`. */
  function FirstIndex(records: seq<KeywordRecord>, k: string): nat {
    FirstAt(KeywordPairs(records), k)
  }

  /** The `i`-th record kept is the dictionary's `i`-th key's value: a record of the input with that keyword. */
  lemma DedupAt(records: seq<KeywordRecord>)
    ensures var d := FromPairs(KeywordPairs(records));
      var r := Dedup(records);
      |r| == |d.keys| && forall i :: 0 <= i < |r| ==> r[i].keyword == d.keys[i] && r[i] in records
  {
    var ps := KeywordPairs(records);
    var d := FromPairs(ps);
    var r := d.Values();
    FromPairsValuesFrom(ps);
    forall i | 0 <= i < |r| ensures r[i].keyword == d.keys[i] && r[i] in records {
      var k := d.keys[i];
      var j :| 0 <= j < |ps| && ps[j] == (k, d.entries[k]);
      assert r[i] == d.entries[k] == records[j];
    }
  }

  /** No two records kept share a keyword, and every record kept comes from the input. */
  lemma DedupDistinct(records: seq<KeywordRecord>)
    ensures var r := Dedup(records);
      && (forall i, j :: 0 <= i < j < |r| ==> r[i].keyword != r[j].keyword)
      && (forall x :: x in r ==> x in records)
  {
    DedupAt(records);
  }

  /** Every keyword of the input is a key of the dictionary. */
  lemma DedupHasKey(records: seq<KeywordRecord>, i: int)
    requires 0 <= i < |records|
    ensures records[i].keyword in FromPairs(KeywordPairs(records)).keys
  {
    var ps := KeywordPairs(records);
    FromPairsKeys(ps);
    assert ps[i].0 == records[i].keyword;
  }

  /** Every keyword of the input has a record kept. */
  lemma DedupComplete(records: seq<KeywordRecord>)
    ensures var r := Dedup(records);
      forall i :: 0 <= i < |records| ==> exists j :: 0 <= j < |r| && r[j].keyword == records[i].keyword
  {
    var d := FromPairs(KeywordPairs(records));
    var r := Dedup(records);
    DedupAt(records);
    forall i | 0 <= i < |records| ensures exists j :: 0 <= j < |r| && r[j].keyword == records[i].keyword {
      DedupHasKey(records, i);
      var j :| 0 <= j < |d.keys| && d.keys[j] == records[i].keyword;
      assert r[j].keyword == records[i].keyword;
    }
  }

  /** The record kept for a keyword is the last input record with that keyword. */
  lemma DedupLastWins(records: seq<KeywordRecord>)
    ensures forall i ::
      (0 <= i < |records| && (forall j :: i < j < |records| ==> records[j].keyword != records[i].keyword))
      ==> records[i] in Dedup(records)
  {
    var ps := KeywordPairs(records);
    var d := FromPairs(ps);
    var r := Dedup(records);
    FromPairsKeys(ps);
    FromPairsLastWins(ps);
    forall i | 0 <= i < |records| && (forall j :: i < j < |records| ==> records[j].keyword != records[i].keyword)
      ensures records[i] in r
    {
      assert LastFor(ps, i);
      var k := records[i].keyword;
      var j :| 0 <= j < |d.keys| && d.keys[j] == k;
      assert r[j] == records[i];
    }
  }

  /** Records are kept in the order in which their keyword first appears. */
  lemma DedupFirstOrder(records: seq<KeywordRecord>)
    ensures var r := Dedup(records);
      forall a, b :: 0 <= a < b < |r| ==> FirstIndex(records, r[a].keyword) < FirstIndex(records, r[b].keyword)
  {
    DedupAt(records);
    FromPairsFirstOrder(KeywordPairs(records));
  }

  /** `[kw['keyword'] for kw in all_keywords]` */
  function Keywords(records: seq<KeywordRecord>): (keywords: seq<string>)
    ensures |keywords| == |records|
    ensures forall i :: 0 <= i < |records| ==> keywords[i] == records[i].keyword
  {
    seq(|records|, i requires 0 <= i < |records| => records[i].keyword)
  }

  /** `zip(all_keywords, similarities)`: the `i`-th score goes to the `i`-th record, whatever keyword it was computed for. */
  function Scored(records: seq<KeywordRecord>, scores: seq<real>): seq<KeywordRecord> {
    seq(|records|, i requires 0 <= i < |records| =>
      if i < |scores| then records[i].(similarity := scores[i]) else records[i])
  }

  /** The loop `for kw, sim in zip(all_keywords, similarities): kw['similarity'] = sim`. */
  method AssignScores(records: seq<KeywordRecord>, scores: seq<real>) returns (r: seq<KeywordRecord>)
    ensures r == Scored(records, scores)
    ensures |r| == |records|
    ensures forall i :: 0 <= i < |records| ==>
      r[i].keyword == records[i].keyword && r[i].frequency == records[i].frequency && r[i].other == records[i].other
    ensures forall i :: 0 <= i < |records| && i < |scores| ==> r[i].similarity == scores[i]
    // records beyond the last score keep the similarity they had
    ensures forall i :: |scores| <= i < |records| ==> r[i] == records[i]
  {
    r := records;
    var i := 0;
    while i < |records| && i < |scores|
      invariant 0 <= i <= |records| && i <= |scores|
      invariant |r| == |records|
      invariant forall j :: 0 <= j < i ==> r[j] == records[j].(similarity := scores[j])
      invariant forall j :: i <= j < |records| ==> r[j] == records[j]
    {
      r := r[i := r[i].(similarity := scores[i])];
      i := i + 1;
    }
    assert forall j :: 0 <= j < |r| ==> r[j] == Scored(records, scores)[j];
  }

  /** What `analyze_keywords` returns, and the embedding requests it makes. */
  datatype Ranking = Ranking(keywords: seq<KeywordRecord>, requests: nat)

  /**
   * `analyze_keywords(compiled_data, target_keyword)`: on scores, sorted by
   * (similarity, frequency); when scoring raised, sorted by frequency.
   */
  function RankKeywords(analyses: seq<PageAnalysis>, provider: KeywordDensityAnalyzer.Provider,
                        cosine: (Embedding, Embedding) -> real, target: string, from: nat): Ranking
  {
    var records := Dedup(AllKeywords(analyses));
    var s := KeywordDensityAnalyzer.Similarity(provider, cosine, Keywords(records), target, from);
    match s.result
    case Ok(scores) => Ranking(SortDesc(Scored(records, scores), SimilarityFrequencyKey), s.calls)
    case Err(_) => Ranking(SortDesc(records, FrequencyKey), s.calls)
  }

  /**
   * The ranking is a permutation of the de-duplicated records (scored, when
   * scoring succeeded), in descending order of its sort key, equal keys in
   * their de-duplicated order.
   */
  lemma RankKeywordsProperties(analyses: seq<PageAnalysis>, provider: KeywordDensityAnalyzer.Provider,
                               cosine: (Embedding, Embedding) -> real, target: string, from: nat)
    ensures var records := Dedup(AllKeywords(analyses));
      var s := KeywordDensityAnalyzer.Similarity(provider, cosine, Keywords(records), target, from);
      var r := RankKeywords(analyses, provider, cosine, target, from).keywords;
      && |r| == |records|
      && (s.result.Ok? ==>
            && multiset(r) == multiset(Scored(records, s.result.value))
            && SortedDesc(r, SimilarityFrequencyKey)
            && SameOrderPerKey(r, Scored(records, s.result.value), SimilarityFrequencyKey))
      && (s.result.Err? ==>
            && multiset(r) == multiset(records)
            && SortedDesc(r, FrequencyKey)
            && SameOrderPerKey(r, records, FrequencyKey))
  {
    var records := Dedup(AllKeywords(analyses));
    var s := KeywordDensityAnalyzer.Similarity(provider, cosine, Keywords(records), target, from);
    if s.result.Ok? {
      SortDescSorted(Scored(records, s.result.value), SimilarityFrequencyKey);
      SortDescStable(Scored(records, s.result.value), SimilarityFrequencyKey);
    } else {
      SortDescSorted(records, FrequencyKey);
      SortDescStable(records, FrequencyKey);
    }
  }

  /**
   * The positional `zip` misaligns scores after a failed keyword: when the
   * first keyword's embedding fails and the second's succeeds, the first
   * record is given the second keyword's score.
   */
  lemma ScoreShiftsPastFailedKeyword(provider: KeywordDensityAnalyzer.Provider, cosine: (Embedding, Embedding) -> real,
                                     records: seq<KeywordRecord>, target: string, from: nat,
                                     t: KeywordDensityAnalyzer.Attempts, first: KeywordDensityAnalyzer.Attempts,
                                     second: KeywordDensityAnalyzer.Attempts)
    requires 2 <= |records|
    requires t == KeywordDensityAnalyzer.Embed(provider, target, from) && t.embedding.Some?
    requires first == KeywordDensityAnalyzer.Embed(provider, records[0].keyword, from + t.calls)
    requires first.embedding.None?
    requires second == KeywordDensityAnalyzer.Embed(provider, records[1].keyword, from + t.calls + first.calls)
    requires second.embedding.Some?
    ensures var s := KeywordDensityAnalyzer.Similarity(provider, cosine, Keywords(records), target, from);
      && s.result.Ok?
      && Scored(records, s.result.value)[0] == records[0].(similarity := cosine(t.embedding.value, second.embedding.value))
  {
    var keywords := Keywords(records);
    assert keywords[0] == records[0].keyword && keywords[1] == records[1].keyword;
    KeywordDensityAnalyzer.FirstScoreIsSecondKeywords(provider, cosine, keywords, target, from, t, first, second);
  }

  /** `all_keywords[:TOP_KEYWORDS_COUNT]`: the first forty of the ranking. */
  function TopKeywords(ranked: seq<KeywordRecord>): (top: seq<KeywordRecord>)
    ensures top <= ranked
    ensures |top| == if |ranked| < TopKeywordsCount then |ranked| else TopKeywordsCount
  {
    Take(ranked, TopKeywordsCount)
  }

  /** `analyze_keywords`: gather, de-duplicate, score and sort. */
  method AnalyzeKeywords(analyses: seq<PageAnalysis>, provider: KeywordDensityAnalyzer.Provider,
                         cosine: (Embedding, Embedding) -> real, target: string, from: nat)
    returns (ranked: seq<KeywordRecord>, requests: nat)
    ensures Ranking(ranked, requests) == RankKeywords(analyses, provider, cosine, target, from)
  {
    var records := Dedup(AllKeywords(analyses));
    var result, calls := KeywordDensityAnalyzer.CalculateSimilarity(provider, cosine, Keywords(records), target, from);
    requests := calls;
    if result.Ok? {
      var scored := AssignScores(records, result.value);
      ranked := SortDesc(scored, SimilarityFrequencyKey);
    } else {
      ranked := SortDesc(records, FrequencyKey);
    }
  }

  /*** Content outline (`generate_content_outline`) ***/

  const NoHeadings := "No headings found for this URL"

  /** `str.upper()` on ASCII letters. */
  function Upper(s: string): (u: string)
    ensures |u| == |s|
  {
    seq(|s|, i requires 0 <= i < |s| => if 'a' <= s[i] <= 'z' then (s[i] as int - 32) as char else s[i])
  }

  /** The lines for one tag: `f"{tag.upper()}: {heading}"` for each heading. */
  function TagLines(tag: string, headings: seq<string>): (lines: seq<string>)
    ensures |lines| == |headings|
  {
    if headings == [] then []
    else TagLines(tag, headings[..|headings| - 1]) + [Upper(tag) + ": " + headings[|headings| - 1]]
  }

  /** The lines for every tag, in dictionary order. */
  function HeadingLines(groups: seq<HeadingGroup>): seq<string> {
    if groups == [] then []
    else HeadingLines(groups[..|groups| - 1]) + TagLines(groups[|groups| - 1].tag, groups[|groups| - 1].headings)
  }

  /** The lines for one analysis: its URL, then its headings or the no-headings line. */
  function PageLines(a: PageAnalysis): seq<string> {
    ["URL: " + a.url] + (if a.headings == [] then [NoHeadings] else HeadingLines(a.headings))
  }

  /** The lines for every analysis, in order. */
  function OutlineLines(analyses: seq<PageAnalysis>): seq<string> {
    if analyses == [] then []
    else OutlineLines(analyses[..|analyses| - 1]) + PageLines(analyses[|analyses| - 1])
  }

  /** `"\n".join(lines)` */
  function Join(lines: seq<string>): string {
    if lines == [] then ""
    else if |lines| == 1 then lines[0]
    else Join(lines[..|lines| - 1]) + "\n" + lines[|lines| - 1]
  }

  /** The number of headings over all tags. */
  function HeadingCount(groups: seq<HeadingGroup>): nat {
    if groups == [] then 0 else HeadingCount(groups[..|groups| - 1]) + |groups[|groups| - 1].headings|
  }

  /** Every heading line has a colon, right after the upper-cased tag. */
  lemma {:induction false} HeadingLinesHaveColon(groups: seq<HeadingGroup>)
    ensures |HeadingLines(groups)| == HeadingCount(groups)
    ensures forall line :: line in HeadingLines(groups) ==> ':' in line
  {
    if groups != [] {
      var g := groups[|groups| - 1];
      HeadingLinesHaveColon(groups[..|groups| - 1]);
      TagLinesHaveColon(g.tag, g.headings);
    }
  }

  lemma {:induction false} TagLinesHaveColon(tag: string, headings: seq<string>)
    ensures forall line :: line in TagLines(tag, headings) ==> ':' in line
  {
    if headings != [] {
      TagLinesHaveColon(tag, headings[..|headings| - 1]);
      var line := Upper(tag) + ": " + headings[|headings| - 1];
      assert line[|Upper(tag)|] == ':';
    }
  }

  /**
   * An analysis yields its `URL:` line first; the no-headings line appears
   * exactly when its headings dictionary is empty (a tag whose list is
   * empty adds no line but still counts as a heading entry); otherwise one
   * line per heading follows.
   */
  lemma PageLinesProperties(a: PageAnalysis)
    ensures PageLines(a)[0] == "URL: " + a.url
    ensures NoHeadings in PageLines(a)[1..] <==> a.headings == []
    ensures |PageLines(a)| == 1 + if a.headings == [] then 1 else HeadingCount(a.headings)
  {
    HeadingLinesHaveColon(a.headings);
    assert ':' !in NoHeadings;
    assert PageLines(a)[1..] == if a.headings == [] then [NoHeadings] else HeadingLines(a.headings);
  }

  lemma TagLinesStep(tag: string, headings: seq<string>, k: nat)
    requires k < |headings|
    ensures TagLines(tag, headings[..k + 1]) == TagLines(tag, headings[..k]) + [Upper(tag) + ": " + headings[k]]
  {
    assert headings[..k + 1][..k] == headings[..k];
  }

  lemma HeadingLinesStep(groups: seq<HeadingGroup>, t: nat)
    requires t < |groups|
    ensures HeadingLines(groups[..t + 1]) == HeadingLines(groups[..t]) + TagLines(groups[t].tag, groups[t].headings)
  {
    assert groups[..t + 1][..t] == groups[..t];
  }

  lemma OutlineLinesStep(analyses: seq<PageAnalysis>, i: nat)
    requires i < |analyses|
    ensures OutlineLines(analyses[..i + 1]) == OutlineLines(analyses[..i]) + PageLines(analyses[i])
  {
    assert analyses[..i + 1][..i] == analyses[..i];
  }

  lemma PageLinesAppended(before: seq<string>, a: PageAnalysis, lines: seq<string>)
    requires lines == (before + ["URL: " + a.url]) + (if a.headings == [] then [NoHeadings] else HeadingLines(a.headings))
    ensures lines == before + PageLines(a)
  {
  }

  /** The lines of one page's headings, tag by tag and heading by heading. */
  method AppendHeadings(lines: seq<string>, groups: seq<HeadingGroup>) returns (r: seq<string>)
    ensures r == lines + HeadingLines(groups)
  {
    r := lines;
    var t := 0;
    while t < |groups|
      invariant 0 <= t <= |groups|
      invariant r == lines + HeadingLines(groups[..t])
    {
      var g := groups[t];
      HeadingLinesStep(groups, t);
      var k := 0;
      ghost var before := r;
      while k < |g.headings|
        invariant 0 <= k <= |g.headings|
        invariant r == before + TagLines(g.tag, g.headings[..k])
      {
        TagLinesStep(g.tag, g.headings, k);
        r := r + [Upper(g.tag) + ": " + g.headings[k]];
        k := k + 1;
      }
      assert g.headings[..k] == g.headings;
      t := t + 1;
    }
    assert groups[..t] == groups;
  }

  /** `generate_content_outline(detailed_analysis)` */
  method GenerateContentOutline(analyses: seq<PageAnalysis>) returns (outline: string)
    ensures outline == Join(OutlineLines(analyses))
  {
    var lines: seq<string> := [];
    var i := 0;
    while i < |analyses|
      invariant 0 <= i <= |analyses|
      invariant lines == OutlineLines(analyses[..i])
    {
      var a := analyses[i];
      OutlineLinesStep(analyses, i);
      ghost var before := lines;
      lines := lines + ["URL: " + a.url];
      if a.headings != [] {
        lines := AppendHeadings(lines, a.headings);
      } else {
        lines := lines + [NoHeadings];
      }
      PageLinesAppended(before, a, lines);
      i := i + 1;
    }
    assert analyses[..i] == analyses;
    outline := Join(lines);
  }

  /*** Folding the per-URL results (`process_urls`) ***/

  /** How the future for a URL completed: it raised, or `process_url` returned. */
  datatype Outcome = Raised | Returned(analysis: Option<PageAnalysis>)

  datatype Completion = Completion(url: string, outcome: Outcome)

  /**
   * The compiled data: `top_competitors`, `detailed_analysis`,
   * `content_outline`, and the sum and count of the image counts whose
   * quotient is `avg_image_count`.
   */
  datatype Compiled = Compiled(
    topCompetitors: seq<string>,
    detailedAnalysis: seq<PageAnalysis>,
    contentOutline: string,
    imageTotal: int,
    imageSamples: nat)

  /** The analyses recorded, in completion order: those that returned a page and did not raise. */
  function Recorded(completions: seq<Completion>): seq<PageAnalysis> {
    if completions == [] then []
    else
      var c := completions[|completions| - 1];
      Recorded(completions[..|completions| - 1])
        + (if c.outcome.Returned? && c.outcome.analysis.Some? then [c.outcome.analysis.value] else [])
  }

  /** The sum of the image counts. */
  function ImageTotal(analyses: seq<PageAnalysis>): int {
    if analyses == [] then 0 else ImageTotal(analyses[..|analyses| - 1]) + analyses[|analyses| - 1].imagesCount
  }

  /** An analysis is recorded exactly when some completion returned it. */
  lemma {:induction false} RecordedMembers(completions: seq<Completion>)
    ensures forall a :: a in Recorded(completions) <==>
      exists i :: 0 <= i < |completions| && completions[i].outcome == Returned(Some(a))
    ensures |Recorded(completions)| <= |completions|
  {
    if completions != [] {
      var init := completions[..|completions| - 1];
      RecordedMembers(init);
      forall a ensures a in Recorded(completions) <==>
        exists i :: 0 <= i < |completions| && completions[i].outcome == Returned(Some(a))
      {
        if a in Recorded(init) {
          var i :| 0 <= i < |init| && init[i].outcome == Returned(Some(a));
          assert completions[i] == init[i];
        }
        if i :| 0 <= i < |completions| && completions[i].outcome == Returned(Some(a)) {
          if i < |init| {
            assert init[i] == completions[i];
          }
        }
      }
    }
  }

  /** `process_urls`: the loop over completed futures, then the outline. */
  method ProcessUrls(completions: seq<Completion>) returns (compiled: Compiled)
    ensures compiled.detailedAnalysis == Recorded(completions)
    ensures |compiled.topCompetitors| == |compiled.detailedAnalysis|
    ensures forall i :: 0 <= i < |compiled.topCompetitors| ==>
      compiled.topCompetitors[i] == compiled.detailedAnalysis[i].url
    ensures compiled.imageTotal == ImageTotal(compiled.detailedAnalysis)
    ensures compiled.imageSamples == |compiled.detailedAnalysis|
    ensures compiled.contentOutline == Join(OutlineLines(compiled.detailedAnalysis))
  {
    var top: seq<string> := [];
    var detailed: seq<PageAnalysis> := [];
    var total := 0;
    var i := 0;
    while i < |completions|
      invariant 0 <= i <= |completions|
      invariant detailed == Recorded(completions[..i])
      invariant |top| == |detailed|
      invariant forall j :: 0 <= j < |top| ==> top[j] == detailed[j].url
      invariant total == ImageTotal(detailed)
    {
      var c := completions[i];
      assert completions[..i + 1][..i] == completions[..i];
      if c.outcome.Returned? && c.outcome.analysis.Some? {
        var a := c.outcome.analysis.value;
        top := top + [a.url];
        assert (detailed + [a])[..|detailed|] == detailed;
        detailed := detailed + [a];
        total := total + a.imagesCount;
      } else {
        assert detailed + [] == detailed;
      }
      i := i + 1;
    }
    assert completions[..i] == completions;
    var outline := GenerateContentOutline(detailed);
    compiled := Compiled(top, detailed, outline, total, |detailed|);
  }
}
