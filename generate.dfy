/** `generateSuggestions` (app/src/services/utils/generateSuggestions.ts):
    pick the strategy for the search type, add the extra suggestions for
    questions, keep short enough suggestions and dedupe. The extra-suggestions
    service is not part of this model: it is given as a function. */
module Generate {
  import opened Seqs
  import opened Strings
  import opened Suggest
  import opened Records
  import opened Questions
  import opened Wildcard

  /** The longest suggestion kept, in space-separated words. */
  const MAX_WORDS: nat := 10

  /** `getExtraSuggestions(report, rootSeed, suggestions)`. */
  type ExtraSource = (string, seq<string>) -> seq<string>

  /** What the strategy for the search type returns. */
  function StrategyResult(root: string, t: SearchType, source: Source, extract: Extractor): seq<string> {
    match t
    case SearchQuestions => QuestionsSuggestions(root, source, extract)
    case SearchWildcard => WildcardSuggestions(root, source)
    case _ => []
  }

  /** The queries the strategy makes. */
  function StrategyTrace(root: string, t: SearchType, source: Source, extract: Extractor): seq<Event> {
    match t
    case SearchQuestions => QuestionsTrace(root, source, extract)
    case SearchWildcard => WildcardTrace(root)
    case _ => []
  }

  /** `sug.split(' ').length <= 10`. */
  predicate ShortEnough(sug: string) {
    |Split(sug, ' ')| <= MAX_WORDS
  }

  function QuestionsKeep(root: string): string -> bool {
    sug => ShortEnough(sug) && Contains(sug, root)
  }

  function WildcardKeep(): string -> bool {
    sug => ShortEnough(sug)
  }

  /** Whether the extra-suggestions service is asked, given the strategy's
      result `s`. */
  predicate AsksExtras(t: SearchType, s: seq<string>) {
    t == SearchQuestions && s != []
  }

  /** The suggestions before the final `uniq`, given the strategy's result
      `s`. */
  function Candidates(root: string, t: SearchType, s: seq<string>, extras: ExtraSource): seq<string> {
    if |s| > 0 && t == SearchQuestions then Filter(s + extras(root, s), QuestionsKeep(root))
    else if |s| > 0 && t == SearchWildcard then Filter(s, WildcardKeep())
    else s
  }

  /** `generateSuggestions`, as a value. */
  function Generated(root: string, t: SearchType, source: Source, extract: Extractor, extras: ExtraSource): seq<string> {
    Uniq(Candidates(root, t, StrategyResult(root, t, source, extract), extras))
  }

  /** The strategy dispatch: questions and wildcard searches run their
      strategy, any other search type has no suggestions. */
  method RunStrategy(root: string, t: SearchType, source: Source, extract: Extractor)
    returns (suggestions: seq<string>, trace: seq<Event>)
    ensures suggestions == StrategyResult(root, t, source, extract)
    ensures trace == StrategyTrace(root, t, source, extract)
  {
    suggestions := [];
    trace := [];
    if t == SearchQuestions {
      suggestions, trace := GetSuggestionsForQuestions(root, source, extract);
    } else if t == SearchWildcard {
      suggestions, trace := GetSuggestionsForWildcard(root, source);
    }
  }

  /** What follows the dispatch: the extras for a question search with
      results, the filters, then `uniq`. */
  method FilterSuggestions(root: string, t: SearchType, suggestions: seq<string>, extras: ExtraSource)
    returns (result: seq<string>, askedExtras: bool)
    ensures result == Uniq(Candidates(root, t, suggestions, extras))
    ensures askedExtras == AsksExtras(t, suggestions)
  {
    var kept := suggestions;
    askedExtras := false;
    if |kept| > 0 && t == SearchQuestions {
      var more := extras(root, kept);
      askedExtras := true;
      if |more| > 0 {
        kept := kept + more;
      } else {
        assert kept + more == kept;
      }
      kept := Filter(kept, QuestionsKeep(root));
    } else if |kept| > 0 && t == SearchWildcard {
      kept := Filter(kept, WildcardKeep());
    }
    result := Uniq(kept);
  }

  /** `generateSuggestions`: the strategy, the extras for a question search
      with results, the word-count filter (and the seed filter for
      questions), then `uniq`. */
  method GenerateSuggestions(root: string, t: SearchType, source: Source, extract: Extractor, extras: ExtraSource)
    returns (result: seq<string>, trace: seq<Event>, askedExtras: bool)
    ensures result == Generated(root, t, source, extract, extras)
    ensures trace == StrategyTrace(root, t, source, extract)
    ensures askedExtras == AsksExtras(t, StrategyResult(root, t, source, extract))
  {
    var suggestions;
    suggestions, trace := RunStrategy(root, t, source, extract);
    result, askedExtras := FilterSuggestions(root, t, suggestions, extras);
  }

  /** Whatever the strategy returned, the result is duplicate-free and in
      first-occurrence order; a question search keeps exactly the short
      suggestions holding the seed, a wildcard search exactly the short
      ones, and any other search type, whose strategy result is empty, gives
      nothing. */
  lemma CandidatesSpec(root: string, t: SearchType, s: seq<string>, extras: ExtraSource)
    ensures var r := Uniq(Candidates(root, t, s, extras));
      && NoDup(r)
      && InFirstOccurrenceOrder(r, Candidates(root, t, s, extras))
      && (t == SearchQuestions ==>
            forall x :: x in r <==> (x in s || (s != [] && x in extras(root, s))) && ShortEnough(x) && Contains(x, root))
      && (t == SearchWildcard ==> forall x :: x in r <==> x in s && ShortEnough(x))
      && (s == [] ==> r == [])
  {
    var c := Candidates(root, t, s, extras);
    UniqOrder(c);
    if t == SearchQuestions && s != [] {
      FilterMember(s + extras(root, s), QuestionsKeep(root));
    } else if t == SearchWildcard && s != [] {
      FilterMember(s, WildcardKeep());
    }
  }

  /** Only a question or wildcard search produces suggestions. */
  lemma OtherTypesGenerateNothing(root: string, t: SearchType, source: Source, extract: Extractor, extras: ExtraSource)
    requires t == SearchCustom || t == SearchUrl
    ensures Generated(root, t, source, extract, extras) == []
    ensures !AsksExtras(t, StrategyResult(root, t, source, extract))
  {
  }

  /** For a question search, the strategy's own kept suggestions come first
      and the extras only after them. */
  lemma ExtrasAfterStrategy(root: string, s: seq<string>, extras: ExtraSource)
    ensures Uniq(Filter(s, QuestionsKeep(root))) <= Uniq(Candidates(root, SearchQuestions, s, extras))
  {
    if s != [] {
      FilterAppend(s, extras(root, s), QuestionsKeep(root));
      UniqPrefix(Filter(s, QuestionsKeep(root)), Filter(extras(root, s), QuestionsKeep(root)));
    }
  }

  /** A wildcard search gives at most one suggestion, because its strategy
      does. */
  lemma WildcardGeneratesAtMostOne(root: string, source: Source, extract: Extractor, extras: ExtraSource)
    ensures |Generated(root, SearchWildcard, source, extract, extras)| <= 1
  {
    WildcardSuggestionsSpec(root, source);
  }
}
