/** The question strategy (app/src/services/utils/getSuggestionsForQuestions.ts):
    every question word is put before the seed and probed three ways; the
    modifiers read off those suggestions are probed again in a second round;
    both rounds run through the pool of waves of three. */
module Questions {
  import opened Seqs
  import opened Strings
  import opened Suggest
  import opened Text
  import opened Pool

  /** `getExtraModifiersFromQuestionSuggestion(sug, question, rootSeed)`:
      `Some(list)` when it returns a list, `None` when it throws or returns
      nothing. Its code is not part of this model. */
  type Extractor = (string, string, string) -> Option<seq<string>>

  /** What one question task resolves to. */
  datatype Response = Response(suggestions: seq<string>, extraModifiers: seq<string>)

  /** The three probes for question `q`: `q seed`, `q seed *` and
      `q * seed *`, each with the caret before its last character. */
  function QuestionProbes(root: string, q: string): (ps: seq<Probe>)
    ensures |ps| == 3
    ensures forall k | 0 <= k < 3 :: ps[k].AtCaret? && ps[k].caret == |ps[k].text| - 1
  {
    var seed := q + " " + root;
    var seedA := q + " " + root + " *";
    var seedB := q + " * " + root + " *";
    [AtCaret(seed, |seed| - 1), AtCaret(seedA, |seedA| - 1), AtCaret(seedB, |seedB| - 1)]
  }

  function QuestionTrace(root: string, q: string): seq<Event> {
    var ps := QuestionProbes(root, q);
    [Query(ps[0]), Query(ps[1]), Query(ps[2])]
  }

  /** The three result lists of question `q`, concatenated in probe order. */
  function Answers(root: string, q: string, source: Source): seq<string> {
    var ps := QuestionProbes(root, q);
    source(ps[0]) + source(ps[1]) + source(ps[2])
  }

  /** The modifiers extracted from `sugs` in order; a suggestion whose
      extraction throws or returns nothing contributes none. */
  function Extracted(extract: Extractor, sugs: seq<string>, q: string, root: string): seq<string> {
    if sugs == [] then []
    else
      Extracted(extract, sugs[..|sugs| - 1], q, root)
        + match extract(sugs[|sugs| - 1], q, root) case Some(more) => more case None => []
  }

  /** `extra.split(' ').length > 1`. */
  function MultiWord(): string -> bool {
    m => |Split(m, ' ')| > 1
  }

  /** `getSuggestionsForQuestion`, as a value. */
  function QuestionResponse(root: string, q: string, source: Source, extract: Extractor): Response {
    var merged := Uniq(Answers(root, q, source));
    var extras := Extracted(extract, merged, q, root);
    Response(Filter(merged, Except(q + " " + root)),
             if |extras| > 0 then Uniq(Filter(extras, MultiWord())) else extras)
  }

  /** One more scanned suggestion: its modifiers, if any, and the
      suggestion itself unless it is `q seed`. */
  lemma ScanStep(extract: Extractor, merged: seq<string>, i: nat, q: string, root: string)
    requires i < |merged|
    ensures Extracted(extract, merged[..i + 1], q, root)
      == Extracted(extract, merged[..i], q, root) + match extract(merged[i], q, root) case Some(more) => more case None => []
    ensures Filter(merged[..i + 1], Except(q + " " + root))
      == Filter(merged[..i], Except(q + " " + root)) + if merged[i] != q + " " + root then [merged[i]] else []
  {
    assert merged[..i + 1][..i] == merged[..i];
    FilterPrefixStep(merged, i, Except(q + " " + root));
  }

  /** `getSuggestionsForQuestion`: three probes, then one pass over their
      deduplicated results collecting modifiers and suggestions. */
  method GetSuggestionsForQuestion(root: string, q: string, source: Source, extract: Extractor)
    returns (response: Response, trace: seq<Event>)
    ensures response == QuestionResponse(root, q, source, extract)
    ensures trace == QuestionTrace(root, q)
  {
    var extraModifiers: seq<string> := [];
    var suggestions: seq<string> := [];
    var seed := q + " " + root;
    var seedA := q + " " + root + " *";
    var seedB := q + " * " + root + " *";
    var googleSuggestions := source(AtCaret(seed, |seed| - 1));
    var googleSuggestionsA := source(AtCaret(seedA, |seedA| - 1));
    var googleSuggestionsB := source(AtCaret(seedB, |seedB| - 1));
    trace := [Query(AtCaret(seed, |seed| - 1)), Query(AtCaret(seedA, |seedA| - 1)), Query(AtCaret(seedB, |seedB| - 1))];
    assert trace == QuestionTrace(root, q);
    var merged := Uniq(googleSuggestions + googleSuggestionsA + googleSuggestionsB);
    assert merged == Uniq(Answers(root, q, source));
    for i := 0 to |merged|
      invariant extraModifiers == Extracted(extract, merged[..i], q, root)
      invariant suggestions == Filter(merged[..i], Except(seed))
    {
      ScanStep(extract, merged, i, q, root);
      var extra := extract(merged[i], q, root);
      if extra.Some? {
        extraModifiers := extraModifiers + extra.value;
      }
      if merged[i] != seed {
        suggestions := suggestions + [merged[i]];
      }
    }
    assert merged[..|merged|] == merged;
    ghost var extras := extraModifiers;
    assert extras == Extracted(extract, Uniq(Answers(root, q, source)), q, root);
    assert suggestions == QuestionResponse(root, q, source, extract).suggestions;
    if |extraModifiers| > 0 {
      extraModifiers := Uniq(Filter(extraModifiers, MultiWord()));
    }
    response := Response(suggestions, extraModifiers);
  }

  /** One question's suggestions are the results of its three probes without
      duplicates, in first-occurrence order, with the phrase `q seed` itself
      removed; its modifiers are duplicate-free and each holds a space. */
  lemma QuestionResponseSpec(root: string, q: string, source: Source, extract: Extractor)
    ensures var r := QuestionResponse(root, q, source, extract);
      && NoDup(r.suggestions)
      && (forall x :: x in r.suggestions <==> x in Answers(root, q, source) && x != q + " " + root)
      && InFirstOccurrenceOrder(r.suggestions, Answers(root, q, source))
      && NoDup(r.extraModifiers)
      && (forall m :: m in r.extraModifiers ==> ' ' in m)
  {
    var merged := Uniq(Answers(root, q, source));
    var extras := Extracted(extract, merged, q, root);
    FilterNoDup(merged, Except(q + " " + root));
    FilterMember(merged, Except(q + " " + root));
    UniqOrder(Answers(root, q, source));
    FilterOrder(merged, Answers(root, q, source), Except(q + " " + root));
    if |extras| > 0 {
      FilterMember(extras, MultiWord());
      forall m | m in Filter(extras, MultiWord()) ensures ' ' in m {
        SplitMoreThanOne(m, ' ');
      }
    }
  }

  /** Every element of a pool's input becomes one task, in input order. */
  function ResponseOf(root: string, source: Source, extract: Extractor): string -> Response {
    q => QuestionResponse(root, q, source, extract)
  }

  function QuestionTraceOf(root: string): string -> seq<Event> {
    q => QuestionTrace(root, q)
  }

  /** A response's suggestions. */
  function SuggestionsOf(): Response -> seq<string> {
    (r: Response) => r.suggestions
  }

  /** A response's modifiers. */
  function ModifiersOf(): Response -> seq<string> {
    (r: Response) => r.extraModifiers
  }

  /** The first round over the question list `qs`: the responses of all
      questions in order, their suggestions concatenated and their modifiers
      concatenated and deduplicated. */
  function RoundOver(root: string, qs: seq<string>, source: Source, extract: Extractor): Response {
    var rs := Map(qs, ResponseOf(root, source, extract));
    Response(Flatten(Map(rs, SuggestionsOf())), Uniq(Flatten(Map(rs, ModifiersOf()))))
  }

  function RoundTraceOver(root: string, qs: seq<string>): seq<Event> {
    PoolTrace(Map(qs, QuestionTraceOf(root)))
  }

  /** `getFirstSuggestions`, as a value. */
  function FirstRound(root: string, source: Source, extract: Extractor): Response {
    RoundOver(root, QUESTIONS, source, extract)
  }

  function FirstRoundTrace(root: string): seq<Event> {
    RoundTraceOver(root, QUESTIONS)
  }

  /** The join of one wave (`Promise.all` over the pending tasks): the
      responses' suggestions and modifiers appended in push order, every one
      of them (a response always has a suggestions array). */
  method JoinResponses(suggestions: seq<string>, extraModifiers: seq<string>, tasks: seq<Response>)
    returns (suggestions': seq<string>, extraModifiers': seq<string>)
    ensures suggestions' == suggestions + Flatten(Map(tasks, SuggestionsOf()))
    ensures extraModifiers' == extraModifiers + Flatten(Map(tasks, ModifiersOf()))
  {
    suggestions', extraModifiers' := suggestions, extraModifiers;
    for j := 0 to |tasks|
      invariant suggestions' == suggestions + Flatten(Map(tasks[..j], SuggestionsOf()))
      invariant extraModifiers' == extraModifiers + Flatten(Map(tasks[..j], ModifiersOf()))
    {
      assert tasks[..j + 1][..j] == tasks[..j];
      FlattenSnoc(Map(tasks[..j], SuggestionsOf()), tasks[j].suggestions);
      FlattenSnoc(Map(tasks[..j], ModifiersOf()), tasks[j].extraModifiers);
      suggestions' := suggestions' + tasks[j].suggestions;
      extraModifiers' := extraModifiers' + tasks[j].extraModifiers;
    }
    assert tasks[..|tasks|] == tasks;
  }

  /** `getFirstSuggestions`: one task per question, joined three at a time
      with a pause after every full wave, then the leftover tasks. */
  method GetFirstSuggestions(root: string, source: Source, extract: Extractor)
    returns (first: Response, trace: seq<Event>)
    ensures first == FirstRound(root, source, extract)
    ensures trace == FirstRoundTrace(root)
  {
    first, trace := PoolQuestions(root, QUESTIONS, source, extract);
  }

  /** The pooled loop of `getFirstSuggestions`, over the question list `qs`. */
  method PoolQuestions(root: string, qs: seq<string>, source: Source, extract: Extractor)
    returns (first: Response, trace: seq<Event>)
    ensures first == RoundOver(root, qs, source, extract)
    ensures trace == RoundTraceOver(root, qs)
  {
    ghost var rs := Map(qs, ResponseOf(root, source, extract));
    ghost var ts := Map(qs, QuestionTraceOf(root));
    ghost var sugs, mods := Map(rs, SuggestionsOf()), Map(rs, ModifiersOf());
    var extraModifiers: seq<string> := [];
    var suggestions: seq<string> := [];
    var tasks: seq<Response> := [];
    trace := [];
    PooledStart(ts, sugs);
    PooledStart(ts, mods);
    for k := 0 to |qs|
      invariant Pooled(ts, sugs, k, trace, suggestions, Map(tasks, SuggestionsOf()))
      invariant Pooled(ts, mods, k, trace, extraModifiers, Map(tasks, ModifiersOf()))
    {
      var response, events := GetSuggestionsForQuestion(root, qs[k], source, extract);
      MapAt(qs, ResponseOf(root, source, extract), k);
      MapAt(qs, QuestionTraceOf(root), k);
      MapAt(rs, SuggestionsOf(), k);
      MapAt(rs, ModifiersOf(), k);
      PooledPush(ts, sugs, k, trace, suggestions, Map(tasks, SuggestionsOf()), events, response.suggestions);
      PooledPush(ts, mods, k, trace, extraModifiers, Map(tasks, ModifiersOf()), events, response.extraModifiers);
      MapSnoc(tasks, response, SuggestionsOf());
      MapSnoc(tasks, response, ModifiersOf());
      tasks := tasks + [response];
      trace := trace + events;
      if |tasks| > POOL_SIZE {
        suggestions, extraModifiers := JoinResponses(suggestions, extraModifiers, tasks);
        trace := trace + [Wave(|tasks|), Sleep(WAVE_PAUSE)];
        tasks := [];
      }
    }
    PooledEnd(ts, sugs, trace, suggestions, Map(tasks, SuggestionsOf()));
    PooledEnd(ts, mods, trace, extraModifiers, Map(tasks, ModifiersOf()));
    if |tasks| > 0 {
      suggestions, extraModifiers := JoinResponses(suggestions, extraModifiers, tasks);
      trace := trace + [Wave(|tasks|)];
    }
    assert suggestions == Flatten(sugs) && extraModifiers == Flatten(mods);
    first := Response(suggestions, Uniq(extraModifiers));
  }

  /** The sixteen questions run in six waves, five of three and a last of
      one, with five pauses, and issue 48 queries. */
  lemma FirstRoundCounts(root: string)
    ensures WaveSizes(FirstRoundTrace(root)) == [3, 3, 3, 3, 3, 1]
    ensures SleepCount(FirstRoundTrace(root)) == 5
    ensures QueryCount(FirstRoundTrace(root)) == 48
  {
    var ts := Map(QUESTIONS, QuestionTraceOf(root));
    forall i | 0 <= i < |ts| ensures QueriesOnly(ts[i]) && |ts[i]| == 3 {
      MapAt(QUESTIONS, QuestionTraceOf(root), i);
    }
    PoolTraceCounts(ts);
    FlattenUniformLength(ts, 3);
    assert ExpectedWaves(1) == [1];
    assert ExpectedWaves(4) == [3, 1];
    assert ExpectedWaves(7) == [3, 3, 1];
    assert ExpectedWaves(10) == [3, 3, 3, 1];
    assert ExpectedWaves(13) == [3, 3, 3, 3, 1];
  }

  /** Every modifier a question task returns holds a space. */
  lemma {:induction false} AllModifiersSpaced(rs: seq<Response>)
    requires forall i :: 0 <= i < |rs| ==> forall m :: m in rs[i].extraModifiers ==> ' ' in m
    ensures forall m :: m in Flatten(Map(rs, ModifiersOf())) ==> ' ' in m
  {
    if rs != [] {
      var init := rs[..|rs| - 1];
      AllModifiersSpaced(init);
      FlattenSnoc(Map(init, ModifiersOf()), rs[|rs| - 1].extraModifiers);
    }
  }

  /** A round's modifiers are duplicate-free and each has more than one
      word. */
  lemma RoundModifiers(root: string, qs: seq<string>, source: Source, extract: Extractor)
    ensures NoDup(RoundOver(root, qs, source, extract).extraModifiers)
    ensures forall m :: m in RoundOver(root, qs, source, extract).extraModifiers ==> ' ' in m && |Split(m, ' ')| > 1
  {
    var rs := Map(qs, ResponseOf(root, source, extract));
    forall i | 0 <= i < |rs| ensures forall m :: m in rs[i].extraModifiers ==> ' ' in m {
      MapAt(qs, ResponseOf(root, source, extract), i);
      QuestionResponseSpec(root, qs[i], source, extract);
    }
    AllModifiersSpaced(rs);
    forall m | m in RoundOver(root, qs, source, extract).extraModifiers ensures |Split(m, ' ')| > 1 {
      SplitMoreThanOne(m, ' ');
    }
  }

  /** The first round's modifiers are duplicate-free and each has more than
      one word. */
  lemma FirstRoundModifiers(root: string, source: Source, extract: Extractor)
    ensures NoDup(FirstRound(root, source, extract).extraModifiers)
    ensures forall m :: m in FirstRound(root, source, extract).extraModifiers ==> ' ' in m && |Split(m, ' ')| > 1
  {
    RoundModifiers(root, QUESTIONS, source, extract);
  }

  /** The two probes for modifier `m`: the phrase `m * seed` with the caret
      after `m *` and at the end. */
  function ExtraProbes(root: string, m: string): (ps: seq<Probe>)
    ensures ps == [AtCaret(m + " * " + root, |m| + 2), AtCaret(m + " * " + root, |m| + 3 + |root|)]
  {
    var mod := m + " *";
    var seed := mod + " " + root;
    assert mod + " " == m + " * ";
    [AtCaret(seed, |mod|), AtCaret(seed, |seed|)]
  }

  function ExtraTrace(root: string, m: string): seq<Event> {
    var ps := ExtraProbes(root, m);
    [Query(ps[0]), Query(ps[1])]
  }

  /** `getExtraSuggestions`, as a value. */
  function ExtraResult(root: string, m: string, source: Source): seq<string> {
    var ps := ExtraProbes(root, m);
    Filter(Uniq(source(ps[0]) + source(ps[1])), Except(m + " " + root))
  }

  /** `getExtraSuggestions`: two probes, their results deduplicated, the
      phrase `m seed` dropped. */
  method GetExtraSuggestions(root: string, m: string, source: Source) returns (suggestions: seq<string>, trace: seq<Event>)
    ensures suggestions == ExtraResult(root, m, source)
    ensures trace == ExtraTrace(root, m)
  {
    suggestions := [];
    var mod := m + " *";
    var seed := mod + " " + root;
    var firstSuggestions := source(AtCaret(seed, |mod|));
    var secondSuggestions := source(AtCaret(seed, |seed|));
    trace := [Query(AtCaret(seed, |mod|)), Query(AtCaret(seed, |seed|))];
    assert trace == ExtraTrace(root, m);
    var merged := Uniq(firstSuggestions + secondSuggestions);
    assert merged == Uniq(source(ExtraProbes(root, m)[0]) + source(ExtraProbes(root, m)[1]));
    for i := 0 to |merged|
      invariant suggestions == Filter(merged[..i], Except(m + " " + root))
    {
      FilterPrefixStep(merged, i, Except(m + " " + root));
      if merged[i] != m + " " + root {
        suggestions := suggestions + [merged[i]];
      }
    }
    assert merged[..|merged|] == merged;
  }

  /** The results for one modifier: duplicate-free, exactly the results of
      its two probes other than `m seed`. */
  lemma ExtraResultSpec(root: string, m: string, source: Source)
    ensures var ps := ExtraProbes(root, m);
      && NoDup(ExtraResult(root, m, source))
      && forall x :: x in ExtraResult(root, m, source) <==> (x in source(ps[0]) || x in source(ps[1])) && x != m + " " + root
  {
    var ps := ExtraProbes(root, m);
    FilterNoDup(Uniq(source(ps[0]) + source(ps[1])), Except(m + " " + root));
    FilterMember(Uniq(source(ps[0]) + source(ps[1])), Except(m + " " + root));
  }

  function ExtraResultOf(root: string, source: Source): string -> seq<string> {
    m => ExtraResult(root, m, source)
  }

  function ExtraTraceOf(root: string): string -> seq<Event> {
    m => ExtraTrace(root, m)
  }

  /** `getSecondSuggestions`, as a value: the results of every modifier,
      concatenated in modifier order. */
  function SecondRound(root: string, mods: seq<string>, source: Source): seq<string> {
    Flatten(Map(mods, ExtraResultOf(root, source)))
  }

  function SecondRoundTrace(root: string, mods: seq<string>): seq<Event> {
    PoolTrace(Map(mods, ExtraTraceOf(root)))
  }

  /** The join of one wave of modifier tasks, in push order. */
  method JoinResults(suggestions: seq<string>, tasks: seq<seq<string>>) returns (suggestions': seq<string>)
    ensures suggestions' == suggestions + Flatten(tasks)
  {
    suggestions' := suggestions;
    for j := 0 to |tasks|
      invariant suggestions' == suggestions + Flatten(tasks[..j])
    {
      assert tasks[..j + 1][..j] == tasks[..j];
      suggestions' := suggestions' + tasks[j];
    }
    assert tasks[..|tasks|] == tasks;
  }

  /** `getSecondSuggestions`: one task per modifier, pooled like the first
      round. */
  method GetSecondSuggestions(root: string, mods: seq<string>, source: Source) returns (suggestions: seq<string>, trace: seq<Event>)
    ensures suggestions == SecondRound(root, mods, source)
    ensures trace == SecondRoundTrace(root, mods)
  {
    ghost var rs := Map(mods, ExtraResultOf(root, source));
    ghost var ts := Map(mods, ExtraTraceOf(root));
    suggestions := [];
    var tasks: seq<seq<string>> := [];
    trace := [];
    PooledStart(ts, rs);
    for k := 0 to |mods|
      invariant Pooled(ts, rs, k, trace, suggestions, tasks)
    {
      var result, events := GetExtraSuggestions(root, mods[k], source);
      MapAt(mods, ExtraResultOf(root, source), k);
      MapAt(mods, ExtraTraceOf(root), k);
      PooledPush(ts, rs, k, trace, suggestions, tasks, events, result);
      tasks := tasks + [result];
      trace := trace + events;
      if |tasks| > POOL_SIZE {
        suggestions := JoinResults(suggestions, tasks);
        trace := trace + [Wave(|tasks|), Sleep(WAVE_PAUSE)];
        tasks := [];
      }
    }
    PooledEnd(ts, rs, trace, suggestions, tasks);
    if |tasks| > 0 {
      suggestions := JoinResults(suggestions, tasks);
      trace := trace + [Wave(|tasks|)];
    }
  }

  /** For `n` modifiers the second round joins ceil(n/3) waves, pauses
      floor(n/3) times and issues two queries per modifier. */
  lemma SecondRoundCounts(root: string, mods: seq<string>)
    ensures WaveSizes(SecondRoundTrace(root, mods)) == ExpectedWaves(|mods|)
    ensures SleepCount(SecondRoundTrace(root, mods)) == |mods| / WAVE
    ensures QueryCount(SecondRoundTrace(root, mods)) == 2 * |mods|
  {
    var ts := Map(mods, ExtraTraceOf(root));
    forall i | 0 <= i < |ts| ensures QueriesOnly(ts[i]) && |ts[i]| == 2 {
      MapAt(mods, ExtraTraceOf(root), i);
    }
    PoolTraceCounts(ts);
    FlattenUniformLength(ts, 2);
  }

  /** The final filter: the first word is a question word, the suggestion is
      not the seed, what is left after removing the first occurrence of the
      seed and trimming has more than one word, and every word of the seed
      occurs in it. */
  predicate KeepSuggestion(root: string, sug: string) {
    && Split(sug, ' ')[0] in QUESTIONS
    && sug != root
    && |Split(Trim(ReplaceFirst(sug, root, "")), ' ')| > 1
    && forall word | word in Split(root, ' ') :: Contains(sug, word)
  }

  function KeepFor(root: string): string -> bool {
    sug => KeepSuggestion(root, sug)
  }

  /** Both rounds' suggestions, merged in order. */
  function MergedRounds(root: string, source: Source, extract: Extractor): seq<string> {
    var first := FirstRound(root, source, extract);
    first.suggestions + SecondRound(root, first.extraModifiers, source)
  }

  /** `getSuggestionsForQuestions`, as a value. */
  function QuestionsSuggestions(root: string, source: Source, extract: Extractor): seq<string> {
    Filter(Uniq(MergedRounds(root, source, extract)), KeepFor(root))
  }

  function QuestionsTrace(root: string, source: Source, extract: Extractor): seq<Event> {
    FirstRoundTrace(root) + SecondRoundTrace(root, FirstRound(root, source, extract).extraModifiers)
  }

  /** `getSuggestionsForQuestions`: the first round, the second round over
      its modifiers, then dedupe and the final filter. */
  method GetSuggestionsForQuestions(root: string, source: Source, extract: Extractor) returns (result: seq<string>, trace: seq<Event>)
    ensures result == QuestionsSuggestions(root, source, extract)
    ensures trace == QuestionsTrace(root, source, extract)
  {
    var firstSuggestions, firstTrace := GetFirstSuggestions(root, source, extract);
    var extraSuggestions, secondTrace := GetSecondSuggestions(root, firstSuggestions.extraModifiers, source);
    var suggestions := Uniq(firstSuggestions.suggestions + extraSuggestions);
    result := Filter(suggestions, KeepFor(root));
    trace := firstTrace + secondTrace;
  }

  /** The result is duplicate-free, every element passes the final filter,
      an element is kept exactly when some round returned it and it passes,
      and the elements keep the order of their first occurrences in the
      merged rounds. */
  lemma QuestionsSuggestionsSpec(root: string, source: Source, extract: Extractor)
    ensures var r := QuestionsSuggestions(root, source, extract);
      && NoDup(r)
      && (forall x :: x in r <==> x in MergedRounds(root, source, extract) && KeepSuggestion(root, x))
      && InFirstOccurrenceOrder(r, MergedRounds(root, source, extract))
  {
    var merged := MergedRounds(root, source, extract);
    FilterNoDup(Uniq(merged), KeepFor(root));
    FilterMember(Uniq(merged), KeepFor(root));
    UniqOrder(merged);
    FilterOrder(Uniq(merged), merged, KeepFor(root));
  }

  /** A kept suggestion starts with a question word, differs from the seed,
      and still holds a space once the seed is cut out and the rest trimmed. */
  lemma KeptSuggestionShape(root: string, sug: string)
    requires KeepSuggestion(root, sug)
    ensures Split(sug, ' ')[0] in QUESTION_WORDS
    ensures sug != root
    ensures ' ' in Trim(ReplaceFirst(sug, root, ""))
  {
    SplitMoreThanOne(Trim(ReplaceFirst(sug, root, "")), ' ');
  }
}
