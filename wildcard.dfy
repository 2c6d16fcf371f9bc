/** The wildcard strategy (app/src/services/utils/getSuggestionsForWildcard.ts):
    a seed holding `*` is expanded by querying it as a phrase and then, for
    one or two wildcards, substituting every letter of the alphabet. */
module Wildcard {
  import opened Seqs
  import opened Strings
  import opened Suggest
  import opened Text

  /** The pause before every letter query of the one-wildcard case. */
  const LETTER_PAUSE: nat := 400

  /** The number of wildcards: the length of the global match of `*`. */
  function StarCount(seed: string): nat {
    CountChar(seed, '*')
  }

  /** `includes('*')` holds exactly when there is at least one wildcard. */
  lemma HasStarIff(seed: string)
    ensures Contains(seed, "*") <==> StarCount(seed) > 0
  {
    IndexOfChar(seed, '*', 0);
    CountCharZero(seed, '*');
    assert seed[0..] == seed;
  }

  /** The text before and after the single wildcard, each trimmed:
      `rootSeed.split('*').map((part) => part.trim())`. */
  function OneStarParts(seed: string): (parts: (string, string))
    requires StarCount(seed) == 1
  {
    SplitJoin(seed, '*');
    var pieces := Split(seed, '*');
    (Trim(pieces[0]), Trim(pieces[1]))
  }

  /** The probe for `letter` with one wildcard: the letter between the two
      trimmed parts, trimmed again, with the caret just after the letter. */
  function OneStarProbe(parts: (string, string), letter: string): Probe {
    var mod := parts.0 + " " + letter;
    AtCaret(Trim(mod + " " + parts.1), |mod|)
  }

  /** The position of the second wildcard: `indexOf('*', indexOf('*') + 1)`. */
  function SecondStar(seed: string): (i: nat)
    requires StarCount(seed) == 2
    ensures i < |seed| && seed[i] == '*' && CountChar(seed[..i], '*') == 1
  {
    CountCharZero(seed, '*');
    IndexOfChar(seed, '*', 0);
    assert seed[0..] == seed;
    var i1 := IndexOf(seed, "*", 0);
    CountCharSplit(seed, i1, '*');
    CountCharZero(seed[..i1], '*');
    CountCharZero(seed[i1 + 1..], '*');
    IndexOfChar(seed, '*', i1 + 1);
    var i2 := IndexOf(seed, "*", i1 + 1);
    assert seed[..i2][..i1] == seed[..i1] && seed[..i2][i1 + 1..] == seed[i1 + 1..i2];
    CountCharSplit(seed[..i2], i1, '*');
    CountCharZero(seed[i1 + 1..i2], '*');
    i2
  }

  /** The probe for `letter` with two wildcards: the letter replaces the
      second `*` and the caret stands at its position. */
  function TwoStarProbe(seed: string, i: nat, letter: string): Probe
    requires i < |seed|
  {
    AtCaret(seed[..i] + letter + Trim(seed[i + 1..]), i)
  }

  /** The test `!s.includes('*')`, as membership of the character (see
      `ContainsChar`). */
  function NoStar(): string -> bool {
    s => '*' !in s
  }

  /** A string has no property `suggestion`: `uniqBy`'s key is undefined for
      every element. */
  function SuggestionKey(): string -> Option<string> {
    s => None
  }

  /** The results of the letter queries for `letters` with one wildcard. */
  function OneStarResults(parts: (string, string), source: Source, letters: seq<string>): seq<string> {
    if letters == [] then []
    else OneStarResults(parts, source, letters[..|letters| - 1]) + source(OneStarProbe(parts, letters[|letters| - 1]))
  }

  function OneStarTrace(parts: (string, string), letters: seq<string>): seq<Event> {
    if letters == [] then []
    else OneStarTrace(parts, letters[..|letters| - 1]) + [Sleep(LETTER_PAUSE), Query(OneStarProbe(parts, letters[|letters| - 1]))]
  }

  /** The results of the letter queries for `letters` with two wildcards, the
      second at `i`, those holding `*` dropped. */
  function TwoStarResults(seed: string, i: nat, source: Source, letters: seq<string>): seq<string>
    requires i < |seed|
  {
    if letters == [] then []
    else TwoStarResults(seed, i, source, letters[..|letters| - 1]) + Filter(source(TwoStarProbe(seed, i, letters[|letters| - 1])), NoStar())
  }

  function TwoStarTrace(seed: string, i: nat, letters: seq<string>): seq<Event>
    requires i < |seed|
  {
    if letters == [] then []
    else TwoStarTrace(seed, i, letters[..|letters| - 1]) + [Query(TwoStarProbe(seed, i, letters[|letters| - 1]))]
  }

  /** Whether the `seed *` variant is queried. */
  predicate QueriesVariant(seed: string) {
    !EndsWith(seed, "*") && StarCount(seed) == 1
  }

  /** Everything collected before the final filter, in push order. */
  function Collected(seed: string, source: Source): seq<string> {
    var main := source(Phrase(seed));
    var variant := if QueriesVariant(seed) then Filter(source(Phrase(seed + " *")), NotIn(main)) else [];
    var letters :=
      if StarCount(seed) == 1 then OneStarResults(OneStarParts(seed), source, ALPHABET)
      else if StarCount(seed) == 2 then TwoStarResults(seed, SecondStar(seed), source, ALPHABET)
      else [];
    main + variant + letters
  }

  function WildcardTrace(seed: string): seq<Event> {
    if !Contains(seed, "*") then []
    else
      [Query(Phrase(seed))]
      + (if QueriesVariant(seed) then [Query(Phrase(seed + " *"))] else [])
      + (if StarCount(seed) == 1 then OneStarTrace(OneStarParts(seed), ALPHABET)
         else if StarCount(seed) == 2 then TwoStarTrace(seed, SecondStar(seed), ALPHABET)
         else [])
  }

  function WildcardSuggestions(seed: string, source: Source): seq<string> {
    if !Contains(seed, "*") then []
    else UniqBy(Filter(Collected(seed, source), Except(seed)), SuggestionKey())
  }

  /** The loop over the alphabet with one wildcard, for the letters
      `letters` (the strategy passes `ALPHABET`): pause, query, push every
      result. */
  method OneStarLetters(parts: (string, string), letters: seq<string>, source: Source) returns (suggestions: seq<string>, trace: seq<Event>)
    ensures suggestions == OneStarResults(parts, source, letters)
    ensures trace == OneStarTrace(parts, letters)
  {
    suggestions, trace := [], [];
    for k := 0 to |letters|
      invariant suggestions == OneStarResults(parts, source, letters[..k])
      invariant trace == OneStarTrace(parts, letters[..k])
    {
      assert letters[..k + 1][..k] == letters[..k];
      trace := trace + [Sleep(LETTER_PAUSE)];
      var probe := OneStarProbe(parts, letters[k]);
      var got := source(probe);
      trace := trace + [Query(probe)];
      var upTo := suggestions;
      for j := 0 to |got|
        invariant suggestions == upTo + got[..j]
      {
        suggestions := suggestions + [got[j]];
      }
      assert got[..|got|] == got;
    }
    assert letters[..|letters|] == letters;
  }

  /** One more letter with two wildcards: its query, and its results that
      hold no `*`. */
  lemma TwoStarStep(seed: string, i: nat, source: Source, letters: seq<string>, k: nat)
    requires i < |seed| && k < |letters|
    ensures TwoStarResults(seed, i, source, letters[..k + 1])
      == TwoStarResults(seed, i, source, letters[..k]) + Filter(source(TwoStarProbe(seed, i, letters[k])), NoStar())
    ensures TwoStarTrace(seed, i, letters[..k + 1]) == TwoStarTrace(seed, i, letters[..k]) + [Query(TwoStarProbe(seed, i, letters[k]))]
  {
    assert letters[..k + 1][..k] == letters[..k];
  }

  /** The loop over the alphabet with two wildcards, the second at `i`, for
      the letters `letters` (the strategy passes `ALPHABET`): query, then
      push every result that holds no `*`. */
  method TwoStarLetters(seed: string, i: nat, letters: seq<string>, source: Source) returns (suggestions: seq<string>, trace: seq<Event>)
    requires i < |seed|
    ensures suggestions == TwoStarResults(seed, i, source, letters)
    ensures trace == TwoStarTrace(seed, i, letters)
  {
    suggestions, trace := [], [];
    for k := 0 to |letters|
      invariant suggestions == TwoStarResults(seed, i, source, letters[..k])
      invariant trace == TwoStarTrace(seed, i, letters[..k])
    {
      TwoStarStep(seed, i, source, letters, k);
      var probe := TwoStarProbe(seed, i, letters[k]);
      var got := source(probe);
      trace := trace + [Query(probe)];
      var upTo := suggestions;
      for j := 0 to |got|
        invariant suggestions == upTo + Filter(got[..j], NoStar())
      {
        assert got[..j + 1][..j] == got[..j];
        if '*' in got[j] {
          continue;
        }
        suggestions := suggestions + [got[j]];
      }
      assert got[..|got|] == got;
    }
    assert letters[..|letters|] == letters;
  }

  /** `getSuggestionsForWildcard`. */
  method GetSuggestionsForWildcard(seed: string, source: Source) returns (result: seq<string>, trace: seq<Event>)
    ensures result == WildcardSuggestions(seed, source)
    ensures trace == WildcardTrace(seed)
  {
    var suggestions: seq<string> := [];
    trace := [];
    if !Contains(seed, "*") {
      return suggestions, trace;
    }
    var wildcardCount := StarCount(seed);
    var main := source(Phrase(seed));
    trace := trace + [Query(Phrase(seed))];
    for i := 0 to |main|
      invariant suggestions == main[..i]
    {
      suggestions := suggestions + [main[i]];
    }
    assert main[..|main|] == main;
    ghost var unseenPart: seq<string> := [];
    ghost var variantEvents: seq<Event> := [];
    if !EndsWith(seed, "*") && wildcardCount == 1 {
      var variant := source(Phrase(seed + " *"));
      trace := trace + [Query(Phrase(seed + " *"))];
      var unseen := Filter(variant, NotIn(main));
      for i := 0 to |unseen|
        invariant suggestions == main + unseen[..i]
      {
        suggestions := suggestions + [unseen[i]];
      }
      assert unseen[..|unseen|] == unseen;
      unseenPart := unseen;
      variantEvents := [Query(Phrase(seed + " *"))];
    }
    assert suggestions == main + unseenPart;
    assert trace == [Query(Phrase(seed))] + variantEvents;
    if wildcardCount == 1 {
      var parts := OneStarParts(seed);
      var got, events := OneStarLetters(parts, ALPHABET, source);
      suggestions := suggestions + got;
      trace := trace + events;
    } else if wildcardCount == 2 {
      var indexOfSecondWildcard := SecondStar(seed);
      var got, events := TwoStarLetters(seed, indexOfSecondWildcard, ALPHABET, source);
      suggestions := suggestions + got;
      trace := trace + events;
    }
    assert suggestions == Collected(seed, source);
    assert trace == WildcardTrace(seed);
    var filtered := Filter(suggestions, Except(seed));
    result := UniqBy(filtered, SuggestionKey());
  }

  /** With one wildcard, every letter query is preceded by a pause, and the
      letters are taken in order. */
  lemma {:induction false} OneStarTraceShape(parts: (string, string), letters: seq<string>)
    ensures |OneStarTrace(parts, letters)| == 2 * |letters|
    ensures forall i :: 0 <= i < |letters| ==>
      OneStarTrace(parts, letters)[2 * i] == Sleep(LETTER_PAUSE)
      && OneStarTrace(parts, letters)[2 * i + 1] == Query(OneStarProbe(parts, letters[i]))
  {
    if letters != [] {
      var init := letters[..|letters| - 1];
      OneStarTraceShape(parts, init);
      forall i | 0 <= i < |init| ensures init[i] == letters[i] { }
    }
  }

  /** With one wildcard there are as many pauses as letter queries, and no
      join. */
  lemma {:induction false} OneStarTraceCounts(parts: (string, string), letters: seq<string>)
    ensures QueryCount(OneStarTrace(parts, letters)) == |letters|
    ensures SleepCount(OneStarTrace(parts, letters)) == |letters|
    ensures WaveSizes(OneStarTrace(parts, letters)) == []
  {
    if letters != [] {
      var init := letters[..|letters| - 1];
      OneStarTraceCounts(parts, init);
      var pair := [Sleep(LETTER_PAUSE), Query(OneStarProbe(parts, letters[|letters| - 1]))];
      CountsAppend(OneStarTrace(parts, init), pair);
      var pause: seq<Event> := [Sleep(LETTER_PAUSE)];
      assert pause[..0] == [];
      assert QueryCount(pause) == 0 && SleepCount(pause) == 1 && WaveSizes(pause) == [];
      assert pair[..1] == pause;
    }
  }

  /** With two wildcards there is one query per letter, in order, and no pause. */
  lemma {:induction false} TwoStarTraceShape(seed: string, i: nat, letters: seq<string>)
    requires i < |seed|
    ensures |TwoStarTrace(seed, i, letters)| == |letters|
    ensures forall k :: 0 <= k < |letters| ==> TwoStarTrace(seed, i, letters)[k] == Query(TwoStarProbe(seed, i, letters[k]))
    ensures QueriesOnly(TwoStarTrace(seed, i, letters))
  {
    if letters != [] {
      var init := letters[..|letters| - 1];
      TwoStarTraceShape(seed, i, init);
      forall k | 0 <= k < |init| ensures init[k] == letters[k] { }
    }
  }

  /** No result of the two-wildcard letter queries that is kept holds `*`. */
  lemma {:induction false} TwoStarResultsNoStar(seed: string, i: nat, source: Source, letters: seq<string>)
    requires i < |seed|
    ensures forall x :: x in TwoStarResults(seed, i, source, letters) ==> !Contains(x, "*")
  {
    if letters != [] {
      TwoStarResultsNoStar(seed, i, source, letters[..|letters| - 1]);
      FilterMember(source(TwoStarProbe(seed, i, letters[|letters| - 1])), NoStar());
      forall x | x in TwoStarResults(seed, i, source, letters) ensures !Contains(x, "*") {
        ContainsChar(x, '*');
      }
    }
  }

  /** The queries the strategy issues: none without a wildcard; otherwise the
      main phrase first, and with three or more wildcards nothing else. */
  lemma WildcardTraceSpec(seed: string)
    ensures StarCount(seed) == 0 ==> WildcardTrace(seed) == []
    ensures StarCount(seed) > 0 ==> |WildcardTrace(seed)| > 0 && WildcardTrace(seed)[0] == Query(Phrase(seed))
    ensures StarCount(seed) >= 3 ==> WildcardTrace(seed) == [Query(Phrase(seed))]
  {
    HasStarIff(seed);
  }

  /** The main phrase and, unless the seed ends with `*`, the `seed *`
      variant: queries only. */
  function HeadTrace(seed: string): seq<Event> {
    [Query(Phrase(seed))] + (if QueriesVariant(seed) then [Query(Phrase(seed + " *"))] else [])
  }

  lemma HeadTraceCounts(seed: string)
    ensures QueryCount(HeadTrace(seed)) == (if QueriesVariant(seed) then 2 else 1)
    ensures SleepCount(HeadTrace(seed)) == 0
  {
    QueriesOnlyCounts(HeadTrace(seed));
  }

  /** With one wildcard: the main phrase, the `seed *` variant unless the
      seed ends with `*`, and 26 letter queries each after a pause. */
  lemma WildcardTraceOneStar(seed: string)
    requires StarCount(seed) == 1
    ensures QueryCount(WildcardTrace(seed)) == (if EndsWith(seed, "*") then 27 else 28)
    ensures SleepCount(WildcardTrace(seed)) == 26
  {
    HasStarIff(seed);
    HeadTraceCounts(seed);
    AlphabetLetters();
    OneStarTraceCounts(OneStarParts(seed), ALPHABET);
    CountsAppend(HeadTrace(seed), OneStarTrace(OneStarParts(seed), ALPHABET));
    assert WildcardTrace(seed) == HeadTrace(seed) + OneStarTrace(OneStarParts(seed), ALPHABET);
  }

  /** With two wildcards: the main phrase and 26 letter queries, no pause. */
  lemma WildcardTraceTwoStars(seed: string)
    requires StarCount(seed) == 2
    ensures QueryCount(WildcardTrace(seed)) == 27 && SleepCount(WildcardTrace(seed)) == 0
  {
    HasStarIff(seed);
    HeadTraceCounts(seed);
    AlphabetLetters();
    var letters := TwoStarTrace(seed, SecondStar(seed), ALPHABET);
    TwoStarTraceShape(seed, SecondStar(seed), ALPHABET);
    QueriesOnlyCounts(letters);
    CountsAppend(HeadTrace(seed), letters);
    assert WildcardTrace(seed) == HeadTrace(seed) + letters;
  }

  /** The result holds at most one suggestion: the first collected one that
      differs from the seed, whichever query returned it. Main-phrase results
      lead, so a main result other than the seed always wins, and nothing is
      returned only when every collected suggestion equals the seed. */
  lemma WildcardSuggestionsSpec(seed: string, source: Source)
    ensures var r := WildcardSuggestions(seed, source);
      && |r| <= 1
      && (Contains(seed, "*") ==>
            && r == FirstOnly(Filter(Collected(seed, source), Except(seed)))
            && (r == [] <==> forall x :: x in Collected(seed, source) ==> x == seed)
            && (r != [] ==> r[0] != seed && r[0] in Collected(seed, source)))
      && (forall i :: 0 <= i < |Collected(seed, source)| && Contains(seed, "*")
            && Collected(seed, source)[i] != seed
            && (forall j :: 0 <= j < i ==> Collected(seed, source)[j] == seed)
            ==> r == [Collected(seed, source)[i]])
      && (forall i :: 0 <= i < |source(Phrase(seed))| && Contains(seed, "*")
            && source(Phrase(seed))[i] != seed
            && (forall j :: 0 <= j < i ==> source(Phrase(seed))[j] == seed)
            ==> r == [source(Phrase(seed))[i]])
  {
    var all := Collected(seed, source);
    var filtered := Filter(all, Except(seed));
    FilterMember(all, Except(seed));
    UniqByConstantKey(filtered, SuggestionKey(), None);
    var main := source(Phrase(seed));
    forall i | 0 <= i < |main| && Contains(seed, "*") && main[i] != seed
        && (forall j :: 0 <= j < i ==> main[j] == seed)
      ensures WildcardSuggestions(seed, source) == [main[i]]
    {
      assert all[i] == main[i];
      assert forall j :: 0 <= j < i ==> all[j] == main[j];
      FilterFirst(all, Except(seed), i);
    }
    forall i | 0 <= i < |all| && Contains(seed, "*") && all[i] != seed
        && (forall j :: 0 <= j < i ==> all[j] == seed)
      ensures WildcardSuggestions(seed, source) == [all[i]]
    {
      FilterFirst(all, Except(seed), i);
    }
    if Contains(seed, "*") && filtered != [] {
      assert filtered[0] in filtered;
    }
  }

  /** The `seed *` variant contributes only suggestions the main phrase did
      not already return. */
  lemma VariantAddsOnlyNew(seed: string, source: Source)
    requires QueriesVariant(seed)
    ensures forall x :: x in Collected(seed, source)[|source(Phrase(seed))|..] && x in source(Phrase(seed)) ==>
      x in OneStarResults(OneStarParts(seed), source, ALPHABET)
  {
    var main := source(Phrase(seed));
    var variant := Filter(source(Phrase(seed + " *")), NotIn(main));
    FilterMember(source(Phrase(seed + " *")), NotIn(main));
    var letters := OneStarResults(OneStarParts(seed), source, ALPHABET);
    assert Collected(seed, source)[|main|..] == variant + letters;
  }
}
