/** The autocomplete collaborator and the trace of what the strategies ask of
    it. The collaborator itself is not part of this model: a strategy is
    given it as a total function from a probe to the suggestions returned. */
module Suggest {

  /** A probe: a whole phrase (`getGoogleSuggestionsForPhrase`) or a phrase
      with the caret at a position (`getGoogleSuggest`). */
  datatype Probe = Phrase(text: string) | AtCaret(text: string, caret: int)

  /** What the autocomplete service returns for each probe. */
  type Source = Probe -> seq<string>

  /** One observable step: a query, a pause of `ms` milliseconds, or the
      join of a wave of `size` concurrent tasks (`Promise.all`). */
  datatype Event = Query(probe: Probe) | Sleep(ms: nat) | Wave(size: nat)

  function QueryCount(t: seq<Event>): nat {
    if t == [] then 0 else QueryCount(t[..|t| - 1]) + (if t[|t| - 1].Query? then 1 else 0)
  }

  function SleepCount(t: seq<Event>): nat {
    if t == [] then 0 else SleepCount(t[..|t| - 1]) + (if t[|t| - 1].Sleep? then 1 else 0)
  }

  /** The sizes of the waves in the order they were joined. */
  function WaveSizes(t: seq<Event>): seq<nat> {
    if t == [] then [] else WaveSizes(t[..|t| - 1]) + (if t[|t| - 1].Wave? then [t[|t| - 1].size] else [])
  }

  /** Only queries: no pauses and no joins. */
  predicate QueriesOnly(t: seq<Event>) {
    forall e | e in t :: e.Query?
  }

  /** The three counts add up over concatenated traces. */
  lemma {:induction false} CountsAppend(a: seq<Event>, b: seq<Event>)
    ensures QueryCount(a + b) == QueryCount(a) + QueryCount(b)
    ensures SleepCount(a + b) == SleepCount(a) + SleepCount(b)
    ensures WaveSizes(a + b) == WaveSizes(a) + WaveSizes(b)
    decreases |b|
  {
    if b == [] {
      assert a + b == a;
    } else {
      assert (a + b)[..|a + b| - 1] == a + b[..|b| - 1];
      CountsAppend(a, b[..|b| - 1]);
    }
  }

  /** A trace of queries alone counts each of its events as a query. */
  lemma {:induction false} QueriesOnlyCounts(t: seq<Event>)
    requires QueriesOnly(t)
    ensures QueryCount(t) == |t| && SleepCount(t) == 0 && WaveSizes(t) == []
  {
    if t != [] {
      assert QueriesOnly(t[..|t| - 1]);
      QueriesOnlyCounts(t[..|t| - 1]);
    }
  }
}
