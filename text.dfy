/** The fixed vocabularies and the n-gram tagger of app/src/shared/text.ts. */
module Text {
  import opened Seqs
  import opened Strings

  /** The letters substituted for a wildcard, in order. */
  const ALPHABET: seq<string> := [
    "a", "b", "c", "d", "e", "f", "g", "h", "i", "j", "k", "l", "m",
    "n", "o", "p", "q", "r", "s", "t", "u", "v", "w", "x", "y", "z"]

  /** `ALPHABET` is the 26 one-letter strings `a` to `z` in order. */
  lemma AlphabetLetters()
    ensures |ALPHABET| == 26
    ensures forall i | 0 <= i < |ALPHABET| :: ALPHABET[i] == [('a' as int + i) as char]
  {
  }

  /** The question words as listed, `can` twice. */
  const QUESTION_WORDS: seq<string> := [
    "how", "can", "when", "where", "what", "why", "is", "are", "does", "do",
    "will", "can", "could", "would", "should", "which", "who"]

  /** `QUESTIONS`: the list deduplicated, written out; `QuestionsValue`
      proves that this is what `uniq` makes of the listed words. */
  const QUESTIONS: seq<string> := [
    "how", "can", "when", "where", "what", "why", "is", "are", "does", "do",
    "will", "could", "would", "should", "which", "who"]

  /** The first eleven words are distinct, so the repeated `can` adds nothing. */
  lemma QuestionsHead(a: seq<string>)
    requires a == ["how", "can", "when", "where", "what", "why", "is", "are", "does", "do", "will"]
    ensures Uniq(a + ["can"]) == a
  {
    assert NoDup(a);
    UniqOfNoDup(a);
    assert (a + ["can"])[..11] == a;
    assert a[1] == "can";
  }

  /** The last five words are distinct and new. */
  lemma QuestionsTail(a: seq<string>, b: seq<string>)
    requires a == ["how", "can", "when", "where", "what", "why", "is", "are", "does", "do", "will", "can"]
    requires b == ["could", "would", "should", "which", "who"]
    ensures NoDup(b) && forall x :: x in b ==> x !in a
  {
  }

  /** Deduplication drops the second `can` and nothing else: 16 words in the
      order of their first occurrences. */
  lemma QuestionsValue()
    ensures Uniq(QUESTION_WORDS) == QUESTIONS
    ensures |QUESTIONS| == 16 && NoDup(QUESTIONS)
  {
    var a := ["how", "can", "when", "where", "what", "why", "is", "are", "does", "do", "will"];
    var b := ["could", "would", "should", "which", "who"];
    assert QUESTION_WORDS == (a + ["can"]) + b;
    QuestionsHead(a);
    QuestionsTail(a + ["can"], b);
    UniqAppendFresh(a + ["can"], b);
  }

  /** The phrase searched for a gram: `gram.replace(/_/g, ' ')`. */
  function Spaced(gram: string): string {
    ReplaceChar(gram, '_', ' ')
  }

  /** The part pushed for a gram: `gram.split(' ').join('_').toLowerCase()`. */
  function Tag(gram: string): string {
    ToLower(Join(Split(gram, ' '), '_'))
  }

  /** A tag holds no space and no upper-case letter. */
  lemma TagShape(gram: string)
    ensures ' ' !in Tag(gram)
    ensures forall c :: c in Tag(gram) ==> !IsUpper(c)
  {
    SplitJoin(gram, ' ');
    var joined := Join(Split(gram, ' '), '_');
    JoinAvoids(Split(gram, ' '), '_', ' ');
    assert forall j :: 0 <= j < |joined| ==> joined[j] != ' ';
  }

  /** The parts for `ngrams`: the tags of the grams the sentence matches, in
      order. `matches(sentence, phrase)` stands for a match of the
      word-boundary pattern built from `phrase`. */
  function PartsAndWords(sentence: string, ngrams: seq<string>, matches: (string, string) -> bool): seq<string> {
    if ngrams == [] then []
    else
      var gram := ngrams[|ngrams| - 1];
      PartsAndWords(sentence, ngrams[..|ngrams| - 1], matches)
        + (if matches(sentence, Spaced(gram)) then [Tag(gram)] else [])
  }

  /** `getPartsAndWords`: a loop pushing the tag of every matching gram. */
  method GetPartsAndWords(sentence: string, ngrams: seq<string>, matches: (string, string) -> bool)
    returns (parts: seq<string>)
    ensures parts == PartsAndWords(sentence, ngrams, matches)
  {
    parts := [];
    for i := 0 to |ngrams|
      invariant parts == PartsAndWords(sentence, ngrams[..i], matches)
    {
      assert ngrams[..i + 1][..i] == ngrams[..i];
      if matches(sentence, Spaced(ngrams[i])) {
        parts := parts + [Tag(ngrams[i])];
      }
    }
    assert ngrams[..|ngrams|] == ngrams;
  }

  /** The parts are exactly the tags of the matching grams, in the order of
      the grams: `idx` names the gram behind every part, strictly increasing,
      and every matching gram is named. No part is longer than the list of
      grams, and each is lower case without spaces. */
  lemma {:induction false} PartsAndWordsSpec(sentence: string, ngrams: seq<string>, matches: (string, string) -> bool)
    returns (idx: seq<nat>)
    ensures var parts := PartsAndWords(sentence, ngrams, matches);
      && |parts| <= |ngrams|
      && |idx| == |parts|
      && (forall k :: 0 <= k < |idx| ==>
            idx[k] < |ngrams| && matches(sentence, Spaced(ngrams[idx[k]])) && parts[k] == Tag(ngrams[idx[k]]))
      && (forall k, l :: 0 <= k < l < |idx| ==> idx[k] < idx[l])
      && (forall j :: 0 <= j < |ngrams| && matches(sentence, Spaced(ngrams[j])) ==> j in idx)
      && (forall p :: p in parts ==> ' ' !in p && forall c :: c in p ==> !IsUpper(c))
  {
    if ngrams == [] {
      idx := [];
    } else {
      var n := |ngrams| - 1;
      var init := ngrams[..n];
      var gram := ngrams[n];
      var prev := PartsAndWordsSpec(sentence, init, matches);
      var parts := PartsAndWords(sentence, ngrams, matches);
      TagShape(gram);
      if matches(sentence, Spaced(gram)) {
        idx := prev + [n];
      } else {
        idx := prev;
      }
      forall j | 0 <= j < |ngrams| && matches(sentence, Spaced(ngrams[j])) ensures j in idx {
        if j < n {
          assert init[j] == ngrams[j];
        }
      }
      forall k | 0 <= k < |prev|
        ensures idx[k] < |ngrams| && matches(sentence, Spaced(ngrams[idx[k]])) && parts[k] == Tag(ngrams[idx[k]])
      {
        assert ngrams[prev[k]] == init[prev[k]];
      }
    }
  }
}
