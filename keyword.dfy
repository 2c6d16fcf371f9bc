/** Keyword normalisation: `cleanKeyword` and `updateKeywordYear`
    (app/src/shared/keyword.ts). Both are pure string functions. */
module Keyword {
  import opened Strings

  /** The three characters a possessive leaves before the next word. */
  const POSSESSIVE: string := "'s "

  /** `.replace(/'s /g, '')`: every occurrence of apostrophe, `s`, space is
      deleted, scanning left to right without overlaps. */
  function RemovePossessives(s: string): (r: string)
    ensures |r| <= |s|
    ensures forall c :: c in r ==> c in s
  {
    if |s| >= 3 && s[..3] == POSSESSIVE then RemovePossessives(s[3..])
    else if s == [] then []
    else [s[0]] + RemovePossessives(s[1..])
  }

  /** The character class `[a-z\d-'\s\\]` under the `i` flag, plus `*` when
      the wildcard character is allowed (`[a-z\d-'\s*\\]`). The `-` after
      `\d` cannot form a range with a class escape, so it is a literal hyphen. */
  predicate InKeywordClass(c: char, allowAsterisk: bool) {
    || ('a' <= c <= 'z') || IsUpper(c) || IsDigit(c) || c == '-' || c == '\''
    || IsSpace(c) || c == '\\' || (allowAsterisk && c == '*')
  }

  /** `.replace(/[^...]/gi, '')`: drop every character outside the class. */
  function KeepKeywordClass(s: string, allowAsterisk: bool): (r: string)
    ensures forall c :: c in r ==> c in s && InKeywordClass(c, allowAsterisk)
  {
    if s == [] then []
    else (if InKeywordClass(s[0], allowAsterisk) then [s[0]] else []) + KeepKeywordClass(s[1..], allowAsterisk)
  }

  /** No two white-space characters stand next to each other. */
  predicate NoDoubleSpace(s: string) {
    forall i :: 0 <= i < |s| - 1 ==> !(IsSpace(s[i]) && IsSpace(s[i + 1]))
  }

  /** `.replace(/\s+/gi, ' ')`: every run of white space becomes one space. */
  function CollapseSpaces(s: string): (r: string)
    ensures r == [] <==> s == []
    decreases |s|
  {
    if s == [] then []
    else if IsSpace(s[0]) then " " + CollapseSpaces(TrimStart(s[1..]))
    else [s[0]] + CollapseSpaces(s[1..])
  }

  /** After collapsing, every character is a plain space or a non-space
      character of the input. */
  lemma {:induction false} CollapseSpacesChars(s: string)
    ensures forall c :: c in CollapseSpaces(s) ==> c == ' ' || (c in s && !IsSpace(c))
    decreases |s|
  {
    if s != [] {
      var t := if IsSpace(s[0]) then TrimStart(s[1..]) else s[1..];
      TrimStartSpec(s[1..]);
      CollapseSpacesChars(t);
      assert forall c :: c in t ==> c in s;
    }
  }

  /** The collapsed text starts with white space exactly when the input does. */
  lemma CollapseSpacesFirst(s: string)
    requires s != []
    ensures IsSpace(CollapseSpaces(s)[0]) <==> IsSpace(s[0])
  {
  }

  lemma NoDoubleSpaceCons(c: char, rest: string)
    requires NoDoubleSpace(rest)
    requires rest == [] || !IsSpace(c) || !IsSpace(rest[0])
    ensures NoDoubleSpace([c] + rest)
  {
    var r := [c] + rest;
    forall i | 1 <= i < |r| - 1 ensures !(IsSpace(r[i]) && IsSpace(r[i + 1])) {
      assert r[i] == rest[i - 1] && r[i + 1] == rest[i];
    }
  }

  /** After collapsing, no two white-space characters stand next to each other. */
  lemma {:induction false} CollapseSpacesNoDouble(s: string)
    ensures NoDoubleSpace(CollapseSpaces(s))
    decreases |s|
  {
    if s != [] {
      if IsSpace(s[0]) {
        var t := TrimStart(s[1..]);
        TrimStartSpec(s[1..]);
        CollapseSpacesNoDouble(t);
        if t != [] {
          CollapseSpacesFirst(t);
        }
        NoDoubleSpaceCons(' ', CollapseSpaces(t));
      } else {
        CollapseSpacesNoDouble(s[1..]);
        NoDoubleSpaceCons(s[0], CollapseSpaces(s[1..]));
      }
    }
  }

  /** `.replace(/\\/g, '')`. */
  function RemoveBackslashes(s: string): (r: string)
    ensures forall c :: c in r ==> c in s && c != '\\'
  {
    if s == [] then [] else (if s[0] == '\\' then [] else [s[0]]) + RemoveBackslashes(s[1..])
  }

  /** `cleanKeyword(kw, allowAsterisk, removeScapeChar)`. */
  function CleanKeyword(kw: string, allowAsterisk: bool, removeScapeChar: bool): (r: string)
    ensures Trim(kw) == "" ==> r == ""
  {
    if Trim(kw) == "" then ""
    else
      var k := CollapseSpaces(KeepKeywordClass(RemovePossessives(ToLower(Trim(kw))), allowAsterisk));
      if removeScapeChar then RemoveBackslashes(k) else k
  }

  /** The characters a cleaned keyword may hold. */
  predicate CleanChar(c: char, allowAsterisk: bool) {
    || ('a' <= c <= 'z') || IsDigit(c) || c == '-' || c == '\'' || c == ' ' || c == '\\'
    || (allowAsterisk && c == '*')
  }

  /** A cleaned keyword holds only lower-case ASCII letters, digits, `-`, `'`,
      plain spaces and backslashes, plus `*` only when it is allowed; no
      backslash is left when escape characters are removed. */
  lemma CleanKeywordCharacters(kw: string, allowAsterisk: bool, removeScapeChar: bool)
    ensures forall c :: c in CleanKeyword(kw, allowAsterisk, removeScapeChar) ==>
      CleanChar(c, allowAsterisk) && !IsUpper(c) && (removeScapeChar ==> c != '\\')
  {
    if Trim(kw) != "" {
      var low := ToLower(Trim(kw));
      assert forall c :: c in low ==> !IsUpper(c);
      var kept := KeepKeywordClass(RemovePossessives(low), allowAsterisk);
      assert forall c :: c in kept ==> !IsUpper(c) && InKeywordClass(c, allowAsterisk);
      CollapseSpacesChars(kept);
    }
  }

  /** Without escape removal, a cleaned keyword never has two white-space
      characters in a row. */
  lemma CleanKeywordSingleSpaces(kw: string, allowAsterisk: bool)
    ensures NoDoubleSpace(CleanKeyword(kw, allowAsterisk, false))
  {
    if Trim(kw) != "" {
      CollapseSpacesNoDouble(KeepKeywordClass(RemovePossessives(ToLower(Trim(kw))), allowAsterisk));
    }
  }

  /** Deleting possessives, keeping the class and collapsing white space never
      touch a backslash. */
  lemma {:induction false} RemovePossessivesKeepsBackslashes(s: string)
    ensures CountChar(RemovePossessives(s), '\\') == CountChar(s, '\\')
  {
    if |s| >= 3 && s[..3] == POSSESSIVE {
      RemovePossessivesKeepsBackslashes(s[3..]);
      assert s == s[..3] + s[3..];
      CountCharAppend(s[..3], s[3..], '\\');
    } else if s != [] {
      RemovePossessivesKeepsBackslashes(s[1..]);
      CountCharAppend([s[0]], RemovePossessives(s[1..]), '\\');
    }
  }

  lemma {:induction false} KeepKeywordClassKeepsBackslashes(s: string, allowAsterisk: bool)
    ensures CountChar(KeepKeywordClass(s, allowAsterisk), '\\') == CountChar(s, '\\')
  {
    if s != [] {
      KeepKeywordClassKeepsBackslashes(s[1..], allowAsterisk);
      CountCharAppend(if InKeywordClass(s[0], allowAsterisk) then [s[0]] else [],
        KeepKeywordClass(s[1..], allowAsterisk), '\\');
    }
  }

  lemma {:induction false} TrimStartKeepsBackslashes(s: string)
    ensures CountChar(TrimStart(s), '\\') == CountChar(s, '\\')
  {
    if s != [] && IsSpace(s[0]) {
      TrimStartKeepsBackslashes(s[1..]);
    }
  }

  lemma {:induction false} TrimEndKeepsBackslashes(s: string)
    ensures CountChar(TrimEnd(s), '\\') == CountChar(s, '\\')
  {
    if s != [] && IsSpace(s[|s| - 1]) {
      TrimEndKeepsBackslashes(s[..|s| - 1]);
      assert s == s[..|s| - 1] + [s[|s| - 1]];
      CountCharAppend(s[..|s| - 1], [s[|s| - 1]], '\\');
    }
  }

  lemma {:induction false} ToLowerKeepsBackslashes(s: string)
    ensures CountChar(ToLower(s), '\\') == CountChar(s, '\\')
  {
    if s != [] {
      ToLowerKeepsBackslashes(s[1..]);
      assert ToLower(s)[1..] == ToLower(s[1..]);
    }
  }

  lemma {:induction false} CollapseSpacesKeepsBackslashes(s: string)
    ensures CountChar(CollapseSpaces(s), '\\') == CountChar(s, '\\')
    decreases |s|
  {
    if s != [] {
      if IsSpace(s[0]) {
        var t := TrimStart(s[1..]);
        CollapseSpacesKeepsBackslashes(t);
        TrimStartKeepsBackslashes(s[1..]);
        CountCharAppend(" ", CollapseSpaces(t), '\\');
      } else {
        CollapseSpacesKeepsBackslashes(s[1..]);
        CountCharAppend([s[0]], CollapseSpaces(s[1..]), '\\');
      }
    }
  }

  /** Without escape removal every backslash of a non-blank keyword survives
      cleaning. */
  lemma CleanKeywordKeepsBackslashes(kw: string, allowAsterisk: bool)
    requires Trim(kw) != ""
    ensures CountChar(CleanKeyword(kw, allowAsterisk, false), '\\') == CountChar(kw, '\\')
  {
    TrimStartKeepsBackslashes(kw);
    TrimEndKeepsBackslashes(TrimStart(kw));
    var low := ToLower(Trim(kw));
    ToLowerKeepsBackslashes(Trim(kw));
    RemovePossessivesKeepsBackslashes(low);
    KeepKeywordClassKeepsBackslashes(RemovePossessives(low), allowAsterisk);
    CollapseSpacesKeepsBackslashes(KeepKeywordClass(RemovePossessives(low), allowAsterisk));
  }

  /** `s` holds no possessive marker anywhere. */
  predicate NoPossessive(s: string) {
    forall i | 0 <= i <= |s| :: !OccursAt(s, POSSESSIVE, i)
  }

  /** Text that does not start with a marker keeps its first character. */
  lemma RemovePossessivesKeepsFirst(s: string)
    requires s != [] && !(|s| >= 3 && s[..3] == POSSESSIVE)
    ensures RemovePossessives(s) == [s[0]] + RemovePossessives(s[1..])
  {
  }

  /** Text that starts with a character of a marker-free `a` does not start
      with a marker. */
  lemma NoMarkerAtStart(a: string, b: string)
    requires NoPossessive(a) && a != []
    ensures (a + POSSESSIVE + b)[..3] != POSSESSIVE
  {
    var s := a + POSSESSIVE + b;
    if |a| >= 3 {
      assert s[..3] == a[0..0 + |POSSESSIVE|];
      assert !OccursAt(a, POSSESSIVE, 0);
    } else if |a| == 2 {
      assert s[2] == '\'';
    } else {
      assert s[1] == '\'';
    }
  }

  /** Dropping the first character keeps text free of markers. */
  lemma NoPossessiveTail(a: string)
    requires NoPossessive(a) && a != []
    ensures NoPossessive(a[1..])
  {
    forall i | 0 <= i <= |a[1..]| ensures !OccursAt(a[1..], POSSESSIVE, i) {
      if OccursAt(a[1..], POSSESSIVE, i) {
        assert a[1..][i..i + 3] == a[i + 1..i + 4];
        assert OccursAt(a, POSSESSIVE, i + 1);
      }
    }
  }

  /** The first possessive marker is deleted together with its trailing space,
      and what precedes it is kept as it is. */
  lemma {:induction false} RemovePossessivesDeletesMarker(a: string, b: string)
    requires NoPossessive(a)
    ensures RemovePossessives(a + POSSESSIVE + b) == a + RemovePossessives(b)
  {
    if a == [] {
      assert (a + POSSESSIVE + b)[3..] == b;
    } else {
      var s := a + POSSESSIVE + b;
      NoMarkerAtStart(a, b);
      NoPossessiveTail(a);
      RemovePossessivesDeletesMarker(a[1..], b);
      assert s[1..] == a[1..] + POSSESSIVE + b;
      RemovePossessivesKeepsFirst(s);
      assert s[0] == a[0] && [a[0]] + a[1..] == a;
    }
  }

  /** Text without a possessive marker passes through unchanged. */
  lemma {:induction false} RemovePossessivesNone(s: string)
    requires NoPossessive(s)
    ensures RemovePossessives(s) == s
  {
    if s != [] {
      assert !OccursAt(s, POSSESSIVE, 0);
      NoPossessiveTail(s);
      RemovePossessivesNone(s[1..]);
    }
  }

  /** A character of `\w`. */
  predicate IsWordChar(c: char) {
    ('a' <= c <= 'z') || IsUpper(c) || IsDigit(c) || c == '_'
  }

  /** `\b<w>\b` matches at position `i` (for a `w` that begins and ends with
      a word character). */
  predicate WholeWordAt(s: string, w: string, i: int) {
    && OccursAt(s, w, i)
    && (i == 0 || !IsWordChar(s[i - 1]))
    && (i + |w| == |s| || !IsWordChar(s[i + |w|]))
  }

  predicate HasWholeWord(s: string, w: string) {
    exists i | 0 <= i <= |s| :: WholeWordAt(s, w, i)
  }

  /** `updateKeywordYear`: when `2021` occurs as a whole word, the first
      substring `2021` becomes `2022`; otherwise the same for `2020`. */
  function UpdateKeywordYear(sug: string): string {
    if HasWholeWord(sug, "2021") then ReplaceFirst(sug, "2021", "2022")
    else if HasWholeWord(sug, "2020") then ReplaceFirst(sug, "2020", "2022")
    else sug
  }

  /** The stale year `y` occurs first at `i`, and `r` is `s` with that one
      occurrence turned into `2022`. */
  predicate YearReplacedAt(s: string, r: string, y: string, i: int) {
    && |y| == 4
    && OccursAt(s, y, i)
    && (forall k :: 0 <= k < i ==> !OccursAt(s, y, k))
    && r == s[..i] + "2022" + s[i + 4..]
  }

  /** Turning the stale year at `i` into `2022` changes only its last digit. */
  lemma {:induction false} YearDigitChanged(s: string, y: string, i: int)
    requires |y| == 4 && y[..3] == "202" && OccursAt(s, y, i)
    ensures var r := s[..i] + "2022" + s[i + 4..];
      |r| == |s| && forall j :: 0 <= j < |s| && j != i + 3 ==> r[j] == s[j]
  {
    var r := s[..i] + "2022" + s[i + 4..];
    forall j | 0 <= j < |s| && j != i + 3 ensures r[j] == s[j] {
      if i <= j < i + 3 {
        assert r[j] == "2022"[j - i];
        assert s[j] == s[i..i + 4][j - i] == y[j - i];
      }
    }
  }

  /** A whole-word occurrence is an occurrence, so the search for the first
      substring finds one. */
  lemma FirstYearFound(s: string, y: string)
    requires HasWholeWord(s, y)
    ensures var i := IndexOf(s, y, 0);
      (i >= 0 && OccursAt(s, y, i) && forall k :: 0 <= k < i ==> !OccursAt(s, y, k))
  {
    var w :| 0 <= w <= |s| && WholeWordAt(s, y, w);
    assert OccursAt(s, y, w);
    IndexOfSpec(s, y, 0);
  }

  /** `updateKeywordYear` keeps the length and makes at most one substitution:
      a whole-word `2021` wins over `2020`, and without either whole word the
      text is returned unchanged. Only the last digit of the replaced year
      changes, so no other character moves. */
  lemma UpdateKeywordYearSpec(s: string)
    ensures var r := UpdateKeywordYear(s);
      && |r| == |s|
      && (HasWholeWord(s, "2021") ==> YearReplacedAt(s, r, "2021", IndexOf(s, "2021", 0)))
      && (!HasWholeWord(s, "2021") && HasWholeWord(s, "2020") ==>
            YearReplacedAt(s, r, "2020", IndexOf(s, "2020", 0)))
      && (!HasWholeWord(s, "2021") && !HasWholeWord(s, "2020") ==> r == s)
      && (forall j, k :: 0 <= j < k < |s| ==> r[j] == s[j] || r[k] == s[k])
  {
    if HasWholeWord(s, "2021") {
      FirstYearFound(s, "2021");
      YearDigitChanged(s, "2021", IndexOf(s, "2021", 0));
    } else if HasWholeWord(s, "2020") {
      FirstYearFound(s, "2020");
      YearDigitChanged(s, "2020", IndexOf(s, "2020", 0));
    }
  }

  /** `2020` holds no `1`. */
  lemma NoOneIn2020(s: string, k: int)
    requires OccursAt(s, "2020", k)
    ensures forall j :: k <= j < k + 4 ==> s[j] != '1'
  {
    forall j | k <= j < k + 4 ensures s[j] != '1' {
      assert s[j] == "2020"[j - k];
    }
  }

  /** When both years are whole words, every `2020` is left as it was: the
      changed digit is the `1` of a `2021`, and `2020` holds no `1`. */
  lemma UpdateKeywordYearKeeps2020(s: string, k: int)
    requires HasWholeWord(s, "2021") && OccursAt(s, "2020", k)
    ensures OccursAt(UpdateKeywordYear(s), "2020", k)
  {
    UpdateKeywordYearSpec(s);
    NoOneIn2020(s, k);
    var r := UpdateKeywordYear(s);
    var i := IndexOf(s, "2021", 0);
    assert s[i + 3] == '1';
    assert r[i + 3] != s[i + 3];
    forall j | k <= j < k + 4 ensures r[j] == s[j] {
      assert j != i + 3;
    }
    assert r[k..k + 4] == s[k..k + 4];
  }

  /** The trailing `2021` of `x2021 2021` is a whole word. */
  lemma ExampleHasWholeYear()
    ensures HasWholeWord("x2021 2021", "2021")
  {
    var s := "x2021 2021";
    assert s[6..10] == "2021" && s[5] == ' ';
    assert WholeWordAt(s, "2021", 6);
  }

  /** The first substring `2021` of `x2021 2021` starts at 1. */
  lemma ExampleFirstYear()
    ensures IndexOf("x2021 2021", "2021", 0) == 1
  {
    var s := "x2021 2021";
    assert s[1..5] == "2021";
    assert s[0..4] != "2021" by { assert s[0..4][0] == 'x'; }
    assert IndexOf(s, "2021", 1) == 1;
  }

  /** The substitution hits the first substring `2021`, which need not be the
      whole word that triggered it. */
  lemma UpdateKeywordYearFirstSubstring()
    ensures UpdateKeywordYear("x2021 2021") == "x2022 2021"
  {
    ExampleHasWholeYear();
    ExampleFirstYear();
    var s := "x2021 2021";
    assert s[..1] + "2022" + s[5..] == "x2022 2021";
  }

  /** The example keyword `a \ b` is already trimmed and lower case, and holds
      neither a possessive nor a character outside the class. */
  lemma EscapeExamplePrefix()
    ensures KeepKeywordClass(RemovePossessives(ToLower(Trim("a \\ b"))), false) == "a \\ b"
  {
    assert TrimStart("a \\ b") == "a \\ b";
    assert TrimEnd("a \\ b") == "a \\ b";
    assert ToLower("a \\ b") == "a \\ b";
    assert RemovePossessives(" \\ b") == " \\ b";
    assert RemovePossessives("a \\ b") == "a \\ b";
    assert KeepKeywordClass("a \\ b", false) == "a \\ b";
  }

  /* Collapsing leaves the example alone, one suffix at a time. */
  lemma EscapeExampleCollapse1()
    ensures CollapseSpaces(" b") == " b"
  {
    assert CollapseSpaces("b") == "b";
    assert TrimStart(" b") == "b";
  }

  lemma EscapeExampleCollapse2()
    ensures CollapseSpaces("\\ b") == "\\ b"
  {
    EscapeExampleCollapse1();
    assert "\\ b"[1..] == " b";
  }

  lemma EscapeExampleCollapse3()
    ensures CollapseSpaces(" \\ b") == " \\ b"
  {
    EscapeExampleCollapse2();
    assert TrimStart("\\ b") == "\\ b";
    assert " \\ b"[1..] == "\\ b";
  }

  lemma EscapeExampleRemove()
    ensures RemoveBackslashes("a \\ b") == "a  b"
  {
  }

  lemma EscapeExampleCollapse()
    ensures CollapseSpaces("a \\ b") == "a \\ b"
  {
    EscapeExampleCollapse3();
    assert "a \\ b"[1..] == " \\ b";
  }
}

/** A worked example of `cleanKeyword` with escape removal. */
module KeywordExample {
  import opened Strings
  import opened Keyword

  /** With escape removal the runs can come back: in `a \ b` the backslash
      between two spaces survives the collapse and is deleted after it. */
  lemma CleanKeywordEscapeLeavesDoubleSpace()
    ensures CleanKeyword("a \\ b", false, true) == "a  b"
  {
    var kw := "a \\ b";
    EscapeExamplePrefix();
    EscapeExampleCollapse();
    var k := CollapseSpaces(KeepKeywordClass(RemovePossessives(ToLower(Trim(kw))), false));
    assert k == kw;
    EscapeExampleRemove();
    assert CleanKeyword(kw, false, true) == RemoveBackslashes(k);
  }
}
