/**
 * The pet search front end: the conversion of a trailing Roman numeral to a
 * pet variant number, the rewriting of the search term into the term and the
 * filters of the search query, and the formatting of the best hit.
 */
module PetSearch {
  import opened Common
  import opened Text
  import opened SortTypes

  // ---------------------------------------------------------------------
  // romanIntToInt

  /** `romanPlaceValues[c]`: the lower-case letters i, v and x; any other key is missing. */
  function PlaceValue(c: char): Numeric
  {
    if c == 'i' then Num(1) else if c == 'v' then Num(5) else if c == 'x' then Num(10) else Undefined
  }

  /**
   * One step of the conversion loop on the running value and the values of
   * the previous and the current letter. A comparison with `undefined` is
   * false, and arithmetic on `undefined` or `NaN` gives `NaN`.
   */
  function RomanStep(integer: Numeric, prev: Numeric, cur: Numeric): Numeric
  {
    if !(cur.Num? && prev.Num?) || !integer.Num? then NaN
    else if cur.n <= prev.n then Num(integer.n + cur.n)
    else Num(integer.n - prev.n * 2 + cur.n)
  }

  /** The value the loop holds after reading all of `s` from the left. */
  function RomanValue(s: string): Numeric
    decreases |s|
  {
    if |s| == 0 then Undefined
    else if |s| == 1 then PlaceValue(s[0])
    else RomanStep(RomanValue(s[..|s| - 1]), PlaceValue(s[|s| - 2]), PlaceValue(s[|s| - 1]))
  }

  /**
   * `romanIntToInt`: start from the first letter's value; add each further
   * letter's value when it does not exceed its predecessor's, otherwise take
   * back twice the predecessor's value and add the letter's.
   */
  method RomanIntToInt(romanInt: string) returns (integer: Numeric)
    ensures integer == RomanValue(romanInt)
  {
    integer := if |romanInt| > 0 then PlaceValue(romanInt[0]) else Undefined;
    var i := 1;
    while i < |romanInt|
      invariant |romanInt| == 0 ==> integer == Undefined
      invariant |romanInt| > 0 ==> 1 <= i <= |romanInt| && integer == RomanValue(romanInt[..i])
    {
      var currentLetterValue := PlaceValue(romanInt[i]);
      var prevLetterValue := PlaceValue(romanInt[i - 1]);
      if currentLetterValue.Num? && prevLetterValue.Num? && currentLetterValue.n <= prevLetterValue.n {
        integer := if integer.Num? then Num(integer.n + currentLetterValue.n) else NaN;
      } else if integer.Num? && currentLetterValue.Num? && prevLetterValue.Num? {
        integer := Num(integer.n - prevLetterValue.n * 2 + currentLetterValue.n);
      } else {
        integer := NaN;
      }
      assert romanInt[..i + 1][..i] == romanInt[..i];
      i := i + 1;
    }
    assert |romanInt| > 0 ==> romanInt[..|romanInt|] == romanInt;
  }

  predicate IsRomanLetter(c: char)
  {
    c == 'i' || c == 'v' || c == 'x'
  }

  predicate AllRoman(s: string)
  {
    forall i :: 0 <= i < |s| ==> IsRomanLetter(s[i])
  }

  function LetterValue(c: char): int
    requires IsRomanLetter(c)
  {
    if c == 'i' then 1 else if c == 'v' then 5 else 10
  }

  /**
   * The standard subtractive reading of a numeral: every letter counts its
   * value, negated when the next letter is larger.
   */
  function SubtractiveValue(s: string): int
    requires AllRoman(s)
    decreases |s|
  {
    if |s| == 0 then 0
    else (if |s| > 1 && LetterValue(s[0]) < LetterValue(s[1]) then -LetterValue(s[0]) else LetterValue(s[0]))
         + SubtractiveValue(s[1..])
  }

  /** Appending a letter adds its value, and negates the old last letter when that is smaller. */
  lemma {:induction false} SubtractiveSnoc(s: string, c: char)
    requires |s| > 0 && AllRoman(s) && IsRomanLetter(c)
    ensures AllRoman(s + [c])
    ensures SubtractiveValue(s + [c]) == SubtractiveValue(s) + LetterValue(c)
      - (if LetterValue(s[|s| - 1]) < LetterValue(c) then 2 * LetterValue(s[|s| - 1]) else 0)
    decreases |s|
  {
    var t := s + [c];
    if |s| == 1 {
      assert t[1..] == [c] && [c][1..] == [];
    } else {
      assert t[1..] == s[1..] + [c];
      SubtractiveSnoc(s[1..], c);
    }
  }

  /** On numerals over i, v and x the loop computes the subtractive reading. */
  lemma {:induction false} RomanValueIsSubtractive(s: string)
    requires |s| > 0 && AllRoman(s)
    ensures RomanValue(s) == Num(SubtractiveValue(s))
    decreases |s|
  {
    if |s| > 1 {
      var p := s[..|s| - 1];
      RomanValueIsSubtractive(p);
      SubtractiveSnoc(p, s[|s| - 1]);
      assert p + [s[|s| - 1]] == s;
    }
  }

  /** Any letter other than lower-case i, v or x, or an empty text, leaves no number. */
  lemma {:induction false} RomanValueNeedsRomanLetters(s: string)
    requires !(|s| > 0 && AllRoman(s))
    ensures !RomanValue(s).Num?
    decreases |s|
  {
    if |s| > 1 && IsRomanLetter(s[|s| - 1]) && IsRomanLetter(s[|s| - 2]) {
      var p := s[..|s| - 1];
      assert !AllRoman(p) by {
        var i :| 0 <= i < |s| && !IsRomanLetter(s[i]);
        assert i < |s| - 1 && p[i] == s[i];
      }
      RomanValueNeedsRomanLetters(p);
    }
  }

  /** `romanIntToInt` yields a number exactly for non-empty texts of lower-case i, v and x. */
  lemma RomanValueDefined(s: string)
    ensures RomanValue(s).Num? <==> |s| > 0 && AllRoman(s)
  {
    if |s| > 0 && AllRoman(s) {
      RomanValueIsSubtractive(s);
    } else {
      RomanValueNeedsRomanLetters(s);
    }
  }

  /** The conversions the variant numbers rely on. */
  lemma RomanValueExamples()
    ensures RomanValue("iv") == Num(4) && RomanValue("ix") == Num(9)
    ensures RomanValue("xiv") == Num(14) && RomanValue("xxxix") == Num(39)
  {
    assert "xxxix"[..4] == "xxxi" && "xxxi"[..3] == "xxx" && "xxx"[..2] == "xx" && "xx"[..1] == "x";
    assert "xiv"[..2] == "xi" && "xi"[..1] == "x";
    assert "iv"[..1] == "i" && "ix"[..1] == "i";
  }

  // ---------------------------------------------------------------------
  // the numeral pattern

  /** ASCII upper-case letters in lower case; every other character kept. */
  function LowerCase(s: string): (r: string)
    ensures |r| == |s|
  {
    seq(|s|, i requires 0 <= i < |s| => if 'A' <= s[i] <= 'Z' then (s[i] as int + 32) as char else s[i])
  }

  /** The number of x at the start of `s`. */
  function LeadingXs(s: string): (k: nat)
    ensures k <= |s|
    ensures forall i :: 0 <= i < k ==> s[i] == 'x'
    ensures k < |s| ==> s[k] != 'x'
    decreases |s|
  {
    if |s| > 0 && s[0] == 'x' then 1 + LeadingXs(s[1..]) else 0
  }

  predicate AllOnes(s: string)
  {
    forall i :: 0 <= i < |s| ==> s[i] == 'i'
  }

  /** The units alternatives: `ix`, `iv`, or an optional `v` followed by at most three `i`. */
  predicate IsUnitsPart(t: string)
  {
    || t == "ix" || t == "iv"
    || (var ones := if |t| > 0 && t[0] == 'v' then t[1..] else t; |ones| <= 3 && AllOnes(ones))
  }

  /**
   * The pattern `^((?:x{0,3})(ix|iv|v?i{0,3}))$` with the case-insensitive
   * flag. No units alternative starts with x, so the tens are exactly the
   * leading x of the word.
   */
  predicate MatchesNumeral(w: string)
  {
    var l := LowerCase(w);
    var tens := LeadingXs(l);
    tens <= 3 && IsUnitsPart(l[tens..])
  }

  /** Leading tens count ten each. */
  lemma {:induction false} SubtractiveTens(s: string, k: nat)
    requires k <= |s| && AllRoman(s) && forall i :: 0 <= i < k ==> s[i] == 'x'
    ensures AllRoman(s[k..]) && SubtractiveValue(s) == 10 * k + SubtractiveValue(s[k..])
    decreases k
  {
    if k > 0 {
      assert s[1..][k - 1..] == s[k..];
      SubtractiveTens(s[1..], k - 1);
    }
  }

  /** A run of ones counts its length. */
  lemma {:induction false} SubtractiveOnes(s: string)
    requires AllOnes(s)
    ensures AllRoman(s) && SubtractiveValue(s) == |s|
    decreases |s|
  {
    if |s| > 0 {
      SubtractiveOnes(s[1..]);
    }
  }

  /** The units part is worth 0 to 9, and 0 only when it is empty. */
  lemma UnitsValue(t: string)
    requires IsUnitsPart(t)
    ensures AllRoman(t) && 0 <= SubtractiveValue(t) <= 9 && (SubtractiveValue(t) == 0 <==> t == "")
  {
    if t == "ix" {
      assert "ix"[1..] == "x" && "x"[1..] == "";
    } else if t == "iv" {
      assert "iv"[1..] == "v" && "v"[1..] == "";
    } else if |t| > 0 && t[0] == 'v' {
      SubtractiveOnes(t[1..]);
    } else {
      SubtractiveOnes(t);
    }
  }

  /**
   * A non-empty word the pattern accepts, read in lower case, converts to
   * its standard value, which lies between 1 and 39.
   */
  lemma NumeralValueInRange(w: string)
    requires w != "" && MatchesNumeral(w)
    ensures var l := LowerCase(w);
      && AllRoman(l)
      && RomanValue(l) == Num(SubtractiveValue(l))
      && 1 <= SubtractiveValue(l) <= 39
  {
    var l := LowerCase(w);
    var tens := LeadingXs(l);
    UnitsValue(l[tens..]);
    assert AllRoman(l) by {
      forall i | 0 <= i < |l| ensures IsRomanLetter(l[i]) {
        if i >= tens {
          assert l[i] == l[tens..][i - tens];
        }
      }
    }
    SubtractiveTens(l, tens);
    RomanValueIsSubtractive(l);
  }

  // ---------------------------------------------------------------------
  // the search term

  /** The characters of the word-splitting pattern `[ _\\-]+`. */
  predicate IsWordSeparator(c: char)
  {
    c == ' ' || c == '_' || c == '\\' || c == '-'
  }

  predicate NoSeparator(w: string)
  {
    forall j :: 0 <= j < |w| ==> !IsWordSeparator(w[j])
  }

  /** `s` without its leading run of separators. */
  function DropSeparators(s: string): (r: string)
    ensures |r| <= |s|
    ensures |s| > 0 && IsWordSeparator(s[0]) ==> |r| < |s|
    decreases |s|
  {
    if |s| > 0 && IsWordSeparator(s[0]) then DropSeparators(s[1..]) else s
  }

  /**
   * `s.split(/[ _\\-]+/)`: the pieces between maximal runs of separators; a
   * run at either end leaves an empty first or last piece.
   */
  function SplitWords(s: string): (words: seq<string>)
    ensures |words| >= 1
    ensures forall i :: 0 <= i < |words| ==> NoSeparator(words[i])
    decreases |s|
  {
    if |s| == 0 then [""]
    else if IsWordSeparator(s[0]) then [""] + SplitWords(DropSeparators(s))
    else
      var rest := SplitWords(s[1..]);
      [[s[0]] + rest[0]] + rest[1..]
  }

  /** `WORD_ALIASES[word] || word`. */
  function Alias(word: string): string
  {
    if word == "tfs" then "rare pet tog" else if word == "ex" then "extreme" else word
  }

  function Aliased(words: seq<string>): (r: seq<string>)
    ensures |r| == |words|
  {
    seq(|words|, i requires 0 <= i < |words| => Alias(words[i]))
  }

  /** The filters the query may carry. */
  datatype PetFilter = VariantIs(variant: Numeric) | LevelAtMost(maxLevel: int)

  /**
   * The part of the search query the front end decides: the term every
   * title clause searches for, and the filter list, set only when non-empty.
   */
  datatype PetQuery = PetQuery(term: string, filter: Option<seq<PetFilter>>)

  /** The words after the numeral test, and the variant a removed numeral gave. */
  datatype Stripped = Stripped(words: seq<string>, variant: Option<Numeric>)

  /** `[n - 1, n - 2].filter(i => i > 0)`: the word positions examined, never the first. */
  function Candidates(n: nat): (c: seq<int>)
    ensures forall k :: 0 <= k < |c| ==> 0 < c[k] < n
  {
    (if n - 1 > 0 then [n - 1] else []) + (if n - 2 > 0 then [n - 2] else [])
  }

  /**
   * The first examined position whose word is a numeral (per `numeral`, which
   * gives the variant value of a numeral word) is removed, and the search
   * for a numeral stops there.
   */
  function StripAt(words: seq<string>, cands: seq<int>, numeral: string -> Option<Numeric>): Stripped
    requires forall k :: 0 <= k < |cands| ==> 0 < cands[k] < |words|
  {
    if |cands| == 0 then Stripped(words, None)
    else if numeral(words[cands[0]]).Some? then
      Stripped(words[..cands[0]] + words[cands[0] + 1..], numeral(words[cands[0]]))
    else StripAt(words, cands[1..], numeral)
  }

  function StripNumeral(words: seq<string>, numeral: string -> Option<Numeric>): Stripped
  {
    StripAt(words, Candidates(|words|), numeral)
  }

  /** The query built from the term and the optional level cap. */
  function PetQueryOf(term: string, maxLevel: Option<int>, numeral: string -> Option<Numeric>): PetQuery
  {
    var s := StripNumeral(SplitWords(term), numeral);
    var filters := (if s.variant.Some? then [VariantIs(s.variant.value)] else [])
                   + (if maxLevel.Some? then [LevelAtMost(maxLevel.value)] else []);
    PetQuery(Join(Aliased(s.words), " "), if |filters| > 0 then Some(filters) else None)
  }

  /**
   * The numeral test as the code performs it: any word the pattern accepts,
   * converted as typed.
   */
  function WrittenNumeral(w: string): Option<Numeric>
  {
    if MatchesNumeral(w) then Some(RomanValue(w)) else None
  }

  /** The numeral test as intended: a non-empty accepted word, converted in lower case. */
  function NumeralVariant(w: string): Option<Numeric>
  {
    if w != "" && MatchesNumeral(w) then Some(RomanValue(LowerCase(w))) else None
  }

  /**
   * The numeral loop of `getPetSearchResult`, with the intended numeral
   * test: try the last and then the second-to-last word (never the first),
   * and at the first numeral found push its variant filter, splice the word
   * out and stop.
   */
  method StripTrailingNumeral(words: seq<string>) returns (rest: seq<string>, additionalFilters: seq<PetFilter>)
    ensures var s := StripNumeral(words, NumeralVariant);
      && rest == s.words
      && additionalFilters == (if s.variant.Some? then [VariantIs(s.variant.value)] else [])
  {
    rest := words;
    additionalFilters := [];
    var candidates := Candidates(|words|);
    var k := 0;
    while k < |candidates|
      invariant 0 <= k <= |candidates|
      invariant rest == words && additionalFilters == []
      invariant StripAt(words, candidates[k..], NumeralVariant) == StripNumeral(words, NumeralVariant)
    {
      var index := candidates[k];
      if rest[index] != "" && MatchesNumeral(rest[index]) {
        assert candidates[k..][0] == index;
        var variant := RomanIntToInt(LowerCase(rest[index]));
        additionalFilters := additionalFilters + [VariantIs(variant)];
        rest := rest[..index] + rest[index + 1..];
        return;
      }
      assert candidates[k..][1..] == candidates[k + 1..];
      k := k + 1;
    }
  }

  /**
   * The query-building half of `getPetSearchResult`: split the term into
   * words, strip a trailing numeral, alias the remaining words, and add the
   * level cap when one is given; the filter list is set only when non-empty.
   */
  method BuildPetQuery(term: string, maxLevel: Option<int>) returns (query: PetQuery)
    ensures query == PetQueryOf(term, maxLevel, NumeralVariant)
  {
    var words := SplitWords(term);
    var rest, additionalFilters := StripTrailingNumeral(words);
    var aliasedTerm := Join(Aliased(rest), " ");
    if maxLevel != None {
      additionalFilters := additionalFilters + [LevelAtMost(maxLevel.value)];
    } else {
      assert additionalFilters + [] == additionalFilters;
    }
    query := PetQuery(aliasedTerm, if |additionalFilters| > 0 then Some(additionalFilters) else None);
  }

  // ---------------------------------------------------------------------
  // properties of the query

  /**
   * Only the last and the second-to-last word are examined, never the first,
   * the last before the second-to-last; at most one word is removed, and a
   * removed word is the numeral whose value the variant holds.
   */
  lemma StripTestsOnlyTail(words: seq<string>, numeral: string -> Option<Numeric>)
    ensures var s := StripNumeral(words, numeral);
      var n := |words|;
      && (s.variant.None? <==>
            s.words == words
            && (n >= 2 ==> numeral(words[n - 1]).None?)
            && (n >= 3 ==> numeral(words[n - 2]).None?))
      && (s.variant.Some? ==>
            || (n >= 2 && numeral(words[n - 1]).Some?
                && s == Stripped(words[..n - 1], numeral(words[n - 1])))
            || (n >= 3 && numeral(words[n - 1]).None? && numeral(words[n - 2]).Some?
                && s == Stripped(words[..n - 2] + words[n - 1..], numeral(words[n - 2]))))
  {
    var n := |words|;
    var c := Candidates(n);
    var s := StripNumeral(words, numeral);
    if n >= 2 {
      assert c[0] == n - 1;
      if numeral(words[n - 1]).Some? {
        assert words[..n - 1] + words[n..] == words[..n - 1];
        assert s == Stripped(words[..n - 1], numeral(words[n - 1]));
      } else if n >= 3 {
        assert c[1..] == [n - 2] && c[1..][1..] == [];
        assert s == StripAt(words, [n - 2], numeral);
        if numeral(words[n - 2]).Some? {
          assert |s.words| == n - 1;
        }
      } else {
        assert c[1..] == [];
        assert s == StripAt(words, c[1..], numeral);
      }
    }
  }

  /** A removed numeral leaves its neighbours, so the word count drops by exactly one. */
  lemma StripRemovesAtMostOne(words: seq<string>, numeral: string -> Option<Numeric>)
    ensures var s := StripNumeral(words, numeral);
      |s.words| == |words| - (if s.variant.Some? then 1 else 0) && |s.words| >= 1 - (if |words| == 0 then 1 else 0)
  {
    StripTestsOnlyTail(words, numeral);
  }

  /** Every word that survives stripping is a word of the split term. */
  lemma StripKeepsWords(words: seq<string>, numeral: string -> Option<Numeric>)
    ensures var s := StripNumeral(words, numeral);
      forall i :: 0 <= i < |s.words| ==> s.words[i] in words
  {
    StripTestsOnlyTail(words, numeral);
  }

  /**
   * With the intended numeral test, every variant filter holds the standard
   * value, between 1 and 39, of a non-empty numeral word of the term.
   */
  lemma VariantFilterInRange(term: string, maxLevel: Option<int>)
    ensures var q := PetQueryOf(term, maxLevel, NumeralVariant);
      forall f :: q.filter.Some? && f in q.filter.value && f.VariantIs? ==>
        f.variant.Num? && 1 <= f.variant.n <= 39
  {
    var words := SplitWords(term);
    var n := |words|;
    StripTestsOnlyTail(words, NumeralVariant);
    if n >= 2 && NumeralVariant(words[n - 1]).Some? {
      NumeralValueInRange(words[n - 1]);
    } else if n >= 3 && NumeralVariant(words[n - 2]).Some? {
      NumeralValueInRange(words[n - 2]);
    }
  }

  /**
   * The query carries a filter list exactly when a numeral was removed or a
   * level cap is given; the list holds the variant first, then the cap, and
   * a level filter exactly for the given cap.
   */
  lemma FilterListShape(term: string, maxLevel: Option<int>, numeral: string -> Option<Numeric>)
    ensures var s := StripNumeral(SplitWords(term), numeral);
      var q := PetQueryOf(term, maxLevel, numeral);
      && (q.filter.Some? <==> s.variant.Some? || maxLevel.Some?)
      && (q.filter.Some? ==>
            && |q.filter.value| == (if s.variant.Some? then 1 else 0) + (if maxLevel.Some? then 1 else 0)
            && (s.variant.Some? ==> q.filter.value[0] == VariantIs(s.variant.value))
            && (maxLevel.Some? ==> q.filter.value[|q.filter.value| - 1] == LevelAtMost(maxLevel.value)))
      && (forall m :: (q.filter.Some? && LevelAtMost(m) in q.filter.value) <==> maxLevel == Some(m))
  {
  }

  predicate NoAliasWord(words: seq<string>)
  {
    forall i :: 0 <= i < |words| ==> words[i] != "tfs" && words[i] != "ex"
  }

  /**
   * When no remaining word is an alias, the query term splits on spaces back
   * into the words left after the numeral was removed.
   */
  lemma TermSplitsIntoWords(term: string, maxLevel: Option<int>, numeral: string -> Option<Numeric>)
    requires NoAliasWord(StripNumeral(SplitWords(term), numeral).words)
    ensures var s := StripNumeral(SplitWords(term), numeral);
      Split(PetQueryOf(term, maxLevel, numeral).term, ' ') == s.words
  {
    var words := SplitWords(term);
    var s := StripNumeral(words, numeral);
    StripRemovesAtMostOne(words, numeral);
    StripKeepsWords(words, numeral);
    assert Aliased(s.words) == s.words by {
      forall i | 0 <= i < |s.words| ensures Aliased(s.words)[i] == s.words[i] { }
    }
    forall i | 0 <= i < |s.words| ensures ' ' !in s.words[i] {
      assert NoSeparator(s.words[i]);
    }
    SplitJoin(s.words, ' ');
  }

  // ---------------------------------------------------------------------
  // the numeral test as written and as intended

  /** A term ending in a separator splits into its words and one empty word. */
  lemma PetSpaceWords()
    ensures SplitWords("pet ") == ["pet", ""]
  {
    assert SplitWords(" ") == ["", ""] by {
      assert DropSeparators(" ") == "";
    }
    assert SplitWords("t ") == ["t", ""] by {
      assert "t "[1..] == " " && ['t'] + "" == "t";
    }
    assert SplitWords("et ") == ["et", ""] by {
      assert "et "[1..] == "t " && ['e'] + "t" == "et";
    }
    assert SplitWords("pet ") == ["pet", ""] by {
      assert "pet "[1..] == "et " && ['p'] + "et" == "pet";
    }
  }

  /**
   * The pattern accepts the empty word and upper-case numerals, which the
   * value table does not cover: a term ending in a separator gets a variant
   * filter on `undefined`, an upper-case numeral one on `NaN`.
   */
  lemma WrittenNumeralWithoutValue()
    ensures WrittenNumeral("") == Some(Undefined)
    ensures WrittenNumeral("II") == Some(NaN)
    ensures PetQueryOf("pet ", None, WrittenNumeral).filter == Some([VariantIs(Undefined)])
  {
    WrittenNumeralValues();
    PetSpaceWords();
    assert Candidates(2) == [1];
    assert StripNumeral(["pet", ""], WrittenNumeral) == Stripped(["pet"], Some(Undefined)) by {
      assert ["pet", ""][..1] + ["pet", ""][2..] == ["pet"];
    }
    assert [VariantIs(Undefined)] + [] == [VariantIs(Undefined)];
  }

  /** The written test on the empty word and on an upper-case numeral. */
  lemma WrittenNumeralValues()
    ensures WrittenNumeral("") == Some(Undefined) && WrittenNumeral("II") == Some(NaN)
  {
    assert LowerCase("II") == "ii";
    assert "ii"[0..] == "ii";
    assert "II"[..1] == "I";
  }

  /** With the intended test, the same inputs give no filter and the variant 2. */
  lemma IntendedNumeralExamples()
    ensures NumeralVariant("") == None
    ensures NumeralVariant("II") == Some(Num(2))
    ensures PetQueryOf("pet ", None, NumeralVariant).filter == None
  {
    IntendedNumeralValues();
    PetSpaceWords();
    assert Candidates(2) == [1] && [1][1..] == [];
    assert StripNumeral(["pet", ""], NumeralVariant) == Stripped(["pet", ""], None);
  }

  /** The intended test on the empty word and on an upper-case numeral. */
  lemma IntendedNumeralValues()
    ensures NumeralVariant("") == None && NumeralVariant("II") == Some(Num(2))
  {
    assert LowerCase("II") == "ii";
    assert "ii"[0..] == "ii";
    assert "ii"[..1] == "i";
  }

  // ---------------------------------------------------------------------
  // formatResult

  datatype BonusValue = TextValue(text: string) | NumberValue(number: int)

  datatype Bonus = Bonus(name: string, value: BonusValue)

  datatype Attack = Attack(description: string)

  /** The fields of a pet document the formatter reads; absent tag and bonus lists are `None`. */
  datatype PetRecord = PetRecord(
    link: string,
    fullTitle: string,
    tags1: Option<seq<string>>,
    tags2: Option<seq<string>>,
    tags3: Option<seq<string>>,
    bonuses: Option<seq<Bonus>>,
    attacks: seq<Attack>,
    level: int,
    damage: string,
    elements: seq<string>,
    images: seq<string>)

  datatype EmbedField = EmbedField(name: string, value: string)

  datatype PetEmbed = PetEmbed(
    url: Option<string>,
    title: Option<string>,
    description: string,
    imageUrl: Option<string>,
    fields: seq<EmbedField>)

  const NoPetFound: string := "No pet was found."

  /** The tag lists present on the record, in the order tags_1, tags_2, tags_3. */
  function PresentTagLists(r: PetRecord): seq<seq<string>>
  {
    (if r.tags1.Some? then [r.tags1.value] else [])
    + (if r.tags2.Some? then [r.tags2.value] else [])
    + (if r.tags3.Some? then [r.tags3.value] else [])
  }

  /**
   * One alternative: the display names joined by commas, or `Untagged`, in
   * backticks; a tag without a display name adds nothing but its comma.
   */
  function TagListText(tags: seq<string>, cfg: Config): string
  {
    var names := Join(seq(|tags|, i requires 0 <= i < |tags| => JoinedTagName(cfg, tags[i])), ", ");
    "`" + (if names == "" then "Untagged" else names) + "`"
  }

  function TagListTexts(lists: seq<seq<string>>, cfg: Config): (ts: seq<string>)
    ensures |ts| == |lists|
  {
    seq(|lists|, i requires 0 <= i < |lists| => TagListText(lists[i], cfg))
  }

  /** The tag alternatives joined by ` or `, or `` `None` `` when there are none. */
  function TagsText(r: PetRecord, cfg: Config): string
  {
    var joined := Join(TagListTexts(PresentTagLists(r), cfg), " or ");
    if joined == "" then "`None`" else joined
  }

  function BonusText(b: Bonus): string
  {
    match b.value
    case TextValue(s) => Capitalize(b.name) + " +[" + s + "]"
    case NumberValue(v) =>
      if v < 0 then Capitalize(b.name) + " " + IntToString(v) else Capitalize(b.name) + " +" + IntToString(v)
  }

  function BonusTexts(bonuses: seq<Bonus>): (ts: seq<string>)
    ensures |ts| == |bonuses|
  {
    seq(|bonuses|, i requires 0 <= i < |bonuses| => BonusText(bonuses[i]))
  }

  /** The bonuses joined by commas, or `None`; an absent list counts as empty. */
  function BonusesText(r: PetRecord): string
  {
    var joined := Join(BonusTexts(if r.bonuses.Some? then r.bonuses.value else []), ", ");
    if joined == "" then "None" else joined
  }

  /** The attacks numbered from 1, one per line. */
  function AttackLines(attacks: seq<Attack>): (lines: seq<string>)
    ensures |lines| == |attacks|
  {
    seq(|attacks|, i requires 0 <= i < |attacks| => NatToString(i + 1) + ". " + attacks[i].description)
  }

  function AttacksText(attacks: seq<Attack>): string
  {
    var joined := Join(AttackLines(attacks), "\n");
    if joined == "" then "This pet has no attacks." else joined
  }

  function ElementsText(elements: seq<string>): string
  {
    var joined := Join(seq(|elements|, i requires 0 <= i < |elements| => Capitalize(elements[i])), " / ");
    if joined == "" then "N/A" else joined
  }

  /** The embed body; `escapeMarkdown` stands for the chat library's escaping helper. */
  function PetDescription(r: PetRecord, escapeMarkdown: string -> string, cfg: Config): string
  {
    var damage := escapeMarkdown(r.damage);
    "**Tags:** " + TagsText(r, cfg) + "\n"
    + "**Level:** " + IntToString(r.level) + "\n"
    + "**Damage:** " + (if damage == "" then "0-0" else damage) + "\n"
    + "**Element:** " + ElementsText(r.elements) + "\n"
    + "**Bonuses:** " + BonusesText(r)
  }

  /** `formatResult`: the not-found notice, or the first hit's embed. */
  function FormatResult(hits: seq<PetRecord>, escapeMarkdown: string -> string, cfg: Config): PetEmbed
  {
    if |hits| == 0 then PetEmbed(None, None, NoPetFound, None, [])
    else
      var r := hits[0];
      PetEmbed(Some(r.link), Some(r.fullTitle), PetDescription(r, escapeMarkdown, cfg),
               if |r.images| > 0 then Some(r.images[0]) else None,
               [EmbedField("Attacks", AttacksText(r.attacks))])
  }

  /**
   * `getPetSearchResult`: build the query, run the search (`search` stands
   * for the search engine and its scoring) and format the hits.
   */
  method GetPetSearchResult(term: string, maxLevel: Option<int>, search: PetQuery -> seq<PetRecord>,
                            escapeMarkdown: string -> string, cfg: Config)
    returns (message: PetEmbed, noResults: bool)
    ensures var hits := search(PetQueryOf(term, maxLevel, NumeralVariant));
      && message == FormatResult(hits, escapeMarkdown, cfg)
      && (noResults <==> |hits| == 0)
      && (noResults <==> message.description == NoPetFound)
  {
    var query := BuildPetQuery(term, maxLevel);
    var hits := search(query);
    message := FormatResult(hits, escapeMarkdown, cfg);
    noResults := |hits| == 0;
    if !noResults {
      DescriptionIsNotNotice(hits[0], escapeMarkdown, cfg);
    }
  }

  // ---------------------------------------------------------------------
  // properties of the formatting

  /** A hit's description starts with the tags heading, so it is never the not-found notice. */
  lemma DescriptionIsNotNotice(r: PetRecord, escapeMarkdown: string -> string, cfg: Config)
    ensures PetDescription(r, escapeMarkdown, cfg)[0] == '*'
    ensures PetDescription(r, escapeMarkdown, cfg) != NoPetFound
  {
    var d := PetDescription(r, escapeMarkdown, cfg);
    assert d[0] == "**Tags:** "[0];
    assert NoPetFound[0] == 'N';
  }

  /**
   * A numeric bonus always shows its sign: `+` for zero and positive values,
   * `-` for negative ones, followed by the magnitude; a text value appears in
   * brackets after `+`.
   */
  lemma BonusTextSigned(b: Bonus)
    ensures b.value.NumberValue? ==>
      var v := b.value.number;
      BonusText(b) == Capitalize(b.name) + " " + (if v < 0 then "-" else "+")
                      + NatToString(if v < 0 then -v else v)
    ensures b.value.TextValue? ==> BonusText(b) == Capitalize(b.name) + " +[" + b.value.text + "]"
  {
  }

  /**
   * The bonus line is `None` when the record lists no bonuses, and otherwise
   * the bonuses in order, joined by commas.
   */
  lemma BonusesTextShape(r: PetRecord)
    ensures r.bonuses.None? || r.bonuses.value == [] ==> BonusesText(r) == "None"
    ensures r.bonuses.Some? && r.bonuses.value != [] ==>
      BonusesText(r) == Join(BonusTexts(r.bonuses.value), ", ")
  {
    if r.bonuses.Some? && r.bonuses.value != [] {
      var ts := BonusTexts(r.bonuses.value);
      assert ts[0] != "";
      JoinStartsWithFirst(ts, ", ");
    }
  }

  /**
   * The tag line is `` `None` `` when no tag list is present; otherwise it
   * holds one alternative per present list, joined by ` or `, and an empty
   * list shows as `` `Untagged` ``.
   */
  lemma TagsTextShape(r: PetRecord, cfg: Config)
    ensures var lists := PresentTagLists(r);
      && |lists| == (if r.tags1.Some? then 1 else 0) + (if r.tags2.Some? then 1 else 0) + (if r.tags3.Some? then 1 else 0)
      && (|lists| == 0 ==> TagsText(r, cfg) == "`None`")
      && (|lists| > 0 ==> TagsText(r, cfg) == Join(TagListTexts(lists, cfg), " or "))
      && (forall i :: 0 <= i < |lists| && lists[i] == [] ==> TagListTexts(lists, cfg)[i] == "`Untagged`")
  {
    var lists := PresentTagLists(r);
    if |lists| > 0 {
      var ts := TagListTexts(lists, cfg);
      assert ts[0][0] == '`';
      JoinStartsWithFirst(ts, " or ");
    }
  }

  /**
   * A one-tag alternative shows the tag's display name, or `Untagged` when
   * the tag has no display name (or an empty one).
   */
  lemma SingleTagText(tag: string, cfg: Config)
    ensures TagListText([tag], cfg) ==
      if tag in cfg.prettyTagNames && cfg.prettyTagNames[tag] != "" then "`" + cfg.prettyTagNames[tag] + "`"
      else "`Untagged`"
  {
    var names := seq(1, i requires 0 <= i < 1 => JoinedTagName(cfg, [tag][i]));
    assert names == [JoinedTagName(cfg, tag)];
  }

  /**
   * A pet with attacks whose descriptions are single lines lists them one
   * per line, numbered from 1; a pet without attacks gets the notice.
   */
  lemma AttackLinesNumbered(attacks: seq<Attack>)
    requires forall i :: 0 <= i < |attacks| ==> '\n' !in attacks[i].description
    ensures |attacks| == 0 ==> AttacksText(attacks) == "This pet has no attacks."
    ensures |attacks| > 0 ==> Split(AttacksText(attacks), '\n') == AttackLines(attacks)
  {
    if |attacks| > 0 {
      var lines := AttackLines(attacks);
      assert lines[0] != "";
      JoinStartsWithFirst(lines, "\n");
      forall i | 0 <= i < |lines| ensures '\n' !in lines[i] {
        var digits := NatToString(i + 1);
        assert lines[i] == digits + ". " + attacks[i].description;
        assert '\n' !in digits by {
          assert AllDigits(digits);
        }
      }
      SplitJoin(lines, '\n');
    }
  }
}
