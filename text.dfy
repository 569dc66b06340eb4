/** The string handling of the matching code: `toLowerCase`, the regular-expression
    replacements of `normalizeText`, `split`/`join`, key-term extraction with a stop-word set,
    unanchored substring search (what the keyword regular expressions of `inferCategory`
    test) and the default string ordering of `Array.prototype.sort`. */
module Text {

  /** `toLowerCase` on one character; only ASCII letters are mapped. */
  function LowerChar(c: char): char
  {
    if 'A' <= c <= 'Z' then (c as int + 32) as char else c
  }

  /** `toUpperCase` on one character; only ASCII letters are mapped. */
  function UpperChar(c: char): char
  {
    if 'a' <= c <= 'z' then (c as int - 32) as char else c
  }

  /** `s.toLowerCase()`. */
  function Lower(s: string): (r: string)
    ensures |r| == |s|
    ensures forall i :: 0 <= i < |s| ==> r[i] == LowerChar(s[i])
  {
    seq(|s|, i requires 0 <= i < |s| => LowerChar(s[i]))
  }

  /** The characters the class `[a-z0-9]` matches. */
  predicate IsWordChar(c: char)
  {
    'a' <= c <= 'z' || '0' <= c <= '9'
  }

  /** The characters the class `\s` matches (and `trim` removes): ECMAScript white space
      and line terminators. */
  predicate IsSpace(c: char)
  {
    var n := c as int;
    n == 0x09 || n == 0x0A || n == 0x0B || n == 0x0C || n == 0x0D || n == 0x20 ||
    n == 0xA0 || n == 0x1680 || (0x2000 <= n <= 0x200A) || n == 0x2028 || n == 0x2029 ||
    n == 0x202F || n == 0x205F || n == 0x3000 || n == 0xFEFF
  }

  /** `.replace(/[^a-z0-9\s]/g, '')`: keeps word characters and white space. */
  function Strip(s: string): (r: string)
    ensures |r| <= |s|
    ensures forall i :: 0 <= i < |r| ==> IsWordChar(r[i]) || IsSpace(r[i])
  {
    if s == [] then []
    else (if IsWordChar(s[0]) || IsSpace(s[0]) then [s[0]] else []) + Strip(s[1..])
  }

  /** Drops the white space at the start of `s` (`trimStart`). */
  function SkipSpaces(s: string): (r: string)
    ensures |r| <= |s|
    ensures r == [] || !IsSpace(r[0])
  {
    if s != [] && IsSpace(s[0]) then SkipSpaces(s[1..]) else s
  }

  /** `.replace(/\s+/g, ' ')`: every maximal run of white space becomes one space. */
  function Collapse(s: string): (r: string)
    decreases |s|
  {
    if s == [] then []
    else if IsSpace(s[0]) then [' '] + Collapse(SkipSpaces(s[1..]))
    else [s[0]] + Collapse(s[1..])
  }

  /** Drops the white space at the end of `s` (`trimEnd`). */
  function SkipTrailingSpaces(s: string): (r: string)
    ensures |r| <= |s|
    ensures r == [] || !IsSpace(r[|r| - 1])
  {
    if s != [] && IsSpace(s[|s| - 1]) then SkipTrailingSpaces(s[..|s| - 1]) else s
  }

  /** What `SkipSpaces` leaves is a suffix of its input. */
  lemma {:induction false} SkipSpacesIsSuffix(s: string)
    ensures SkipSpaces(s) == s[|s| - |SkipSpaces(s)|..]
  {
    if s != [] && IsSpace(s[0]) {
      SkipSpacesIsSuffix(s[1..]);
    }
  }

  /** What `SkipTrailingSpaces` leaves is a prefix of its input. */
  lemma {:induction false} SkipTrailingSpacesIsPrefix(s: string)
    ensures SkipTrailingSpaces(s) == s[..|SkipTrailingSpaces(s)|]
  {
    if s != [] && IsSpace(s[|s| - 1]) {
      SkipTrailingSpacesIsPrefix(s[..|s| - 1]);
    }
  }

  /** `s.trim()`. */
  function Trim(s: string): string
  {
    SkipTrailingSpaces(SkipSpaces(s))
  }

  /** `normalizeText`: lower-case, drop everything but `[a-z0-9]` and white space, collapse
      white-space runs to one space, trim. */
  function Normalize(s: string): string
  {
    Trim(Collapse(Strip(Lower(s))))
  }

  /** Only word characters and the space character. */
  predicate SpacedWords(s: string)
  {
    forall i :: 0 <= i < |s| ==> IsWordChar(s[i]) || s[i] == ' '
  }

  /** No two spaces next to each other. */
  predicate SingleSpaced(s: string)
  {
    forall i :: 0 <= i < |s| - 1 ==> !(s[i] == ' ' && s[i + 1] == ' ')
  }

  /** A normalised string: word characters separated by single spaces, none at either end. */
  predicate IsNormalized(s: string)
  {
    SpacedWords(s) && SingleSpaced(s) && (s != [] ==> s[0] != ' ' && s[|s| - 1] != ' ')
  }

  /** `Collapse` turns white space into single spaces and keeps word characters. */
  lemma {:induction false} CollapseSpacedWords(s: string)
    requires forall i :: 0 <= i < |s| ==> IsWordChar(s[i]) || IsSpace(s[i])
    ensures SpacedWords(Collapse(s))
    decreases |s|
  {
    if s != [] {
      if IsSpace(s[0]) {
        SkipSpacesIsSuffix(s[1..]);
        CollapseSpacedWords(SkipSpaces(s[1..]));
      } else {
        CollapseSpacedWords(s[1..]);
      }
    }
  }

  /** `Collapse` starts with a space exactly when its input starts with white space. */
  lemma CollapseHead(s: string)
    requires s != []
    ensures Collapse(s) != []
    ensures Collapse(s)[0] == if IsSpace(s[0]) then ' ' else s[0]
  {
  }

  /** `Collapse` never leaves two spaces side by side. */
  lemma {:induction false} CollapseSingleSpaced(s: string)
    ensures SingleSpaced(Collapse(s))
    decreases |s|
  {
    if s != [] {
      if IsSpace(s[0]) {
        var t := SkipSpaces(s[1..]);
        CollapseSingleSpaced(t);
        if t != [] {
          CollapseHead(t);
        }
      } else {
        CollapseSingleSpaced(s[1..]);
      }
    }
  }

  /** A slice of a string of single-spaced words is one too. */
  lemma SliceSpaced(s: string, a: nat, b: nat)
    requires a <= b <= |s| && SpacedWords(s) && SingleSpaced(s)
    ensures SpacedWords(s[a..b]) && SingleSpaced(s[a..b])
  {
    assert forall i :: 0 <= i < b - a ==> s[a..b][i] == s[a + i];
  }

  /** Trimming single-spaced words leaves no space at either end. */
  lemma TrimNormalizes(s: string)
    requires SpacedWords(s) && SingleSpaced(s)
    ensures IsNormalized(Trim(s))
  {
    var a := SkipSpaces(s);
    SkipSpacesIsSuffix(s);
    SliceSpaced(s, |s| - |a|, |s|);
    var b := SkipTrailingSpaces(a);
    SkipTrailingSpacesIsPrefix(a);
    SliceSpaced(a, 0, |b|);
    if b != [] {
      assert b[0] == a[0];
    }
  }

  /** What `normalizeText` returns is normalised. */
  lemma NormalizeIsNormalized(s: string)
    ensures IsNormalized(Normalize(s))
  {
    CollapseSpacedWords(Strip(Lower(s)));
    CollapseSingleSpaced(Strip(Lower(s)));
    TrimNormalizes(Collapse(Strip(Lower(s))));
  }

  /** `s.split(sep)`: the pieces between separators; `""` splits into `[""]`. */
  function Split(s: string, sep: char): (r: seq<string>)
    ensures |r| >= 1
  {
    if s == [] then [""]
    else
      var rest := Split(s[1..], sep);
      if s[0] == sep then [""] + rest else [[s[0]] + rest[0]] + rest[1..]
  }

  /** The pieces of a split hold no separator, and only characters of the split string. */
  lemma {:induction false} SplitPieces(s: string, sep: char)
    ensures forall k, i :: 0 <= k < |Split(s, sep)| && 0 <= i < |Split(s, sep)[k]| ==>
      Split(s, sep)[k][i] != sep && Split(s, sep)[k][i] in s
  {
    if s != [] {
      SplitPieces(s[1..], sep);
    }
  }

  /** `ws.join(sep)`. */
  function Join(ws: seq<string>, sep: string): string
  {
    if ws == [] then ""
    else if |ws| == 1 then ws[0]
    else ws[0] + sep + Join(ws[1..], sep)
  }

  /** Joining after an empty first piece puts a separator in front. */
  lemma JoinEmptyHead(ws: seq<string>, sep: string)
    requires |ws| >= 1
    ensures Join([""] + ws, sep) == sep + Join(ws, sep)
  {
    assert ([""] + ws)[1..] == ws;
  }

  /** Joining after extending the first piece by one character extends the whole join. */
  lemma JoinConsHead(c: char, ws: seq<string>, sep: string)
    requires |ws| >= 1
    ensures Join([[c] + ws[0]] + ws[1..], sep) == [c] + Join(ws, sep)
  {
    var r := [[c] + ws[0]] + ws[1..];
    if |ws| > 1 {
      assert r[1..] == ws[1..];
      assert Join(r, sep) == [c] + ws[0] + sep + Join(ws[1..], sep);
    }
  }

  /** Splitting and joining again gives back the original string. */
  lemma {:induction false} JoinSplit(s: string, sep: char)
    ensures Join(Split(s, sep), [sep]) == s
  {
    if s != [] {
      var rest := Split(s[1..], sep);
      JoinSplit(s[1..], sep);
      if s[0] == sep {
        JoinEmptyHead(rest, [sep]);
      } else {
        JoinConsHead(s[0], rest, [sep]);
      }
      assert s == [s[0]] + s[1..];
    }
  }

  /** `words.filter(word => word.length > 2 && !stopWords.has(word))`. */
  function KeepTerms(words: seq<string>, stopWords: set<string>): (r: seq<string>)
    ensures |r| <= |words|
  {
    if words == [] then []
    else
      (if |words[0]| > 2 && words[0] !in stopWords then [words[0]] else [])
      + KeepTerms(words[1..], stopWords)
  }

  /** Every kept word is one of the input words, longer than two characters and no stop
      word. */
  lemma {:induction false} KeepTermsFromWords(words: seq<string>, stopWords: set<string>)
    ensures forall t :: t in KeepTerms(words, stopWords) ==> t in words && |t| > 2 && t !in stopWords
  {
    if words != [] {
      KeepTermsFromWords(words[1..], stopWords);
    }
  }

  /** `extractKeyTerms`: the normalised words longer than two characters that are not stop
      words, in order and with repetitions. */
  function KeyTerms(question: string, stopWords: set<string>): seq<string>
  {
    KeepTerms(Split(Normalize(question), ' '), stopWords)
  }

  /** The pieces of a normalised string split at spaces are runs of word characters. */
  lemma PiecesOfNormalized(n: string)
    requires IsNormalized(n)
    ensures forall w :: w in Split(n, ' ') ==> forall i :: 0 <= i < |w| ==> IsWordChar(w[i])
  {
    SplitPieces(n, ' ');
    forall w | w in Split(n, ' ')
      ensures forall i :: 0 <= i < |w| ==> IsWordChar(w[i])
    {
      var k :| 0 <= k < |Split(n, ' ')| && Split(n, ' ')[k] == w;
    }
  }

  /** Every key term is a run of `[a-z0-9]` longer than two characters and no stop word. */
  lemma KeyTermsAreWords(question: string, stopWords: set<string>)
    ensures forall t :: t in KeyTerms(question, stopWords) ==>
      |t| > 2 && t !in stopWords && forall i :: 0 <= i < |t| ==> IsWordChar(t[i])
  {
    var n := Normalize(question);
    NormalizeIsNormalized(question);
    PiecesOfNormalized(n);
    KeepTermsFromWords(Split(n, ' '), stopWords);
  }

  /** A question without letters or digits, the empty question among them, has no key
      terms. */
  lemma KeyTermsOfBlank(question: string, stopWords: set<string>)
    requires forall i :: 0 <= i < |question| ==> !IsWordChar(LowerChar(question[i]))
    ensures KeyTerms(question, stopWords) == []
  {
    var lowered := Lower(question);
    assert forall i :: 0 <= i < |lowered| ==> !IsWordChar(lowered[i]);
    var stripped := Strip(lowered);
    StripDropsAll(lowered);
    var collapsed := Collapse(stripped);
    assert Trim(collapsed) == [] by {
      if stripped != [] {
        assert IsSpace(stripped[0]);
        assert forall i :: 0 <= i < |stripped[1..]| ==> IsSpace(stripped[1..][i]);
        SkipAllSpaces(stripped[1..]);
        assert Collapse([]) == [];
        assert collapsed == [' '];
        assert SkipSpaces([' ']) == [];
      }
    }
    assert Normalize(question) == [];
    assert Split([], ' ') == [""];
  }

  /** Stripping a string without word characters leaves only white space. */
  lemma {:induction false} StripDropsAll(s: string)
    requires forall i :: 0 <= i < |s| ==> !IsWordChar(s[i])
    ensures forall i :: 0 <= i < |Strip(s)| ==> IsSpace(Strip(s)[i])
  {
    if s != [] {
      StripDropsAll(s[1..]);
    }
  }

  /** Skipping the white space of a string that has nothing else leaves nothing. */
  lemma {:induction false} SkipAllSpaces(s: string)
    requires forall i :: 0 <= i < |s| ==> IsSpace(s[i])
    ensures SkipSpaces(s) == []
  {
    if s != [] {
      SkipAllSpaces(s[1..]);
    }
  }

  /** A larger stop-word set removes the same words from the terms of a smaller one. */
  lemma {:induction false} KeepTermsLargerStopSet(words: seq<string>, small: set<string>, large: set<string>)
    requires small <= large
    ensures KeepTerms(KeepTerms(words, small), large) == KeepTerms(words, large)
  {
    if words != [] {
      KeepTermsLargerStopSet(words[1..], small, large);
      var w := words[0];
      var kept := if |w| > 2 && w !in small then [w] else [];
      assert KeepTerms(words, small) == kept + KeepTerms(words[1..], small);
      KeepTermsConcat(kept, KeepTerms(words[1..], small), large);
    }
  }

  /** Filtering a concatenation filters its parts. */
  lemma {:induction false} KeepTermsConcat(a: seq<string>, b: seq<string>, stopWords: set<string>)
    ensures KeepTerms(a + b, stopWords) == KeepTerms(a, stopWords) + KeepTerms(b, stopWords)
  {
    if a != [] {
      assert (a + b)[1..] == a[1..] + b;
      KeepTermsConcat(a[1..], b, stopWords);
    } else {
      assert a + b == b;
    }
  }

  /** `k` occurs in `text` starting at position `i`. */
  predicate OccursAt(text: string, k: string, i: nat)
  {
    i + |k| <= |text| && text[i..i + |k|] == k
  }

  /** `text.match(/k/)` for a literal `k`: `k` occurs somewhere in `text`. */
  predicate Contains(text: string, k: string)
  {
    exists i: nat | i <= |text| :: OccursAt(text, k, i)
  }

  /** A string occurs in any string that contains it. */
  lemma ContainsInConcat(a: string, b: string, c: string, k: string)
    requires Contains(b, k)
    ensures Contains(a + b + c, k)
  {
    var i: nat :| i <= |b| && OccursAt(b, k, i);
    assert i + |k| <= |b|;
    assert (a + b + c)[|a| + i..|a| + i + |k|] == b[i..i + |k|];
    assert OccursAt(a + b + c, k, |a| + i);
  }

  /** `text.match(/k1|k2|.../)`: one of the alternatives occurs in `text`. */
  predicate ContainsAny(text: string, keywords: seq<string>)
  {
    exists k :: k in keywords && Contains(text, k)
  }

  /** Lexicographic order on strings, character by character (the default order of
      `Array.prototype.sort`). */
  predicate LessOrEqual(a: string, b: string)
  {
    if a == [] then true
    else if b == [] then false
    else if a[0] != b[0] then a[0] < b[0]
    else LessOrEqual(a[1..], b[1..])
  }

  /** The ordering is total, so two strings always sort one way or the other. */
  lemma {:induction false} LessOrEqualTotal(a: string, b: string)
    ensures LessOrEqual(a, b) || LessOrEqual(b, a)
  {
    if a != [] && b != [] && a[0] == b[0] {
      LessOrEqualTotal(a[1..], b[1..]);
    }
  }

  /** The ordering is antisymmetric, so sorting a pair gives one answer. */
  lemma {:induction false} LessOrEqualAntisymmetric(a: string, b: string)
    requires LessOrEqual(a, b) && LessOrEqual(b, a)
    ensures a == b
  {
    if a != [] && b != [] {
      LessOrEqualAntisymmetric(a[1..], b[1..]);
      assert a == [a[0]] + a[1..] && b == [b[0]] + b[1..];
    }
  }

  /** One decimal digit. */
  function DigitChar(d: nat): char
    requires d < 10
  {
    "0123456789"[d]
  }

  /** The decimal representation of `n` (`` `${n}` `` for a non-negative integer). */
  function NatToString(n: nat): (r: string)
    ensures |r| >= 1
    ensures forall i :: 0 <= i < |r| ==> '0' <= r[i] <= '9'
  {
    if n < 10 then [DigitChar(n)] else NatToString(n / 10) + [DigitChar(n % 10)]
  }
}
