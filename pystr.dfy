/**
 * The Python string built-ins the core relies on: `str.split()` with no
 * argument, `' '.join(...)`, `str.split(' ')` and `str.lower()`.
 *
 * `Split` is characterised independently of its recursive definition: a string
 * is an interleaving of whitespace gaps and words (`Weave`), and `Split` returns
 * exactly the words of the one such layout whose inner gaps are non-empty
 * (`SplitLayout` for existence, `SplitUnique` for uniqueness).
 */
module PyStr {

  /** The characters `str.split()` treats as whitespace (CPython's Py_UNICODE_ISSPACE). */
  predicate IsSpace(c: char) {
    || c == ' ' || c == '\t' || c == '\n' || c == '\r'
    || c == '\U{000B}' || c == '\U{000C}'
    || ('\U{001C}' <= c <= '\U{001F}')
    || c == '\U{0085}' || c == '\U{00A0}' || c == '\U{1680}'
    || ('\U{2000}' <= c <= '\U{200A}')
    || c == '\U{2028}' || c == '\U{2029}' || c == '\U{202F}' || c == '\U{205F}'
    || c == '\U{3000}'
  }

  /** A word of `str.split()`: non-empty and free of whitespace. */
  predicate IsWord(w: string) {
    w != [] && forall i :: 0 <= i < |w| ==> !IsSpace(w[i])
  }

  predicate AllSpace(g: string) {
    forall i :: 0 <= i < |g| ==> IsSpace(g[i])
  }

  /** Length of the longest whitespace-free prefix of `s`. */
  function WordEnd(s: string): (n: nat)
    ensures n <= |s|
    ensures forall i :: 0 <= i < n ==> !IsSpace(s[i])
    ensures n < |s| ==> IsSpace(s[n])
  {
    if s == [] || IsSpace(s[0]) then 0 else 1 + WordEnd(s[1..])
  }

  /** Python's `s.split()`: runs of whitespace separate words; leading and trailing whitespace is dropped. */
  function Split(s: string): (words: seq<string>)
    ensures forall i :: 0 <= i < |words| ==> IsWord(words[i])
    decreases |s|
  {
    if s == [] then []
    else if IsSpace(s[0]) then Split(s[1..])
    else
      var n := WordEnd(s);
      [s[..n]] + Split(s[n..])
  }

  /** `gaps[0] + words[0] + gaps[1] + ... + words[n-1] + gaps[n]`. */
  function Weave(gaps: seq<string>, words: seq<string>): (s: string)
    requires |gaps| == |words| + 1
  {
    if words == [] then gaps[0]
    else gaps[0] + words[0] + Weave(gaps[1..], words[1..])
  }

  /** The shape a string's decomposition into words must have: whitespace gaps,
      the inner ones non-empty, and words in between. */
  predicate Layout(gaps: seq<string>, words: seq<string>) {
    && |gaps| == |words| + 1
    && (forall i :: 0 <= i < |gaps| ==> AllSpace(gaps[i]))
    && (forall i :: 0 < i < |words| ==> gaps[i] != [])
    && (forall i :: 0 <= i < |words| ==> IsWord(words[i]))
  }

  /** The whitespace gaps `Split` steps over, in order. */
  function Gaps(s: string): (gaps: seq<string>)
    ensures |gaps| == |Split(s)| + 1
    ensures s != [] && IsSpace(s[0]) ==> gaps[0] != []
    decreases |s|
  {
    if s == [] then [[]]
    else if IsSpace(s[0]) then
      var g := Gaps(s[1..]);
      [[s[0]] + g[0]] + g[1..]
    else
      [[]] + Gaps(s[WordEnd(s)..])
  }

  /** Every string is the weave of its gaps and its `Split` words, in a valid layout. */
  lemma {:induction false} SplitLayout(s: string)
    ensures Layout(Gaps(s), Split(s))
    ensures Weave(Gaps(s), Split(s)) == s
    decreases |s|
  {
    if s == [] {
    } else if IsSpace(s[0]) {
      SplitLayout(s[1..]);
      LayoutAfterSpace(s);
      WeaveAfterSpace(s);
    } else {
      var n := WordEnd(s);
      SplitLayout(s[n..]);
      LayoutAfterWord(s, n);
      WeaveAfterWord(s, n);
    }
  }

  /** How `Split` and `Gaps` step over a leading whitespace character. */
  lemma SplitSpaceStep(s: string)
    requires s != [] && IsSpace(s[0])
    ensures Split(s) == Split(s[1..])
    ensures Gaps(s) == [[s[0]] + Gaps(s[1..])[0]] + Gaps(s[1..])[1..]
  {
  }

  /** How `Split` and `Gaps` step over a leading word of length `n`. */
  lemma SplitWordStep(s: string, n: nat)
    requires s != [] && !IsSpace(s[0]) && n == WordEnd(s)
    ensures Split(s) == [s[..n]] + Split(s[n..])
    ensures Gaps(s) == [[]] + Gaps(s[n..])
  {
  }

  /** After a leading word comes whitespace or the end of the string. */
  lemma WordStepSeparated(s: string, n: nat)
    requires s != [] && !IsSpace(s[0]) && n == WordEnd(s)
    ensures IsWord(s[..n])
    ensures Split(s[n..]) != [] ==> Gaps(s[n..])[0] != []
  {
  }

  lemma LayoutAfterSpace(s: string)
    requires s != [] && IsSpace(s[0])
    requires Layout(Gaps(s[1..]), Split(s[1..]))
    ensures Layout(Gaps(s), Split(s))
  {
    SplitSpaceStep(s);
    LayoutWithLeadingSpace(s[0], Gaps(s[1..]), Split(s[1..]));
  }

  lemma WeaveAfterSpace(s: string)
    requires s != [] && IsSpace(s[0])
    requires Weave(Gaps(s[1..]), Split(s[1..])) == s[1..]
    ensures Weave(Gaps(s), Split(s)) == s
  {
    SplitSpaceStep(s);
    WeaveWithLeadingSpace(s[0], Gaps(s[1..]), Split(s[1..]));
    assert s == [s[0]] + s[1..];
  }

  lemma LayoutAfterWord(s: string, n: nat)
    requires s != [] && !IsSpace(s[0]) && n == WordEnd(s)
    requires Layout(Gaps(s[n..]), Split(s[n..]))
    ensures Layout(Gaps(s), Split(s))
  {
    SplitWordStep(s, n);
    WordStepSeparated(s, n);
    LayoutWithLeadingWord(s[..n], Gaps(s[n..]), Split(s[n..]));
  }

  lemma WeaveAfterWord(s: string, n: nat)
    requires s != [] && !IsSpace(s[0]) && n == WordEnd(s)
    requires Weave(Gaps(s[n..]), Split(s[n..])) == s[n..]
    ensures Weave(Gaps(s), Split(s)) == s
  {
    var g, w := Gaps(s[n..]), Split(s[n..]);
    SplitWordStep(s, n);
    calc {
      Weave(Gaps(s), Split(s));
      Weave([[]] + g, [s[..n]] + w);
      { WeaveWithLeadingWord(s[..n], g, w); }
      s[..n] + Weave(g, w);
      s[..n] + s[n..];
      s;
    }
  }

  /** Putting one whitespace character in front of a layout widens its first gap. */
  lemma LayoutWithLeadingSpace(c: char, gaps: seq<string>, words: seq<string>)
    requires IsSpace(c) && Layout(gaps, words)
    ensures Layout([[c] + gaps[0]] + gaps[1..], words)
  {
    var gaps' := [[c] + gaps[0]] + gaps[1..];
    assert AllSpace(gaps'[0]) by {
      assert AllSpace(gaps[0]);
    }
    assert forall i :: 0 < i < |gaps'| ==> gaps'[i] == gaps[i];
  }

  lemma WeaveWithLeadingSpace(c: char, gaps: seq<string>, words: seq<string>)
    requires |gaps| == |words| + 1
    ensures Weave([[c] + gaps[0]] + gaps[1..], words) == [c] + Weave(gaps, words)
  {
    if words != [] {
      assert ([[c] + gaps[0]] + gaps[1..])[1..] == gaps[1..];
      Assoc4([c], gaps[0], words[0], Weave(gaps[1..], words[1..]));
    }
  }

  /** Putting a word in front of a layout whose first gap separates it from the next word. */
  lemma LayoutWithLeadingWord(word: string, gaps: seq<string>, words: seq<string>)
    requires IsWord(word) && Layout(gaps, words)
    requires words != [] ==> gaps[0] != []
    ensures Layout([[]] + gaps, [word] + words)
  {
    var gaps', words' := [[]] + gaps, [word] + words;
    assert forall i :: 0 < i < |gaps'| ==> gaps'[i] == gaps[i - 1];
    assert forall i :: 0 < i < |words'| ==> words'[i] == words[i - 1];
  }

  lemma WeaveWithLeadingWord(word: string, gaps: seq<string>, words: seq<string>)
    requires |gaps| == |words| + 1
    ensures Weave([[]] + gaps, [word] + words) == word + Weave(gaps, words)
  {
    var gaps', words' := [[]] + gaps, [word] + words;
    assert gaps'[0] == [] && words'[0] == word && gaps'[1..] == gaps && words'[1..] == words;
    assert Weave(gaps', words') == gaps'[0] + words'[0] + Weave(gaps'[1..], words'[1..]);
    assert [] + word == word;
  }

  lemma Assoc4<T>(a: seq<T>, b: seq<T>, c: seq<T>, d: seq<T>)
    ensures a + b + c + d == a + (b + c + d)
  {
  }

  /** A whitespace-free prefix followed by whitespace or nothing is exactly the first word. */
  lemma {:induction false} WordEndOfWord(w: string, rest: string)
    requires forall i :: 0 <= i < |w| ==> !IsSpace(w[i])
    requires rest == [] || IsSpace(rest[0])
    ensures WordEnd(w + rest) == |w|
    decreases |w|
  {
    if w != [] {
      assert (w + rest)[1..] == w[1..] + rest;
      WordEndOfWord(w[1..], rest);
    }
  }

  /** The layout is unique: any valid decomposition of `s` is the one `Split` and `Gaps` give. */
  lemma {:induction false} SplitUnique(gaps: seq<string>, words: seq<string>, s: string)
    requires Layout(gaps, words)
    requires Weave(gaps, words) == s
    ensures words == Split(s)
    ensures gaps == Gaps(s)
    decreases |s|
  {
    if gaps[0] != [] {
      var c, gaps' := gaps[0][0], [gaps[0][1..]] + gaps[1..];
      LayoutWithoutLeadingSpace(gaps, words);
      assert gaps == [[c] + gaps'[0]] + gaps'[1..] by {
        assert gaps'[0] == gaps[0][1..] && gaps'[1..] == gaps[1..];
        assert [c] + gaps[0][1..] == gaps[0];
        assert gaps == [gaps[0]] + gaps[1..];
      }
      WeaveWithLeadingSpace(c, gaps', words);
      assert s[1..] == Weave(gaps', words);
      SplitUnique(gaps', words, s[1..]);
      SplitSpaceStep(s);
    } else if words == [] {
    } else {
      var w, gaps', words' := words[0], gaps[1..], words[1..];
      var rest := Weave(gaps', words');
      LayoutWithoutLeadingWord(gaps, words);
      assert gaps == [[]] + gaps' && words == [w] + words';
      WeaveWithLeadingWord(w, gaps', words');
      assert s == w + rest;
      if gaps'[0] != [] {
        WeaveHead(gaps', words');
      } else {
        assert words' == [] && rest == [];
      }
      WordEndOfWord(w, rest);
      assert s[..|w|] == w && s[|w|..] == rest;
      SplitUnique(gaps', words', rest);
      SplitWordStep(s, |w|);
    }
  }

  lemma LayoutWithoutLeadingSpace(gaps: seq<string>, words: seq<string>)
    requires Layout(gaps, words) && gaps[0] != []
    ensures IsSpace(gaps[0][0])
    ensures Layout([gaps[0][1..]] + gaps[1..], words)
  {
    var gaps' := [gaps[0][1..]] + gaps[1..];
    assert AllSpace(gaps[0]);
    assert forall i :: 0 < i < |gaps'| ==> gaps'[i] == gaps[i];
  }

  lemma LayoutWithoutLeadingWord(gaps: seq<string>, words: seq<string>)
    requires Layout(gaps, words) && words != []
    ensures IsWord(words[0])
    ensures Layout(gaps[1..], words[1..])
    ensures words[1..] != [] ==> gaps[1] != []
    ensures words[1..] == [] ==> AllSpace(gaps[1])
  {
    assert forall i :: 0 <= i < |gaps| - 1 ==> gaps[1..][i] == gaps[i + 1];
    assert forall i :: 0 <= i < |words| - 1 ==> words[1..][i] == words[i + 1];
  }

  /** A weave starts with its first gap. */
  lemma WeaveHead(gaps: seq<string>, words: seq<string>)
    requires |gaps| == |words| + 1 && gaps[0] != []
    ensures Weave(gaps, words) != [] && Weave(gaps, words)[0] == gaps[0][0]
  {
  }

  /** Python's `' '.join(words)`. */
  function JoinSpace(words: seq<string>): (r: string)
    ensures words != [] ==> words[0] <= r
    ensures |words| >= 2 ==> |r| > |words[0]| && r[|words[0]|] == ' '
  {
    if words == [] then []
    else if |words| == 1 then words[0]
    else words[0] + [' '] + JoinSpace(words[1..])
  }

  /** Length of the prefix of `s` before its first `' '`. */
  function FieldEnd(s: string): (n: nat)
    ensures n <= |s|
    ensures forall i :: 0 <= i < n ==> s[i] != ' '
    ensures n < |s| ==> s[n] == ' '
  {
    if s == [] || s[0] == ' ' then 0 else 1 + FieldEnd(s[1..])
  }

  /** Python's `s.split(' ')`: every single space separates two (possibly empty) fields. */
  function SplitOnSpace(s: string): (fields: seq<string>)
    ensures |fields| >= 1
    ensures forall i :: 0 <= i < |fields| ==> ' ' !in fields[i]
    decreases |s|
  {
    var n := FieldEnd(s);
    if n == |s| then [s] else [s[..n]] + SplitOnSpace(s[n + 1..])
  }

  lemma {:induction false} FieldEndOf(w: string, rest: string)
    requires ' ' !in w
    requires rest == [] || rest[0] == ' '
    ensures FieldEnd(w + rest) == |w|
    decreases |w|
  {
    if w != [] {
      assert w[0] in w;
      assert (w + rest)[1..] == w[1..] + rest;
      assert forall c :: c in w[1..] ==> c in w;
      FieldEndOf(w[1..], rest);
    }
  }

  /** Splitting on `' '` undoes joining with `' '`, for fields without spaces;
      joining nothing gives `""`, which splits to the single field `""`. */
  lemma {:induction false} SplitOnSpaceJoin(words: seq<string>)
    requires forall i :: 0 <= i < |words| ==> ' ' !in words[i]
    ensures SplitOnSpace(JoinSpace(words)) == if words == [] then [""] else words
    decreases |words|
  {
    if words == [] {
      assert FieldEnd([]) == 0;
    } else if |words| == 1 {
      FieldEndOf(words[0], []);
      assert words[0] + [] == words[0];
    } else {
      var rest := JoinSpace(words[1..]);
      assert JoinSpace(words) == words[0] + ([' '] + rest);
      SplitOnSpaceCons(words[0], rest);
      SplitOnSpaceJoin(words[1..]);
      assert words == [words[0]] + words[1..];
    }
  }

  /** A space-free field followed by a space splits off as the first field. */
  lemma SplitOnSpaceCons(w: string, rest: string)
    requires ' ' !in w
    ensures SplitOnSpace(w + ([' '] + rest)) == [w] + SplitOnSpace(rest)
  {
    var s := w + ([' '] + rest);
    FieldEndOf(w, [' '] + rest);
    assert s[..|w|] == w;
    assert s[|w| + 1..] == rest;
  }

  /** The tokens of `' '.join(s.split()).split(' ')`. */
  function Tokens(s: string): (tokens: seq<string>)
    ensures |tokens| >= 1
    ensures forall i :: 0 <= i < |tokens| ==> ' ' !in tokens[i]
  {
    SplitOnSpace(JoinSpace(Split(s)))
  }

  /** Re-splitting the joined words gives back the words, except that a string
      with no words gives the single empty token. */
  lemma TokensOfSplit(s: string)
    ensures Tokens(s) == if Split(s) == [] then [""] else Split(s)
    ensures forall i :: 0 <= i < |Tokens(s)| ==> (IsWord(Tokens(s)[i]) <==> Split(s) != [])
  {
    var words := Split(s);
    forall i | 0 <= i < |words| ensures ' ' !in words[i] {
      assert IsWord(words[i]);
    }
    SplitOnSpaceJoin(words);
  }

  /** ASCII `str.lower()`. */
  function LowerChar(c: char): (l: char)
    ensures 'A' <= c <= 'Z' ==> l as int == c as int + 32
    ensures !('A' <= c <= 'Z') ==> l == c
  {
    if 'A' <= c <= 'Z' then (c as int + 32) as char else c
  }

  function Lower(s: string): (l: string)
    ensures |l| == |s|
    ensures forall i :: 0 <= i < |s| ==> l[i] == LowerChar(s[i])
  {
    seq(|s|, i requires 0 <= i < |s| => LowerChar(s[i]))
  }
}
