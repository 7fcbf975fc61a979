/** Python's whitespace: `split()`, `strip()` and joining words with single spaces. */
module Text {
  /** The characters that `str.split()` and `str.strip()` treat as whitespace. */
  predicate IsSpace(c: char) {
    var n := c as int;
    || 9 <= n <= 13 || 28 <= n <= 32 || n == 0x85 || n == 0xA0 || n == 0x1680 || 0x2000 <= n <= 0x200A
    || n == 0x2028 || n == 0x2029 || n == 0x202F || n == 0x205F || n == 0x3000
  }

  /** The length of the word at the front. */
  function WordEnd(s: string): (r: nat)
    ensures r <= |s|
    ensures forall i :: 0 <= i < r ==> !IsSpace(s[i])
    ensures r < |s| ==> IsSpace(s[r])
  {
    if s == "" || IsSpace(s[0]) then 0 else 1 + WordEnd(s[1..])
  }

  function Words(s: string): seq<string>
    decreases |s|
  {
    if s == "" then []
    else if IsSpace(s[0]) then Words(s[1..])
    else [s[..WordEnd(s)]] + Words(s[WordEnd(s)..])
  }

  function Join(words: seq<string>): string {
    if words == [] then "" else if |words| == 1 then words[0] else words[0] + " " + Join(words[1..])
  }

  function StripLeft(s: string): string {
    if s != "" && IsSpace(s[0]) then StripLeft(s[1..]) else s
  }

  function StripRight(s: string): string {
    if s != "" && IsSpace(s[|s| - 1]) then StripRight(s[..|s| - 1]) else s
  }

  function Strip(s: string): string {
    StripRight(StripLeft(s))
  }

  predicate Solid(word: string) {
    word != "" && forall i :: 0 <= i < |word| ==> !IsSpace(word[i])
  }

  lemma {:induction false} WordsAreSolid(s: string)
    ensures forall w :: w in Words(s) ==> Solid(w)
    decreases |s|
  {
    if s == "" {
    } else if IsSpace(s[0]) {
      WordsAreSolid(s[1..]);
    } else {
      WordsAreSolid(s[WordEnd(s)..]);
    }
  }

  lemma {:induction false} WordEndAt(word: string, rest: string)
    requires Solid(word) && (rest == "" || IsSpace(rest[0]))
    ensures WordEnd(word + rest) == |word|
  {
    assert forall i :: 0 <= i < |word| ==> (word + rest)[i] == word[i];
    assert rest != "" ==> (word + rest)[|word|] == rest[0];
  }

  lemma {:induction false} WordsOfWord(word: string, rest: string)
    requires Solid(word) && (rest == "" || IsSpace(rest[0]))
    ensures Words(word + rest) == [word] + Words(rest)
  {
    WordEndAt(word, rest);
    assert (word + rest)[..|word|] == word && (word + rest)[|word|..] == rest;
    assert (word + rest)[0] == word[0];
  }

  /** Splitting what was joined gives the words back. */
  lemma {:induction false} WordsOfJoin(words: seq<string>)
    requires forall w :: w in words ==> Solid(w)
    ensures Words(Join(words)) == words
  {
    if words == [] {
    } else if |words| == 1 {
      assert words[0] + "" == words[0];
      WordsOfWord(words[0], "");
    } else {
      WordsOfJoin(words[1..]);
      var rest := " " + Join(words[1..]);
      assert words[0] + " " + Join(words[1..]) == words[0] + rest;
      assert rest[1..] == Join(words[1..]);
      WordsOfWord(words[0], rest);
    }
  }

  lemma {:induction false} WordsStripLeft(s: string)
    ensures Words(StripLeft(s)) == Words(s)
  {
    if s != "" && IsSpace(s[0]) {
      WordsStripLeft(s[1..]);
    }
  }

  lemma {:induction false} WordsWithSpaceAfter(s: string, c: char)
    requires IsSpace(c)
    ensures Words(s + [c]) == Words(s)
    decreases |s|
  {
    if s == "" {
      assert s + [c] == [c] && [c][1..] == "";
    } else if IsSpace(s[0]) {
      assert (s + [c])[1..] == s[1..] + [c];
      WordsWithSpaceAfter(s[1..], c);
    } else {
      var n := WordEnd(s);
      var word, rest := s[..n], s[n..];
      assert s + [c] == word + (rest + [c]) && s == word + rest;
      WordsOfWord(word, rest + [c]);
      WordsOfWord(word, rest);
      WordsWithSpaceAfter(rest, c);
    }
  }

  lemma {:induction false} WordsStripRight(s: string)
    ensures Words(StripRight(s)) == Words(s)
  {
    if s != "" && IsSpace(s[|s| - 1]) {
      var front := s[..|s| - 1];
      assert s == front + [s[|s| - 1]];
      WordsWithSpaceAfter(front, s[|s| - 1]);
      WordsStripRight(front);
    }
  }

  lemma WordsOfStrip(s: string)
    ensures Words(Strip(s)) == Words(s)
  {
    WordsStripLeft(s);
    WordsStripRight(StripLeft(s));
  }

  /** `normalize_identifier`: strip, split, join with single spaces. */
  function Normalize(s: string): string {
    Join(Words(Strip(s)))
  }

  /**
   Two spellings normalise to the same text exactly when they have the same words; normalising again
   changes nothing.
   */
  lemma NormalizeKeepsWords(a: string, b: string)
    ensures Words(Normalize(a)) == Words(a)
    ensures Normalize(a) == Normalize(b) <==> Words(a) == Words(b)
    ensures Normalize(Normalize(a)) == Normalize(a)
    ensures Normalize(a) == "" <==> Words(a) == []
  {
    WordsOfStrip(a);
    WordsOfStrip(b);
    WordsAreSolid(a);
    WordsAreSolid(b);
    WordsOfJoin(Words(a));
    WordsOfJoin(Words(b));
    WordsOfStrip(Normalize(a));
  }

  /** `normalize_plate`, which does not strip first, agrees. */
  lemma PlateIsIdentifier(s: string)
    ensures Join(Words(s)) == Normalize(s)
  {
    WordsOfStrip(s);
  }

  lemma {:induction false} StripLeftStops(s: string)
    ensures StripLeft(s) == "" || !IsSpace(StripLeft(s)[0])
  {
    if s != "" && IsSpace(s[0]) {
      StripLeftStops(s[1..]);
    }
  }

  lemma {:induction false} StripRightStops(s: string)
    ensures StripRight(s) <= s
    ensures StripRight(s) == "" || !IsSpace(StripRight(s)[|StripRight(s)| - 1])
  {
    if s != "" && IsSpace(s[|s| - 1]) {
      StripRightStops(s[..|s| - 1]);
    }
  }

  /** Stripping again changes nothing. */
  lemma StripIdempotent(s: string)
    ensures Strip(Strip(s)) == Strip(s)
  {
    StripLeftStops(s);
    StripRightStops(StripLeft(s));
    if Strip(s) != "" {
      assert Strip(s)[0] == StripLeft(s)[0];
    }
  }
}
