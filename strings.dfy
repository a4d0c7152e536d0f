/** String operations the source takes from JavaScript's `String.prototype` and template
    literals: `includes`, `toLowerCase` (restricted to ASCII), `padStart`, `split` and
    `join` on one separator character, and the decimal rendering of a non-negative
    integer. */
module Strings {

  /** `s.includes(sub)`: `sub` occurs in `s` at some position. */
  predicate Contains(s: string, sub: string)
    decreases |s|
  {
    sub <= s || (|s| > 0 && Contains(s[1..], sub))
  }

  /** Every string contains the empty string. */
  lemma ContainsEmpty(s: string)
    ensures Contains(s, "")
  {
    assert "" <= s;
  }

  /** A string that contains `t + u` contains `t`. */
  lemma {:induction false} ContainsPrefixOfSub(s: string, t: string, u: string)
    requires Contains(s, t + u)
    ensures Contains(s, t)
    decreases |s|
  {
    if t + u <= s {
      assert t <= s by {
        assert forall i :: 0 <= i < |t| ==> t[i] == (t + u)[i];
      }
    } else {
      ContainsPrefixOfSub(s[1..], t, u);
    }
  }

  /** Every character of a contained string occurs in the containing one. */
  lemma {:induction false} ContainedCharsOccur(s: string, sub: string)
    requires Contains(s, sub)
    ensures forall i :: 0 <= i < |sub| ==> sub[i] in s
    decreases |s|
  {
    if sub <= s {
      assert forall i :: 0 <= i < |sub| ==> sub[i] == s[i];
    } else {
      ContainedCharsOccur(s[1..], sub);
      assert forall c :: c in s[1..] ==> c in s;
    }
  }

  /** `sub` is the slice of `s` that starts at position `i`. */
  predicate OccursAt(s: string, sub: string, i: int)
  {
    0 <= i <= |s| - |sub| && s[i..i + |sub|] == sub
  }

  /** `includes` holds exactly when `sub` occurs in `s` at some position. */
  lemma {:induction false} ContainsIffOccursAt(s: string, sub: string)
    ensures Contains(s, sub) <==> exists i :: OccursAt(s, sub, i)
    decreases |s|
  {
    if sub <= s {
      assert OccursAt(s, sub, 0);
    } else if |s| > 0 {
      ContainsIffOccursAt(s[1..], sub);
      if Contains(s[1..], sub) {
        var i :| OccursAt(s[1..], sub, i);
        assert s[i + 1..i + 1 + |sub|] == s[1..][i..i + |sub|];
        assert OccursAt(s, sub, i + 1);
      }
      if exists i :: OccursAt(s, sub, i) {
        var i :| OccursAt(s, sub, i);
        assert s[1..][i - 1..i - 1 + |sub|] == s[i..i + |sub|];
        assert OccursAt(s[1..], sub, i - 1);
      }
    }
  }

  /** A two-character `includes`: the pair occurs at adjacent positions of `s`. */
  lemma ContainsPairIff(s: string, a: char, b: char)
    ensures Contains(s, [a, b]) <==> exists i :: 0 <= i && i + 1 < |s| && s[i] == a && s[i + 1] == b
  {
    ContainsIffOccursAt(s, [a, b]);
    if exists i :: 0 <= i && i + 1 < |s| && s[i] == a && s[i + 1] == b {
      var i :| 0 <= i && i + 1 < |s| && s[i] == a && s[i + 1] == b;
      assert s[i..i + 2] == [a, b];
      assert OccursAt(s, [a, b], i);
    }
    if Contains(s, [a, b]) {
      var i :| OccursAt(s, [a, b], i);
      assert s[i] == s[i..i + 2][0] && s[i + 1] == s[i..i + 2][1];
    }
  }

  function LowerChar(c: char): (d: char)
    ensures 'A' <= c <= 'Z' ==> d as int == c as int + 32
    ensures !('A' <= c <= 'Z') ==> d == c
  {
    if 'A' <= c <= 'Z' then (c as int + 32) as char else c
  }

  /** `s.toLowerCase()` on the ASCII letters; every other character is kept. */
  function Lower(s: string): (r: string)
    ensures |r| == |s|
    ensures forall i :: 0 <= i < |s| ==> r[i] == LowerChar(s[i])
  {
    seq(|s|, i requires 0 <= i < |s| => LowerChar(s[i]))
  }

  /** Lower-casing twice is lower-casing once. */
  lemma LowerIdempotent(s: string)
    ensures Lower(Lower(s)) == Lower(s)
  {
    assert forall i :: 0 <= i < |s| ==> Lower(Lower(s))[i] == Lower(s)[i];
  }

  /** Lower-casing works character by character, so it distributes over `+`. */
  lemma LowerConcat(s: string, t: string)
    ensures Lower(s + t) == Lower(s) + Lower(t)
  {
    assert forall i :: 0 <= i < |s + t| ==> Lower(s + t)[i] == (Lower(s) + Lower(t))[i];
  }

  function Repeat(c: char, n: nat): (r: string)
    ensures |r| == n && forall i :: 0 <= i < n ==> r[i] == c
  {
    seq(n, i => c)
  }

  /** `s.padStart(len, fill)`: `fill` characters are added on the left up to length
      `len`; a string that is already long enough is returned as it is. */
  function PadStart(s: string, len: nat, fill: char): (r: string)
    ensures |s| >= len ==> r == s
    ensures |s| < len ==> |r| == len
    ensures r[|r| - |s|..] == s
    ensures forall i :: 0 <= i < |r| - |s| ==> r[i] == fill
  {
    if |s| >= len then s else Repeat(fill, len - |s|) + s
  }

  /** `s.split(sep)`: the pieces between separators, possibly empty. */
  function Split(s: string, sep: char): (words: seq<string>)
    ensures |words| >= 1
    ensures forall w :: w in words ==> sep !in w
    decreases |s|
  {
    if |s| == 0 then [""]
    else
      var rest := Split(s[1..], sep);
      if s[0] == sep then [""] + rest
      else [[s[0]] + rest[0]] + rest[1..]
  }

  /** `words.join(sep)`. */
  function Join(words: seq<string>, sep: char): string
    requires |words| >= 1
    decreases |words|
  {
    if |words| == 1 then words[0] else words[0] + [sep] + Join(words[1..], sep)
  }

  /** Joining the pieces of a split gives back the original string. */
  lemma {:induction false} JoinSplit(s: string, sep: char)
    ensures Join(Split(s, sep), sep) == s
    decreases |s|
  {
    if |s| > 0 {
      var rest := Split(s[1..], sep);
      JoinSplit(s[1..], sep);
      if s[0] == sep {
        assert Split(s, sep)[1..] == rest;
      } else {
        var words := Split(s, sep);
        if |rest| == 1 {
          assert words == [[s[0]] + rest[0]];
        } else {
          assert words[1..] == rest[1..];
          assert Join(rest, sep) == rest[0] + [sep] + Join(rest[1..], sep);
        }
      }
    }
  }

  /** A separator in front adds an empty first piece. */
  lemma SplitAfterSep(s: string, sep: char)
    ensures Split([sep] + s, sep) == [""] + Split(s, sep)
  {
    assert ([sep] + s)[1..] == s;
  }

  /** Any other character in front joins the first piece. */
  lemma SplitAfterChar(c: char, s: string, sep: char)
    requires c != sep
    ensures Split([c] + s, sep) == [[c] + Split(s, sep)[0]] + Split(s, sep)[1..]
  {
    assert ([c] + s)[1..] == s;
  }

  /** Joining words whose first word is not empty starts with that word's first
      character, followed by the join of the words with it removed. */
  lemma JoinAfterFirstChar(words: seq<string>, sep: char)
    requires |words| >= 1 && |words[0]| > 0
    ensures Join(words, sep) == [words[0][0]] + Join([words[0][1..]] + words[1..], sep)
  {
    var w := words[0];
    var tail := [w[1..]] + words[1..];
    assert tail[1..] == words[1..];
    assert w == [w[0]] + w[1..];
  }

  /** Splitting a join of separator-free pieces gives back the pieces. */
  lemma {:induction false} SplitJoin(words: seq<string>, sep: char)
    requires |words| >= 1
    requires forall w :: w in words ==> sep !in w
    ensures Split(Join(words, sep), sep) == words
    decreases |words|, |words[0]|
  {
    var w := words[0];
    if |w| == 0 {
      if |words| > 1 {
        assert forall v :: v in words[1..] ==> v in words;
        SplitJoin(words[1..], sep);
        assert Join(words, sep) == [sep] + Join(words[1..], sep);
        SplitAfterSep(Join(words[1..], sep), sep);
        assert words == [""] + words[1..];
      }
    } else {
      assert w in words && w[0] in w;
      var tail := [w[1..]] + words[1..];
      assert forall v :: v in tail ==> v in words || v == w[1..];
      assert forall c :: c in w[1..] ==> c in w;
      SplitJoin(tail, sep);
      JoinAfterFirstChar(words, sep);
      SplitAfterChar(w[0], Join(tail, sep), sep);
      assert [w[0]] + tail[0] == w;
      assert [[w[0]] + tail[0]] + tail[1..] == words;
    }
  }

  /** `words.map(n => n[0]).join('')`: the first character of each word; an empty
      word contributes `undefined`, which `join` prints as nothing. */
  function FirstChars(words: seq<string>): (r: string)
    ensures |r| <= |words|
    decreases |words|
  {
    if |words| == 0 then []
    else (if |words[0]| > 0 then [words[0][0]] else []) + FirstChars(words[1..])
  }

  /** The avatar initials of a name: the first character of each space-separated
      word. */
  function Initials(name: string): string {
    FirstChars(Split(name, ' '))
  }

  /** With non-empty words, `FirstChars` takes exactly one character from each. */
  lemma {:induction false} FirstCharsOfNonEmptyWords(words: seq<string>)
    requires forall i :: 0 <= i < |words| ==> |words[i]| > 0
    ensures |FirstChars(words)| == |words|
    ensures forall i :: 0 <= i < |words| ==> FirstChars(words)[i] == words[i][0]
    decreases |words|
  {
    if |words| > 0 {
      FirstCharsOfNonEmptyWords(words[1..]);
    }
  }

  /** A name made of non-empty words separated by single spaces has one initial per
      word, each the word's first letter. */
  lemma InitialsOfWords(words: seq<string>)
    requires |words| >= 1
    requires forall i :: 0 <= i < |words| ==> |words[i]| > 0 && ' ' !in words[i]
    ensures |Initials(Join(words, ' '))| == |words|
    ensures forall i :: 0 <= i < |words| ==> Initials(Join(words, ' '))[i] == words[i][0]
  {
    SplitJoin(words, ' ');
    FirstCharsOfNonEmptyWords(words);
  }

  predicate IsDigits(s: string) {
    forall i :: 0 <= i < |s| ==> '0' <= s[i] <= '9'
  }

  function DigitChar(d: nat): (c: char)
    requires d < 10
    ensures '0' <= c <= '9' && c as int - '0' as int == d
  {
    (d + '0' as int) as char
  }

  /** The decimal numeral of `n` as a template literal prints it: no leading zeros,
      "0" for zero. */
  function NatToString(n: nat): (s: string)
    ensures |s| >= 1 && IsDigits(s)
    ensures s[0] == '0' <==> n == 0
    ensures n < 10 <==> |s| == 1
    decreases n
  {
    if n < 10 then [DigitChar(n)] else NatToString(n / 10) + [DigitChar(n % 10)]
  }

  /** The value of a string of decimal digits. */
  function ParseNat(s: string): nat
    requires IsDigits(s)
    decreases |s|
  {
    if |s| == 0 then 0
    else ParseNat(s[..|s| - 1]) * 10 + (s[|s| - 1] as int - '0' as int)
  }

  /** Reading back a printed numeral gives the number. */
  lemma {:induction false} ParseNatToString(n: nat)
    ensures ParseNat(NatToString(n)) == n
    decreases n
  {
    var s := NatToString(n);
    if n >= 10 {
      ParseNatToString(n / 10);
      assert s[..|s| - 1] == NatToString(n / 10);
    }
  }
}
