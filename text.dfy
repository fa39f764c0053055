/**
 * The string primitives the filters rely on: Python's `str.replace(",", " ")`,
 * `str.split()` and `str.strip()`, and the case-insensitive containment test
 * behind Django's `icontains` lookup, with case folding limited to ASCII.
 */
module Text {

  /** Whitespace as Python's argument-less `str.split()` and `str.strip()` see it. */
  predicate IsSpace(c: char)
  {
    var n := c as int;
    n == 0x20 || 0x09 <= n <= 0x0D || 0x1C <= n <= 0x1F || n == 0x85 || n == 0xA0
    || n == 0x1680 || 0x2000 <= n <= 0x200A || n == 0x2028 || n == 0x2029
    || n == 0x202F || n == 0x205F || n == 0x3000
  }

  /** A word as `str.split()` produces it: non-empty and free of whitespace. */
  predicate IsWord(w: string)
  {
    w != [] && forall i :: 0 <= i < |w| ==> !IsSpace(w[i])
  }

  /** `s.replace(",", " ")` */
  function ReplaceCommas(s: string): (r: string)
  {
    seq(|s|, i requires 0 <= i < |s| => if s[i] == ',' then ' ' else s[i])
  }

  /** Length of the run of non-whitespace characters at the start of `s`. */
  function WordLength(s: string): (n: nat)
    ensures n <= |s|
    ensures forall i :: 0 <= i < n ==> !IsSpace(s[i])
    ensures n < |s| ==> IsSpace(s[n])
  {
    if s == [] || IsSpace(s[0]) then 0 else 1 + WordLength(s[1..])
  }

  /** `s.split()`: the maximal runs of non-whitespace characters, in order. */
  function Split(s: string): (words: seq<string>)
    decreases |s|
  {
    if s == [] then []
    else if IsSpace(s[0]) then Split(s[1..])
    else
      var n := WordLength(s);
      [s[..n]] + Split(s[n..])
  }

  /** `s.lstrip()` */
  function TrimStart(s: string): (r: string)
    decreases |s|
  {
    if s != [] && IsSpace(s[0]) then TrimStart(s[1..]) else s
  }

  /** `s.rstrip()` */
  function TrimEnd(s: string): (r: string)
    decreases |s|
  {
    if s != [] && IsSpace(s[|s| - 1]) then TrimEnd(s[..|s| - 1]) else s
  }

  /** `s.strip()` */
  function Strip(s: string): string
  {
    TrimEnd(TrimStart(s))
  }

  /** `strip()` leaves a string that neither starts nor ends with whitespace unchanged. */
  lemma StripOfFramed(s: string)
    requires s != [] && !IsSpace(s[0]) && !IsSpace(s[|s| - 1])
    ensures Strip(s) == s
  {
  }

  /** The characters of `s` that are not whitespace, in order. */
  function NonSpace(s: string): string
  {
    if s == [] then []
    else (if IsSpace(s[0]) then [] else [s[0]]) + NonSpace(s[1..])
  }

  function Concat(ws: seq<string>): string
  {
    if ws == [] then [] else ws[0] + Concat(ws[1..])
  }

  /** `" ".join(ws)` */
  function Unwords(ws: seq<string>): string
  {
    if ws == [] then []
    else if |ws| == 1 then ws[0]
    else ws[0] + " " + Unwords(ws[1..])
  }

  lemma ConcatAppend(a: seq<string>, b: seq<string>)
    ensures Concat(a + b) == Concat(a) + Concat(b)
  {
    if a == [] {
      assert a + b == b;
    } else {
      assert (a + b)[0] == a[0];
      assert (a + b)[1..] == a[1..] + b;
      ConcatAppend(a[1..], b);
    }
  }

  lemma NonSpaceAppend(a: string, b: string)
    ensures NonSpace(a + b) == NonSpace(a) + NonSpace(b)
  {
    if a == [] {
      assert a + b == b;
    } else {
      assert (a + b)[0] == a[0];
      assert (a + b)[1..] == a[1..] + b;
      NonSpaceAppend(a[1..], b);
    }
  }

  lemma NonSpaceOfWord(w: string)
    requires forall i :: 0 <= i < |w| ==> !IsSpace(w[i])
    ensures NonSpace(w) == w
  {
    if w != [] {
      NonSpaceOfWord(w[1..]);
    }
  }

  /** Every piece `str.split()` returns is a word. */
  lemma {:induction false} SplitGivesWords(s: string)
    ensures forall w :: w in Split(s) ==> IsWord(w)
    decreases |s|
  {
    if s == [] {
    } else if IsSpace(s[0]) {
      SplitGivesWords(s[1..]);
    } else {
      var n := WordLength(s);
      SplitGivesWords(s[n..]);
    }
  }

  /** Splitting drops exactly the whitespace: the words put together are the other characters, in order. */
  lemma {:induction false} SplitKeepsOtherCharacters(s: string)
    ensures Concat(Split(s)) == NonSpace(s)
    decreases |s|
  {
    if s == [] {
    } else if IsSpace(s[0]) {
      SplitKeepsOtherCharacters(s[1..]);
    } else {
      var n := WordLength(s);
      SplitKeepsOtherCharacters(s[n..]);
      assert s == s[..n] + s[n..];
      NonSpaceAppend(s[..n], s[n..]);
      NonSpaceOfWord(s[..n]);
      ConcatAppend([s[..n]], Split(s[n..]));
    }
  }

  /** Splitting yields no word exactly when the string is all whitespace. */
  lemma {:induction false} SplitEmptyIff(s: string)
    ensures Split(s) == [] <==> forall i :: 0 <= i < |s| ==> IsSpace(s[i])
    decreases |s|
  {
    if s != [] {
      if IsSpace(s[0]) {
        SplitEmptyIff(s[1..]);
        assert forall i :: 1 <= i < |s| ==> s[i] == s[1..][i - 1];
      }
    }
  }

  lemma WordLengthOfWordThenSpace(w: string, rest: string)
    requires IsWord(w)
    requires rest == [] || IsSpace(rest[0])
    ensures WordLength(w + rest) == |w|
    decreases |w|
  {
    if |w| > 1 {
      assert (w + rest)[1..] == w[1..] + rest;
      WordLengthOfWordThenSpace(w[1..], rest);
    } else {
      assert (w + rest)[1..] == rest;
    }
  }

  /** Joining words with single spaces and splitting again gives back the words. */
  lemma {:induction false} SplitUnwords(ws: seq<string>)
    requires forall w :: w in ws ==> IsWord(w)
    ensures Split(Unwords(ws)) == ws
  {
    if ws == [] {
    } else if |ws| == 1 {
      WordLengthOfWordThenSpace(ws[0], []);
      assert ws[0] + [] == ws[0];
      assert ws[0][|ws[0]|..] == [];
    } else {
      var s := Unwords(ws);
      var tail := " " + Unwords(ws[1..]);
      assert s == ws[0] + tail;
      WordLengthOfWordThenSpace(ws[0], tail);
      assert s[..|ws[0]|] == ws[0];
      assert s[|ws[0]|..] == tail;
      assert tail[1..] == Unwords(ws[1..]);
      SplitUnwords(ws[1..]);
    }
  }

  lemma {:induction false} TrimStartOfWord(w: string)
    requires IsWord(w)
    ensures TrimStart(w) == w
  {
  }

  lemma {:induction false} TrimEndOfWord(w: string)
    requires IsWord(w)
    ensures TrimEnd(w) == w
  {
  }

  /** Stripping a word leaves it as it is, so `v.strip()` is redundant on the pieces of `split()`. */
  lemma StripOfWord(w: string)
    requires IsWord(w)
    ensures Strip(w) == w
  {
    TrimStartOfWord(w);
    TrimEndOfWord(w);
  }

  /** ASCII lower-casing of one character. */
  function Lower(c: char): char
  {
    if 'A' <= c <= 'Z' then (c as int + 32) as char else c
  }

  function LowerStr(s: string): (r: string)
  {
    seq(|s|, i requires 0 <= i < |s| => Lower(s[i]))
  }

  predicate IsPrefix(p: string, s: string)
  {
    |p| <= |s| && s[..|p|] == p
  }

  /** `p in s`: `p` occurs in `s` as a contiguous piece. */
  predicate Contains(s: string, p: string)
    decreases |s|
  {
    IsPrefix(p, s) || (s != [] && Contains(s[1..], p))
  }

  /** `p` occurs at position `i` of `s`. */
  predicate OccursAt(s: string, p: string, i: int)
  {
    0 <= i && i + |p| <= |s| && s[i..i + |p|] == p
  }

  /** The scanning definition of containment agrees with "occurs at some position". */
  lemma {:induction false} ContainsIff(s: string, p: string)
    ensures Contains(s, p) <==> exists i :: OccursAt(s, p, i)
    decreases |s|
  {
    if IsPrefix(p, s) {
      assert OccursAt(s, p, 0);
    } else if s == [] {
      assert forall i :: !OccursAt(s, p, i);
    } else {
      ContainsIff(s[1..], p);
      if Contains(s[1..], p) {
        var i :| OccursAt(s[1..], p, i);
        assert s[i + 1..i + 1 + |p|] == s[1..][i..i + |p|];
        assert OccursAt(s, p, i + 1);
      } else {
        forall i | OccursAt(s, p, i) ensures false {
          assert i != 0;
          assert s[1..][i - 1..i - 1 + |p|] == s[i..i + |p|];
          assert OccursAt(s[1..], p, i - 1);
        }
      }
    }
  }

  /** `icontains`: case-insensitive containment (ASCII letters only). */
  predicate IContains(s: string, p: string)
  {
    Contains(LowerStr(s), LowerStr(p))
  }

  /** A piece cannot occur where its first character never does. */
  lemma {:induction false} AbsentFirstChar(s: string, p: string)
    requires p != []
    requires forall i :: 0 <= i < |s| ==> s[i] != p[0]
    ensures !Contains(s, p)
    decreases |s|
  {
    if s != [] {
      assert !IsPrefix(p, s) by { if |p| <= |s| { assert s[..|p|][0] == s[0]; } }
      AbsentFirstChar(s[1..], p);
    }
  }

  /** Leading whitespace does not change the words. */
  lemma {:induction false} SplitBlankThen(blank: string, rest: string)
    requires forall i :: 0 <= i < |blank| ==> IsSpace(blank[i])
    ensures Split(blank + rest) == Split(rest)
    decreases |blank|
  {
    if blank != [] {
      assert (blank + rest)[0] == blank[0];
      assert (blank + rest)[1..] == blank[1..] + rest;
      SplitBlankThen(blank[1..], rest);
    } else {
      assert blank + rest == rest;
    }
  }

  /** A word after some whitespace is the only word. */
  lemma SplitBlankWord(blank: string, w: string)
    requires forall i :: 0 <= i < |blank| ==> IsSpace(blank[i])
    requires IsWord(w)
    ensures Split(blank + w) == [w]
  {
    SplitBlankThen(blank, w);
    SplitWordThen(w, []);
    assert w + [] == w;
  }

  /** A word followed by whitespace (or nothing) is split off as the first word. */
  lemma SplitWordThen(w: string, rest: string)
    requires IsWord(w)
    requires rest == [] || IsSpace(rest[0])
    ensures Split(w + rest) == [w] + Split(rest)
  {
    WordLengthOfWordThenSpace(w, rest);
    assert (w + rest)[..|w|] == w;
    assert (w + rest)[|w|..] == rest;
  }

  /** A piece longer than the string cannot occur in it. */
  lemma {:induction false} TooLongToContain(s: string, p: string)
    requires |p| > |s|
    ensures !Contains(s, p)
    decreases |s|
  {
    if s != [] {
      TooLongToContain(s[1..], p);
    }
  }
}
