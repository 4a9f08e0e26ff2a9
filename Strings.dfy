/**
 * The Python string operations the provisioner relies on, as functions on
 * `seq<char>`: `str.split()` with no separator, `str.strip()`,
 * `str.split(sep)`, `sep.join(words)`, `str.split(sep)[0]` (the text before
 * the first occurrence of `sep`), `str.lower()` and `str(int)`.
 */
module Strings {
  import opened Wrappers

  /** Python's whitespace (`str.isspace`, which `split()` and `strip()` use), by code point. */
  predicate IsSpace(c: char) {
    var n := c as int;
    (9 <= n <= 13) || (0x1C <= n <= 0x20) || n == 0x85 || n == 0xA0 || n == 0x1680
    || (0x2000 <= n <= 0x200A) || n == 0x2028 || n == 0x2029 || n == 0x202F
    || n == 0x205F || n == 0x3000
  }

  /** A piece `split()` can return: non-empty, no whitespace. */
  predicate IsToken(t: string) {
    |t| > 0 && forall i :: 0 <= i < |t| ==> !IsSpace(t[i])
  }

  /** Length of the run of non-whitespace characters at the head of `s`. */
  function WordLength(s: string): (n: nat)
    ensures n <= |s|
    ensures forall i :: 0 <= i < n ==> !IsSpace(s[i])
    ensures n == |s| || IsSpace(s[n])
    ensures |s| > 0 && !IsSpace(s[0]) ==> n > 0
  {
    if |s| == 0 || IsSpace(s[0]) then 0 else 1 + WordLength(s[1..])
  }

  /** `s.split()`: the maximal runs of non-whitespace characters, left to right. */
  function Split(s: string): (r: seq<string>)
    ensures forall i :: 0 <= i < |r| ==> IsToken(r[i])
    decreases |s|
  {
    if |s| == 0 then []
    else if IsSpace(s[0]) then Split(s[1..])
    else
      var n := WordLength(s);
      [s[..n]] + Split(s[n..])
  }

  /** `s.lstrip()`: drops the leading whitespace. */
  function TrimStart(s: string): (r: string)
    ensures |r| <= |s| && r == s[|s| - |r|..]
    ensures forall i :: 0 <= i < |s| - |r| ==> IsSpace(s[i])
    ensures |r| == 0 || !IsSpace(r[0])
  {
    if |s| > 0 && IsSpace(s[0]) then TrimStart(s[1..]) else s
  }

  /** `s.rstrip()`: drops the trailing whitespace. */
  function TrimEnd(s: string): (r: string)
    ensures |r| <= |s| && r == s[..|r|]
    ensures forall i :: |r| <= i < |s| ==> IsSpace(s[i])
    ensures |r| == 0 || !IsSpace(r[|r| - 1])
  {
    if |s| > 0 && IsSpace(s[|s| - 1]) then TrimEnd(s[..|s| - 1]) else s
  }

  /** `s.strip()`. */
  function Strip(s: string): string {
    TrimEnd(TrimStart(s))
  }

  /** `s.split(sep)` for a one-character separator: the pieces between separators, empty ones kept. */
  function SplitOn(s: string, sep: char): (r: seq<string>)
    ensures |r| >= 1
    ensures forall i, j :: 0 <= i < |r| && 0 <= j < |r[i]| ==> r[i][j] != sep
    decreases |s|
  {
    if |s| == 0 then [""]
    else if s[0] == sep then [""] + SplitOn(s[1..], sep)
    else
      var rest := SplitOn(s[1..], sep);
      [[s[0]] + rest[0]] + rest[1..]
  }

  /** `sep.join(ws)`. */
  function Join(ws: seq<string>, sep: string): string {
    if |ws| == 0 then ""
    else if |ws| == 1 then ws[0]
    else ws[0] + sep + Join(ws[1..], sep)
  }

  /** `sep` occurs in `s` starting at index `i`. */
  predicate OccursAt(s: string, sep: string, i: nat) {
    i + |sep| <= |s| && s[i..i + |sep|] == sep
  }

  /** `s.find(sep, k)` as an Option: the first occurrence of `sep` starting at or after `k`. */
  function IndexOfFrom(s: string, sep: string, k: nat): (r: Option<nat>)
    requires |sep| > 0
    ensures r.Some? ==> k <= r.value && OccursAt(s, sep, r.value)
    ensures r.Some? ==> forall j :: k <= j < r.value ==> !OccursAt(s, sep, j)
    ensures r.None? ==> forall j: nat :: k <= j ==> !OccursAt(s, sep, j)
    decreases |s| - k
  {
    if k + |sep| > |s| then None
    else if OccursAt(s, sep, k) then Some(k)
    else IndexOfFrom(s, sep, k + 1)
  }

  /** `s.split(sep)[0]`: the text before the first occurrence of `sep`, or all of `s`. */
  function BeforeFirst(s: string, sep: string): (r: string)
    requires |sep| > 0
  {
    match IndexOfFrom(s, sep, 0)
    case Some(i) => s[..i]
    case None => s
  }

  /** `c.lower()` for ASCII letters; every other character is kept. */
  function LowerChar(c: char): char {
    if 'A' <= c <= 'Z' then (c as int - 'A' as int + 'a' as int) as char else c
  }

  /** `s.lower()`, ASCII letters only. */
  function Lower(s: string): (r: string)
    ensures |r| == |s|
  {
    seq(|s|, i requires 0 <= i < |s| => LowerChar(s[i]))
  }

  /** `str(n)` for a natural number: its decimal digits. */
  function NatToString(n: nat): (r: string)
    ensures |r| > 0
  {
    if n < 10 then ["0123456789"[n]] else NatToString(n / 10) + ["0123456789"[n % 10]]
  }

  /** `str(n)`: decimal, with a leading `-` for a negative number. */
  function IntToString(n: int): string {
    if n < 0 then "-" + NatToString(-n) else NatToString(n)
  }

  // ---------------------------------------------------------------------------
  // Properties of the whitespace split

  /** The run at the head of `t + rest` is exactly the token `t` when `rest` starts with whitespace or is empty. */
  lemma {:induction false} WordLengthOfToken(t: string, rest: string)
    requires IsToken(t)
    requires |rest| == 0 || IsSpace(rest[0])
    ensures WordLength(t + rest) == |t|
    decreases |t|
  {
    assert (t + rest)[1..] == t[1..] + rest;
    if |t| > 1 {
      WordLengthOfToken(t[1..], rest);
    }
  }

  lemma SplitAfterToken(t: string, rest: string)
    requires IsToken(t)
    requires |rest| == 0 || IsSpace(rest[0])
    ensures Split(t + rest) == [t] + Split(rest)
  {
    WordLengthOfToken(t, rest);
    assert (t + rest)[..|t|] == t;
    assert (t + rest)[|t|..] == rest;
  }

  /** Text made of whitespace only has no pieces. */
  lemma {:induction false} SplitAllSpace(s: string)
    requires forall i :: 0 <= i < |s| ==> IsSpace(s[i])
    ensures Split(s) == []
    decreases |s|
  {
    if |s| > 0 {
      SplitAllSpace(s[1..]);
    }
  }

  /** A token is its own only piece. */
  lemma SplitToken(t: string)
    requires IsToken(t)
    ensures Split(t) == [t]
  {
    SplitAfterToken(t, "");
    assert t + "" == t;
  }

  /** A run that stops inside `a` at a whitespace character stops there in `a + b` too. */
  lemma {:induction false} WordLengthPrefix(a: string, b: string)
    requires WordLength(a) < |a|
    ensures WordLength(a + b) == WordLength(a)
    decreases |a|
  {
    assert (a + b)[0] == a[0];
    if !IsSpace(a[0]) {
      assert (a + b)[1..] == a[1..] + b;
      WordLengthPrefix(a[1..], b);
    }
  }

  /**
   * Text cut at a whitespace character splits into the pieces of its two
   * parts.  With `SplitAllSpace` and `SplitToken` this fixes the pieces of
   * every text: its maximal non-whitespace runs, left to right.
   */
  lemma {:induction false} SplitConcat(a: string, b: string)
    requires |a| == 0 || |b| == 0 || IsSpace(a[|a| - 1]) || IsSpace(b[0])
    ensures Split(a + b) == Split(a) + Split(b)
    decreases |a|
  {
    if |a| == 0 {
      assert a + b == b;
    } else if IsSpace(a[0]) {
      assert (a + b)[0] == a[0] && (a + b)[1..] == a[1..] + b;
      SplitConcat(a[1..], b);
    } else {
      var n := WordLength(a);
      if n < |a| {
        WordLengthPrefix(a, b);
      } else {
        assert IsToken(a);
        WordLengthOfToken(a, b);
      }
      assert (a + b)[0] == a[0];
      assert (a + b)[..n] == a[..n] && (a + b)[n..] == a[n..] + b;
      SplitConcat(a[n..], b);
      ConcatAssoc([a[..n]], Split(a[n..]), Split(b));
    }
  }

  /** Splitting tokens joined by single spaces gives the tokens back. */
  lemma {:induction false} SplitJoinRoundTrip(ts: seq<string>)
    requires forall i :: 0 <= i < |ts| ==> IsToken(ts[i])
    ensures Split(Join(ts, " ")) == ts
  {
    if |ts| == 1 {
      SplitAfterToken(ts[0], "");
      assert ts[0] + "" == ts[0];
    } else if |ts| > 1 {
      var tail := Join(ts[1..], " ");
      assert Join(ts, " ") == ts[0] + (" " + tail);
      SplitAfterToken(ts[0], " " + tail);
      assert (" " + tail)[1..] == tail;
      SplitJoinRoundTrip(ts[1..]);
    }
  }

  /** The first and last characters of a join of tokens are those of its first and last token. */
  lemma {:induction false} JoinEnds(ts: seq<string>, sep: string)
    requires |ts| > 0 && forall i :: 0 <= i < |ts| ==> IsToken(ts[i])
    ensures |Join(ts, sep)| > 0
    ensures IsToken(ts[0]) && Join(ts, sep)[0] == ts[0][0]
    ensures IsToken(ts[|ts| - 1]) && Join(ts, sep)[|Join(ts, sep)| - 1] == ts[|ts| - 1][|ts[|ts| - 1]| - 1]
  {
    if |ts| > 1 {
      JoinEnds(ts[1..], sep);
    }
  }

  /** A string that neither starts nor ends with whitespace is unchanged by `strip()`. */
  lemma StripUntrimmed(s: string)
    requires |s| == 0 || (!IsSpace(s[0]) && !IsSpace(s[|s| - 1]))
    ensures Strip(s) == s
  {
  }

  /** Tokens joined by single spaces are unchanged by `strip()`. */
  lemma {:induction false} StripJoinTokens(ts: seq<string>)
    requires forall i :: 0 <= i < |ts| ==> IsToken(ts[i])
    ensures Strip(Join(ts, " ")) == Join(ts, " ")
  {
    var joined := Join(ts, " ");
    if |ts| > 0 {
      JoinEnds(ts, " ");
      var first, last := ts[0], ts[|ts| - 1];
      assert !IsSpace(first[0]) && joined[0] == first[0];
      assert !IsSpace(last[|last| - 1]) && joined[|joined| - 1] == last[|last| - 1];
    }
    StripUntrimmed(joined);
  }

  /** Tokens joined by single spaces survive `strip()` and come back from `split()`. */
  lemma {:induction false} SplitStripJoin(ts: seq<string>)
    requires forall i :: 0 <= i < |ts| ==> IsToken(ts[i])
    ensures Split(Strip(Join(ts, " "))) == ts
  {
    StripJoinTokens(ts);
    SplitJoinRoundTrip(ts);
  }

  /** One trailing space more does not change what `strip()` and `split()` make of tokens joined by spaces. */
  lemma {:induction false} SplitStripJoinSpace(ts: seq<string>)
    requires |ts| > 0 && forall i :: 0 <= i < |ts| ==> IsToken(ts[i])
    ensures Split(Strip(Join(ts, " ") + " ")) == ts
  {
    var joined := Join(ts, " ");
    JoinEnds(ts, " ");
    var first, last := ts[0], ts[|ts| - 1];
    assert !IsSpace(first[0]) && joined[0] == first[0];
    assert !IsSpace(last[|last| - 1]) && joined[|joined| - 1] == last[|last| - 1];
    assert TrimStart(joined + " ") == joined + " ";
    assert (joined + " ")[..|joined + " "| - 1] == joined;
    assert TrimEnd(joined + " ") == TrimEnd(joined);
    StripUntrimmed(joined);
    SplitJoinRoundTrip(ts);
  }

  // ---------------------------------------------------------------------------
  // Properties of split(sep) and join

  /** Joining the pieces of `s.split(sep)` with `sep` gives `s` back. */
  lemma {:induction false} JoinSplitOnRoundTrip(s: string, sep: char)
    ensures Join(SplitOn(s, sep), [sep]) == s
    decreases |s|
  {
    if |s| > 0 {
      JoinSplitOnRoundTrip(s[1..], sep);
      var rest := SplitOn(s[1..], sep);
      if s[0] != sep && |rest| > 1 {
        assert Join(rest, [sep]) == rest[0] + [sep] + Join(rest[1..], [sep]);
        assert Join(SplitOn(s, sep), [sep])
            == ([s[0]] + rest[0]) + [sep] + Join(rest[1..], [sep]);
      }
    }
  }

  /** A join of two non-empty lists is the two joins with one separator between them. */
  lemma {:induction false} JoinAppend(a: seq<string>, b: seq<string>, sep: string)
    requires |a| > 0 && |b| > 0
    ensures Join(a + b, sep) == Join(a, sep) + sep + Join(b, sep)
  {
    if |a| > 1 {
      assert (a + b)[1..] == a[1..] + b;
      JoinAppend(a[1..], b, sep);
    } else {
      assert (a + b)[1..] == b;
    }
  }

  /** Every piece of a join shows up in it, between whatever precedes and follows. */
  lemma {:induction false} JoinContains(ws: seq<string>, sep: string, k: nat)
    requires k < |ws|
    ensures exists pre, post :: Join(ws, sep) == pre + ws[k] + post
  {
    if |ws| == 1 {
      assert Join(ws, sep) == "" + ws[0] + "";
    } else if k == 0 {
      assert Join(ws, sep) == "" + ws[0] + (sep + Join(ws[1..], sep));
    } else {
      JoinContains(ws[1..], sep, k - 1);
      var pre, post :| Join(ws[1..], sep) == pre + ws[1..][k - 1] + post;
      assert Join(ws, sep) == (ws[0] + sep + pre) + ws[k] + post;
    }
  }

  // ---------------------------------------------------------------------------
  // Properties of split(sep)[0]

  /** `s.split(sep)[0]` stops at the first occurrence when `sep` occurs at `i` and nowhere before. */
  lemma BeforeFirstAt(s: string, sep: string, i: nat)
    requires |sep| > 0 && OccursAt(s, sep, i)
    requires forall j :: 0 <= j < i ==> !OccursAt(s, sep, j)
    ensures BeforeFirst(s, sep) == s[..i]
  {
    var r := IndexOfFrom(s, sep, 0);
  }

  /** Concatenation regrouped. */
  lemma ConcatAssoc<T>(a: seq<T>, b: seq<T>, c: seq<T>)
    ensures a + (b + c) == a + b + c
  {
  }

  /**
   * Cutting `prefix + " " + word + rest` before the first `word` leaves
   * `prefix + " "`, when the token `word` does not occur in `prefix`.
   */
  lemma {:induction false} BeforeFirstAfterSpace(prefix: string, word: string, rest: string)
    requires IsToken(word)
    requires forall j: nat :: !OccursAt(prefix, word, j)
    ensures BeforeFirst(prefix + " " + word + rest, word) == prefix + " "
  {
    var s := prefix + " " + word + rest;
    var at := |prefix| + 1;
    assert s[at..at + |word|] == word;
    forall j | 0 <= j < at
      ensures !OccursAt(s, word, j)
    {
      if j + |word| <= |prefix| {
        assert s[j..j + |word|] == prefix[j..j + |word|];
        assert !OccursAt(prefix, word, j);
      } else {
        var k := |prefix| - j;
        assert s[j + k] == ' ' && !IsSpace(word[k]);
      }
    }
    BeforeFirstAt(s, word, at);
    assert s[..at] == prefix + " ";
  }
}
