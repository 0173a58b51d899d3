/** String operations used by the optimizer and the gate: JavaScript's
    whitespace class and String.prototype.trim, splitting on and joining with
    '\n', subsequences, and the length/4 token estimate. */
module Text {

  /** JavaScript's WhiteSpace and LineTerminator characters, which
      String.prototype.trim removes. */
  predicate IsWhitespace(c: char)
  {
    || c == ' ' || c == '\t' || c == '\n' || c == '\r'
    || c == '\U{B}' || c == '\U{C}' || c == '\U{A0}' || c == '\U{1680}'
    || ('\U{2000}' <= c <= '\U{200A}')
    || c == '\U{2028}' || c == '\U{2029}' || c == '\U{202F}'
    || c == '\U{205F}' || c == '\U{3000}' || c == '\U{FEFF}'
  }

  function TrimStart(s: string): string
  {
    if s != [] && IsWhitespace(s[0]) then TrimStart(s[1..]) else s
  }

  function TrimEnd(s: string): string
  {
    if s != [] && IsWhitespace(s[|s| - 1]) then TrimEnd(s[..|s| - 1]) else s
  }

  /** String.prototype.trim. */
  function Trim(s: string): string
  {
    TrimEnd(TrimStart(s))
  }

  /** Trimming the start drops a whitespace prefix and nothing more. */
  lemma {:induction false} TrimStartFacts(s: string)
    ensures var r := TrimStart(s);
            && |r| <= |s| && r == s[|s| - |r|..]
            && (forall k :: 0 <= k < |s| - |r| ==> IsWhitespace(s[k]))
            && (r != [] ==> !IsWhitespace(r[0]))
  {
    if s != [] && IsWhitespace(s[0]) {
      TrimStartFacts(s[1..]);
      var r := TrimStart(s);
      forall k | 0 <= k < |s| - |r| ensures IsWhitespace(s[k]) {
        if k > 0 {
          assert s[k] == s[1..][k - 1];
        }
      }
    }
  }

  /** Trimming the end drops a whitespace suffix and nothing more. */
  lemma {:induction false} TrimEndFacts(s: string)
    ensures var r := TrimEnd(s);
            && |r| <= |s| && r == s[..|r|]
            && (forall k :: |r| <= k < |s| ==> IsWhitespace(s[k]))
            && (r != [] ==> !IsWhitespace(r[|r| - 1]))
  {
    if s != [] && IsWhitespace(s[|s| - 1]) {
      TrimEndFacts(s[..|s| - 1]);
      var r := TrimEnd(s);
      forall k | |r| <= k < |s| ensures IsWhitespace(s[k]) {
        if k < |s| - 1 {
          assert s[k] == s[..|s| - 1][k];
        }
      }
    }
  }

  /** String.prototype.trim keeps a middle part of the text that neither
      starts nor ends with whitespace; what it drops is whitespace. */
  lemma TrimFacts(s: string)
    ensures var r := Trim(s);
            && |r| <= |s|
            && (r != [] ==> !IsWhitespace(r[0]) && !IsWhitespace(r[|r| - 1]))
            && |TrimStart(s)| <= |s| && |r| <= |TrimStart(s)|
            && r == s[|s| - |TrimStart(s)|..|s| - |TrimStart(s)| + |r|]
            && (forall k :: 0 <= k < |s| - |TrimStart(s)| ==> IsWhitespace(s[k]))
            && (forall k :: |s| - |TrimStart(s)| + |r| <= k < |s| ==> IsWhitespace(s[k]))
  {
    TrimStartFacts(s);
    var t := TrimStart(s);
    TrimEndFacts(t);
    var r := TrimEnd(t);
    var i := |s| - |t|;
    assert r == s[i..i + |r|];
    forall k | i + |r| <= k < |s| ensures IsWhitespace(s[k]) {
      assert s[k] == t[k - i];
    }
  }

  /** `s.split('\n')`: the pieces between newlines; "" yields [""]. */
  function Split(s: string): (r: seq<string>)
    ensures |r| >= 1
    ensures forall k :: 0 <= k < |r| ==> '\n' !in r[k]
  {
    if s == [] then [""]
    else
      var rest := Split(s[1..]);
      if s[0] == '\n' then [""] + rest
      else [[s[0]] + rest[0]] + rest[1..]
  }

  /** `lines.join('\n')`. */
  function Join(lines: seq<string>): string
  {
    if lines == [] then ""
    else if |lines| == 1 then lines[0]
    else lines[0] + "\n" + Join(lines[1..])
  }

  /** Splitting on '\n' and joining with '\n' gives the text back. */
  lemma {:induction false} JoinSplit(s: string)
    ensures Join(Split(s)) == s
  {
    if s != [] {
      var rest := Split(s[1..]);
      JoinSplit(s[1..]);
      if s[0] == '\n' {
        assert Split(s) == [""] + rest;
        assert ([""] + rest)[1..] == rest;
      } else {
        assert Split(s) == [[s[0]] + rest[0]] + rest[1..];
        if |rest| == 1 {
          assert Join(rest) == rest[0];
        } else {
          assert Join(rest) == rest[0] + "\n" + Join(rest[1..]);
          assert ([[s[0]] + rest[0]] + rest[1..])[1..] == rest[1..];
        }
      }
    }
  }

  /** `a` is obtained from `b` by deleting elements. */
  predicate IsSubsequence<T(==)>(a: seq<T>, b: seq<T>)
    decreases |b|
  {
    if a == [] then true
    else if b == [] then false
    else (a[0] == b[0] && IsSubsequence(a[1..], b[1..])) || IsSubsequence(a, b[1..])
  }

  // ---------------------------------------------------------------------
  // `length`: JavaScript strings count UTF-16 code units

  /** The code units of one character: a character above U+FFFF is stored
      as a surrogate pair. */
  function CodeUnits(c: char): nat
  {
    if c as int >= 0x1_0000 then 2 else 1
  }

  /** `s.length`: at least one and at most two code units per character. */
  function Utf16Length(s: string): (n: nat)
    ensures |s| <= n <= 2 * |s|
    ensures s == [] <==> n == 0
  {
    if s == [] then 0 else CodeUnits(s[0]) + Utf16Length(s[1..])
  }

  lemma {:induction false} Utf16LengthAppend(a: string, b: string)
    ensures Utf16Length(a + b) == Utf16Length(a) + Utf16Length(b)
    decreases |a|
  {
    if a != [] {
      assert (a + b)[1..] == a[1..] + b;
      assert (a + b)[0] == a[0];
      Utf16LengthAppend(a[1..], b);
    } else {
      assert a + b == b;
    }
  }

  /** Two emoji are four code units, hence one estimated token. */
  lemma SurrogatePairsCountTwice()
    ensures Utf16Length("\U{1F600}\U{1F600}") == 4
    ensures TokenEstimate("\U{1F600}\U{1F600}") == 1
  {
    assert "\U{1F600}\U{1F600}"[1..] == "\U{1F600}";
  }

  /** The crude token estimate shared by the optimizer and the gate:
      Math.floor(length / 4). */
  function TokenEstimate(s: string): (r: nat)
    ensures 4 * r <= Utf16Length(s) < 4 * r + 4
  {
    Utf16Length(s) / 4
  }

  lemma {:induction false} SubsequenceLength<T>(a: seq<T>, b: seq<T>)
    requires IsSubsequence(a, b)
    ensures |a| <= |b|
    decreases |b|
  {
    if a != [] {
      if a[0] == b[0] && IsSubsequence(a[1..], b[1..]) {
        SubsequenceLength(a[1..], b[1..]);
      } else {
        SubsequenceLength(a, b[1..]);
      }
    }
  }

  /** Dropping a prefix of `b` keeps what is a subsequence of the rest. */
  lemma {:induction false} SubsequenceOfSuffix<T>(a: seq<T>, b: seq<T>, k: nat)
    requires k <= |b| && IsSubsequence(a, b[k..])
    ensures IsSubsequence(a, b)
    decreases k
  {
    if k > 0 {
      assert b[1..][k - 1..] == b[k..];
      SubsequenceOfSuffix(a, b[1..], k - 1);
      if a != [] {
        assert IsSubsequence(a, b[1..]);
      }
    }
  }

  /** Deleting characters never lengthens a text. */
  lemma {:induction false} SubsequenceUtf16Length(a: string, b: string)
    requires IsSubsequence(a, b)
    ensures Utf16Length(a) <= Utf16Length(b)
    decreases |b|
  {
    if a != [] {
      if a[0] == b[0] && IsSubsequence(a[1..], b[1..]) {
        SubsequenceUtf16Length(a[1..], b[1..]);
      } else {
        SubsequenceUtf16Length(a, b[1..]);
      }
    }
  }

  /** Joining a subsequence of the lines never gives a longer text. */
  lemma {:induction false} JoinSubsequenceLength(a: seq<string>, b: seq<string>)
    requires IsSubsequence(a, b)
    ensures |Join(a)| <= |Join(b)|
    decreases |b|
  {
    if a != [] {
      if a[0] == b[0] && IsSubsequence(a[1..], b[1..]) {
        JoinSubsequenceLength(a[1..], b[1..]);
        SubsequenceLength(a[1..], b[1..]);
      } else {
        JoinSubsequenceLength(a, b[1..]);
        SubsequenceLength(a, b[1..]);
      }
    }
  }

  /** The same, in code units. */
  lemma {:induction false} JoinSubsequenceUtf16Length(a: seq<string>, b: seq<string>)
    requires IsSubsequence(a, b)
    ensures Utf16Length(Join(a)) <= Utf16Length(Join(b))
    decreases |b|
  {
    if a != [] {
      if a[0] == b[0] && IsSubsequence(a[1..], b[1..]) {
        JoinSubsequenceUtf16Length(a[1..], b[1..]);
        JoinUtf16Length(a);
        JoinUtf16Length(b);
        SubsequenceLength(a[1..], b[1..]);
      } else {
        JoinSubsequenceUtf16Length(a, b[1..]);
        JoinUtf16Length(b);
      }
    }
  }

  /** The code units of a join: the first line, then a newline and the rest. */
  lemma JoinUtf16Length(lines: seq<string>)
    requires |lines| >= 1
    ensures |lines| == 1 ==> Utf16Length(Join(lines)) == Utf16Length(lines[0])
    ensures |lines| >= 2 ==> Utf16Length(Join(lines)) == Utf16Length(lines[0]) + 1 + Utf16Length(Join(lines[1..]))
  {
    if |lines| >= 2 {
      Utf16LengthAppend(lines[0], "\n");
      Utf16LengthAppend(lines[0] + "\n", Join(lines[1..]));
    }
  }
}
