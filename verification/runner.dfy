/** The optimizer (src/optimizer/runner.ts): the text heuristics that shrink
    a skill file (blank-line collapsing, comment stripping, line
    deduplication, the savings header), the change summary, and the savings
    accounting with its audit event. */
module Runner {
  import opened Types
  import opened Js
  import opened Text
  import opened Ledger
  import Engine

  // ---------------------------------------------------------------------
  // `replace(/\n{3,}/g, '\n\n')`

  /** The number of newlines at the start of `s`. */
  function NewlineRun(s: string): (n: nat)
    ensures n <= |s|
    ensures forall k :: 0 <= k < n ==> s[k] == '\n'
    ensures n == |s| || s[n] != '\n'
  {
    if s == [] || s[0] != '\n' then 0 else 1 + NewlineRun(s[1..])
  }

  /** Three newlines start at index `i`. */
  predicate TripleAt(s: string, i: int)
  {
    0 <= i && i + 2 < |s| && s[i] == '\n' && s[i + 1] == '\n' && s[i + 2] == '\n'
  }

  predicate NoTripleNewline(s: string)
  {
    forall i :: 0 <= i < |s| ==> !TripleAt(s, i)
  }

  /** How much of `s` the collapsing consumes in one step: its whole
      leading run of newlines, or one other character. */
  function LeadLength(s: string): (k: nat)
    requires s != []
    ensures 1 <= k <= |s|
  {
    var n := NewlineRun(s);
    if n == 0 then 1 else n
  }

  /** What one step emits: a run of three or more newlines becomes two,
      anything else is copied. */
  function Lead(s: string): string
    requires s != []
  {
    var n := NewlineRun(s);
    if n == 0 then [s[0]] else if n >= 3 then "\n\n" else s[..n]
  }

  /** Each maximal run of three or more newlines becomes two. */
  function CollapseBlankLines(s: string): (r: string)
    ensures |r| <= |s|
    decreases |s|
  {
    if s == [] then [] else Lead(s) + CollapseBlankLines(s[LeadLength(s)..])
  }

  /** No run of three newlines survives the collapsing. */
  lemma {:induction false} CollapseLeavesNoTriple(s: string)
    ensures NoTripleNewline(CollapseBlankLines(s))
    decreases |s|
  {
    if s != [] {
      var k := LeadLength(s);
      var lead := Lead(s);
      var rest := CollapseBlankLines(s[k..]);
      CollapseLeavesNoTriple(s[k..]);
      LeadJoinsRest(s);
      var r := lead + rest;
      assert r == CollapseBlankLines(s);
      forall i | 0 <= i < |r| && TripleAt(r, i) ensures TripleAt(rest, i - |lead|) {
        if i >= |lead| {
          assert r[i] == rest[i - |lead|] && r[i + 1] == rest[i - |lead| + 1] && r[i + 2] == rest[i - |lead| + 2];
        }
      }
    }
  }

  /** A triple newline cannot start inside the emitted lead, nor straddle
      it and what follows: the lead holds at most two newlines and is
      followed by a character other than a newline when it ends with one. */
  lemma LeadJoinsRest(s: string)
    requires s != []
    ensures var r := Lead(s) + CollapseBlankLines(s[LeadLength(s)..]);
            forall i :: 0 <= i < |Lead(s)| ==> !TripleAt(r, i)
  {
    var k := LeadLength(s);
    var lead := Lead(s);
    var rest := CollapseBlankLines(s[k..]);
    var r := lead + rest;
    if NewlineRun(s) > 0 && rest != [] {
      assert s[k..][0] != '\n';
      CollapseStartsWith(s[k..]);
      assert r[|lead|] == rest[0];
    }
    forall i | 0 <= i < |lead| ensures !TripleAt(r, i) {
      if NewlineRun(s) == 0 {
        assert r[0] == s[0];
      }
    }
  }

  /** Collapsing never adds code units: each step emits at most what it
      consumes. */
  lemma {:induction false} CollapseUtf16Length(s: string)
    ensures Utf16Length(CollapseBlankLines(s)) <= Utf16Length(s)
    decreases |s|
  {
    if s != [] {
      var k := LeadLength(s);
      CollapseUtf16Length(s[k..]);
      LeadUtf16Length(s);
      Utf16LengthAppend(Lead(s), CollapseBlankLines(s[k..]));
      Utf16LengthAppend(s[..k], s[k..]);
      SplitAt(s, k);
    }
  }

  lemma LeadUtf16Length(s: string)
    requires s != []
    ensures Utf16Length(Lead(s)) <= Utf16Length(s[..LeadLength(s)])
  {
    var n := NewlineRun(s);
    if n == 0 {
      assert Lead(s) == s[..1];
    } else if n >= 3 {
      assert Utf16Length("\n\n") == 2 by {
        assert "\n\n"[1..] == "\n";
      }
    }
  }

  /** Text that does not start with a newline keeps its first character. */
  lemma CollapseStartsWith(s: string)
    requires s != [] && s[0] != '\n'
    ensures CollapseBlankLines(s) != [] && CollapseBlankLines(s)[0] == s[0]
  {
    assert Lead(s) == [s[0]];
  }

  /** The text with its newlines removed. */
  function WithoutNewlines(s: string): (r: string)
    ensures |r| <= |s|
  {
    if s == [] then [] else (if s[0] == '\n' then [] else [s[0]]) + WithoutNewlines(s[1..])
  }

  lemma {:induction false} WithoutNewlinesAppend(a: string, b: string)
    ensures WithoutNewlines(a + b) == WithoutNewlines(a) + WithoutNewlines(b)
    decreases |a|
  {
    if a != [] {
      assert (a + b)[1..] == a[1..] + b;
      assert (a + b)[0] == a[0];
      WithoutNewlinesAppend(a[1..], b);
      assert WithoutNewlines(a + b) == (if a[0] == '\n' then [] else [a[0]]) + WithoutNewlines(a[1..] + b);
    } else {
      assert a + b == b;
    }
  }

  lemma {:induction false} NewlinesOnly(s: string)
    requires forall k :: 0 <= k < |s| ==> s[k] == '\n'
    ensures WithoutNewlines(s) == []
    decreases |s|
  {
    if s != [] {
      NewlinesOnly(s[1..]);
    }
  }

  /** One step keeps the characters other than newlines of what it
      consumes. */
  lemma LeadKeepsText(s: string)
    requires s != []
    ensures WithoutNewlines(Lead(s)) == WithoutNewlines(s[..LeadLength(s)])
  {
    var n := NewlineRun(s);
    if n == 0 {
      assert Lead(s) == s[..1];
    } else {
      NewlinesOnly(Lead(s));
      NewlinesOnly(s[..n]);
    }
  }

  /** Collapsing removes newlines only: every other character is kept, in
      order. */
  lemma {:induction false} CollapseKeepsText(s: string)
    ensures WithoutNewlines(CollapseBlankLines(s)) == WithoutNewlines(s)
    decreases |s|
  {
    if s != [] {
      CollapseKeepsText(s[LeadLength(s)..]);
      CollapseKeepsTextStep(s);
    }
  }

  lemma CollapseKeepsTextStep(s: string)
    requires s != []
    requires WithoutNewlines(CollapseBlankLines(s[LeadLength(s)..])) == WithoutNewlines(s[LeadLength(s)..])
    ensures WithoutNewlines(CollapseBlankLines(s)) == WithoutNewlines(s)
  {
    var k := LeadLength(s);
    calc {
      WithoutNewlines(CollapseBlankLines(s));
      WithoutNewlines(Lead(s) + CollapseBlankLines(s[k..]));
      { WithoutNewlinesAppend(Lead(s), CollapseBlankLines(s[k..])); }
      WithoutNewlines(Lead(s)) + WithoutNewlines(CollapseBlankLines(s[k..]));
      { LeadKeepsText(s); }
      WithoutNewlines(s[..k]) + WithoutNewlines(s[k..]);
      { WithoutNewlinesAppend(s[..k], s[k..]); }
      WithoutNewlines(s[..k] + s[k..]);
      { SplitAt(s, k); }
      WithoutNewlines(s);
    }
  }

  /** A text without a run of three newlines is left as it is, so
      collapsing twice is collapsing once. */
  lemma {:induction false} CollapseFixesCollapsed(s: string)
    requires NoTripleNewline(s)
    ensures CollapseBlankLines(s) == s
    decreases |s|
  {
    if s != [] {
      NoTripleNewlineSuffix(s, LeadLength(s));
      CollapseFixesCollapsed(s[LeadLength(s)..]);
      assert !TripleAt(s, 0);
      CollapseFixesStep(s);
    }
  }

  lemma CollapseFixesStep(s: string)
    requires s != [] && !TripleAt(s, 0)
    requires CollapseBlankLines(s[LeadLength(s)..]) == s[LeadLength(s)..]
    ensures CollapseBlankLines(s) == s
  {
    ShortLeadIsCopied(s);
    SplitAt(s, LeadLength(s));
  }

  lemma SplitAt(s: string, k: nat)
    requires k <= |s|
    ensures s[..k] + s[k..] == s
  {
  }

  lemma LongRunIsTriple(s: string)
    ensures NewlineRun(s) >= 3 ==> TripleAt(s, 0)
  {
  }

  /** A leading run of fewer than three newlines, or a single other
      character, is copied as it is. */
  lemma ShortLeadIsCopied(s: string)
    requires s != [] && !TripleAt(s, 0)
    ensures Lead(s) == s[..LeadLength(s)]
  {
    LongRunIsTriple(s);
    if NewlineRun(s) == 0 {
      assert [s[0]] == s[..1];
    }
  }

  lemma NoTripleNewlineSuffix(s: string, k: nat)
    requires k <= |s| && NoTripleNewline(s)
    ensures NoTripleNewline(s[k..])
  {
    forall i | TripleAt(s[k..], i) ensures TripleAt(s, k + i) {
      assert s[k..][i] == s[k + i] && s[k..][i + 1] == s[k + i + 1] && s[k..][i + 2] == s[k + i + 2];
    }
  }

  lemma CollapseIdempotent(s: string)
    ensures CollapseBlankLines(CollapseBlankLines(s)) == CollapseBlankLines(s)
  {
    CollapseLeavesNoTriple(s);
    CollapseFixesCollapsed(CollapseBlankLines(s));
  }

  // ---------------------------------------------------------------------
  // `replace(/<!--[\s\S]*?-->/g, '')`

  predicate OpensAt(s: string, p: int)
  {
    0 <= p && p + 4 <= |s| && s[p..p + 4] == "<!--"
  }

  predicate ClosesAt(s: string, q: int)
  {
    0 <= q && q + 3 <= |s| && s[q..q + 3] == "-->"
  }

  /** The first `-->` that starts at or after `from`. */
  function FindClose(s: string, from: nat): (r: Option<nat>)
    ensures r.Some? ==> from <= r.value && ClosesAt(s, r.value)
                        && forall q :: from <= q < r.value ==> !ClosesAt(s, q)
    ensures r.None? ==> forall q :: from <= q ==> !ClosesAt(s, q)
    decreases |s| - from
  {
    if from + 3 > |s| then None
    else if s[from..from + 3] == "-->" then Some(from)
    else FindClose(s, from + 1)
  }

  /** Left to right, each `<!--` that has a later `-->` is removed together
      with everything up to and including the nearest such `-->`; the scan
      resumes after it. A `<!--` without a closing `-->` stays. */
  function StripComments(s: string): (r: string)
    ensures |r| <= |s|
    decreases |s|
  {
    if s == [] then []
    else
      var close := if OpensAt(s, 0) then FindClose(s, 4) else None;
      if close.Some? then StripComments(s[close.value + 3..])
      else [s[0]] + StripComments(s[1..])
  }

  /** Stripping only deletes characters. */
  lemma {:induction false} StripCommentsSubsequence(s: string)
    ensures IsSubsequence(StripComments(s), s)
    decreases |s|
  {
    if s != [] {
      var close := if OpensAt(s, 0) then FindClose(s, 4) else None;
      if close.Some? {
        StripCommentsSubsequence(s[close.value + 3..]);
        SubsequenceOfSuffix(StripComments(s), s, close.value + 3);
      } else {
        StripCommentsSubsequence(s[1..]);
        assert StripComments(s)[1..] == StripComments(s[1..]);
      }
    }
  }

  /** A text with no `<!--` in it is left as it is. */
  lemma {:induction false} StripWithoutOpener(s: string)
    requires forall p :: !OpensAt(s, p)
    ensures StripComments(s) == s
    decreases |s|
  {
    if s != [] {
      assert forall p :: !OpensAt(s[1..], p) by {
        forall p | OpensAt(s[1..], p) ensures false {
          assert s[1..][p..p + 4] == s[p + 1..p + 5];
          assert OpensAt(s, p + 1);
        }
      }
      StripWithoutOpener(s[1..]);
    }
  }

  /** A comment at the start of the text is removed through its first
      closing `-->`, and nothing after that is touched by that match. */
  lemma CommentAtStartRemoved(s: string, q: nat)
    requires OpensAt(s, 0) && 4 <= q && ClosesAt(s, q)
    requires forall k :: 4 <= k < q ==> !ClosesAt(s, k)
    ensures StripComments(s) == StripComments(s[q + 3..])
  {
  }

  // ---------------------------------------------------------------------
  // Line deduplication

  /** Blank lines and headings: always kept. */
  predicate IsStructural(line: string)
  {
    var t := Trim(line);
    t == [] || t[0] == '#'
  }

  /** What the filter compares lines by: nothing for a blank or heading
      line, which is always kept, and the trimmed text of any other line. */
  function LineKey(line: string): (k: Option<string>)
    ensures k.None? <==> IsStructural(line)
    ensures k.Some? ==> && k.value == Trim(line)
                        && k.value != [] && k.value[0] != '#'
                        && !IsWhitespace(k.value[0]) && !IsWhitespace(k.value[|k.value| - 1])
  {
    TrimFacts(line);
    if IsStructural(line) then None else Some(Trim(line))
  }

  // The properties of the filter hold for any key function; they are
  // proved once for a key `key` and used with `LineKey`.

  /** The key of `x` as a set: empty when it has none. */
  function KeyOf(key: string -> Option<string>, x: string): set<string>
  {
    if key(x).Some? then {key(x).value} else {}
  }

  /** `[x]` when the filter keeps `x` after having seen the keys `seen`. */
  function Kept(key: string -> Option<string>, x: string, seen: set<string>): seq<string>
  {
    if key(x).None? || key(x).value !in seen then [x] else []
  }

  /** A line is kept, or dropped when it has a key that was seen. */
  lemma KeptDropsRepeatsOrKeeps(key: string -> Option<string>, x: string, seen: set<string>)
    ensures Kept(key, x, seen) == [x] || (Kept(key, x, seen) == [] && key(x).Some? && key(x).value in seen)
  {
  }

  /** The filter with its `seen` set: a line whose key was seen is dropped,
      any other line is kept and its key recorded. A line whose key was
      seen adds nothing new to the set, so the set always grows by the
      line's key. */
  function DedupeBy(key: string -> Option<string>, lines: seq<string>, seen: set<string>): (r: seq<string>)
    ensures |r| <= |lines|
  {
    if lines == [] then []
    else Kept(key, lines[0], seen) + DedupeBy(key, lines[1..], seen + KeyOf(key, lines[0]))
  }

  function Dedupe(lines: seq<string>): seq<string>
  {
    DedupeBy(LineKey, lines, {})
  }

  /** `lines.filter(...)` with the mutable `seen` set. */
  method DedupeLines(lines: seq<string>) returns (deduped: seq<string>)
    ensures deduped == Dedupe(lines)
  {
    var seen: set<string> := {};
    deduped := [];
    var i := 0;
    while i < |lines|
      invariant 0 <= i <= |lines|
      invariant deduped + DedupeBy(LineKey, lines[i..], seen) == Dedupe(lines)
    {
      var line := lines[i];
      var trimmed := Trim(line);
      assert lines[i..] == [line] + lines[i + 1..];
      DedupeLineStep(line, lines[i + 1..], seen);
      if trimmed == [] || trimmed[0] == '#' {
        ConcatAssoc(deduped, [line], DedupeBy(LineKey, lines[i + 1..], seen));
        deduped := deduped + [line];
      } else if trimmed !in seen {
        ConcatAssoc(deduped, [line], DedupeBy(LineKey, lines[i + 1..], seen + {trimmed}));
        seen := seen + {trimmed};
        deduped := deduped + [line];
      }
      i := i + 1;
    }
  }

  /** The filter on one line, in the terms the source tests it: a blank
      or heading line is kept, a line with an unseen trimmed text is kept
      and recorded, and any other line is dropped. */
  lemma DedupeLineStep(line: string, rest: seq<string>, seen: set<string>)
    ensures var t := Trim(line);
            DedupeBy(LineKey, [line] + rest, seen)
            == if t == [] || t[0] == '#' then [line] + DedupeBy(LineKey, rest, seen)
               else if t !in seen then [line] + DedupeBy(LineKey, rest, seen + {t})
               else DedupeBy(LineKey, rest, seen)
  {
    assert ([line] + rest)[0] == line && ([line] + rest)[1..] == rest;
    var t := Trim(line);
    if t == [] || t[0] == '#' {
      assert seen + KeyOf(LineKey, line) == seen;
    } else if t in seen {
      assert seen + KeyOf(LineKey, line) == seen;
    }
  }

  /** The filter only drops lines. */
  lemma {:induction false} DedupeBySubsequence(key: string -> Option<string>, lines: seq<string>, seen: set<string>)
    ensures IsSubsequence(DedupeBy(key, lines, seen), lines)
  {
    if lines != [] {
      var x := lines[0];
      var rest := DedupeBy(key, lines[1..], seen + KeyOf(key, x));
      DedupeBySubsequence(key, lines[1..], seen + KeyOf(key, x));
      KeptDropsRepeatsOrKeeps(key, x, seen);
      if Kept(key, x, seen) == [x] {
        assert DedupeBy(key, lines, seen) == [x] + rest;
        assert ([x] + rest)[1..] == rest;
      } else {
        assert DedupeBy(key, lines, seen) == rest;
      }
    }
  }

  /** The keys of the lines of `p`. */
  function KeysOf(key: string -> Option<string>, p: seq<string>): set<string>
  {
    if p == [] then {} else KeysOf(key, p[..|p| - 1]) + KeyOf(key, p[|p| - 1])
  }

  /** An earlier line of `p` has the key of `x`. */
  predicate Repeats(key: string -> Option<string>, p: seq<string>, x: string)
  {
    key(x).Some? && exists j :: 0 <= j < |p| && key(p[j]) == key(x)
  }

  /** A key is among those of `p` exactly when a line of `p` has it. */
  lemma {:induction false} RepeatsIff(key: string -> Option<string>, p: seq<string>, x: string)
    requires key(x).Some?
    ensures Repeats(key, p, x) <==> key(x).value in KeysOf(key, p)
    decreases |p|
  {
    if p != [] {
      var init := p[..|p| - 1];
      RepeatsIff(key, init, x);
      if Repeats(key, p, x) {
        var j :| 0 <= j < |p| && key(p[j]) == key(x);
        if j < |init| {
          assert init[j] == p[j];
        }
      }
      if Repeats(key, init, x) {
        var j :| 0 <= j < |init| && key(init[j]) == key(x);
        assert p[j] == init[j];
      }
    }
  }

  /** The lines kept by first-occurrence-wins, defined line by line from
      the end: a line stays when it has no key or no earlier line has its
      key. */
  function FirstOccurrences(key: string -> Option<string>, lines: seq<string>): seq<string>
  {
    if lines == [] then []
    else
      var p := lines[..|lines| - 1];
      FirstOccurrences(key, p) + Kept(key, lines[|lines| - 1], KeysOf(key, p))
  }

  lemma KeysOfAppend(key: string -> Option<string>, p: seq<string>, x: string)
    ensures KeysOf(key, p + [x]) == KeysOf(key, p) + KeyOf(key, x)
  {
    assert (p + [x])[..|p|] == p;
  }

  /** A line is dropped exactly when it has a key and an earlier line has
      the same key. */
  lemma KeptDropsRepeats(key: string -> Option<string>, p: seq<string>, x: string)
    ensures Kept(key, x, KeysOf(key, p)) == [] <==> Repeats(key, p, x)
    ensures Kept(key, x, KeysOf(key, p)) == [] || Kept(key, x, KeysOf(key, p)) == [x]
  {
    if key(x).Some? {
      RepeatsIff(key, p, x);
    }
  }

  lemma ConcatAssoc(a: seq<string>, b: seq<string>, c: seq<string>)
    ensures a + (b + c) == (a + b) + c
  {
  }

  lemma AppendNil(p: seq<string>, q: seq<string>)
    requires q == []
    ensures p + q == p
  {
  }

  lemma AppendShift(p: seq<string>, q: seq<string>)
    requires q != []
    ensures (p + [q[0]]) + q[1..] == p + q
  {
    assert q == [q[0]] + q[1..];
  }

  /** One line moved from the unfiltered rest to the already-seen prefix. */
  lemma DedupeByAfterStep(key: string -> Option<string>, p: seq<string>, q: seq<string>)
    requires q != []
    requires FirstOccurrences(key, p + [q[0]]) + DedupeBy(key, q[1..], KeysOf(key, p + [q[0]]))
             == FirstOccurrences(key, (p + [q[0]]) + q[1..])
    ensures FirstOccurrences(key, p) + DedupeBy(key, q, KeysOf(key, p)) == FirstOccurrences(key, p + q)
  {
    var p' := p + [q[0]];
    var kept := Kept(key, q[0], KeysOf(key, p));
    var tail := DedupeBy(key, q[1..], KeysOf(key, p'));
    calc {
      FirstOccurrences(key, p) + DedupeBy(key, q, KeysOf(key, p));
      { KeysOfAppend(key, p, q[0]); }
      FirstOccurrences(key, p) + (kept + tail);
      { ConcatAssoc(FirstOccurrences(key, p), kept, tail); }
      (FirstOccurrences(key, p) + kept) + tail;
      { assert p'[..|p'| - 1] == p; }
      FirstOccurrences(key, p') + tail;
      FirstOccurrences(key, p' + q[1..]);
      { AppendShift(p, q); }
      FirstOccurrences(key, p + q);
    }
  }

  lemma {:induction false} DedupeByAfter(key: string -> Option<string>, p: seq<string>, q: seq<string>)
    ensures FirstOccurrences(key, p) + DedupeBy(key, q, KeysOf(key, p)) == FirstOccurrences(key, p + q)
    decreases |q|
  {
    if q == [] {
      AppendNil(p, q);
    } else {
      DedupeByAfter(key, p + [q[0]], q[1..]);
      DedupeByAfterStep(key, p, q);
    }
  }

  /** The filter keeps exactly the first occurrences: every blank or heading
      line, and each other line whose trimmed text no earlier line has. */
  lemma DedupeKeepsFirstOccurrences(lines: seq<string>)
    ensures Dedupe(lines) == FirstOccurrences(LineKey, lines)
  {
    DedupeByAfter(LineKey, [], lines);
    assert KeysOf(LineKey, []) == {};
    assert [] + lines == lines;
  }

  /** No two lines share a key. */
  predicate DistinctKeys(key: string -> Option<string>, ls: seq<string>)
  {
    forall i, j :: 0 <= i < j < |ls| && key(ls[i]).Some? ==> key(ls[i]) != key(ls[j])
  }

  /** The lines without a key, in order. */
  function Unkeyed(key: string -> Option<string>, ls: seq<string>): seq<string>
  {
    if ls == [] then [] else (if key(ls[0]).None? then [ls[0]] else []) + Unkeyed(key, ls[1..])
  }

  lemma {:induction false} UnkeyedConcat(key: string -> Option<string>, a: seq<string>, b: seq<string>)
    ensures Unkeyed(key, a + b) == Unkeyed(key, a) + Unkeyed(key, b)
    decreases |a|
  {
    if a == [] {
      assert a + b == b;
    } else {
      assert (a + b)[0] == a[0] && (a + b)[1..] == a[1..] + b;
      UnkeyedConcat(key, a[1..], b);
    }
  }

  /** The filter keeps every line without a key, in order. */
  lemma {:induction false} DedupeByKeepsUnkeyed(key: string -> Option<string>, lines: seq<string>, seen: set<string>)
    ensures Unkeyed(key, DedupeBy(key, lines, seen)) == Unkeyed(key, lines)
  {
    if lines != [] {
      var x := lines[0];
      var rest := DedupeBy(key, lines[1..], seen + KeyOf(key, x));
      DedupeByKeepsUnkeyed(key, lines[1..], seen + KeyOf(key, x));
      KeptDropsRepeatsOrKeeps(key, x, seen);
      var kept := Kept(key, x, seen);
      var own := if key(x).None? then [x] else [];
      calc {
        Unkeyed(key, DedupeBy(key, lines, seen));
        Unkeyed(key, kept + rest);
        { UnkeyedConcat(key, kept, rest); }
        Unkeyed(key, kept) + Unkeyed(key, rest);
        { assert Unkeyed(key, kept) == own by { if kept == [x] { assert [x][1..] == []; } } }
        own + Unkeyed(key, lines[1..]);
      }
    }
  }

  lemma {:induction false} KeysOfConcat(key: string -> Option<string>, a: seq<string>, b: seq<string>)
    ensures KeysOf(key, a + b) == KeysOf(key, a) + KeysOf(key, b)
    decreases |b|
  {
    if b == [] {
      assert a + b == a;
    } else {
      var init := b[..|b| - 1];
      var y := b[|b| - 1];
      KeysOfConcat(key, a, init);
      assert a + b == (a + init) + [y];
      assert b == init + [y];
      KeysOfAppend(key, a + init, y);
      KeysOfAppend(key, init, y);
    }
  }

  /** The filter loses no key that was not already seen. */
  lemma {:induction false} DedupeByKeepsKeys(key: string -> Option<string>, lines: seq<string>, seen: set<string>)
    ensures KeysOf(key, DedupeBy(key, lines, seen)) + seen == KeysOf(key, lines) + seen
  {
    if lines != [] {
      var x := lines[0];
      var seen' := seen + KeyOf(key, x);
      var kept := Kept(key, x, seen);
      var rest := DedupeBy(key, lines[1..], seen');
      DedupeByKeepsKeys(key, lines[1..], seen');
      calc {
        KeysOf(key, DedupeBy(key, lines, seen)) + seen;
        KeysOf(key, kept + rest) + seen;
        { KeysOfConcat(key, kept, rest); KeysOfAppend(key, [], x); assert [] + [x] == [x]; }
        KeysOf(key, rest) + seen';
        KeysOf(key, lines[1..]) + seen';
        { KeysOfConcat(key, [x], lines[1..]); KeysOfAppend(key, [], x); assert [] + [x] == [x]; }
        KeysOf(key, [x] + lines[1..]) + seen;
        { assert [x] + lines[1..] == lines; }
        KeysOf(key, lines) + seen;
      }
    }
  }

  /** No line of `r` has one of the keys in `seen`. */
  predicate AvoidsKeys(key: string -> Option<string>, r: seq<string>, seen: set<string>)
  {
    forall i :: 0 <= i < |r| && key(r[i]).Some? ==> key(r[i]).value !in seen
  }

  /** The filter's output holds none of the keys seen before. */
  lemma {:induction false} DedupeByAvoidsSeen(key: string -> Option<string>, lines: seq<string>, seen: set<string>)
    ensures AvoidsKeys(key, DedupeBy(key, lines, seen), seen)
  {
    if lines != [] {
      var x := lines[0];
      var rest := DedupeBy(key, lines[1..], seen + KeyOf(key, x));
      DedupeByAvoidsSeen(key, lines[1..], seen + KeyOf(key, x));
      var r := DedupeBy(key, lines, seen);
      if Kept(key, x, seen) == [x] {
        assert r == [x] + rest;
        forall i | 0 <= i < |r| && key(r[i]).Some? ensures key(r[i]).value !in seen {
          if i > 0 {
            assert r[i] == rest[i - 1];
          }
        }
      } else {
        assert r == rest;
      }
    }
  }

  /** The filter's output repeats no key. */
  lemma {:induction false} DedupeByDistinct(key: string -> Option<string>, lines: seq<string>, seen: set<string>)
    ensures DistinctKeys(key, DedupeBy(key, lines, seen))
  {
    if lines != [] {
      var x := lines[0];
      var seen' := seen + KeyOf(key, x);
      var rest := DedupeBy(key, lines[1..], seen');
      DedupeByDistinct(key, lines[1..], seen');
      var r := DedupeBy(key, lines, seen);
      if Kept(key, x, seen) == [x] {
        DedupeByAvoidsSeen(key, lines[1..], seen');
        assert r == [x] + rest;
        forall i, j | 0 <= i < j < |r| && key(r[i]).Some? ensures key(r[i]) != key(r[j]) {
          assert r[j] == rest[j - 1];
          if i > 0 {
            assert r[i] == rest[i - 1];
          }
        }
      } else {
        assert r == rest;
      }
    }
  }

  /** Lines already free of repeats pass through unchanged. */
  lemma {:induction false} DedupeByKeepsDistinct(key: string -> Option<string>, ls: seq<string>, seen: set<string>)
    requires DistinctKeys(key, ls)
    requires AvoidsKeys(key, ls, seen)
    ensures DedupeBy(key, ls, seen) == ls
  {
    if ls != [] {
      var x := ls[0];
      var seen' := seen + KeyOf(key, x);
      assert DistinctKeys(key, ls[1..]) by {
        forall i, j | 0 <= i < j < |ls[1..]| && key(ls[1..][i]).Some? ensures key(ls[1..][i]) != key(ls[1..][j]) {
          assert ls[1..][i] == ls[i + 1] && ls[1..][j] == ls[j + 1];
        }
      }
      forall i | 0 <= i < |ls[1..]| && key(ls[1..][i]).Some? ensures key(ls[1..][i]).value !in seen' {
        assert ls[1..][i] == ls[i + 1];
      }
      DedupeByKeepsDistinct(key, ls[1..], seen');
      assert ls == [x] + ls[1..];
    }
  }

  /** After deduplication every blank and heading line is still there, in
      order; no two other lines share their trimmed text; and every
      trimmed text of the input still occurs. */
  lemma DedupeFacts(lines: seq<string>)
    ensures var r := Dedupe(lines);
            && IsSubsequence(r, lines)
            && Unkeyed(LineKey, r) == Unkeyed(LineKey, lines)
            && DistinctKeys(LineKey, r)
            && KeysOf(LineKey, r) == KeysOf(LineKey, lines)
  {
    DedupeByKeepsUnkeyed(LineKey, lines, {});
    DedupeByKeepsKeys(LineKey, lines, {});
    DedupeByDistinct(LineKey, lines, {});
    DedupeBySubsequence(LineKey, lines, {});
  }

  lemma DedupeIdempotent(lines: seq<string>)
    ensures Dedupe(Dedupe(lines)) == Dedupe(lines)
  {
    DedupeByDistinct(LineKey, lines, {});
    DedupeByKeepsDistinct(LineKey, Dedupe(lines), {});
  }

  // ---------------------------------------------------------------------
  // The optimized text

  /** The fixed start of the header comment, written in pieces so that
      the verifier can see it holds no newline. */
  const HeaderPrefix: string := "<!-- Optimized " + "by Skill Forge " + "v0.1 | Estimated " + "savings: "

  function HeaderLine(savings: Num): string
  {
    HeaderPrefix + NumToString(savings) + "% tokens -->\n"
  }

  /** The text after the collapsing, stripping and deduplication steps:
      never longer than the original, in characters or in code units. */
  function Body(content: string): (r: string)
    ensures |r| <= |content|
    ensures Utf16Length(r) <= Utf16Length(content)
  {
    var collapsed := CollapseBlankLines(content);
    var stripped := StripComments(collapsed);
    var lines := Split(stripped);
    CollapseUtf16Length(content);
    StripCommentsSubsequence(collapsed);
    SubsequenceUtf16Length(stripped, collapsed);
    DedupeFacts(lines);
    JoinSubsequenceLength(Dedupe(lines), lines);
    JoinSubsequenceUtf16Length(Dedupe(lines), lines);
    JoinSplit(stripped);
    Join(Dedupe(lines))
  }

  /** `Math.round((1 - body.length / content.length) * 100)`, lengths in
      code units: for an empty file NaN, or -Infinity should the body not
      be empty, and a whole percentage between 0 and 100 for any body no
      longer than the file. */
  function SavingsPercent(content: string, body: string): (r: Num)
    ensures content == [] ==> r == if body == [] then NaN else NegInfinity
    ensures content != [] && Utf16Length(body) <= Utf16Length(content) ==>
              r.Finite? && 0.0 <= r.v <= 100.0 && r.v == r.v.Floor as real
  {
    var b := Utf16Length(body) as real;
    var c := Utf16Length(content) as real;
    if content != [] && b <= c then
      FractionBounds(b, c);
      assert 0.0 <= (1.0 - b / c) * 100.0 <= 100.0;
      RoundNum(ScaleNum(OneMinus(Divide(b, c)), 100.0))
    else
      RoundNum(ScaleNum(OneMinus(Divide(b, c)), 100.0))
  }

  /** For a non-empty file the header reports a whole percentage between
      0 and 100; for an empty file it reports NaN. */
  lemma SavingsPercentRange(content: string)
    ensures content == [] ==> SavingsPercent(content, Body(content)) == NaN
    ensures content != [] ==>
              var p := SavingsPercent(content, Body(content));
              p.Finite? && 0.0 <= p.v <= 100.0 && p.v == p.v.Floor as real
  {
  }

  /** heuristicOptimize, without the truncation of long bullets: collapse,
      strip, deduplicate, then prefix the savings header. */
  method HeuristicOptimize(content: string) returns (optimized: string)
    ensures optimized == HeaderLine(SavingsPercent(content, Body(content))) + Body(content)
  {
    optimized := CollapseBlankLines(content);
    optimized := StripComments(optimized);
    var lines := Split(optimized);
    var deduped := DedupeLines(lines);
    optimized := Join(deduped);
    var savings := RoundNum(ScaleNum(OneMinus(Divide(Utf16Length(optimized) as real, Utf16Length(content) as real)), 100.0));
    optimized := HeaderPrefix + NumToString(savings) + "% tokens -->\n" + optimized;
  }

  function OptimizedText(content: string): string
  {
    HeaderLine(SavingsPercent(content, Body(content))) + Body(content)
  }

  lemma HeaderPrefixOneLine()
    ensures '\n' !in HeaderPrefix
  {
    assert '\n' !in "<!-- Optimized ";
    assert '\n' !in "by Skill Forge ";
    assert '\n' !in "v0.1 | Estimated ";
    assert '\n' !in "savings: ";
  }

  /** The header is one line: the fixed prefix, the number, and a newline
      that is its only one. */
  lemma HeaderLineShape(savings: Num)
    ensures var h := HeaderLine(savings);
            && h[..|HeaderPrefix|] == HeaderPrefix
            && h[|h| - 1] == '\n'
            && '\n' !in h[..|h| - 1]
            && |h| > |HeaderPrefix|
  {
    var n := NumToString(savings);
    var h := HeaderLine(savings);
    var suffix := "% tokens -->";
    HeaderPrefixOneLine();
    assert '\n' !in suffix;
    assert h == HeaderPrefix + n + suffix + "\n";
    assert h[..|h| - 1] == HeaderPrefix + n + suffix;
    assert (HeaderPrefix + n + suffix)[..|HeaderPrefix|] == HeaderPrefix;
  }

  /** The optimized text is one header line followed by the body. */
  lemma OptimizedTextShape(content: string)
    ensures var h := HeaderLine(SavingsPercent(content, Body(content)));
            && OptimizedText(content) == h + Body(content)
            && h[..|HeaderPrefix|] == HeaderPrefix
            && h[|h| - 1] == '\n'
            && '\n' !in h[..|h| - 1]
            && |OptimizedText(content)| > |HeaderPrefix| + |Body(content)|
            && Utf16Length(OptimizedText(content)) > Utf16Length(HeaderPrefix) + Utf16Length(Body(content))
  {
    var h := HeaderLine(SavingsPercent(content, Body(content)));
    HeaderLineShape(SavingsPercent(content, Body(content)));
    SplitAt(h, |HeaderPrefix|);
    Utf16LengthAppend(HeaderPrefix, h[|HeaderPrefix|..]);
    Utf16LengthAppend(h, Body(content));
  }

  // ---------------------------------------------------------------------
  // diffChanges

  /** The change summary. At most two entries: a line entry exactly when
      there are fewer lines, first; a character entry exactly when there
      are fewer code units, last, with a percentage between 0 and 100. */
  function ChangesOf(original: string, optimized: string): (cs: seq<Change>)
    ensures |cs| <= 2
    ensures (|cs| >= 1 && cs[0].LinesReduced?) <==> |Split(optimized)| < |Split(original)|
    ensures (|cs| >= 1 && cs[|cs| - 1].FewerCharacters?) <==> Utf16Length(optimized) < Utf16Length(original)
    ensures forall k :: 0 <= k < |cs| && cs[k].LinesReduced? ==>
              k == 0 && cs[k].fromLines == |Split(original)| && cs[k].toLines == |Split(optimized)|
    ensures forall k :: 0 <= k < |cs| && cs[k].FewerCharacters? ==>
              k == |cs| - 1 && 0 <= cs[k].percent <= 100
  {
    var origLines := |Split(original)|;
    var optLines := |Split(optimized)|;
    var origChars := Utf16Length(original) as real;
    var optChars := Utf16Length(optimized) as real;
    (if optLines < origLines then [LinesReduced(origLines, optLines)] else [])
      + (if optChars < origChars
         then FractionBounds(optChars, origChars);
              [FewerCharacters(Round((1.0 - optChars / origChars) * 100.0))]
         else [])
  }

  method DiffChanges(original: string, optimized: string) returns (changes: seq<Change>)
    ensures changes == ChangesOf(original, optimized)
  {
    changes := [];
    var origLines := |Split(original)|;
    var optLines := |Split(optimized)|;
    var origChars := Utf16Length(original);
    var optChars := Utf16Length(optimized);
    if optLines < origLines {
      changes := changes + [LinesReduced(origLines, optLines)];
    }
    if optChars < origChars {
      changes := changes + [FewerCharacters(Round((1.0 - optChars as real / origChars as real) * 100.0))];
    }
  }

  // ---------------------------------------------------------------------
  // optimize

  /** `estimatedSavings`: the drop in the length/4 estimate, and 15% of the
      average run time, rounded: within half a millisecond of it. Tokens
      are saved exactly when the estimate drops, and never lost by a text
      that is no longer. */
  function EstimatedSavings(content: string, optimized: string, avgExecutionMs: real): (s: Savings)
    ensures avgExecutionMs * 0.15 - 0.5 < s.timeMs as real <= avgExecutionMs * 0.15 + 0.5
    ensures s.tokens > 0 <==> Utf16Length(optimized) / 4 < Utf16Length(content) / 4
    ensures Utf16Length(optimized) <= Utf16Length(content) ==> s.tokens >= 0
  {
    Savings(TokenEstimate(content) - TokenEstimate(optimized), Round(avgExecutionMs * 0.15))
  }

  /** The event optimize appends. */
  function OptimizationEvent(now: int, skillId: string, savedTokens: int, originalTokens: nat): ForgeEvent
  {
    ForgeEvent(now, Optimizer, "optimized", skillId,
               OptimizationSummary(savedTokens, RoundNum(ScaleNum(Divide(savedTokens as real, originalTokens as real), 100.0))))
  }

  /** optimize(skillId, skillPath): analyse, read the file (None when it
      cannot be read), optimise, summarise the changes and the savings, and
      append one event. Writing the optimized file is not modelled; its path
      is a parameter. */
  method Optimize(db: ForgeDB, skillId: string, skillPath: string, content: Option<string>,
                  optimizedPath: string, now: int)
    returns (r: Result<OptimizationResult, ForgeError>)
    modifies db
    ensures content.None? ==> r == Failure(ContentUnavailable(skillPath)) && db.events == old(db.events)
    ensures content.Some? ==>
              && r.Success?
              && r.value.skillId == skillId
              && r.value.originalPath == skillPath
              && r.value.optimizedPath == optimizedPath
              && r.value.optimizedContent == OptimizedText(content.value)
              && r.value.changes == ChangesOf(content.value, r.value.optimizedContent)
              && r.value.estimatedSavings
                   == EstimatedSavings(content.value, r.value.optimizedContent,
                                       Aggregate(old(db.metrics), skillId).avgExecutionMs)
              && db.events == old(db.events) + [OptimizationEvent(now, skillId, r.value.estimatedSavings.tokens,
                                                                  TokenEstimate(content.value))]
    ensures db.metrics == old(db.metrics) && db.skills == old(db.skills)
  {
    var analysis := Engine.Analyze(db, skillId);
    if content.None? {
      return Failure(ContentUnavailable(skillPath));
    }
    var result := Rewrite(skillId, skillPath, optimizedPath, content.value, analysis.metrics.avgExecutionMs);
    db.InsertEvent(OptimizationEvent(now, skillId, result.estimatedSavings.tokens, TokenEstimate(content.value)));
    r := Success(result);
  }

  /** The part of optimize after the file is read: optimise the text,
      summarise the changes and estimate the savings. */
  method Rewrite(skillId: string, skillPath: string, optimizedPath: string, text: string, avgExecutionMs: real)
    returns (result: OptimizationResult)
    ensures result.skillId == skillId
    ensures result.originalPath == skillPath
    ensures result.optimizedPath == optimizedPath
    ensures result.optimizedContent == OptimizedText(text)
    ensures result.changes == ChangesOf(text, result.optimizedContent)
    ensures result.estimatedSavings == EstimatedSavings(text, result.optimizedContent, avgExecutionMs)
  {
    var optimized := HeuristicOptimize(text);
    var originalTokens: int := TokenEstimate(text);
    var optimizedTokens := TokenEstimate(optimized);
    var changes := DiffChanges(text, optimized);
    result := OptimizationResult(skillId, skillPath, optimizedPath, optimized, changes,
                                 Savings(originalTokens - optimizedTokens, Round(avgExecutionMs * 0.15)));
  }
}
