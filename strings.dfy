/**
 * The few functions of Go's `strings` package that the migration logic relies on,
 * with the exact edge cases of the Go versions: `Trim`/`TrimSpace` (cut set removed
 * at both ends), `Split` (single-character separator, never an empty result),
 * `Replace(s, old, new, 1)` (first occurrence only, an empty `old` matches at 0)
 * and `TrimPrefix` (at most one copy removed).
 */
module Strings {
  import opened Wrappers

  /** Go's unicode.IsSpace: the characters strings.TrimSpace removes. */
  predicate IsSpace(c: char) {
    c == ' ' || c == '\t' || c == '\n' || c == '\r' || c == '\U{B}' || c == '\U{C}'
    || c == '\U{85}' || c == '\U{A0}' || c == '\U{1680}' || ('\U{2000}' <= c <= '\U{200A}')
    || c == '\U{2028}' || c == '\U{2029}' || c == '\U{202F}' || c == '\U{205F}' || c == '\U{3000}'
  }

  /** The cut set of strings.Trim(s, `"`). */
  predicate IsQuote(c: char) {
    c == '"'
  }

  /** Number of leading characters of `s` that `drop` removes. */
  function LeadingLen(s: string, drop: char -> bool): (n: nat)
    ensures n <= |s|
  {
    if |s| == 0 || !drop(s[0]) then 0 else 1 + LeadingLen(s[1..], drop)
  }

  /** LeadingLen counts exactly the leading run of dropped characters. */
  lemma {:induction false} LeadingLenSpec(s: string, drop: char -> bool)
    ensures forall k :: 0 <= k < LeadingLen(s, drop) ==> drop(s[k])
    ensures LeadingLen(s, drop) < |s| ==> !drop(s[LeadingLen(s, drop)])
  {
    if |s| > 0 && drop(s[0]) {
      LeadingLenSpec(s[1..], drop);
    }
  }

  /** Number of trailing characters of `s` that `drop` removes. */
  function TrailingLen(s: string, drop: char -> bool): (n: nat)
    ensures n <= |s|
  {
    if |s| == 0 || !drop(s[|s| - 1]) then 0 else 1 + TrailingLen(s[..|s| - 1], drop)
  }

  /** TrailingLen counts exactly the trailing run of dropped characters. */
  lemma {:induction false} TrailingLenSpec(s: string, drop: char -> bool)
    ensures forall k :: |s| - TrailingLen(s, drop) <= k < |s| ==> drop(s[k])
    ensures TrailingLen(s, drop) < |s| ==> !drop(s[|s| - 1 - TrailingLen(s, drop)])
  {
    if |s| > 0 && drop(s[|s| - 1]) {
      TrailingLenSpec(s[..|s| - 1], drop);
    }
  }

  /** strings.TrimFunc: `s` without its leading and trailing run of dropped characters. */
  function TrimFunc(s: string, drop: char -> bool): string {
    var t := s[LeadingLen(s, drop)..];
    t[..|t| - TrailingLen(t, drop)]
  }

  /** `r` is the infix of `s` at `i` and everything around it is dropped. */
  predicate TrimmedAt(s: string, drop: char -> bool, i: nat, r: string) {
    && i + |r| <= |s| && r == s[i..i + |r|]
    && (forall k :: 0 <= k < i ==> drop(s[k]))
    && (forall k :: i + |r| <= k < |s| ==> drop(s[k]))
  }

  /**
   * The result of TrimFunc is the infix of `s` whose outside consists of dropped
   * characters and whose two ends are not dropped.
   */
  lemma TrimFuncSpec(s: string, drop: char -> bool)
    ensures var r := TrimFunc(s, drop);
      (|r| > 0 ==> !drop(r[0]) && !drop(r[|r| - 1])) && exists i :: TrimmedAt(s, drop, i, r)
  {
    var l := LeadingLen(s, drop);
    var t := s[l..];
    var n := TrailingLen(t, drop);
    var r := t[..|t| - n];
    LeadingLenSpec(s, drop);
    TrailingLenSpec(t, drop);
    assert r == s[l..l + |r|];
    assert TrimmedAt(s, drop, l, r);
  }

  /** strings.TrimSpace. */
  function TrimSpace(s: string): string {
    TrimFunc(s, IsSpace)
  }

  /** strings.Trim(s, `"`). */
  function TrimQuotes(s: string): string {
    TrimFunc(s, IsQuote)
  }

  /** Trimming twice is trimming once. */
  lemma TrimFuncIdempotent(s: string, drop: char -> bool)
    ensures TrimFunc(TrimFunc(s, drop), drop) == TrimFunc(s, drop)
  {
    TrimFuncSpec(s, drop);
    TrimFuncNoop(TrimFunc(s, drop), drop);
  }

  /** A string without droppable ends is left unchanged. */
  lemma TrimFuncNoop(s: string, drop: char -> bool)
    requires |s| > 0 ==> !drop(s[0]) && !drop(s[|s| - 1])
    ensures TrimFunc(s, drop) == s
  {
    if |s| > 0 {
      assert LeadingLen(s, drop) == 0;
      assert s[0..] == s;
      assert TrailingLen(s, drop) == 0;
      assert s[..|s|] == s;
    }
  }

  /** Index of the first `c` in `s`, or |s| when there is none. */
  function IndexOfChar(s: string, c: char): (i: nat)
    ensures i <= |s|
    ensures i < |s| ==> s[i] == c
  {
    if |s| == 0 then 0 else if s[0] == c then 0 else 1 + IndexOfChar(s[1..], c)
  }

  /** No `c` precedes the index IndexOfChar finds. */
  lemma {:induction false} IndexOfCharFirst(s: string, c: char)
    ensures forall k :: 0 <= k < IndexOfChar(s, c) ==> s[k] != c
  {
    if |s| > 0 && s[0] != c {
      IndexOfCharFirst(s[1..], c);
      assert forall k :: 1 <= k < |s| ==> s[k] == s[1..][k - 1];
    }
  }

  /** strings.Join(parts, string(sep)). */
  function Join(parts: seq<string>, sep: char): string {
    if |parts| == 0 then ""
    else if |parts| == 1 then parts[0]
    else parts[0] + [sep] + Join(parts[1..], sep)
  }

  /** strings.Split(s, string(sep)): the pieces of `s` between separators, at least one. */
  function Split(s: string, sep: char): (parts: seq<string>)
    ensures |parts| >= 1
    decreases |s|
  {
    var i := IndexOfChar(s, sep);
    if i == |s| then [s] else [s[..i]] + Split(s[i + 1..], sep)
  }

  /** A string holding a separator is its first piece, the separator and the rest. */
  lemma SplitAt(s: string, sep: char) returns (head: string, tail: string)
    requires IndexOfChar(s, sep) < |s|
    ensures s == head + [sep] + tail && sep !in head && |tail| < |s|
    ensures Split(s, sep) == [head] + Split(tail, sep)
  {
    var i := IndexOfChar(s, sep);
    IndexOfCharFirst(s, sep);
    head, tail := s[..i], s[i + 1..];
    assert sep !in head by {
      forall k | 0 <= k < i ensures head[k] != sep { }
    }
    assert s == head + [sep] + tail;
  }

  lemma JoinCons(head: string, rest: seq<string>, sep: char)
    requires |rest| >= 1
    ensures Join([head] + rest, sep) == head + [sep] + Join(rest, sep)
  {
    assert ([head] + rest)[1..] == rest;
  }

  /** No piece holds a separator. */
  lemma {:induction false} SplitFree(s: string, sep: char)
    ensures forall i :: 0 <= i < |Split(s, sep)| ==> sep !in Split(s, sep)[i]
    decreases |s|
  {
    if IndexOfChar(s, sep) == |s| {
      IndexOfCharFirst(s, sep);
      assert forall k :: 0 <= k < |s| ==> s[k] != sep;
    } else {
      var head, tail := SplitAt(s, sep);
      SplitFree(tail, sep);
    }
  }

  /** Joining the pieces back with the separator gives `s`. */
  lemma {:induction false} SplitJoinBack(s: string, sep: char)
    ensures Join(Split(s, sep), sep) == s
    decreases |s|
  {
    if IndexOfChar(s, sep) < |s| {
      var head, tail := SplitAt(s, sep);
      SplitJoinBack(tail, sep);
      JoinCons(head, Split(tail, sep), sep);
    }
  }

  /**
   * The pieces are the maximal separator-free pieces of `s` (the empty string splits
   * into one empty piece): none holds a separator, and joining them back gives `s`.
   */
  lemma SplitSpec(s: string, sep: char)
    ensures forall i :: 0 <= i < |Split(s, sep)| ==> sep !in Split(s, sep)[i]
    ensures Join(Split(s, sep), sep) == s
  {
    SplitFree(s, sep);
    SplitJoinBack(s, sep);
  }

  /** Splitting a join of separator-free pieces gives the pieces back. */
  lemma {:induction false} SplitJoin(parts: seq<string>, sep: char)
    requires |parts| >= 1
    requires forall i :: 0 <= i < |parts| ==> sep !in parts[i]
    ensures Split(Join(parts, sep), sep) == parts
  {
    if |parts| == 1 {
      var s := parts[0];
      assert IndexOfChar(s, sep) == |s|;
    } else {
      var rest := Join(parts[1..], sep);
      var s := parts[0] + [sep] + rest;
      assert forall k :: 0 <= k < |parts[0]| ==> s[k] == parts[0][k];
      assert s[|parts[0]|] == sep;
      IndexOfSep(parts[0], sep, rest);
      assert s[..|parts[0]|] == parts[0];
      assert s[|parts[0]| + 1..] == rest;
      SplitJoin(parts[1..], sep);
    }
  }

  lemma IndexOfSep(head: string, sep: char, rest: string)
    requires sep !in head
    ensures IndexOfChar(head + [sep] + rest, sep) == |head|
  {
    var s := head + [sep] + rest;
    assert s[|head|] == sep;
    IndexOfCharFirst(s, sep);
    assert forall k :: 0 <= k < |head| ==> s[k] == head[k];
  }

  /** The last piece of strings.Split(s, string(sep)): what follows the last separator. */
  function LastSegment(s: string, sep: char): (r: string)
    ensures |r| <= |s|
  {
    if |s| == 0 || s[|s| - 1] == sep then "" else LastSegment(s[..|s| - 1], sep) + [s[|s| - 1]]
  }

  /**
   * The last segment is the longest suffix of `s` without a separator: it is preceded
   * by a separator unless it is all of `s`.
   */
  lemma {:induction false} LastSegmentSpec(s: string, sep: char)
    ensures var r := LastSegment(s, sep);
      && sep !in r
      && r == s[|s| - |r|..]
      && (|r| < |s| ==> s[|s| - |r| - 1] == sep)
      && (sep !in s ==> r == s)
  {
    if |s| > 0 && s[|s| - 1] != sep {
      var init := s[..|s| - 1];
      LastSegmentSpec(init, sep);
      var r := LastSegment(init, sep);
      assert s[|s| - |r| - 1..] == init[|init| - |r|..] + [s[|s| - 1]];
      if sep !in s {
        assert sep !in init;
        assert init + [s[|s| - 1]] == s;
      }
    }
  }

  /**
   * The last segment is the only separator-free suffix that is either all of `s` or
   * preceded by a separator.
   */
  lemma LastSegmentUnique(s: string, sep: char, r: string)
    requires sep !in r && |r| <= |s| && r == s[|s| - |r|..]
    requires |r| == |s| || s[|s| - |r| - 1] == sep
    ensures r == LastSegment(s, sep)
  {
    LastSegmentSpec(s, sep);
  }

  /** What follows the last separator is unchanged by dropping everything up to an earlier one. */
  lemma {:induction false} LastSegmentConcat(head: string, sep: char, tail: string)
    ensures LastSegment(head + [sep] + tail, sep) == LastSegment(tail, sep)
    decreases |tail|
  {
    var s := head + [sep] + tail;
    if |tail| == 0 {
      assert s[|s| - 1] == sep;
    } else {
      var init := tail[..|tail| - 1];
      LastSegmentConcat(head, sep, init);
      assert s[..|s| - 1] == head + [sep] + init;
      assert s[|s| - 1] == tail[|tail| - 1];
    }
  }

  /** Without a separator, the one piece and the last segment are all of `s`. */
  lemma SplitNone(s: string, sep: char)
    requires IndexOfChar(s, sep) == |s|
    ensures Split(s, sep) == [s] && LastSegment(s, sep) == s
  {
    LastSegmentSpec(s, sep);
    IndexOfCharFirst(s, sep);
    assert sep !in s by {
      forall k | 0 <= k < |s| ensures s[k] != sep { }
    }
  }

  /** The last segment is the last piece strings.Split gives. */
  lemma {:induction false} SplitLast(s: string, sep: char)
    ensures var parts := Split(s, sep); parts[|parts| - 1] == LastSegment(s, sep)
    decreases |s|
  {
    if IndexOfChar(s, sep) == |s| {
      SplitNone(s, sep);
    } else {
      var head, tail := SplitAt(s, sep);
      SplitLast(tail, sep);
      LastSegmentConcat(head, sep, tail);
      var rest := Split(tail, sep);
      assert ([head] + rest)[|rest|] == rest[|rest| - 1];
    }
  }

  /** `pat` occurs in `s` starting at index `i`. */
  predicate OccursAt(s: string, pat: string, i: nat) {
    i + |pat| <= |s| && s[i..i + |pat|] == pat
  }

  /** `pat` does not occur in `s` at any index below `i`. */
  predicate NoOccurrenceBefore(s: string, pat: string, i: nat) {
    forall j :: 0 <= j < i ==> !OccursAt(s, pat, j)
  }

  /** strings.Index(s, pat), None for -1: the first index where `pat` occurs. */
  function Index(s: string, pat: string): (r: Option<nat>)
    ensures r.Some? ==> r.value + |pat| <= |s|
  {
    IndexFrom(s, pat, 0)
  }

  /** The first occurrence of `pat` in `s` at index `from` or later. */
  function IndexFrom(s: string, pat: string, from: nat): (r: Option<nat>)
    ensures r.Some? ==> from <= r.value && r.value + |pat| <= |s|
    decreases |s| - from
  {
    if from + |pat| > |s| then None
    else if OccursAt(s, pat, from) then Some(from)
    else IndexFrom(s, pat, from + 1)
  }

  lemma {:induction false} IndexFromSpec(s: string, pat: string, from: nat)
    requires forall j :: 0 <= j < from ==> !OccursAt(s, pat, j)
    ensures var r := IndexFrom(s, pat, from);
      && (r.Some? ==> OccursAt(s, pat, r.value) && NoOccurrenceBefore(s, pat, r.value))
      && (r.None? ==> NoOccurrenceBefore(s, pat, |s| + 1))
    decreases |s| - from
  {
    if from + |pat| > |s| {
      assert forall j :: from <= j <= |s| ==> !OccursAt(s, pat, j);
    } else if !OccursAt(s, pat, from) {
      IndexFromSpec(s, pat, from + 1);
    }
  }

  /**
   * Index finds the first occurrence: `pat` occurs at the index found and nowhere
   * before it, and nowhere at all when nothing is found.
   */
  lemma IndexSpec(s: string, pat: string)
    ensures var r := Index(s, pat);
      && (r.Some? ==> OccursAt(s, pat, r.value) && NoOccurrenceBefore(s, pat, r.value))
      && (r.None? ==> NoOccurrenceBefore(s, pat, |s| + 1))
  {
    IndexFromSpec(s, pat, 0);
  }

  /**
   * strings.Replace(s, pat, repl, 1): the first occurrence of `pat` replaced by `repl`.
   * An empty `pat` occurs at index 0, so it yields `repl + s`, as in Go.
   */
  function ReplaceFirst(s: string, pat: string, repl: string): string {
    match Index(s, pat)
    case None => s
    case Some(i) => s[..i] + repl + s[i + |pat|..]
  }

  /** Without an occurrence of `pat` nothing is replaced. */
  lemma ReplaceFirstAbsent(s: string, pat: string, repl: string)
    requires NoOccurrenceBefore(s, pat, |s| + 1)
    ensures ReplaceFirst(s, pat, repl) == s
  {
    IndexSpec(s, pat);
  }

  /** An occurrence at `i` with none before it: the replacement happens at `i`. */
  lemma ReplaceFirstAt(s: string, pat: string, repl: string, i: nat)
    requires OccursAt(s, pat, i)
    requires NoOccurrenceBefore(s, pat, i)
    ensures ReplaceFirst(s, pat, repl) == s[..i] + repl + s[i + |pat|..]
  {
    IndexSpec(s, pat);
  }

  /**
   * Replacing `pat` by `repl` and then `repl` by `pat` restores `s` exactly when the
   * first `repl` of the result is the one just inserted; the replacement is not a
   * round trip in general (an earlier `repl` in `s` would be replaced instead).
   */
  lemma {:induction false} ReplaceFirstRoundTrip(s: string, pat: string, repl: string, i: nat)
    requires OccursAt(s, pat, i)
    requires NoOccurrenceBefore(s, pat, i)
    requires NoOccurrenceBefore(s[..i] + repl + s[i + |pat|..], repl, i)
    ensures ReplaceFirst(ReplaceFirst(s, pat, repl), repl, pat) == s
  {
    ReplaceFirstAt(s, pat, repl, i);
    var r := s[..i] + repl + s[i + |pat|..];
    assert r[i..i + |repl|] == repl;
    ReplaceFirstAt(r, repl, pat, i);
    assert r[..i] == s[..i];
    assert r[i + |repl|..] == s[i + |pat|..];
    assert s[i..i + |pat|] == pat;
    assert s == s[..i] + pat + s[i + |pat|..];
  }

  /** When `s` starts with `pat` the replacement is a round trip. */
  lemma ReplaceFirstPrefixRoundTrip(pat: string, rest: string, repl: string)
    ensures ReplaceFirst(ReplaceFirst(pat + rest, pat, repl), repl, pat) == pat + rest
  {
    var s := pat + rest;
    assert s[0..|pat|] == pat;
    ReplaceFirstRoundTrip(s, pat, repl, 0);
  }

  /** The decimal digit for `d`. */
  function Digit(d: nat): (c: char)
    requires d < 10
    ensures '0' <= c <= '9'
  {
    "0123456789"[d]
  }

  /** fmt's `%d` of a non-negative number: its decimal digits, most significant first. */
  function NatToString(n: nat): (r: string)
    ensures |r| >= 1
    ensures forall i :: 0 <= i < |r| ==> '0' <= r[i] <= '9'
  {
    if n < 10 then [Digit(n)] else NatToString(n / 10) + [Digit(n % 10)]
  }

  /** fmt's `%d`: a leading minus sign for negative numbers. */
  function IntToString(i: int): string {
    if i < 0 then "-" + NatToString(-i) else NatToString(i)
  }

  /** `s` ends with `suffix`. */
  predicate EndsWith(s: string, suffix: string) {
    |suffix| <= |s| && s[|s| - |suffix|..] == suffix
  }

  /** A string starting with `pat` has exactly that prefix replaced. */
  lemma ReplaceFirstPrefix(pat: string, rest: string, repl: string)
    ensures ReplaceFirst(pat + rest, pat, repl) == repl + rest
  {
    var s := pat + rest;
    assert s[0..|pat|] == pat;
    ReplaceFirstAt(s, pat, repl, 0);
    assert s[|pat|..] == rest;
  }

  /** strings.TrimPrefix(s, prefix): one leading copy of `prefix` removed, if present. */
  function TrimPrefix(s: string, prefix: string): string {
    if |prefix| <= |s| && s[..|prefix|] == prefix then s[|prefix|..] else s
  }

  /** TrimPrefix undoes prepending, and removes only one copy. */
  lemma TrimPrefixPrepend(prefix: string, s: string)
    ensures TrimPrefix(prefix + s, prefix) == s
  {
    assert (prefix + s)[..|prefix|] == prefix;
  }
}
