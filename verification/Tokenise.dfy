/** src/tokenise.c: the single-pass splitter. */
module Tokenise {
  import opened Messages

  /** Where the delimiter-free stretch that starts at i ends. */
  function RunEnd(s: string, delim: char, i: nat): (end: nat)
    requires i <= |s|
    ensures i <= end <= |s|
    ensures forall k :: i <= k < end ==> s[k] != delim
    ensures end < |s| ==> s[end] == delim
    decreases |s| - i
  {
    if i == |s| || s[i] == delim then i else RunEnd(s, delim, i + 1)
  }

  /** The delimiter-free runs from position i on, in order. */
  function Runs(s: string, delim: char, i: nat): seq<string>
    requires i <= |s|
    decreases |s| - i
  {
    if i == |s| then []
    else if s[i] == delim then Runs(s, delim, i + 1)
    else
      var end := RunEnd(s, delim, i);
      [s[i..end]] + Runs(s, delim, end)
  }

  /** The input without one trailing newline. */
  function Chomp(s: string): string {
    if s != [] && s[|s| - 1] == '\n' then s[..|s| - 1] else s
  }

  /** What tokenise_string returns. */
  function Tokens(s: string, delim: char): seq<string> {
    Runs(Chomp(s), delim, 0)
  }

  lemma RunEndIs(s: string, delim: char, i: nat, end: nat)
    requires i <= end <= |s| && (end < |s| ==> s[end] == delim)
    requires forall k :: i <= k < end ==> s[k] != delim
    ensures RunEnd(s, delim, i) == end
  {
  }

  /** A maximal delimiter-free stretch: nothing of it can be extended on either side. */
  ghost predicate IsRun(s: string, delim: char, from: int, to: int) {
    && 0 <= from < to <= |s|
    && (forall k :: from <= k < to ==> s[k] != delim)
    && (from == 0 || s[from - 1] == delim)
    && (to == |s| || s[to] == delim)
  }

  /** Where the runs from position i on lie in s. */
  function Spans(s: string, delim: char, i: nat): seq<(int, int)>
    requires i <= |s|
    decreases |s| - i
  {
    if i == |s| then []
    else if s[i] == delim then Spans(s, delim, i + 1)
    else
      var end := RunEnd(s, delim, i);
      [(i, end)] + Spans(s, delim, end)
  }

  ghost predicate Boundary(s: string, delim: char, i: nat)
    requires i <= |s|
  {
    i == 0 || i == |s| || s[i] == delim || s[i - 1] == delim
  }

  ghost predicate Cuts(s: string, spans: seq<(int, int)>, runs: seq<string>) {
    && |spans| == |runs|
    && forall k :: 0 <= k < |spans| ==> 0 <= spans[k].0 <= spans[k].1 <= |s| && runs[k] == s[spans[k].0..spans[k].1]
  }

  lemma {:induction false} SpansCut(s: string, delim: char, i: nat)
    requires i <= |s|
    ensures Cuts(s, Spans(s, delim, i), Runs(s, delim, i))
    decreases |s| - i
  {
    if i == |s| {
    } else {
      if s[i] == delim {
        SpansCut(s, delim, i + 1);
      } else {
        SpansCut(s, delim, RunEnd(s, delim, i));
      }
    }
  }

  ghost predicate Ordered(spans: seq<(int, int)>) {
    forall j, k :: 0 <= j < k < |spans| ==> spans[j].1 < spans[k].0
  }

  lemma {:induction false} SpansSound(s: string, delim: char, i: nat)
    requires i <= |s| && Boundary(s, delim, i)
    ensures forall k :: 0 <= k < |Spans(s, delim, i)| ==>
        IsRun(s, delim, Spans(s, delim, i)[k].0, Spans(s, delim, i)[k].1)
    ensures forall k :: 0 <= k < |Spans(s, delim, i)| ==> i <= Spans(s, delim, i)[k].0
    ensures Ordered(Spans(s, delim, i))
    decreases |s| - i
  {
    if i == |s| {
    } else {
      if s[i] == delim {
        SpansSound(s, delim, i + 1);
      } else {
        var end := RunEnd(s, delim, i);
        SpansSound(s, delim, end);
        assert IsRun(s, delim, i, end);
        var rest := Spans(s, delim, end);
        assert forall k :: 0 <= k < |rest| ==> end < rest[k].0;
      }
    }
  }

  lemma {:induction false} SpansComplete(s: string, delim: char, i: nat, from: int, to: int)
    requires i <= from && IsRun(s, delim, from, to)
    ensures (from, to) in Spans(s, delim, i)
    decreases |s| - i
  {
    if s[i] == delim {
      SpansComplete(s, delim, i + 1, from, to);
    } else if i == from {
      RunEndIs(s, delim, i, to);
    } else {
      SpansComplete(s, delim, RunEnd(s, delim, i), from, to);
    }
  }

  /** Tokenising yields exactly the maximal delimiter-free stretches of the chomped input, in order. */
  lemma TokensAreMaximalRuns(input: string, delim: char)
    ensures var s, spans := Chomp(input), Spans(Chomp(input), delim, 0);
      && Cuts(s, spans, Tokens(input, delim))
      && Ordered(spans)
      && (forall k :: 0 <= k < |spans| ==> IsRun(s, delim, spans[k].0, spans[k].1))
      && (forall from, to :: IsRun(s, delim, from, to) ==> (from, to) in spans)
  {
    var s := Chomp(input);
    SpansCut(s, delim, 0);
    SpansSound(s, delim, 0);
    forall from, to | IsRun(s, delim, from, to)
      ensures (from, to) in Spans(s, delim, 0)
    {
      SpansComplete(s, delim, 0, from, to);
    }
  }

  /** The characters of s from position i on that are not the delimiter. */
  function Without(s: string, delim: char, i: nat): string
    requires i <= |s|
    decreases |s| - i
  {
    if i == |s| then [] else if s[i] == delim then Without(s, delim, i + 1) else [s[i]] + Without(s, delim, i + 1)
  }

  function Flatten(tokens: seq<string>): string {
    if tokens == [] then [] else tokens[0] + Flatten(tokens[1..])
  }

  lemma {:induction false} WithoutRun(s: string, delim: char, i: nat, end: nat)
    requires i <= end <= |s| && forall k :: i <= k < end ==> s[k] != delim
    ensures Without(s, delim, i) == s[i..end] + Without(s, delim, end)
    decreases end - i
  {
    if i == end {
    } else {
      WithoutRun(s, delim, i + 1, end);
      var rest := Without(s, delim, end);
      assert s[i..end] + rest == [s[i]] + (s[i + 1..end] + rest);
    }
  }

  /** Only delimiters are dropped: the tokens laid end to end are the rest of the input. */
  lemma {:induction false} RunsKeepTheRest(s: string, delim: char, i: nat)
    requires i <= |s|
    ensures Flatten(Runs(s, delim, i)) == Without(s, delim, i)
    decreases |s| - i
  {
    if i == |s| {
    } else {
      if s[i] == delim {
        RunsKeepTheRest(s, delim, i + 1);
      } else {
        var end := RunEnd(s, delim, i);
        RunsKeepTheRest(s, delim, end);
        WithoutRun(s, delim, i, end);
      }
    }
  }

  predicate CleanToken(token: string, delim: char) {
    token != [] && delim !in token
  }

  /** Tokens are non-empty, hold no delimiter, and no character that the input lacks. */
  lemma {:induction false} RunsAreClean(s: string, delim: char, i: nat)
    requires i <= |s|
    ensures forall k :: 0 <= k < |Runs(s, delim, i)| ==> CleanToken(Runs(s, delim, i)[k], delim)
    ensures forall k, c :: 0 <= k < |Runs(s, delim, i)| && c in Runs(s, delim, i)[k] ==> c in s
    decreases |s| - i
  {
    if i == |s| {
    } else {
      RunsAreClean(s, delim, if s[i] == delim then i + 1 else RunEnd(s, delim, i));
    }
  }

  lemma {:induction false} RunsShift(front: string, s: string, delim: char, i: nat)
    requires i <= |s|
    ensures Runs(front + s, delim, |front| + i) == Runs(s, delim, i)
    decreases |s| - i
  {
    if i == |s| {
    } else {
      if s[i] == delim {
        RunsShift(front, s, delim, i + 1);
      } else {
        var end := RunEnd(s, delim, i);
        RunEndIs(front + s, delim, |front| + i, |front| + end);
        RunsShift(front, s, delim, end);
        assert (front + s)[|front| + i..|front| + end] == s[i..end];
      }
    }
  }

  lemma {:induction false} RunsOfJoin(tokens: seq<string>, delim: char)
    requires forall k :: 0 <= k < |tokens| ==> CleanToken(tokens[k], delim)
    ensures Runs(Join(tokens, delim), delim, 0) == tokens
  {
    if tokens == [] {
    } else {
      var s, first := Join(tokens, delim), tokens[0];
      RunEndIs(s, delim, 0, |first|);
      assert s[0..|first|] == first;
      if |tokens| > 1 {
        var rest := Join(tokens[1..], delim);
        RunsOfJoin(tokens[1..], delim);
        RunsShift(first + [delim], rest, delim, 0);
        assert s == (first + [delim]) + rest;
      }
    }
  }

  lemma {:induction false} JoinEnd(tokens: seq<string>, delim: char)
    requires tokens != [] && tokens[|tokens| - 1] != []
    ensures var s, last := Join(tokens, delim), tokens[|tokens| - 1];
      s != [] && s[|s| - 1] == last[|last| - 1]
  {
    if |tokens| == 1 {
    } else {
      JoinEnd(tokens[1..], delim);
      var rest := Join(tokens[1..], delim);
      assert tokens[1..][|tokens| - 2] == tokens[|tokens| - 1];
      assert Join(tokens, delim) == tokens[0] + [delim] + rest;
      hide Join;
    }
  }

  /** Joining clean tokens and tokenising gives them back, exactly when the last one has no newline to lose. */
  lemma TokeniseJoin(tokens: seq<string>, delim: char)
    requires tokens != [] && delim != '\n'
    requires forall k :: 0 <= k < |tokens| ==> CleanToken(tokens[k], delim)
    ensures tokens[|tokens| - 1] != []
    ensures Tokens(Join(tokens, delim), delim) == tokens
      <==> var last := tokens[|tokens| - 1]; last[|last| - 1] != '\n'
  {
    var s, last := Join(tokens, delim), tokens[|tokens| - 1];
    assert CleanToken(last, delim);
    RunsOfJoin(tokens, delim);
    JoinEnd(tokens, delim);
    if last[|last| - 1] == '\n' {
      RunsKeepTheRest(s, delim, 0);
      RunsKeepTheRest(Chomp(s), delim, 0);
      WithoutLast(s, delim, 0);
    }
  }

  lemma {:induction false} WithoutLast(s: string, delim: char, i: nat)
    requires i < |s| && s[|s| - 1] != delim
    ensures Without(s, delim, i) == Without(s[..|s| - 1], delim, i) + [s[|s| - 1]]
    decreases |s| - i
  {
    if i == |s| - 1 {
    } else {
      WithoutLast(s, delim, i + 1);
    }
  }

  /** The C string that starts at a position of a buffer: everything up to the first NUL. */
  function CString(buffer: array<char>, start: nat): string
    requires start <= buffer.Length
    reads buffer
  {
    buffer[start..RunEnd(buffer[..], '\0', start)]
  }

  lemma CStringIs(buffer: array<char>, s: string, start: nat, end: nat)
    requires start <= end <= |s| && end < buffer.Length && buffer[end] == '\0' && '\0' !in s
    requires forall k :: start <= k < end ==> buffer[k] == s[k]
    ensures CString(buffer, start) == s[start..end]
  {
    RunEndIs(buffer[..], '\0', start, end);
  }

  /** The tokens taken so far are the runs of s up to where the current word started. */
  ghost predicate TakenUpTo(tokens: seq<string>, s: string, delim: char, start: nat)
    requires start <= |s|
  {
    Runs(s, delim, 0) == tokens + Runs(s, delim, start)
  }

  lemma TakenWord(tokens: seq<string>, s: string, delim: char, start: nat, end: nat)
    requires start < end <= |s| && (end < |s| ==> s[end] == delim)
    requires forall k :: start <= k < end ==> s[k] != delim
    requires TakenUpTo(tokens, s, delim, start)
    ensures TakenUpTo(tokens + [s[start..end]], s, delim, if end < |s| then end + 1 else end)
  {
    RunEndIs(s, delim, start, end);
    var word, rest := s[start..end], Runs(s, delim, end);
    assert tokens + ([word] + rest) == (tokens + [word]) + rest;
  }

  lemma TakenDelimiter(tokens: seq<string>, s: string, delim: char, i: nat)
    requires i < |s| && s[i] == delim && TakenUpTo(tokens, s, delim, i)
    ensures TakenUpTo(tokens, s, delim, i + 1)
  {
  }

  lemma NoneTaken(s: string, delim: char)
    ensures TakenUpTo([], s, delim, 0)
  {
  }

  lemma AllTaken(tokens: seq<string>, s: string, delim: char)
    requires TakenUpTo(tokens, s, delim, |s|)
    ensures tokens == Runs(s, delim, 0)
  {
  }

  /** strdup: the text and its terminator in a buffer of their own. */
  method Duplicate(input: string) returns (buffer: array<char>)
    ensures fresh(buffer) && buffer.Length == |input| + 1 && buffer[|input|] == '\0'
    ensures forall k :: 0 <= k < |input| ==> buffer[k] == input[k]
  {
    buffer := new char[|input| + 1];
    for i := 0 to |input|
      invariant forall k :: 0 <= k < i ==> buffer[k] == input[k]
    {
      buffer[i] := input[i];
    }
    buffer[|input|] := '\0';
  }

  /** Ends the word that lies at start..end and copies it out. */
  method TakeWord(buffer: array<char>, ghost s: string, start: nat, end: nat) returns (word: string)
    requires start <= end <= |s| < buffer.Length && '\0' !in s
    requires forall k :: start <= k < end ==> buffer[k] == s[k]
    modifies buffer
    ensures word == s[start..end]
    ensures forall k :: end < k < buffer.Length ==> buffer[k] == old(buffer[k])
  {
    buffer[end] := '\0';
    CStringIs(buffer, s, start, end);
    word := CString(buffer, start);
  }

  /** The loop overwrites the delimiter behind each word with NUL and copies the C string before it. */
  method TokeniseString(input: string, delim: char) returns (tokens: seq<string>)
    requires Chomp(input) != [] && '\0' !in input
    ensures tokens == Tokens(input, delim)
  {
    var buffer := Duplicate(input);
    var length := |input|;
    if buffer[length - 1] == '\n' {
      buffer[length - 1] := '\0';
      length := length - 1;
    }
    ghost var s := Chomp(input);
    assert '\0' !in s && length == |s| && forall k :: 0 <= k < length ==> buffer[k] == s[k];
    hide TakenUpTo, Chomp;
    NoneTaken(s, delim);
    var previousDelim := 0;
    var inWord, current := false, false;
    tokens := [];
    var i := 0;
    while i < length
      invariant length == |s| < buffer.Length && 0 <= i <= length && previousDelim <= i
      invariant forall k :: i <= k < length ==> buffer[k] == s[k]
      invariant inWord ==> previousDelim < i && forall k :: previousDelim <= k < i ==>
          buffer[k] == s[k] && s[k] != delim
      invariant if i > 0 then current == inWord else !inWord
      invariant TakenUpTo(tokens, s, delim, if inWord then previousDelim else i)
    {
      current := buffer[i] != delim;
      if !inWord && current {
        previousDelim := i;
      } else if inWord && !current {
        TakenWord(tokens, s, delim, previousDelim, i);
        var word := TakeWord(buffer, s, previousDelim, i);
        tokens := tokens + [word];
      } else if !inWord {
        TakenDelimiter(tokens, s, delim, i);
      }
      inWord := current;
      i := i + 1;
    }
    if current {
      TakenWord(tokens, s, delim, previousDelim, i);
      var word := TakeWord(buffer, s, previousDelim, i);
      tokens := tokens + [word];
    }
    AllTaken(tokens, s, delim);
  }
}
