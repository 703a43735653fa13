/**
 Text files as sequences of lines: joining, splitting, counting newlines and
 finding where the first few lines end.
 */
module TextLines {

  /** Each line followed by its newline. */
  function JoinLines(lines: seq<string>): string {
    if lines == [] then "" else lines[0] + "\n" + JoinLines(lines[1..])
  }

  predicate NewlineFree(lines: seq<string>) {
    forall i :: 0 <= i < |lines| ==> '\n' !in lines[i]
  }

  /** The first newline at or after position i, or the end. */
  function LineEnd(data: string, i: nat): (j: nat)
    requires i <= |data|
    ensures i <= j <= |data|
    ensures '\n' !in data[i..j]
    ensures j < |data| ==> data[j] == '\n'
    decreases |data| - i
  {
    if i == |data| || data[i] == '\n' then i else LineEnd(data, i + 1)
  }

  predicate IsSpace(c: char) {
    c == ' ' || 0x09 <= c as int <= 0x0D
  }

  function TrimFront(s: string): (r: string)
    ensures '\n' !in s ==> '\n' !in r
  {
    if s != "" && IsSpace(s[0]) then TrimFront(s[1..]) else s
  }

  function TrimBack(s: string): (r: string)
    ensures '\n' !in s ==> '\n' !in r
  {
    if s != "" && IsSpace(s[|s| - 1]) then TrimBack(s[..|s| - 1]) else s
  }

  /** The text without the white space at its ends. */
  function Trim(s: string): (r: string)
    ensures '\n' !in s ==> '\n' !in r
    ensures Solid(s) ==> r == s
  {
    TrimBack(TrimFront(s))
  }

  /** Not empty, and without white space at its ends. */
  predicate Solid(s: string) {
    s != "" && !IsSpace(s[0]) && !IsSpace(s[|s| - 1])
  }

  /** The lines of the file, trimmed, without those of which nothing is left. */
  function Lines(data: string): seq<string>
    decreases |data|
  {
    if data == "" then []
    else
      var j := LineEnd(data, 0);
      var rest := if j == |data| then [] else Lines(data[j + 1..]);
      if Trim(data[..j]) == "" then rest else [Trim(data[..j])] + rest
  }

  lemma LineEndOfLine(line: string, rest: string, i: nat)
    requires '\n' !in line && i <= |line|
    ensures LineEnd(line + "\n" + rest, i) == |line|
    decreases |line| - i
  {
    var data := line + "\n" + rest;
    if i < |line| {
      assert data[i] == line[i];
      LineEndOfLine(line, rest, i + 1);
    } else {
      assert data[i] == '\n';
    }
  }

  lemma LinesOfLine(line: string, rest: string)
    requires '\n' !in line
    ensures Lines(line + "\n" + rest) == (if Trim(line) == "" then [] else [Trim(line)]) + Lines(rest)
  {
    hide Trim;
    var data := line + "\n" + rest;
    LineEndOfLine(line, rest, 0);
    assert data[..|line|] == line && data[|line| + 1..] == rest;
  }

  lemma {:induction false} LinesOfJoin(lines: seq<string>)
    requires NewlineFree(lines) && forall i :: 0 <= i < |lines| ==> Solid(lines[i])
    ensures Lines(JoinLines(lines)) == lines
  {
    if lines != [] {
      LinesOfJoin(lines[1..]);
      LinesOfLine(lines[0], JoinLines(lines[1..]));
    }
  }

  lemma {:induction false} LinesHoldNoNewline(data: string)
    ensures forall k :: 0 <= k < |Lines(data)| ==> '\n' !in Lines(data)[k]
    decreases |data|
  {
    if data != "" {
      hide Trim;
      var j := LineEnd(data, 0);
      assert data[0..j] == data[..j];
      if j < |data| { LinesHoldNoNewline(data[j + 1..]); }
    }
  }

  lemma {:induction false} JoinAppend(a: seq<string>, b: seq<string>)
    ensures JoinLines(a + b) == JoinLines(a) + JoinLines(b)
  {
    if a == [] {
      assert a + b == b;
    } else {
      assert (a + b)[1..] == a[1..] + b;
      JoinAppend(a[1..], b);
    }
  }

  // ---------------------------------------------------------------- counting lines

  function Newlines(data: string): nat {
    if data == "" then 0 else (if data[0] == '\n' then 1 else 0) + Newlines(data[1..])
  }

  lemma {:induction false} NewlinesAppend(a: string, b: string)
    ensures Newlines(a + b) == Newlines(a) + Newlines(b)
  {
    if a == "" {
      assert a + b == b;
    } else {
      assert (a + b)[1..] == a[1..] + b;
      NewlinesAppend(a[1..], b);
    }
  }

  lemma {:induction false} NoNewlines(data: string)
    ensures Newlines(data) == 0 <==> '\n' !in data
  {
    if data != "" { NoNewlines(data[1..]); }
  }

  lemma {:induction false} NewlinesOfJoin(lines: seq<string>)
    requires NewlineFree(lines)
    ensures Newlines(JoinLines(lines)) == |lines|
  {
    if lines != [] {
      NoNewlines(lines[0]);
      NewlinesAppend(lines[0], "\n");
      NewlinesAppend(lines[0] + "\n", JoinLines(lines[1..]));
      NewlinesOfJoin(lines[1..]);
    }
  }

  // ---------------------------------------------------------------- where lines end

  /** o is where the first `lines` lines end; past the last newline that is the end of the data. */
  ghost predicate IsEndOffset(data: string, lines: int, o: nat) {
    && o <= |data|
    && if lines <= 0 then o == 0
       else if lines <= Newlines(data) then o > 0 && data[o - 1] == '\n' && Newlines(data[..o]) == lines
       else o == |data|
  }

  lemma NewlinesPrefix(data: string, i: nat, j: nat)
    requires i <= j <= |data|
    ensures Newlines(data[..i]) <= Newlines(data[..j]) <= Newlines(data)
    ensures i < j && data[j - 1] == '\n' ==> Newlines(data[..i]) < Newlines(data[..j])
  {
    assert data == data[..j] + data[j..];
    NewlinesAppend(data[..j], data[j..]);
    assert data[..j] == data[..i] + data[i..j];
    NewlinesAppend(data[..i], data[i..j]);
    NoNewlines(data[i..j]);
    if i < j { assert data[i..j][j - 1 - i] == data[j - 1]; }
  }

  lemma EndOffsetIsUnique(data: string, lines: int, o1: nat, o2: nat)
    requires IsEndOffset(data, lines, o1) && IsEndOffset(data, lines, o2)
    ensures o1 == o2
  {
    if o1 < o2 {
      NewlinesPrefix(data, o1, o2);
    } else if o2 < o1 {
      NewlinesPrefix(data, o2, o1);
    }
  }

  /** A cut behind whole lines splits the line count. */
  lemma SplitNewlines(data: string, o: nat)
    requires o <= |data|
    ensures Newlines(data) == Newlines(data[..o]) + Newlines(data[o..])
  {
    assert data == data[..o] + data[o..];
    NewlinesAppend(data[..o], data[o..]);
  }

  lemma {:induction false} JoinEndsLine(lines: seq<string>)
    requires lines != []
    ensures JoinLines(lines) != "" && JoinLines(lines)[|JoinLines(lines)| - 1] == '\n'
  {
    if |lines| > 1 { JoinEndsLine(lines[1..]); }
  }

  lemma CutBehindLines(head: string, tail: string, k: nat, o: nat)
    requires Newlines(head) == k
    requires if k > 0 then head != "" && head[|head| - 1] == '\n' else head == ""
    requires IsEndOffset(head + tail, k, o)
    ensures (head + tail)[..o] == head && (head + tail)[o..] == tail
  {
    NewlinesAppend(head, tail);
    assert (head + tail)[..|head|] == head;
    EndOffsetIsUnique(head + tail, k, o, |head|);
  }

  /** Cutting the file behind its k-th line is cutting the sequence of lines there. */
  lemma CutOfJoin(lines: seq<string>, k: nat, o: nat)
    requires NewlineFree(lines) && k <= |lines| && IsEndOffset(JoinLines(lines), k, o)
    ensures JoinLines(lines)[..o] == JoinLines(lines[..k]) && JoinLines(lines)[o..] == JoinLines(lines[k..])
  {
    assert lines == lines[..k] + lines[k..];
    JoinAppend(lines[..k], lines[k..]);
    NewlinesOfJoin(lines[..k]);
    if k > 0 { JoinEndsLine(lines[..k]); }
    CutBehindLines(JoinLines(lines[..k]), JoinLines(lines[k..]), k, o);
  }

  // ---------------------------------------------------------------- cutting any file

  /** Nothing, or text up to and including a newline: what is appended line by line. */
  predicate EndsLine(data: string) {
    data != "" ==> data[|data| - 1] == '\n'
  }

  lemma FirstLine(data: string) returns (line: string, rest: string)
    requires EndsLine(data) && data != ""
    ensures '\n' !in line && data == line + "\n" + rest && EndsLine(rest)
  {
    var j := LineEnd(data, 0);
    assert data[0..j] == data[..j];
    line, rest := data[..j], if j < |data| then data[j + 1..] else "";
  }

  lemma EmptyFile()
    ensures Lines("") == []
  {
  }

  /** The lines of a file are those of its parts, when the first part ends a line. */
  lemma {:induction false} LinesAppend(head: string, tail: string)
    requires EndsLine(head)
    ensures Lines(head + tail) == Lines(head) + Lines(tail)
    decreases |head|
  {
    hide Lines, Trim;
    if head == "" {
      EmptyFile();
      assert head + tail == tail;
    } else {
      var line, rest := FirstLine(head);
      LinesAppend(rest, tail);
      LinesOfLine(line, rest);
      LinesOfLine(line, rest + tail);
      assert head + tail == line + "\n" + (rest + tail);
    }
  }

  lemma {:induction false} LinesAreNewlines(data: string)
    requires EndsLine(data)
    ensures |Lines(data)| <= Newlines(data)
    decreases |data|
  {
    if data != "" {
      var line, rest := FirstLine(data);
      LinesAreNewlines(rest);
      LinesOfLine(line, rest);
      NewlinesAppend(line + "\n", rest);
      NewlinesAppend(line, "\n");
    }
  }

  /** Every newline ends a line that is not blank. */
  predicate NoBlankLine(data: string) {
    |Lines(data)| == Newlines(data)
  }

  /** A cut behind some lines splits none of them, whatever they hold; without blank lines it is a cut of the sequence. */
  lemma LinesOfCut(data: string, k: nat, o: nat)
    requires EndsLine(data) && k <= Newlines(data) && IsEndOffset(data, k, o)
    ensures Lines(data[..o]) + Lines(data[o..]) == Lines(data)
    ensures NoBlankLine(data) ==> Lines(data[..o]) == Lines(data)[..k] && Lines(data[o..]) == Lines(data)[k..]
    ensures NoBlankLine(data) ==> NoBlankLine(data[o..])
  {
    hide Lines;
    var head, tail := data[..o], data[o..];
    assert data == head + tail;
    assert EndsLine(head) && EndsLine(tail);
    LinesAppend(head, tail);
    LinesAreNewlines(head);
    LinesAreNewlines(tail);
    NewlinesAppend(head, tail);
  }
}
