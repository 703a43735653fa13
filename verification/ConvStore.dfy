/**
 The conversation file and its archive. Trimming moves a prefix of whole lines
 from the one to the other, byte for byte.
 */
module ConvStore {
  import opened TextLines

  method LineEndOffset(data: string, lines: int) returns (o: nat)
    ensures IsEndOffset(data, lines, o)
  {
    if lines <= 0 { return 0; }
    var seen := 0;
    var i := 0;
    while i < |data|
      invariant 0 <= i <= |data|
      invariant seen == Newlines(data[..i]) < lines
    {
      assert data[..i + 1] == data[..i] + [data[i]];
      NewlinesAppend(data[..i], [data[i]]);
      if data[i] == '\n' {
        seen := seen + 1;
        if seen == lines {
          NewlinesPrefix(data, i + 1, |data|);
          return i + 1;
        }
      }
      i := i + 1;
    }
    assert data[..|data|] == data;
    o := |data|;
  }

  class FileStore {
    var conv: string
    var archive: string

    constructor ()
      ensures conv == "" && archive == ""
    {
      conv, archive := "", "";
    }

    constructor On(conv: string, archive: string)
      ensures this.conv == conv && this.archive == archive
    {
      this.conv, this.archive := conv, archive;
    }

    method AppendLine(line: string)
      modifies this
      ensures conv == old(conv) + line + "\n" && archive == old(archive)
    {
      conv := conv + line + "\n";
    }

    method LineCount() returns (n: nat)
      ensures n == Newlines(conv)
    {
      n := 0;
      var i := 0;
      while i < |conv|
        invariant 0 <= i <= |conv|
        invariant n == Newlines(conv[..i])
      {
        assert conv[..i + 1] == conv[..i] + [conv[i]];
        NewlinesAppend(conv[..i], [conv[i]]);
        if conv[i] == '\n' { n := n + 1; }
        i := i + 1;
      }
      assert conv[..|conv|] == conv;
    }

    /** The bytes of the first n lines. */
    method HeadTo(n: int) returns (head: string)
      ensures head <= conv && IsEndOffset(conv, n, |head|)
    {
      var o := LineEndOffset(conv, n);
      head := conv[..o];
    }

    /**
     Moves all but the last n lines to the archive. Nothing is lost or reordered,
     and exactly n lines stay when there were more.
     */
    method TrimTail(n: int)
      modifies this
      ensures archive + conv == old(archive + conv)
      ensures n >= Newlines(old(conv)) ==> conv == old(conv)
      ensures 0 <= n < Newlines(old(conv)) ==>
                && Newlines(conv) == n
                && |archive| > |old(archive)| && archive[|archive| - 1] == '\n'
      ensures forall o: nat :: n < Newlines(old(conv)) && IsEndOffset(old(conv), Newlines(old(conv)) - n, o) ==>
                archive == old(archive) + old(conv)[..o] && conv == old(conv)[o..]
    {
      var total := LineCount();
      if n >= total { return; }
      var drop := total - n;
      var splitAt := LineEndOffset(conv, drop);
      SplitNewlines(conv, splitAt);
      forall o: nat | IsEndOffset(conv, drop, o) ensures o == splitAt {
        EndOffsetIsUnique(conv, drop, o, splitAt);
      }
      archive := archive + conv[..splitAt];
      conv := conv[splitAt..];
    }
  }
}
