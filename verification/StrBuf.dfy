/**
 The C client's growable byte buffer. Bytes are characters; `data` is null until the
 first growth, and its length is the capacity.
 */
module StrBuf {

  class Buffer {
    var data: array?<char>
    var len: nat

    ghost predicate Valid()
      reads this
    {
      if data == null then len == 0 else len < data.Length
    }

    function Contents(): (s: string)
      requires Valid()
      reads this, data
    {
      if data == null then "" else data[..len]
    }

    /** The contents can be read as a C string. Growing alone does not establish it. */
    ghost predicate Terminated()
      reads this, data
    {
      data != null && len < data.Length && data[len] == '\0'
    }

    constructor ()
      ensures Valid() && data == null && Contents() == ""
    {
      data, len := null, 0;
    }

    method Ensure(extra: nat)
      requires Valid()
      modifies this`data
      ensures Valid() && Contents() == old(Contents())
      ensures data != null && len + extra < data.Length
      ensures data == old(data) || fresh(data)
      ensures old(Terminated()) ==> Terminated()
    {
      if data != null && len + extra + 1 <= data.Length {
        return;
      }
      var newCap := if data != null then data.Length else 256;
      while newCap < len + extra + 1
        invariant newCap > 0
        invariant newCap >= 256 || (data != null && newCap >= data.Length)
        decreases len + extra + 1 - newCap
      {
        newCap := newCap * 2;
      }
      var p := new char[newCap];
      if data != null {
        for i := 0 to len + 1
          modifies p
          invariant len + 1 <= data.Length && len + 1 <= newCap && p[..i] == data[..i]
        {
          p[i] := data[i];
        }
      }
      data := p;
    }

    method AppendN(s: string)
      requires Valid()
      modifies this, data
      ensures Valid() && Contents() == old(Contents()) + s
      ensures data == old(data) || fresh(data)
      ensures s != "" || old(Terminated()) ==> Terminated()
    {
      if |s| == 0 {
        assert s == "";
        return;
      }
      Ensure(|s|);
      ghost var was := data[..len];
      for i := 0 to |s|
        modifies data
        invariant data[..len] == was
        invariant forall k :: 0 <= k < i ==> data[len + k] == s[k]
      {
        data[len + i] := s[i];
      }
      assert data[len..len + |s|] == s;
      assert data[..len + |s|] == data[..len] + data[len..len + |s|];
      len := len + |s|;
      data[len] := '\0';
    }

    method AppendChar(c: char)
      requires Valid()
      modifies this, data
      ensures Valid() && Contents() == old(Contents()) + [c] && Terminated()
      ensures data == old(data) || fresh(data)
    {
      Ensure(1);
      data[len] := c;
      len := len + 1;
      data[len] := '\0';
    }
  }
}
