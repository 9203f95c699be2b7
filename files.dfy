/** The container file as the engine sees it through one POSIX descriptor:
    its contents and the descriptor's offset. read/pread/pwrite/write/lseek/
    ftruncate are modelled with their POSIX meaning for a regular file:
    reads stop at end of file, writes past the end grow the file and the gap
    (a hole) reads as zero bytes, and an offset may lie beyond the end. */
module Files {
  import opened Bytes

  /** The byte count read() or pread() returns when `count` bytes are asked
      for at offset `at` of a file of `len` bytes. */
  function Available(len: nat, at: nat, count: nat): (k: nat)
    ensures k <= count
    ensures k > 0 ==> at + k <= len
    ensures k < count ==> at + k >= len
    ensures at + count <= len ==> k == count
  {
    if at >= len then 0 else if len - at < count then len - at else count
  }

  /** The contents after pwrite(data) at offset `at`; writing nothing
      changes nothing, even past the end. */
  function Overwrite(s: seq<byte>, at: nat, data: seq<byte>): (r: seq<byte>)
    ensures |r| == if |data| > 0 && at + |data| > |s| then at + |data| else |s|
    ensures forall i :: 0 <= i < |r| ==>
              r[i] == if at <= i < at + |data| then data[i - at] else if i < |s| then s[i] else 0
  {
    var n := if |data| > 0 && at + |data| > |s| then at + |data| else |s|;
    seq(n, i requires 0 <= i < n =>
      if at <= i < at + |data| then data[i - at] else if i < |s| then s[i] else 0)
  }

  /** The contents after ftruncate(len). */
  function Truncated(s: seq<byte>, len: nat): (r: seq<byte>)
    ensures |r| == len
    ensures forall i :: 0 <= i < len ==> r[i] == if i < |s| then s[i] else 0
  {
    if len <= |s| then s[..len] else s + Zeros(len - |s|)
  }

  /** Writing bytes over a region that lies inside the file keeps its length and
      everything outside the region. */
  lemma {:induction false} OverwriteInside(s: seq<byte>, at: nat, data: seq<byte>)
    requires at + |data| <= |s|
    ensures Overwrite(s, at, data) == s[..at] + data + s[at + |data|..]
  {
    var r := Overwrite(s, at, data);
    var t := s[..at] + data + s[at + |data|..];
    assert |r| == |t|;
    forall i | 0 <= i < |r| ensures r[i] == t[i] {
      if i < at {
      } else if i < at + |data| {
        assert t[i] == data[i - at];
      } else {
        assert t[i] == s[i];
      }
    }
  }

  /** Writing nothing changes nothing, wherever the offset is. */
  lemma OverwriteNothing(s: seq<byte>, at: nat)
    ensures Overwrite(s, at, []) == s
  {
    assert |Overwrite(s, at, [])| == |s|;
  }

  /** Two writes that follow each other land like one write of both. */
  lemma {:induction false} OverwriteAdjacent(s: seq<byte>, at: nat, d1: seq<byte>, d2: seq<byte>)
    ensures Overwrite(Overwrite(s, at, d1), at + |d1|, d2) == Overwrite(s, at, d1 + d2)
  {
    var r := Overwrite(Overwrite(s, at, d1), at + |d1|, d2);
    var t := Overwrite(s, at, d1 + d2);
    assert |r| == |t|;
    forall i | 0 <= i < |r| ensures r[i] == t[i] {
      if at <= i < at + |d1| {
        assert (d1 + d2)[i - at] == d1[i - at];
      } else if at + |d1| <= i < at + |d1| + |d2| {
        assert (d1 + d2)[i - at] == d2[i - at - |d1|];
      }
    }
  }

  /** A 44-byte header written at 0, `data` written after it, and the file
      cut to their total length, leave exactly the header and the data. */
  lemma {:induction false} HeaderThenData(s: seq<byte>, header: seq<byte>, data: seq<byte>)
    requires |header| == 44
    ensures Truncated(Overwrite(Overwrite(s, 0, header), 44, data), 44 + |data|) == header + data
  {
    var r := Truncated(Overwrite(Overwrite(s, 0, header), 44, data), 44 + |data|);
    forall i | 0 <= i < |r| ensures r[i] == (header + data)[i] {
    }
  }

  class File {
    /** Contents on disk. */
    var bytes: seq<byte>
    /** The descriptor's file offset; lseek refuses to make it negative. */
    var pos: nat

    constructor (content: seq<byte>)
      ensures bytes == content && pos == 0
    {
      bytes, pos := content, 0;
    }

    /** read(fd, buf, count) */
    method Read(buf: array<byte>, count: nat) returns (n: nat)
      requires count <= buf.Length
      modifies this, buf
      ensures n == Available(|bytes|, old(pos), count)
      ensures bytes == old(bytes) && pos == old(pos) + n
      ensures forall i :: 0 <= i < n ==> buf[i] == bytes[old(pos) + i]
      ensures forall i :: n <= i < buf.Length ==> buf[i] == old(buf[i])
    {
      n := Available(|bytes|, pos, count);
      forall i | 0 <= i < n {
        buf[i] := bytes[pos + i];
      }
      pos := pos + n;
    }

    /** read(fd, buf, count) into a local buffer whose contents are used only
        as the bytes read: returns those bytes. */
    method ReadBytes(count: nat) returns (data: seq<byte>)
      modifies this
      ensures |data| == Available(|bytes|, old(pos), count)
      ensures |data| > 0 ==> data == bytes[old(pos)..old(pos) + |data|]
      ensures bytes == old(bytes) && pos == old(pos) + |data|
    {
      var n := Available(|bytes|, pos, count);
      data := if n == 0 then [] else bytes[pos..pos + n];
      pos := pos + n;
    }

    /** pread(fd, buf, count, at): like read, but the offset stays where it is. */
    method PRead(buf: array<byte>, count: nat, at: nat) returns (n: nat)
      requires count <= buf.Length
      modifies buf
      ensures n == Available(|bytes|, at, count)
      ensures forall i :: 0 <= i < n ==> buf[i] == bytes[at + i]
      ensures forall i :: n <= i < buf.Length ==> buf[i] == old(buf[i])
    {
      n := Available(|bytes|, at, count);
      forall i | 0 <= i < n {
        buf[i] := bytes[at + i];
      }
    }

    /** pread(fd, buf, count, at) into a local buffer whose contents are used
        only as the bytes read: returns those bytes. */
    method PReadBytes(count: nat, at: nat) returns (data: seq<byte>)
      ensures |data| == Available(|bytes|, at, count)
      ensures |data| > 0 ==> data == bytes[at..at + |data|]
    {
      var n := Available(|bytes|, at, count);
      data := if n == 0 then [] else bytes[at..at + n];
    }

    /** read(fd, buf, count) into a buffer of samples: the whole samples read
        hold the words stored little-endian in the file. */
    method ReadWords(buf: array<word>, count: nat) returns (n: nat)
      requires count <= 4 * buf.Length
      modifies this, buf
      ensures n == Available(|bytes|, old(pos), count)
      ensures bytes == old(bytes) && pos == old(pos) + n
      ensures n > 0 ==> old(pos) + 4 * (n / 4) <= |bytes| && buf[..n / 4] == Words(bytes, old(pos), n / 4)
      ensures buf[n / 4..] == old(buf[n / 4..])
    {
      n := PReadWords(buf, count, pos);
      pos := pos + n;
    }

    /** pread(fd, buf, count, at) into a buffer of samples. */
    method PReadWords(buf: array<word>, count: nat, at: nat) returns (n: nat)
      requires count <= 4 * buf.Length
      modifies buf
      ensures n == Available(|bytes|, at, count)
      ensures n > 0 ==> at + 4 * (n / 4) <= |bytes| && buf[..n / 4] == Words(bytes, at, n / 4)
      ensures buf[n / 4..] == old(buf[n / 4..])
    {
      n := Available(|bytes|, at, count);
      var k := n / 4;
      forall i | 0 <= i < k {
        buf[i] := GetLE32(bytes, at + 4 * i);
      }
    }

    /** pwrite(fd, buf, 4 * count, at) from a buffer of samples. */
    method PWriteWords(buf: array<word>, count: nat, at: nat)
      requires count <= buf.Length
      modifies this
      ensures bytes == Overwrite(old(bytes), at, WordBytes(buf[..count])) && pos == old(pos)
    {
      bytes := Overwrite(bytes, at, WordBytes(buf[..count]));
    }

    /** pwrite(fd, data, |data|, at) */
    method PWrite(data: seq<byte>, at: nat)
      modifies this
      ensures bytes == Overwrite(old(bytes), at, data) && pos == old(pos)
    {
      bytes := Overwrite(bytes, at, data);
    }

    /** write(fd, data, |data|): writes at the offset and moves it past the data. */
    method Write(data: seq<byte>)
      modifies this
      ensures bytes == Overwrite(old(bytes), old(pos), data) && pos == old(pos) + |data|
    {
      bytes := Overwrite(bytes, pos, data);
      pos := pos + |data|;
    }

    /** lseek(fd, to, SEEK_SET) */
    method SeekSet(to: int) returns (r: int)
      modifies this
      ensures bytes == old(bytes)
      ensures to >= 0 ==> r == to && pos == to
      ensures to < 0 ==> r == -1 && pos == old(pos)
    {
      if to < 0 {
        r := -1;
      } else {
        pos := to;
        r := to;
      }
    }

    /** lseek(fd, delta, SEEK_CUR) */
    method SeekCur(delta: int) returns (r: int)
      modifies this
      ensures bytes == old(bytes)
      ensures old(pos) + delta >= 0 ==> r == old(pos) + delta && pos == r
      ensures old(pos) + delta < 0 ==> r == -1 && pos == old(pos)
    {
      r := SeekSet(pos + delta);
    }

    /** lseek(fd, delta, SEEK_END) */
    method SeekEnd(delta: int) returns (r: int)
      modifies this
      ensures bytes == old(bytes)
      ensures |bytes| + delta >= 0 ==> r == |bytes| + delta && pos == r
      ensures |bytes| + delta < 0 ==> r == -1 && pos == old(pos)
    {
      r := SeekSet(|bytes| + delta);
    }

    /** ftruncate(fd, len) */
    method Truncate(len: nat)
      modifies this
      ensures bytes == Truncated(old(bytes), len) && pos == old(pos)
    {
      bytes := Truncated(bytes, len);
    }
  }
}
