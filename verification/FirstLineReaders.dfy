/** The two readers of `codex_execution_common.py` that must agree on a file's first line, however the
    system splits their reads. */
module FirstLineReaders {
  import opened Bytes
  import opened Sequences

  const LIMIT: nat := 4096

  const CHUNK_SIZE: nat := 1024 * 1024

  // ---------------------------------------------------------------- the specification

  // The index of the first newline, or the length.
  function Find(s: seq<byte>): (n: nat)
    ensures n <= |s| && (n < |s| ==> s[n] == NEWLINE)
    ensures forall i :: 0 <= i < n ==> s[i] != NEWLINE
  {
    FirstIndex(s, (b: byte) => b == NEWLINE)
  }

  // Through the first newline if there is one in the first `limit` bytes, or else those bytes.
  function FirstLine(s: seq<byte>, limit: nat): seq<byte> {
    var head := if |s| <= limit then s else s[..limit];
    if Find(head) < |head| then head[..Find(head) + 1] else head
  }

  /** The line is the longest start of the file, within the limit, with no newline before its last byte. */
  lemma FirstLineIsLongest(s: seq<byte>, limit: nat, n: nat)
    requires n <= |s| && n <= limit && forall i :: 0 <= i < n - 1 ==> s[i] != NEWLINE
    ensures FirstLine(s, limit) <= s && |FirstLine(s, limit)| <= limit && n <= |FirstLine(s, limit)|
    ensures forall i :: 0 <= i < |FirstLine(s, limit)| - 1 ==> s[i] != NEWLINE
  {
    var head := if |s| <= limit then s else s[..limit];
    assert head <= s;
    if Find(head) < |head| {
      assert s[Find(head)] == NEWLINE;
    }
  }

  // What is read has no newline yet and more of the file is to come.
  ghost predicate Begun(s: seq<byte>, line: seq<byte>, limit: nat) {
    line <= s && |line| <= limit && forall i :: 0 <= i < |line| ==> s[i] != NEWLINE
  }

  // One more piece of the file, cut at the limit, goes into the line up to its newline.
  lemma NextPiece(s: seq<byte>, line: seq<byte>, piece: seq<byte>, limit: nat)
    requires Begun(s, line, limit) && line + piece <= s && |line + piece| <= limit
    ensures if Find(piece) < |piece| then line + piece[..Find(piece) + 1] == FirstLine(s, limit)
            else Begun(s, line + piece, limit)
  {
    var head, n := if |s| <= limit then s else s[..limit], Find(piece);
    assert forall i :: 0 <= i < |piece| ==> s[|line| + i] == piece[i];
    if n < |piece| {
      assert head[|line| + n] == NEWLINE;
      assert forall i :: 0 <= i < |line| + n ==> head[i] != NEWLINE by {
        assert forall i :: |line| <= i < |line| + n ==> head[i] == piece[i - |line|];
      }
      assert Find(head) == |line| + n;
      assert line + piece[..n + 1] == head[..|line| + n + 1];
    } else {
      assert forall i :: |line| <= i < |line + piece| ==> s[i] == piece[i - |line|];
    }
  }

  // A line that has reached the limit or the end without a newline is the first line.
  lemma LineEnds(s: seq<byte>, line: seq<byte>, limit: nat)
    requires Begun(s, line, limit) && (|line| == limit || |line| == |s|)
    ensures line == FirstLine(s, limit)
  {
    var head := if |s| <= limit then s else s[..limit];
    assert head == line;
  }

  // ---------------------------------------------------------------- the file

  class Descriptor {
    const content: seq<byte>
    var offset: nat

    ghost predicate Valid() reads this {
      offset <= |content|
    }

    constructor (content: seq<byte>)
      ensures Valid() && this.content == content
    {
      this.content := content;
      offset := 0;
    }

    method Rewind()
      modifies this
      ensures Valid() && offset == 0
    {
      offset := 0;
    }

    // `os.read`: as much as it likes, but something unless the file is at its end.
    method Read(most: nat) returns (chunk: seq<byte>)
      requires Valid() && most > 0
      modifies this
      ensures Valid() && |chunk| <= most && offset == old(offset) + |chunk|
      ensures chunk == content[old(offset)..offset]
      ensures chunk == [] ==> offset == |content|
    {
      if offset == |content| {
        return [];
      }
      var n: nat :| 1 <= n <= most && n <= |content| - offset;
      chunk := content[offset..offset + n];
      offset := offset + n;
    }
  }

  // ---------------------------------------------------------------- the readers

  /** Every byte of the file goes into the digest, in order, and the line is the first line. */
  method HashAndFirstLine(fd: Descriptor) returns (digested: seq<byte>, line: seq<byte>)
    requires fd.Valid()
    modifies fd
    ensures fd.Valid() && fd.offset == 0
    ensures digested == fd.content && line == FirstLine(fd.content, LIMIT)
  {
    digested, line := [], [];
    var complete := false;
    fd.Rewind();
    while true
      invariant fd.Valid() && digested == fd.content[..fd.offset]
      invariant complete ==> line == FirstLine(fd.content, LIMIT)
      invariant !complete ==> Begun(fd.content, line, LIMIT) && |line| < LIMIT && |line| == fd.offset
      decreases |fd.content| - fd.offset
    {
      var chunk := fd.Read(CHUNK_SIZE);
      if chunk == [] {
        break;
      }
      DigestGrows(fd.content, digested, chunk);
      digested := digested + chunk;
      if !complete && |line| < LIMIT {
        var remaining := LIMIT - |line|;
        var piece := if |chunk| <= remaining then chunk else chunk[..remaining];
        assert line + piece <= fd.content;
        NextPiece(fd.content, line, piece, LIMIT);
        if Find(piece) < |piece| {
          line := line + piece[..Find(piece) + 1];
          complete := true;
        } else {
          line := line + piece;
          if |line| == LIMIT {
            LineEnds(fd.content, line, LIMIT);
            complete := true;
          }
        }
      }
    }
    if !complete {
      LineEnds(fd.content, line, LIMIT);
    }
    assert fd.content[..|fd.content|] == fd.content;
    fd.Rewind();
  }

  lemma DigestGrows(s: seq<byte>, start: seq<byte>, chunk: seq<byte>)
    requires |start| + |chunk| <= |s| && start == s[..|start|] && chunk == s[|start|..|start| + |chunk|]
    ensures start + chunk == s[..|start| + |chunk|]
  {
  }

  /** The reader that never looks further finds the same line. */
  method ReadFirstLine(fd: Descriptor, limit: nat) returns (line: seq<byte>)
    requires fd.Valid()
    modifies fd
    ensures fd.Valid() && fd.offset == 0
    ensures line == FirstLine(fd.content, limit)
  {
    line := [];
    fd.Rewind();
    while |line| < limit
      invariant fd.Valid() && Begun(fd.content, line, limit) && |line| == fd.offset
      decreases |fd.content| - fd.offset
    {
      var chunk := fd.Read(limit - |line|);
      if chunk == [] {
        break;
      }
      DigestGrows(fd.content, line, chunk);
      NextPiece(fd.content, line, chunk, limit);
      if Find(chunk) < |chunk| {
        line := line + chunk[..Find(chunk) + 1];
        fd.Rewind();
        return;
      }
      line := line + chunk;
    }
    LineEnds(fd.content, line, limit);
    fd.Rewind();
  }
}
