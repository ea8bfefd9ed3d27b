/** The partial-write loop of the relay's writer, over a destination that may take less than it is
    offered. */
module RelayWrite {
  import opened Common
  import opened Relay

  /** A destination that takes a prefix of what it is offered and, if it takes nothing, says why. It may
      take less than it is offered without an error. `errors` are the errors it has reported. */
  class Sink {
    var received: seq<Byte>
    ghost var errors: seq<IoError>

    constructor ()
      ensures received == [] && errors == []
    {
      received, errors := [], [];
    }

    method Write(p: seq<Byte>) returns (n: nat, err: Option<IoError>)
      modifies this
      ensures n <= |p| && received == old(received) + p[..n]
      ensures n == 0 && p != [] ==> err.Some?
      ensures errors == old(errors) + AsSeq(err)
    {
      n :| 0 <= n <= |p|;
      received := received + p[..n];
      if n == 0 && p != [] {
        err := Some(OtherError);
      } else {
        err :| true;
      }
      errors := errors + AsSeq(err);
    }
  }

  function AsSeq(err: Option<IoError>): seq<IoError> { if err.Some? then [err.value] else [] }

  lemma SliceGrows<T>(s: seq<T>, written: nat, n: nat, k: nat)
    requires written <= n <= |s| && k <= n - written
    ensures s[..written] + s[written..n][..k] == s[..written + k]
  {
    assert s[written..n][..k] == s[written..written + k];
  }

  /** On success the destination has the whole chunk and reported no error; on an error, it has a prefix
      of the chunk and reported exactly that error. */
  method WriteChunk(dst: Sink, buf: array<Byte>, n: nat) returns (written: nat, err: Option<IoError>)
    requires n <= buf.Length
    modifies dst
    ensures written <= n && dst.received == old(dst.received) + buf[..written]
    ensures err.None? ==> written == n
    ensures dst.errors == old(dst.errors) + AsSeq(err)
  {
    ghost var chunk := buf[..];
    written := 0;
    while written < n
      invariant written <= n && chunk == buf[..]
      invariant dst.received == old(dst.received) + chunk[..written] && dst.errors == old(dst.errors)
    {
      var k, e := dst.Write(buf[written..n]);
      SliceGrows(chunk, written, n, k);
      assert buf[written..n] == chunk[written..n];
      written := written + k;
      if e.Some? { return written, e; }
    }
    err := None;
  }
}
