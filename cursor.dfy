/**
 * `CodecState` (codec.go:68-155): a `bytes.Buffer` that encoders append to and
 * decoders consume from, plus a pointer track shared with every sub-state made
 * from it.
 */
module Cursor {
  import opened Wrappers
  import opened Binary
  import opened Types

  /** `n` zero bytes, the contents of a fresh `make([]byte, n)`. */
  function Zeros(n: nat): (z: seq<Byte>)
    ensures |z| == n && forall i :: 0 <= i < n ==> z[i] == 0
  {
    seq(n, _ => 0)
  }

  /**
   * `CodecState.Read` into a buffer of `n` bytes, as `bytes.Buffer.Read`
   * does it: it copies as many unread bytes as fit, leaves the rest of the
   * buffer zero, and fails only when nothing is unread and `n > 0`. The
   * result is the filled buffer and the bytes still unread.
   */
  function ReadFrom(unread: seq<Byte>, n: nat): (r: Option<(seq<Byte>, seq<Byte>)>)
    ensures r.None? <==> (n > 0 && |unread| == 0)
    ensures r.Some? ==> |r.value.0| == n
    ensures r.Some? && n <= |unread| ==> r.value.0 == unread[..n] && r.value.1 == unread[n..]
    ensures r.Some? && |unread| < n ==>
      r.value.0 == unread + Zeros(n - |unread|) && r.value.1 == []
  {
    if n > 0 && |unread| == 0 then None
    else if n <= |unread| then Some((unread[..n], unread[n..]))
    else Some((unread + Zeros(n - |unread|), []))
  }

  /** `CodecState.ReadByte`: fails exactly when nothing is unread. */
  function ReadByteFrom(unread: seq<Byte>): (r: Option<(Byte, seq<Byte>)>)
    ensures r.None? <==> |unread| == 0
    ensures r.Some? ==> [r.value.0] + r.value.1 == unread
  {
    if |unread| == 0 then None else Some((unread[0], unread[1..]))
  }

  /** The nesting depth of pointer coders and the pointers met past depth 1000 (codec.go:68-80). */
  class PointerTrack {
    var level: nat
    var seen: set<(TypeId, Addr)>

    /** newPointerTrack (codec.go:78-80) */
    constructor ()
      ensures level == 0 && seen == {}
    {
      level := 0;
      seen := {};
    }
  }

  class CodecState {
    /** The unread part of the buffer. */
    var unread: seq<Byte>
    const pt: PointerTrack

    /** newCodecState (codec.go:91-94): an empty buffer with a fresh pointer track. */
    constructor New()
      ensures unread == [] && fresh(pt) && pt.level == 0 && pt.seen == {}
    {
      unread := [];
      pt := new PointerTrack();
    }

    /** subCodecState (codec.go:96-104): an empty buffer sharing `track`. */
    constructor Sub(track: PointerTrack)
      ensures unread == [] && pt == track
    {
      unread := [];
      pt := track;
    }

    /** gensub (codec.go:115-117) */
    method Gensub() returns (s: CodecState)
      ensures fresh(s) && s.unread == [] && s.pt == pt
    {
      s := new CodecState.Sub(pt);
    }

    /** `Bytes()` of the embedded buffer: the unread bytes, left unread. */
    function Bytes(): seq<Byte>
      reads this
    {
      unread
    }

    /** `Len()` of the embedded buffer. */
    function Len(): nat
      reads this
    {
      |unread|
    }

    method Write(b: seq<Byte>)
      modifies this
      ensures unread == old(unread) + b
    {
      unread := unread + b;
    }

    method WriteByte(b: Byte)
      modifies this
      ensures unread == old(unread) + [b]
    {
      unread := unread + [b];
    }

    /** Read (codec.go:141-147); `ok == false` is the `DataLengthErr` it raises. */
    method Read(n: nat) returns (p: seq<Byte>, ok: bool)
      modifies this
      ensures ok <==> ReadFrom(old(unread), n).Some?
      ensures ok ==> (p, unread) == ReadFrom(old(unread), n).value
    {
      var r := ReadFrom(unread, n);
      ok := r.Some?;
      p := [];
      if ok {
        p, unread := r.value.0, r.value.1;
      }
    }

    /** ReadByte (codec.go:149-155); `ok == false` is the `DataLengthErr` it raises. */
    method ReadByte() returns (b: Byte, ok: bool)
      modifies this
      ensures ok <==> ReadByteFrom(old(unread)).Some?
      ensures ok ==> (b, unread) == ReadByteFrom(old(unread)).value
    {
      ok := |unread| > 0;
      b := 0;
      if ok {
        b, unread := unread[0], unread[1..];
      }
    }
  }
}
