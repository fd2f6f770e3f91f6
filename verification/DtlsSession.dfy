/** The session calls of src/dtls.c, with mbed TLS behind the values it returns. */
module DtlsSession {
  import opened Wire
  import opened Dtls

  /** A `size_t` variable of the caller. */
  class SizeVar {
    var value: nat

    constructor ()
      ensures value == 0
    {
      value := 0;
    }
  }

  /** dtls_session_t, as far as the server can tell. `buffered` is the plaintext inside it. */
  class Session {
    const id: nat
    var complete: bool
    var buffered: nat
    ghost var destroyed: bool

    constructor (id: nat)
      ensures this.id == id && !complete && buffered == 0 && !destroyed
    {
      this.id := id;
      complete, buffered, destroyed := false, 0, false;
    }

    /** sc_dtls_session_create; DtlsContext says when it succeeds. */
    static method Create(id: nat, succeeds: bool) returns (session: Session?)
      ensures session == null <==> !succeeds
      ensures session != null ==>
                fresh(session) && session.id == id && !session.complete && session.buffered == 0 && !session.destroyed
    {
      session := null;
      if succeeds {
        session := new Session(id);
      }
    }

    ghost static function Footprint(session: Session?): set<Session> {
      if session == null then {} else {session}
    }

    /** sc_dtls_session_destroy: NULL is ignored, and a second call would be a double free. */
    static method Destroy(session: Session?)
      requires session != null ==> !session.destroyed
      modifies Footprint(session)`destroyed
      ensures session != null ==> session.destroyed
    {
      if session != null {
        session.destroyed := true;
      }
    }

    /** sc_dtls_handshake, when mbed TLS returns `ret`: the flag is set exactly on success. */
    static method Handshake(session: Session?, ret: MbedRet, buffered: nat) returns (result: DtlsResult)
      modifies Footprint(session)`complete, Footprint(session)`buffered
      ensures result == if session == null then ErrInvalidParams else HandshakeResult(ret)
      ensures session != null ==>
                && (result.Ok? <==> ret == Value(0))
                && (result.WouldBlock? <==> ret == WantRead || ret == WantWrite)
                && (result.ErrHandshakeTimeout? <==> ret == Timeout)
                && (result.ErrCertVerify? <==> ret == CertVerifyFailed)
                && (result.ErrHandshake? <==> ret == PeerCloseNotify || ret == OtherError || (ret.Value? && ret.n != 0))
      ensures session != null ==>
                session.buffered == buffered && session.complete == (old(session.complete) || result.Ok?)
    {
      if session == null {
        return ErrInvalidParams;
      }
      session.buffered := buffered;
      if ret == Value(0) {
        session.complete := true;
        return Ok;
      }
      result := HandshakeResult(ret);
    }

    /** sc_dtls_read, when mbed TLS returns `ret`: the buffer and the length change only for
        valid arguments, and the buffer only on success. */
    static method Read(session: Session?, buffer: array?<Byte>, bytesRead: SizeVar?, ret: MbedRet,
                       plaintext: seq<Byte>, buffered: nat)
      returns (result: DtlsResult)
      requires buffer != null && ReadResult(ret).Ok? ==> |plaintext| == ret.n <= buffer.Length
      modifies Footprint(session)`buffered, buffer, bytesRead
      ensures session == null || buffer == null || bytesRead == null ==>
                && result == ErrInvalidParams
                && (session != null ==> session.buffered == old(session.buffered))
                && (buffer != null ==> buffer[..] == old(buffer[..]))
                && (bytesRead != null ==> bytesRead.value == old(bytesRead.value))
      ensures session != null && buffer != null && bytesRead != null ==>
                && result == ReadResult(ret) && session.buffered == buffered
                && (result.Ok? <==> ret.Value? && ret.n > 0)
                && (result.WouldBlock? <==> ret == WantRead || ret == WantWrite)
                && (result.PeerClosed? <==> ret == PeerCloseNotify)
                && (result.ErrRead? <==> ret == Value(0) || ret == Timeout || ret == CertVerifyFailed || ret == OtherError)
                && bytesRead.value == (if result.Ok? then ret.n else 0) <= buffer.Length
                && (result.Ok? ==> buffer[..bytesRead.value] == plaintext)
                && buffer[bytesRead.value..] == old(buffer[..])[bytesRead.value..]
    {
      if session == null || buffer == null || bytesRead == null {
        return ErrInvalidParams;
      }
      bytesRead.value := 0;
      session.buffered := buffered;
      result := ReadResult(ret);
      if result.Ok? {
        bytesRead.value := ret.n;
        forall k | 0 <= k < ret.n {
          buffer[k] := plaintext[k];
        }
      }
    }

    /** sc_dtls_write of n bytes, when mbed TLS returns `ret`: it may take fewer, or none. */
    static method Write(session: Session?, buffer: array?<Byte>, n: nat, bytesWritten: SizeVar?, ret: MbedRet,
                        buffered: nat)
      returns (result: DtlsResult)
      requires BytesDone(ret) <= n
      modifies Footprint(session)`buffered, bytesWritten
      ensures session == null || buffer == null || bytesWritten == null ==>
                && result == ErrInvalidParams
                && (session != null ==> session.buffered == old(session.buffered))
                && (bytesWritten != null ==> bytesWritten.value == old(bytesWritten.value))
      ensures session != null && buffer != null && bytesWritten != null ==>
                && result == WriteResult(ret) && session.buffered == buffered
                && (result.Ok? <==> ret.Value? && ret.n > 0)
                && (result.WouldBlock? <==> ret == WantRead || ret == WantWrite)
                && (result.ErrWrite? <==> ret == Value(0) || ret == Timeout || ret == PeerCloseNotify
                                          || ret == CertVerifyFailed || ret == OtherError)
                && bytesWritten.value == BytesDone(ret) <= n
                && (result.Ok? <==> bytesWritten.value > 0)
    {
      if session == null || buffer == null || bytesWritten == null {
        return ErrInvalidParams;
      }
      bytesWritten.value := 0;
      session.buffered := buffered;
      result := WriteResult(ret);
      if result.Ok? {
        bytesWritten.value := ret.n;
      }
    }
  }
}
