/** The consumer's side of the shared-memory handshake.  Byte 0 of the
    buffer is the flag: 'x' means the consumer has finished with the buffer,
    anything else means the producer has left a NUL-terminated message in
    it.  Functions here describe the buffer's contents as a `seq<char>`;
    the server writes the actual `array<char>`. */
module SharedBuffer {

  const Free: char := 'x'
  const Nul: char := '\0'

  predicate IsPending(buf: seq<char>)
    requires |buf| >= 1
  {
    buf[0] != Free
  }

  /** The text a C string at the start of the buffer denotes: everything up
      to the first NUL, or the whole buffer if it holds none. */
  function CString(buf: seq<char>): (r: seq<char>)
    ensures |r| <= |buf| && r == buf[..|r|]
    ensures forall i :: 0 <= i < |r| ==> r[i] != Nul
    ensures |r| < |buf| ==> buf[|r|] == Nul
    decreases |buf|
  {
    if buf == [] || buf[0] == Nul then [] else [buf[0]] + CString(buf[1..])
  }

  /** The buffer after the consumer hands it back: a terminator at position
      1, then the free flag at position 0. */
  function Released(buf: seq<char>): (r: seq<char>)
    requires |buf| >= 2
    ensures |r| == |buf|
    ensures !IsPending(r) && r[1] == Nul
    ensures r[2..] == buf[2..]
    ensures CString(r) == [Free]
  {
    buf[1 := Nul][0 := Free]
  }

  /** The buffer as it stands at the end of a tick. */
  function AfterTick(buf: seq<char>): (r: seq<char>)
    requires |buf| >= 2
    ensures |r| == |buf| && !IsPending(r)
    ensures IsPending(buf) ==> r[1] == Nul && r[2..] == buf[2..]
    ensures !IsPending(buf) ==> r == buf
  {
    if IsPending(buf) then Released(buf) else buf
  }

  /** Once handed back, the buffer stays as it is until the producer writes:
      consuming is idempotent. */
  lemma AfterTickIdempotent(buf: seq<char>)
    requires |buf| >= 2
    ensures AfterTick(AfterTick(buf)) == AfterTick(buf)
  {
  }
}
