/** The one-byte mode handshake: the connecting client writes 'R' (the server sends, "reverse")
    or 'N' (the client sends, "normal"); the accepting server reads one byte before anything else. */
module Mode {
  import opened Common

  /** What the server does after reading the mode byte. */
  datatype Dispatch = Receive | Send | Reject

  /** The byte every client writes right after connecting: `'R' if args.reverse else 'N'`. */
  function ClientModeByte(reverse: bool): (c: char)
    ensures c in {'N', 'R'}
    ensures c == 'R' <==> reverse
  {
    if reverse then 'R' else 'N'
  }

  /** The whole handshake message: the C client sends `sizeof(mode)`, exactly one byte. */
  function ClientHandshake(reverse: bool): (m: seq<char>)
    ensures |m| == 1 && (m[0] == 'R' <==> reverse)
  {
    [ClientModeByte(reverse)]
  }

  /** The validating server: anything but 'N' or 'R' (including a peer that closed before
      sending, `recv(1)` returning nothing) closes the connection and exits with status 1. */
  function StrictDispatch(first: Option<char>): (d: Dispatch)
    ensures d == Reject <==> first !in {Some('N'), Some('R')}
    ensures d == Receive <==> first == Some('N')
    ensures d == Send <==> first == Some('R')
  {
    match first
    case Some(c) => if c == 'N' then Receive else if c == 'R' then Send else Reject
    case None => Reject
  }

  /** The other servers: `if mode == 'N': receive ... else: send`, so any other byte, or none,
      selects sending. */
  function LenientDispatch(first: Option<char>): (d: Dispatch)
    ensures d != Reject
    ensures d == Receive <==> first == Some('N')
  {
    if first == Some('N') then Receive else Send
  }

  /** Both kinds of server agree with the client on the direction: a reverse client is sent
      to, a normal client is received from, and the strict server never rejects a real client. */
  lemma HandshakeAgrees(reverse: bool)
    ensures StrictDispatch(Some(ClientHandshake(reverse)[0])) == (if reverse then Send else Receive)
    ensures LenientDispatch(Some(ClientHandshake(reverse)[0])) == (if reverse then Send else Receive)
  {
  }

  /** The two servers differ exactly on bytes other than 'N' and 'R'. */
  lemma DispatchesDiffer(first: Option<char>)
    ensures StrictDispatch(first) == LenientDispatch(first) <==> first in {Some('N'), Some('R')}
  {
  }
}
