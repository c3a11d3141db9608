/**
 Symbolic cryptography. Keys are terms of a free datatype, so two derivations give the same
 key only when they were derived the same way; a sealed value opens only under its own key.
 Random values are names, handed in by the caller.
 */
module Crypto {

  datatype Option<+T> = None | Some(value: T)

  datatype Result<+T, +E> = Ok(value: T) | Err(error: E)

  /** The public half of the X25519 key pair whose secret scalar is the name `owner`. */
  datatype Point = Point(owner: nat)

  datatype Key =
    | Random(id: nat)
    | Dh(lo: nat, hi: nat)
    | X3dhSecret(parts: seq<Key>)
    | HeaderA(secret: Key)
    | HeaderB(secret: Key)
    | RootOf(root: Key, dh: Key)
    | ChainOf(root: Key, dh: Key)
    | HeaderOf(root: Key, dh: Key)
    | NextChain(chain: Key)
    | MessageKey(chain: Key)

  /** X25519: the shared secret does not depend on which side computes it. */
  function SharedSecret(secret: nat, public: Point): Key {
    if secret <= public.owner then Dh(secret, public.owner) else Dh(public.owner, secret)
  }

  /** The two identity points bound into every message of a session, initiator first. */
  datatype AssocData = AssocData(initiator: Point, responder: Point)

  const U32: nat := 0x1_0000_0000

  /** The newest `cap` elements of an insertion-ordered store. */
  function KeepNewest<T>(s: seq<T>, cap: nat): (r: seq<T>)
    ensures |r| <= cap
    ensures |s| <= cap ==> r == s
  {
    if |s| <= cap then s else s[|s| - cap..]
  }

  function RemoveAt<T>(s: seq<T>, k: nat): (r: seq<T>)
    requires k < |s|
    ensures |r| == |s| - 1
  {
    s[..k] + s[k + 1..]
  }

  function IndexOf<T(==)>(s: seq<T>, x: T): (k: nat)
    requires x in s
    ensures k < |s| && s[k] == x && forall j :: 0 <= j < k ==> s[j] != x
  {
    if s[0] == x then 0 else 1 + IndexOf(s[1..], x)
  }
}
