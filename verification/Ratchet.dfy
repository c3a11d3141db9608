/**
 The Double Ratchet with header encryption (section 4 of Signal's Double Ratchet
 specification, revision 1), as functions on the session state.
 */
module Ratchet {
  import opened Crypto

  const DEFAULT_MAX_SKIP: nat := 1000
  const MAX_SKIPPED_STORED: nat := 2000

  /** `previous` and `number` travel as unsigned 32-bit fields. */
  datatype Header = Header(dh: Point, previous: nat, number: nat)

  /** An encrypted header. Junk stands for bytes that open under no key to a header. */
  datatype SealedHeader = SealedHeader(key: Key, nonce: nat, header: Header) | JunkHeader(bytes: nat)

  /** An encrypted message; `ad` and `bound` are its associated data. */
  datatype SealedBody<+P> = SealedBody(key: Key, ad: AssocData, bound: SealedHeader, plain: P) | JunkBody(bytes: nat)

  datatype Frame<+P> = Frame(header: SealedHeader, body: SealedBody<P>)

  datatype Skipped = Skipped(headerKey: Key, number: nat, messageKey: Key)

  datatype Session = Session(
    root: Key,
    self: nat,
    remote: Option<Point>,
    sendChain: Option<Key>,
    receiveChain: Option<Key>,
    sendHeader: Option<Key>,
    receiveHeader: Option<Key>,
    nextSendHeader: Option<Key>,
    nextReceiveHeader: Option<Key>,
    sendNumber: nat,
    receiveNumber: nat,
    previousLength: nat,
    skipped: seq<Skipped>)

  datatype Error = NoSendingChain | TooManySkipped | NoReceiveHeaderKey | NoReceivingChain | BadTag

  /** `NotThisSession` is the source's null; `Thrown` is an exception. */
  datatype Outcome<+P> = Plain(plain: P) | NotThisSession | Thrown(error: Error)

  datatype Decrypted<+P> = Decrypted(outcome: Outcome<P>, next: Session)

  datatype Encrypted<+P> = Encrypted(frame: Frame<P>, next: Session)

  datatype Opened = Opened(header: Header, steps: bool)

  // ---- sealing and opening ----

  function SealHeader(key: Key, nonce: nat, h: Header): SealedHeader {
    SealedHeader(key, nonce, Header(h.dh, h.previous % U32, h.number % U32))
  }

  function OpenHeader(key: Option<Key>, h: SealedHeader): Option<Header> {
    if key.Some? && h.SealedHeader? && h.key == key.value then Some(h.header) else None
  }

  function OpenBody<P>(messageKey: Key, ad: AssocData, f: Frame<P>): Option<P> {
    if f.body.SealedBody? && f.body.key == messageKey && f.body.ad == ad && f.body.bound == f.header
    then Some(f.body.plain)
    else None
  }

  // ---- the insertion-ordered map of skipped message keys ----

  predicate SameSlot(a: Skipped, b: Skipped) {
    a.headerKey == b.headerKey && a.number == b.number
  }

  /** Map.set: an existing slot is overwritten where it stands, a new one goes last. */
  function Put(s: seq<Skipped>, x: Skipped): seq<Skipped> {
    if s == [] then [x]
    else if SameSlot(s[0], x) then [x] + s[1..]
    else [s[0]] + Put(s[1..], x)
  }

  lemma {:induction false} PutAppends(s: seq<Skipped>, x: Skipped)
    requires forall k :: 0 <= k < |s| ==> !SameSlot(s[k], x)
    ensures Put(s, x) == s + [x]
  {
    if s != [] {
      PutAppends(s[1..], x);
    }
  }

  predicate Matches(x: Skipped, h: SealedHeader) {
    var header := OpenHeader(Some(x.headerKey), h);
    header.Some? && header.value.number == x.number
  }

  /** The first cached slot whose header key opens `h` to that slot's number. */
  function FindSkipped(s: seq<Skipped>, h: SealedHeader): (r: Option<nat>)
    ensures r.Some? ==> r.value < |s| && Matches(s[r.value], h)
    ensures r.Some? ==> forall j :: 0 <= j < r.value ==> !Matches(s[j], h)
    ensures r.None? ==> forall j :: 0 <= j < |s| ==> !Matches(s[j], h)
  {
    if s == [] then None
    else if Matches(s[0], h) then Some(0)
    else
      match FindSkipped(s[1..], h)
      case None => None
      case Some(k) => Some(k + 1)
  }

  // ---- creation ----

  function InitInitiator(secret: Key, responder: Point, newKey: nat): Session {
    var dh := SharedSecret(newKey, responder);
    Session(RootOf(secret, dh), newKey, Some(responder), Some(ChainOf(secret, dh)), None,
            Some(HeaderA(secret)), None, Some(HeaderOf(secret, dh)), Some(HeaderB(secret)), 0, 0, 0, [])
  }

  function InitResponder(secret: Key, signedPreKey: nat): Session {
    Session(secret, signedPreKey, None, None, None,
            None, None, Some(HeaderB(secret)), Some(HeaderA(secret)), 0, 0, 0, [])
  }

  // ---- sending ----

  function Encrypt<P>(st: Session, plain: P, ad: AssocData, nonce: nat): Result<Encrypted<P>, Error> {
    if st.sendChain.None? || st.sendHeader.None? then Err(NoSendingChain)
    else
      var h := SealHeader(st.sendHeader.value, nonce, Header(Point(st.self), st.previousLength, st.sendNumber));
      var body := SealedBody(MessageKey(st.sendChain.value), ad, h, plain);
      Ok(Encrypted(Frame(h, body),
                   st.(sendChain := Some(NextChain(st.sendChain.value)), sendNumber := st.sendNumber + 1)))
  }

  // ---- receiving ----

  datatype Walk = Walk(chain: Key, store: seq<Skipped>)

  /** Cache the message keys `from .. until` of the chain, one derivation each. */
  function WalkChain(chain: Key, headerKey: Key, from: nat, until: nat, store: seq<Skipped>): Walk
    decreases until - from
  {
    if until <= from then Walk(chain, store)
    else WalkChain(NextChain(chain), headerKey, from + 1, until,
                   Put(store, Skipped(headerKey, from, MessageKey(chain))))
  }

  function Skip(st: Session, until: nat, maxSkip: nat): Result<Session, Error> {
    if st.receiveNumber + maxSkip < until then Err(TooManySkipped)
    else if st.receiveChain.None? then Ok(st)
    else if st.receiveHeader.None? then Err(NoReceiveHeaderKey)
    else
      var w := WalkChain(st.receiveChain.value, st.receiveHeader.value, st.receiveNumber, until, st.skipped);
      Ok(st.(receiveChain := Some(w.chain),
             receiveNumber := if st.receiveNumber < until then until else st.receiveNumber,
             skipped := KeepNewest(w.store, MAX_SKIPPED_STORED)))
  }

  function DhStep(st: Session, h: Header, newKey: nat): Session {
    var receiveDh := SharedSecret(st.self, h.dh);
    var middle := RootOf(st.root, receiveDh);
    var sendDh := SharedSecret(newKey, h.dh);
    Session(RootOf(middle, sendDh), newKey, Some(h.dh), Some(ChainOf(middle, sendDh)),
            Some(ChainOf(st.root, receiveDh)),
            st.nextSendHeader, st.nextReceiveHeader, Some(HeaderOf(middle, sendDh)), Some(HeaderOf(st.root, receiveDh)),
            0, 0, st.sendNumber, st.skipped)
  }

  function DecryptHeader(st: Session, h: SealedHeader): Option<Opened> {
    match OpenHeader(st.receiveHeader, h)
    case Some(header) => Some(Opened(header, false))
    case None =>
      match OpenHeader(st.nextReceiveHeader, h)
      case Some(header) => Some(Opened(header, true))
      case None => None
  }

  /** Everything between reading the header and deriving the message key. */
  function Advance(st: Session, o: Opened, maxSkip: nat, newKey: nat): Result<Session, Error> {
    if o.steps then
      match Skip(st, o.header.previous, maxSkip)
      case Err(e) => Err(e)
      case Ok(skipped) => Skip(DhStep(skipped, o.header, newKey), o.header.number, maxSkip)
    else Skip(st, o.header.number, maxSkip)
  }

  function TryDecrypt<P>(st: Session, f: Frame<P>, ad: AssocData, maxSkip: nat, newKey: nat): Decrypted<P> {
    match FindSkipped(st.skipped, f.header)
    case Some(k) => (
      match OpenBody(st.skipped[k].messageKey, ad, f)
      case Some(p) => Decrypted(Plain(p), st.(skipped := RemoveAt(st.skipped, k)))
      case None => Decrypted(Thrown(BadTag), st))
    case None =>
      match DecryptHeader(st, f.header)
      case None => Decrypted(NotThisSession, st)
      case Some(o) =>
        match Advance(st, o, maxSkip, newKey)
        case Err(e) => Decrypted(Thrown(e), st)
        case Ok(trial) =>
          if trial.receiveChain.None? then Decrypted(Thrown(NoReceivingChain), st)
          else
            match OpenBody(MessageKey(trial.receiveChain.value), ad, f)
            case None => Decrypted(Thrown(BadTag), st)
            case Some(p) =>
              Decrypted(Plain(p), trial.(receiveChain := Some(NextChain(trial.receiveChain.value)),
                                         receiveNumber := o.header.number + 1))
  }
}
