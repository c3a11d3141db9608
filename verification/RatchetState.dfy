/** The mutable session object of the source: encrypting and decrypting update it in place. */
module RatchetState {
  import opened Crypto
  import opened Ratchet

  class RatchetState {
    var root: Key
    var self: nat
    var remote: Option<Point>
    var sendChain: Option<Key>
    var receiveChain: Option<Key>
    var sendHeader: Option<Key>
    var receiveHeader: Option<Key>
    var nextSendHeader: Option<Key>
    var nextReceiveHeader: Option<Key>
    var sendNumber: nat
    var receiveNumber: nat
    var previousLength: nat
    var skipped: seq<Skipped>

    /** The session this object holds. */
    function View(): Session
      reads this
    {
      Session(root, self, remote, sendChain, receiveChain, sendHeader, receiveHeader, nextSendHeader, nextReceiveHeader,
              sendNumber, receiveNumber, previousLength, skipped)
    }

    constructor (s: Session)
      ensures View() == s
    {
      root, self, remote := s.root, s.self, s.remote;
      sendChain, receiveChain := s.sendChain, s.receiveChain;
      sendHeader, receiveHeader := s.sendHeader, s.receiveHeader;
      nextSendHeader, nextReceiveHeader := s.nextSendHeader, s.nextReceiveHeader;
      sendNumber, receiveNumber, previousLength := s.sendNumber, s.receiveNumber, s.previousLength;
      skipped := s.skipped;
    }

    method Commit(source: RatchetState)
      modifies this
      ensures View() == old(source.View())
    {
      var s := source.View();
      root, self, remote := s.root, s.self, s.remote;
      sendChain, receiveChain := s.sendChain, s.receiveChain;
      sendHeader, receiveHeader := s.sendHeader, s.receiveHeader;
      nextSendHeader, nextReceiveHeader := s.nextSendHeader, s.nextReceiveHeader;
      sendNumber, receiveNumber, previousLength := s.sendNumber, s.receiveNumber, s.previousLength;
      skipped := s.skipped;
    }

    method RatchetEncrypt<P>(plain: P, ad: AssocData, nonce: nat) returns (r: Result<Frame<P>, Error>)
      modifies this
      ensures match Ratchet.Encrypt(old(View()), plain, ad, nonce)
              case Ok(x) => r == Ok(x.frame) && View() == x.next
              case Err(e) => r == Err(e) && View() == old(View())
    {
      if sendChain.None? || sendHeader.None? {
        return Err(NoSendingChain);
      }
      var messageKey := MessageKey(sendChain.value);
      sendChain := Some(NextChain(sendChain.value));
      var header := SealHeader(sendHeader.value, nonce, Header(Point(self), previousLength, sendNumber));
      sendNumber := sendNumber + 1;
      r := Ok(Frame(header, SealedBody(messageKey, ad, header, plain)));
    }

    /** Derive and cache the keys up to `until`; `kdfs` counts the derivations. */
    method CacheUntil(until: nat) returns (kdfs: nat)
      requires receiveChain.Some? && receiveHeader.Some?
      modifies `receiveChain, `receiveNumber, `skipped
      ensures receiveChain.Some?
      ensures Walk(receiveChain.value, skipped)
           == WalkChain(old(receiveChain.value), receiveHeader.value, old(receiveNumber), until, old(skipped))
      ensures receiveNumber == if old(receiveNumber) < until then until else old(receiveNumber)
      ensures kdfs == receiveNumber - old(receiveNumber)
    {
      kdfs := 0;
      while receiveNumber < until
        invariant receiveNumber <= until || receiveNumber == old(receiveNumber)
        invariant kdfs == receiveNumber - old(receiveNumber)
        invariant receiveChain.Some?
        invariant WalkChain(receiveChain.value, receiveHeader.value, receiveNumber, until, skipped)
               == WalkChain(old(receiveChain.value), receiveHeader.value, old(receiveNumber), until, old(skipped))
      {
        var messageKey := MessageKey(receiveChain.value);
        receiveChain := Some(NextChain(receiveChain.value));
        skipped := Put(skipped, Skipped(receiveHeader.value, receiveNumber, messageKey));
        receiveNumber := receiveNumber + 1;
        kdfs := kdfs + 1;
      }
    }

    /** Drop the oldest entries until the store fits. */
    method EvictOldest()
      modifies `skipped
      ensures skipped == KeepNewest(old(skipped), MAX_SKIPPED_STORED)
    {
      while |skipped| > MAX_SKIPPED_STORED
        invariant KeepNewest(skipped, MAX_SKIPPED_STORED) == KeepNewest(old(skipped), MAX_SKIPPED_STORED)
      {
        skipped := skipped[1..];
      }
    }

    method SkipMessageKeys(until: nat, maxSkip: nat) returns (error: Option<Error>, kdfs: nat)
      modifies `receiveChain, `receiveNumber, `skipped
      ensures match Skip(old(View()), until, maxSkip)
              case Ok(next) => error.None? && View() == next
              case Err(e) => error == Some(e) && View() == old(View())
      ensures kdfs <= maxSkip
    {
      if receiveNumber + maxSkip < until {
        return Some(TooManySkipped), 0;
      }
      if receiveChain.None? {
        return None, 0;
      }
      if receiveHeader.None? {
        return Some(NoReceiveHeaderKey), 0;
      }
      kdfs := CacheUntil(until);
      EvictOldest();
      error := None;
    }

    /** The waiting header keys take over; the numbers start again. */
    method PromoteHeaderKeys()
      modifies `previousLength, `sendNumber, `receiveNumber, `sendHeader, `receiveHeader
      ensures View() == old(View()).(previousLength := old(sendNumber), sendNumber := 0, receiveNumber := 0,
                                     sendHeader := nextSendHeader, receiveHeader := nextReceiveHeader)
    {
      previousLength := sendNumber;
      sendNumber := 0;
      receiveNumber := 0;
      sendHeader := nextSendHeader;
      receiveHeader := nextReceiveHeader;
    }

    method DhRatchetStep(h: Header, newKey: nat)
      modifies this
      ensures View() == DhStep(old(View()), h, newKey)
    {
      PromoteHeaderKeys();
      remote := Some(h.dh);

      var receiveDh := SharedSecret(self, h.dh);
      var middle := RootOf(root, receiveDh);
      receiveChain := Some(ChainOf(root, receiveDh));
      nextReceiveHeader := Some(HeaderOf(root, receiveDh));

      self := newKey;

      var sendDh := SharedSecret(self, h.dh);
      sendChain := Some(ChainOf(middle, sendDh));
      nextSendHeader := Some(HeaderOf(middle, sendDh));
      root := RootOf(middle, sendDh);
    }

    /** Null when no cached key opens the header. */
    method TrySkippedMessageKeys<P>(f: Frame<P>, ad: AssocData) returns (r: Outcome<P>)
      modifies this
      ensures match FindSkipped(old(skipped), f.header)
              case None => r == NotThisSession && View() == old(View())
              case Some(k) =>
                match OpenBody(old(skipped)[k].messageKey, ad, f)
                case Some(p) => r == Plain(p) && View() == old(View()).(skipped := RemoveAt(old(skipped), k))
                case None => r == Thrown(BadTag) && View() == old(View())
    {
      for k := 0 to |skipped|
        invariant View() == old(View())
        invariant forall j :: 0 <= j < k ==> !Matches(skipped[j], f.header)
      {
        if Matches(skipped[k], f.header) {
          match OpenBody(skipped[k].messageKey, ad, f) {
            case Some(p) =>
              skipped := RemoveAt(skipped, k);
              return Plain(p);
            case None =>
              return Thrown(BadTag);
          }
        }
      }
      r := NotThisSession;
    }

    /** On a header match: finish the peer's old chain and step if it moved on, then skip to the message. */
    method AdvanceTo(o: Opened, maxSkip: nat, newKey: nat) returns (error: Option<Error>, kdfs: nat)
      modifies this
      ensures match Advance(old(View()), o, maxSkip, newKey)
              case Ok(next) => error.None? && View() == next
              case Err(e) => error == Some(e)
      ensures kdfs <= 2 * maxSkip
    {
      kdfs := 0;
      if o.steps {
        error, kdfs := SkipMessageKeys(o.header.previous, maxSkip);
        if error.Some? {
          return;
        }
        DhRatchetStep(o.header, newKey);
      }
      var n: nat;
      error, n := SkipMessageKeys(o.header.number, maxSkip);
      kdfs := kdfs + n;
    }

    /** Read the message at the head of the receiving chain. */
    method OpenHead<P>(f: Frame<P>, ad: AssocData, number: nat) returns (r: Outcome<P>)
      modifies `receiveChain, `receiveNumber
      ensures match old(receiveChain)
              case None => r == Thrown(NoReceivingChain)
              case Some(chain) =>
                match OpenBody(MessageKey(chain), ad, f)
                case None => r == Thrown(BadTag)
                case Some(p) => r == Plain(p) && receiveChain == Some(NextChain(chain)) && receiveNumber == number + 1
    {
      if receiveChain.None? {
        return Thrown(NoReceivingChain);
      }
      var chain := receiveChain.value;
      match OpenBody(MessageKey(chain), ad, f) {
        case None =>
          r := Thrown(BadTag);
        case Some(p) =>
          receiveChain := Some(NextChain(chain));
          receiveNumber := number + 1;
          r := Plain(p);
      }
    }

    /** All work happens on a copy, committed only when the message opens. */
    method TryRatchetDecrypt<P>(f: Frame<P>, ad: AssocData, maxSkip: nat, newKey: nat)
      returns (r: Outcome<P>, kdfs: nat)
      modifies this
      ensures r == TryDecrypt(old(View()), f, ad, maxSkip, newKey).outcome
      ensures View() == TryDecrypt(old(View()), f, ad, maxSkip, newKey).next
      ensures !r.Plain? ==> View() == old(View())
      ensures kdfs <= 2 * maxSkip + 1
    {
      kdfs := 0;
      var trial := new RatchetState(View());
      r := trial.TrySkippedMessageKeys(f, ad);
      if r.NotThisSession? {
        var o := DecryptHeader(View(), f.header);
        if o.None? {
          return;
        }
        var error: Option<Error>;
        error, kdfs := trial.AdvanceTo(o.value, maxSkip, newKey);
        if error.Some? {
          return Thrown(error.value), kdfs;
        }
        kdfs := kdfs + 1;
        r := trial.OpenHead(f, ad, o.value.header.number);
      }
      if r.Plain? {
        Commit(trial);
      }
    }
  }
}
