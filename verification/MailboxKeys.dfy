/** Keys of queued envelopes: no two deliveries share one, and their order is the order of sending. */
module MailboxKeys {
  import opened Text

  const ENVELOPE_PREFIX: string := "envelope:"
  const SEQ_WIDTH: nat := 12

  function Pad(seqNumber: nat): string {
    PadStart(Decimal(seqNumber), SEQ_WIDTH)
  }

  function StampedKey(from: string, seqNumber: nat, id: string): string {
    ENVELOPE_PREFIX + from + ":" + Pad(seqNumber) + ":" + id
  }

  function SealedKey(received: nat, id: string): string {
    ENVELOPE_PREFIX + Pad(received) + ":" + id
  }

  predicate ColonFree(s: string) {
    forall k :: 0 <= k < |s| ==> s[k] != ':'
  }

  lemma PadColonFree(n: nat)
    ensures ColonFree(Pad(n))
  {
  }

  lemma PadInjective(a: nat, b: nat)
    requires Pad(a) == Pad(b)
    ensures a == b
  {
    PaddedValue(a, SEQ_WIDTH);
    PaddedValue(b, SEQ_WIDTH);
  }

  /** The part before the first colon is determined. */
  lemma {:induction false} FirstPart(x: string, y: string, r: string, s: string)
    requires ColonFree(x) && ColonFree(y) && x + ":" + r == y + ":" + s
    ensures x == y && r == s
  {
    var a, b := x + ":" + r, y + ":" + s;
    assert a[0] == if x == [] then ':' else x[0];
    assert b[0] == if y == [] then ':' else y[0];
    assert x == [] <==> y == [];
    if x == [] {
      assert a[1..] == r && b[1..] == s;
    } else {
      assert a[1..] == x[1..] + ":" + r && b[1..] == y[1..] + ":" + s;
      FirstPart(x[1..], y[1..], r, s);
      assert x == [x[0]] + x[1..] && y == [y[0]] + y[1..];
    }
  }

  lemma DropPrefix(a: string, b: string)
    requires ENVELOPE_PREFIX + a == ENVELOPE_PREFIX + b
    ensures a == b
  {
    assert (ENVELOPE_PREFIX + a)[|ENVELOPE_PREFIX|..] == a;
    assert (ENVELOPE_PREFIX + b)[|ENVELOPE_PREFIX|..] == b;
  }

  lemma StampedShape(from: string, n: nat, id: string)
    ensures StampedKey(from, n, id) == ENVELOPE_PREFIX + (from + ":" + (Pad(n) + ":" + id))
  {
  }

  lemma SealedShape(n: nat, id: string)
    ensures SealedKey(n, id) == ENVELOPE_PREFIX + (Pad(n) + ":" + id)
  {
  }

  /** A stamped key names its sender, number and id. */
  lemma StampedInjective(from: string, n: nat, id: string, from': string, n': nat, id': string)
    requires ColonFree(from) && ColonFree(from') && StampedKey(from, n, id) == StampedKey(from', n', id')
    ensures from == from' && n == n' && id == id'
  {
    StampedShape(from, n, id);
    StampedShape(from', n', id');
    DropPrefix(from + ":" + (Pad(n) + ":" + id), from' + ":" + (Pad(n') + ":" + id'));
    FirstPart(from, from', Pad(n) + ":" + id, Pad(n') + ":" + id');
    PadColonFree(n);
    PadColonFree(n');
    FirstPart(Pad(n), Pad(n'), id, id');
    PadInjective(n, n');
  }

  lemma SealedInjective(n: nat, id: string, n': nat, id': string)
    requires SealedKey(n, id) == SealedKey(n', id')
    ensures n == n' && id == id'
  {
    SealedShape(n, id);
    SealedShape(n', id');
    DropPrefix(Pad(n) + ":" + id, Pad(n') + ":" + id');
    PadColonFree(n);
    PadColonFree(n');
    FirstPart(Pad(n), Pad(n'), id, id');
    PadInjective(n, n');
  }

  /** The sealed id spells out the rest of a stamped key whose sender's name is the padded number of receipt. */
  predicate Spells(from: string, n: nat, id: string, received: nat, sealedId: string) {
    from == Pad(received) && sealedId == Pad(n) + ":" + id
  }

  /** A stamped and a sealed key are the same exactly when the sealed id spells out the rest of the stamped key. */
  lemma CrossCollision(from: string, n: nat, id: string, received: nat, sealedId: string)
    requires ColonFree(from)
    ensures StampedKey(from, n, id) == SealedKey(received, sealedId) <==> Spells(from, n, id, received, sealedId)
  {
    StampedShape(from, n, id);
    SealedShape(received, sealedId);
    if StampedKey(from, n, id) == SealedKey(received, sealedId) {
      DropPrefix(from + ":" + (Pad(n) + ":" + id), Pad(received) + ":" + sealedId);
      PadColonFree(received);
      FirstPart(from, Pad(received), Pad(n) + ":" + id, sealedId);
    }
  }

  /** A colon-free id spells out nothing. */
  lemma ColonFreeSpellsNothing(from: string, n: nat, id: string, received: nat, sealedId: string)
    requires ColonFree(sealedId)
    ensures !Spells(from, n, id, received, sealedId)
  {
    var s := Pad(n) + ":" + id;
    assert s[|Pad(n)|] == ':';
  }

  /** Within one sender, and below 10^12, key order is send order. */
  lemma KeysInSendOrder(from: string, a: nat, b: nat, id: string, id': string)
    requires a < Pow10(SEQ_WIDTH) && b < Pow10(SEQ_WIDTH) && a != b
    ensures Less(StampedKey(from, a, id), StampedKey(from, b, id')) <==> a < b
  {
    var p := ENVELOPE_PREFIX + from + ":";
    PaddedOrder(a, b, SEQ_WIDTH);
    PadInjectiveUnless(a, b);
    Trichotomy(p, p);
    assert StampedKey(from, a, id) == p + (Pad(a) + (":" + id));
    assert StampedKey(from, b, id') == p + (Pad(b) + (":" + id'));
    LessConcat(p, p, Pad(a) + (":" + id), Pad(b) + (":" + id'));
    LessConcat(Pad(a), Pad(b), ":" + id, ":" + id');
  }

  lemma PadInjectiveUnless(a: nat, b: nat)
    ensures Pad(a) == Pad(b) ==> a == b
  {
    if Pad(a) == Pad(b) {
      PadInjective(a, b);
    }
  }

  /** Sealed envelopes sort in the order they were received. */
  lemma SealedKeysInOrder(a: nat, b: nat, id: string, id': string)
    requires a < Pow10(SEQ_WIDTH) && b < Pow10(SEQ_WIDTH) && a != b
    ensures Less(SealedKey(a, id), SealedKey(b, id')) <==> a < b
  {
    PaddedOrder(a, b, SEQ_WIDTH);
    PadInjectiveUnless(a, b);
    Trichotomy(ENVELOPE_PREFIX, ENVELOPE_PREFIX);
    assert SealedKey(a, id) == ENVELOPE_PREFIX + (Pad(a) + (":" + id));
    assert SealedKey(b, id') == ENVELOPE_PREFIX + (Pad(b) + (":" + id'));
    LessConcat(ENVELOPE_PREFIX, ENVELOPE_PREFIX, Pad(a) + (":" + id), Pad(b) + (":" + id'));
    LessConcat(Pad(a), Pad(b), ":" + id, ":" + id');
  }

  lemma {:induction false} PowerLength(w: nat)
    ensures Decimal(Pow10(w)) == "1" + Zeros(w)
  {
    if w > 0 {
      PowerLength(w - 1);
      assert Pow10(w) / 10 == Pow10(w - 1) && Pow10(w) % 10 == 0;
      assert "1" + Zeros(w) == "1" + Zeros(w - 1) + "0";
    }
  }

  lemma {:induction false} NinesBefore(w: nat)
    requires w > 0
    ensures Decimal(Pow10(w) - 1)[0] == '9'
  {
    if w > 1 {
      NinesBefore(w - 1);
      assert (Pow10(w) - 1) / 10 == Pow10(w - 1) - 1;
    }
  }

  /** Why the limit: message 10^12 of a sender sorts before the message sent just ahead of it. */
  lemma OrderEndsAtTheWidth(from: string, id: string, id': string)
    ensures Less(StampedKey(from, Pow10(SEQ_WIDTH), id), StampedKey(from, Pow10(SEQ_WIDTH) - 1, id'))
  {
    var p := ENVELOPE_PREFIX + from + ":";
    var n := Pow10(SEQ_WIDTH);
    PowerLength(SEQ_WIDTH);
    NinesBefore(SEQ_WIDTH);
    DecimalLength(n - 1, SEQ_WIDTH);
    DecimalLength(n - 1, SEQ_WIDTH - 1);
    var x, y := Pad(n) + (":" + id), Pad(n - 1) + (":" + id');
    assert x[0] == '1' && y[0] == '9';
    Trichotomy(p, p);
    assert StampedKey(from, n, id) == p + x;
    assert StampedKey(from, n - 1, id') == p + y;
    LessConcat(p, p, x, y);
  }
}
