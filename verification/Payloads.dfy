/**
 Plaintext as bytes: a payload padded to a bucket, and the wrapper that carries the sender's name,
 its delivery token and a receipt id in front of it. JSON text enters as its bytes.
 */
module Payloads {
  import opened Crypto

  type Byte = b: int | 0 <= b < 256

  // ---- padding to a bucket ----

  const LENGTH_PREFIX: nat := 4
  const SMALL_BUCKETS: seq<nat> := [256, 512, 1024, 2048, 4096]
  const LARGE_STEP: nat := 4096

  function RoundUp(n: nat): nat {
    (n + LARGE_STEP - 1) / LARGE_STEP * LARGE_STEP
  }

  function Bucket(n: nat): nat {
    if n <= 256 then 256
    else if n <= 512 then 512
    else if n <= 1024 then 1024
    else if n <= 2048 then 2048
    else if n <= 4096 then 4096
    else RoundUp(n)
  }

  method BucketFor(n: nat) returns (bucket: nat)
    ensures bucket == Bucket(n)
  {
    for k := 0 to |SMALL_BUCKETS|
      invariant forall j :: 0 <= j < k ==> n > SMALL_BUCKETS[j]
    {
      if n <= SMALL_BUCKETS[k] {
        assert k > 0 ==> n > SMALL_BUCKETS[k - 1];
        return SMALL_BUCKETS[k];
      }
    }
    assert n > SMALL_BUCKETS[0] && n > SMALL_BUCKETS[1] && n > SMALL_BUCKETS[2];
    assert n > SMALL_BUCKETS[3] && n > SMALL_BUCKETS[4];
    bucket := RoundUp(n);
  }

  /** A bucket holds its content and is at most twice as long, or 256. */
  lemma BucketBounds(n: nat)
    ensures n <= Bucket(n) <= (if n <= 128 then 256 else 2 * n)
  {
  }

  /** The sizes there are: 256 doubled up to 4096, and from there every multiple of 4096. */
  predicate IsBucket(b: nat) {
    b == 256 || b == 512 || b == 1024 || b == 2048 || (b > 0 && b % 4096 == 0)
  }

  lemma RoundUpIsLeast(n: nat, b: nat)
    requires n <= b && b % LARGE_STEP == 0
    ensures RoundUp(n) <= b && RoundUp(n) % LARGE_STEP == 0 && n <= RoundUp(n)
  {
    var q := (n + LARGE_STEP - 1) / LARGE_STEP;
    assert b == b / LARGE_STEP * LARGE_STEP;
    assert q <= b / LARGE_STEP;
  }

  /** Content is padded to the least size that holds it, so its length tells only between which two sizes it lies. */
  lemma BucketIsLeast(n: nat, b: nat)
    requires IsBucket(b) && n <= b
    ensures IsBucket(Bucket(n)) && n <= Bucket(n) <= b
  {
    if n > 4096 {
      RoundUpIsLeast(n, b);
    }
  }

  lemma BucketMonotone(m: nat, n: nat)
    requires m <= n
    ensures Bucket(m) <= Bucket(n)
  {
  }

  lemma BucketIdempotent(n: nat)
    ensures Bucket(Bucket(n)) == Bucket(n)
  {
  }

  // ---- the payload codec ----

  function Zeros(n: nat): (r: seq<Byte>)
    ensures |r| == n && forall k :: 0 <= k < n ==> r[k] == 0
  {
    seq(n, _ => 0)
  }

  /** Four bytes, most significant first; a longer length loses what is above 32 bits. */
  function Prefix(n: nat): (r: seq<Byte>)
    ensures |r| == LENGTH_PREFIX
  {
    [n / 0x100_0000 % 256, n / 0x1_0000 % 256, n / 0x100 % 256, n % 256]
  }

  function Number(b: seq<Byte>): nat
    requires |b| >= LENGTH_PREFIX
  {
    (b[0] as nat) * 0x100_0000 + (b[1] as nat) * 0x1_0000 + (b[2] as nat) * 0x100 + (b[3] as nat)
  }

  function Encode(json: seq<Byte>): (r: seq<Byte>)
    ensures |r| == Bucket(LENGTH_PREFIX + |json|)
  {
    BucketBounds(LENGTH_PREFIX + |json|);
    Prefix(|json|) + json + Zeros(Bucket(LENGTH_PREFIX + |json|) - LENGTH_PREFIX - |json|)
  }

  /** The JSON text, if the length prefix fits the bytes. */
  function Decode(bytes: seq<Byte>): Option<seq<Byte>> {
    if |bytes| < LENGTH_PREFIX || Number(bytes) > |bytes| - LENGTH_PREFIX then None
    else Some(bytes[LENGTH_PREFIX..LENGTH_PREFIX + Number(bytes)])
  }

  lemma PrefixNumber(n: nat)
    ensures Number(Prefix(n)) == n % U32
  {
    var a := n / 0x100;
    var b := n / 0x1_0000;
    var c := n / 0x100_0000;
    assert b == a / 0x100 && c == b / 0x100;
    assert n == a * 0x100 + n % 0x100;
    assert a == b * 0x100 + a % 0x100;
    assert b == c * 0x100 + b % 0x100;
    assert c == c / 0x100 * 0x100 + c % 0x100;
    var rest := c % 0x100 * 0x100_0000 + b % 0x100 * 0x1_0000 + a % 0x100 * 0x100 + n % 0x100;
    assert n == c / 0x100 * U32 + rest && 0 <= rest < U32;
    Remainder(n, c / 0x100, rest);
  }

  lemma Remainder(n: nat, q: nat, r: nat)
    requires n == q * U32 + r && r < U32
    ensures n % U32 == r
  {
  }

  /**
   Whatever the bytes: they decode to a text exactly when they are a four-byte length, that many
   bytes of text, and anything after.
   */
  lemma DecodeExactly(bytes: seq<Byte>, json: seq<Byte>)
    ensures Decode(bytes) == Some(json)
       <==> |json| < U32 && exists padding :: bytes == Prefix(|json|) + json + padding
  {
    if Decode(bytes) == Some(json) {
      NumberPrefix(bytes);
      assert bytes == Prefix(|json|) + json + bytes[LENGTH_PREFIX + |json|..];
    }
    if |json| < U32 && exists padding :: bytes == Prefix(|json|) + json + padding {
      var padding :| bytes == Prefix(|json|) + json + padding;
      PrefixNumber(|json|);
      Remainder(|json|, 0, |json|);
      assert bytes[..LENGTH_PREFIX] == Prefix(|json|);
      assert bytes[LENGTH_PREFIX..LENGTH_PREFIX + |json|] == json;
    }
  }

  lemma NumberPrefix(bytes: seq<Byte>)
    requires |bytes| >= LENGTH_PREFIX
    ensures Number(bytes) < U32 && Prefix(Number(bytes)) == bytes[..LENGTH_PREFIX]
  {
    var n := Number(bytes);
    assert n / 0x100_0000 == bytes[0];
    assert n / 0x1_0000 == (bytes[0] as nat) * 0x100 + (bytes[1] as nat);
    assert n / 0x100 == (bytes[0] as nat) * 0x1_0000 + (bytes[1] as nat) * 0x100 + (bytes[2] as nat);
    assert bytes[..LENGTH_PREFIX] == [bytes[0], bytes[1], bytes[2], bytes[3]];
  }

  /** Padding comes off exactly, for every text whose length fits the prefix, and for no other. */
  lemma RoundTripExactly(json: seq<Byte>)
    ensures Decode(Encode(json)) == Some(json) <==> |json| < U32
  {
    var e := Encode(json);
    var n := Number(e);
    PrefixNumber(|json|);
    assert e[..LENGTH_PREFIX] == Prefix(|json|);
    assert n == |json| % U32;
    BucketBounds(LENGTH_PREFIX + |json|);
    assert e[LENGTH_PREFIX..LENGTH_PREFIX + |json|] == json;
    if |json| >= U32 {
      assert n < U32 <= |json|;
    } else {
      Remainder(|json|, 0, |json|);
    }
  }

  // ---- the wrapper ----

  const MAGIC: Byte := 2
  const TOKEN_LENGTH: nat := 32
  const USERNAME_MAX: nat := 32
  const HEADER_LENGTH: nat := 1 + 1 + USERNAME_MAX + 2 * TOKEN_LENGTH

  /** Thirty-two times the character 0. */
  function NoToken(): (r: seq<Byte>)
    ensures |r| == TOKEN_LENGTH
  {
    seq(TOKEN_LENGTH, _ => 48)
  }

  datatype Unwrapped = Unwrapped(su: seq<Byte>, st: seq<Byte>, rid: seq<Byte>, p: seq<Byte>)

  function Name(su: seq<Byte>): (r: seq<Byte>)
    ensures |r| <= USERNAME_MAX
  {
    if |su| <= USERNAME_MAX then su else []
  }

  function Token(t: seq<Byte>): (r: seq<Byte>)
    ensures |r| == TOKEN_LENGTH
  {
    if |t| == TOKEN_LENGTH then t else NoToken()
  }

  function Wrap(su: seq<Byte>, st: seq<Byte>, rid: seq<Byte>, p: seq<Byte>): (r: seq<Byte>)
    ensures |r| == HEADER_LENGTH + |p|
  {
    [MAGIC, |Name(su)|] + Name(su) + Zeros(USERNAME_MAX - |Name(su)|) + Token(st) + Token(rid) + p
  }

  function Unwrap(b: seq<Byte>): Option<Unwrapped> {
    if |b| < HEADER_LENGTH || b[0] != MAGIC || b[1] > USERNAME_MAX then None
    else Some(Unwrapped(b[2..2 + b[1]], b[34..66], b[66..98], b[98..]))
  }

  /** Thirty-two times the character 0, which stands for a token or id that was not given. */
  ghost predicate NotGiven(t: seq<Byte>) {
    |t| == 32 && forall k :: 0 <= k < 32 ==> t[k] == 48
  }

  /**
   A wrapped message comes apart into what it was made of, except that a name over 32 bytes comes
   back empty, and a token or id of another length than 32 as the one that stands for none.
   */
  lemma UnwrapsWrapped(su: seq<Byte>, st: seq<Byte>, rid: seq<Byte>, p: seq<Byte>)
    ensures Unwrap(Wrap(su, st, rid, p)).Some?
    ensures var u := Unwrap(Wrap(su, st, rid, p)).value;
            && u.p == p && u.su == (if |su| <= 32 then su else [])
            && (if |st| == 32 then u.st == st else NotGiven(u.st))
            && (if |rid| == 32 then u.rid == rid else NotGiven(u.rid))
  {
    var b := Wrap(su, st, rid, p);
    var n := |Name(su)|;
    assert b[2..2 + n] == Name(su);
    assert b[34..66] == Token(st);
    assert b[66..98] == Token(rid);
    assert b[98..] == p;
  }

  // ---- a payload without the wrapper ----

  /** What the receiver does with a decrypted plaintext. */
  function ReadPlaintext(b: seq<Byte>): Option<seq<Byte>> {
    match Unwrap(b)
    case Some(u) => Decode(u.p)
    case None => Decode(b)
  }

  lemma ReadsWrapped(su: seq<Byte>, st: seq<Byte>, rid: seq<Byte>, json: seq<Byte>)
    requires |json| < U32
    ensures ReadPlaintext(Wrap(su, st, rid, Encode(json))) == Some(json)
  {
    UnwrapsWrapped(su, st, rid, Encode(json));
    RoundTripExactly(json);
  }

  /** A bare payload is taken for a wrapped one exactly when its text is 2^25 bytes or a little more. */
  lemma BareTakenForWrapped(json: seq<Byte>)
    requires |json| < U32
    ensures Unwrap(Encode(json)).Some? <==> 0x200_0000 <= |json| < 0x200_0000 + 33 * 0x1_0000
  {
  }

  /** Shorter than 2^25 bytes, a bare payload is read as it was written. */
  lemma ReadsBare(json: seq<Byte>)
    requires |json| < 0x200_0000
    ensures ReadPlaintext(Encode(json)) == Some(json)
  {
    BareTakenForWrapped(json);
    RoundTripExactly(json);
  }

  // ---- as the source fills and reads the arrays ----

  function Splice(b: seq<Byte>, src: seq<Byte>, at: nat): seq<Byte>
    requires at + |src| <= |b|
  {
    b[..at] + src + b[at + |src|..]
  }

  /** Writing at the start of the zeros that are left. */
  lemma SpliceZeros(head: seq<Byte>, src: seq<Byte>, n: nat)
    requires |src| <= n
    ensures Splice(head + Zeros(n), src, |head|) == head + src + Zeros(n - |src|)
  {
    var b := head + Zeros(n);
    assert b[..|head|] == head;
    assert b[|head| + |src|..] == Zeros(n - |src|);
  }

  lemma ZerosSplit(front: seq<Byte>, m: nat, n: nat)
    ensures front + Zeros(m + n) == front + Zeros(m) + Zeros(n)
  {
    assert Zeros(m + n) == Zeros(m) + Zeros(n);
  }

  /** Uint8Array.set */
  method SetBytes(out: array<Byte>, src: seq<Byte>, at: nat)
    requires at + |src| <= out.Length
    modifies out
    ensures out[..] == Splice(old(out[..]), src, at)
  {
    for k := 0 to |src|
      invariant forall j :: 0 <= j < out.Length ==> out[j] == if at <= j < at + k then src[j - at] else old(out[j])
    {
      out[at + k] := src[k];
    }
  }

  method EncodeChatPayload(json: seq<Byte>) returns (out: array<Byte>)
    ensures fresh(out) && out[..] == Encode(json)
  {
    var total := BucketFor(LENGTH_PREFIX + |json|);
    BucketBounds(LENGTH_PREFIX + |json|);
    out := new Byte[total](_ => 0);
    out[0] := |json| / 0x100_0000 % 256;
    out[1] := |json| / 0x1_0000 % 256;
    out[2] := |json| / 0x100 % 256;
    out[3] := |json| % 256;
    assert out[..] == Prefix(|json|) + Zeros(total - LENGTH_PREFIX);
    SpliceZeros(Prefix(|json|), json, total - LENGTH_PREFIX);
    SetBytes(out, json, LENGTH_PREFIX);
  }

  /** Magic, length and name; the rest of the name field stays zero. */
  method WriteName(out: array<Byte>, name: seq<Byte>) returns (o: nat)
    requires |name| <= USERNAME_MAX && out.Length >= HEADER_LENGTH && out[..] == Zeros(out.Length)
    modifies out
    ensures o == 2 + USERNAME_MAX
    ensures out[..] == [MAGIC, |name|] + name + Zeros(USERNAME_MAX - |name|) + Zeros(out.Length - o)
  {
    o := 0;
    out[o] := MAGIC;
    o := o + 1;
    out[o] := |name|;
    o := o + 1;
    ghost var head := [MAGIC, |name|];
    assert out[..] == head + Zeros(out.Length - 2);
    SpliceZeros(head, name, out.Length - 2);
    SetBytes(out, name, o);
    o := o + USERNAME_MAX;
    ZerosSplit(head + name, USERNAME_MAX - |name|, out.Length - o);
  }

  method WrapSealed(su: seq<Byte>, st: seq<Byte>, rid: seq<Byte>, p: seq<Byte>) returns (out: array<Byte>)
    ensures fresh(out) && out[..] == Wrap(su, st, rid, p)
  {
    var name := Name(su);
    out := new Byte[HEADER_LENGTH + |p|](_ => 0);
    var o := WriteName(out, name);
    ghost var head := [MAGIC, |name|] + name + Zeros(USERNAME_MAX - |name|);
    SpliceZeros(head, Token(st), 2 * TOKEN_LENGTH + |p|);
    SetBytes(out, Token(st), o);
    o := o + TOKEN_LENGTH;
    SpliceZeros(head + Token(st), Token(rid), TOKEN_LENGTH + |p|);
    SetBytes(out, Token(rid), o);
    o := o + TOKEN_LENGTH;
    SpliceZeros(head + Token(st) + Token(rid), p, |p|);
    SetBytes(out, p, o);
    assert out[..] == head + Token(st) + Token(rid) + p;
  }

  method UnwrapSealed(bytes: array<Byte>) returns (r: Option<Unwrapped>)
    ensures r == Unwrap(bytes[..])
  {
    if bytes.Length < HEADER_LENGTH || bytes[0] != MAGIC {
      return None;
    }
    var o := 1;
    var suLength := bytes[o];
    o := o + 1;
    if suLength > USERNAME_MAX {
      return None;
    }
    var su := bytes[o..o + suLength];
    o := o + USERNAME_MAX;
    var st := bytes[o..o + TOKEN_LENGTH];
    o := o + TOKEN_LENGTH;
    var rid := bytes[o..o + TOKEN_LENGTH];
    o := o + TOKEN_LENGTH;
    r := Some(Unwrapped(su, st, rid, bytes[o..]));
  }
}
