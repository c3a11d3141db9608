/** X3DH: both sides derive one secret from the published bundle and the first message. */
module X3dh {
  import opened Crypto

  /** The two secret identity keys of a user: one to sign with, one for Diffie-Hellman. */
  datatype Identity = Identity(signing: nat, dh: nat)

  datatype PublicIdentity = PublicIdentity(signing: nat, dh: Point)

  datatype Signature = Signature(signer: nat, message: Point) | BadSignature(bytes: nat)

  datatype Bundle = Bundle(identity: PublicIdentity, signedPreKey: Point, signature: Signature, oneTime: Option<Point>)

  datatype Agreed = Agreed(secret: Key, ad: AssocData)

  datatype HandshakeError = BadPreKeySignature

  function Public(me: Identity): PublicIdentity {
    PublicIdentity(me.signing, Point(me.dh))
  }

  function Sign(me: Identity, message: Point): Signature {
    Signature(me.signing, message)
  }

  predicate Verifies(s: Signature, message: Point, signer: nat) {
    s == Signature(signer, message)
  }

  function Initiate(me: Identity, bundle: Bundle, ephemeral: nat): Result<Agreed, HandshakeError> {
    if !Verifies(bundle.signature, bundle.signedPreKey, bundle.identity.signing) then Err(BadPreKeySignature)
    else
      var dh1 := SharedSecret(me.dh, bundle.signedPreKey);
      var dh2 := SharedSecret(ephemeral, bundle.identity.dh);
      var dh3 := SharedSecret(ephemeral, bundle.signedPreKey);
      var dh4 := if bundle.oneTime.Some? then [SharedSecret(ephemeral, bundle.oneTime.value)] else [];
      Ok(Agreed(X3dhSecret([dh1, dh2, dh3] + dh4), AssocData(Point(me.dh), bundle.identity.dh)))
  }

  function Respond(me: Identity, signedPreKey: nat, oneTime: Option<nat>, initiator: Point, ephemeral: Point): Agreed {
    var dh1 := SharedSecret(signedPreKey, initiator);
    var dh2 := SharedSecret(me.dh, ephemeral);
    var dh3 := SharedSecret(signedPreKey, ephemeral);
    var dh4 := if oneTime.Some? then [SharedSecret(oneTime.value, ephemeral)] else [];
    Agreed(X3dhSecret([dh1, dh2, dh3] + dh4), AssocData(initiator, Point(me.dh)))
  }

  /** The bundle a user publishes, with one of its one-time prekeys or none. */
  function Published(me: Identity, signedPreKey: nat, oneTime: Option<nat>): Bundle {
    Bundle(Public(me), Point(signedPreKey), Sign(me, Point(signedPreKey)),
           if oneTime.Some? then Some(Point(oneTime.value)) else None)
  }

  /**
   A bundle is used if and only if its identity signed its prekey; then the one-time prekey is mixed in
   when there is one.
   */
  lemma InitiateExactly(me: Identity, bundle: Bundle, ephemeral: nat)
    ensures var r := Initiate(me, bundle, ephemeral);
            && (r.Ok? <==> bundle.signature == Signature(bundle.identity.signing, bundle.signedPreKey))
            && (r.Ok? ==>
                  && r.value.ad == AssocData(Point(me.dh), bundle.identity.dh) && r.value.secret.X3dhSecret?
                  && var dh := r.value.secret.parts;
                     && |dh| == (if bundle.oneTime.Some? then 4 else 3)
                     && dh[0] == SharedSecret(me.dh, bundle.signedPreKey)
                     && dh[1] == SharedSecret(ephemeral, bundle.identity.dh)
                     && dh[2] == SharedSecret(ephemeral, bundle.signedPreKey)
                     && (bundle.oneTime.Some? ==> dh[3] == SharedSecret(ephemeral, bundle.oneTime.value)))
  {
  }

  /**
   The two sides agree on the associated data always, and on the secret if and only if the
   responder answers with the very one-time prekey that was handed out, or with none.
   */
  lemma Agree(a: Identity, b: Identity, signedPreKey: nat, handedOut: Option<nat>, kept: Option<nat>, ephemeral: nat)
    ensures var mine := Initiate(a, Published(b, signedPreKey, handedOut), ephemeral);
            var theirs := Respond(b, signedPreKey, kept, Point(a.dh), Point(ephemeral));
            && mine.Ok? && mine.value.ad == theirs.ad
            && (mine.value.secret == theirs.secret <==> handedOut == kept)
  {
    var mine := Initiate(a, Published(b, signedPreKey, handedOut), ephemeral).value.secret;
    var theirs := Respond(b, signedPreKey, kept, Point(a.dh), Point(ephemeral)).secret;
    assert |mine.parts| == if handedOut.Some? then 4 else 3;
    assert |theirs.parts| == if kept.Some? then 4 else 3;
    if handedOut.Some? && kept.Some? {
      assert mine.parts[3] == SharedSecret(ephemeral, Point(handedOut.value));
      assert theirs.parts[3] == SharedSecret(kept.value, Point(ephemeral));
    }
  }

  /** A fresh ephemeral key makes a fresh secret: handshakes in opposite directions never meet. */
  lemma CrossedSecretsDiffer(a: Identity, b: Identity, aBundle: Bundle, bBundle: Bundle, aKey: nat, bKey: nat)
    requires Initiate(a, bBundle, aKey).Ok? && Initiate(b, aBundle, bKey).Ok?
    requires aBundle.identity == Public(a) && bBundle.identity == Public(b)
    requires aKey != bKey && aKey != a.dh
    ensures Initiate(a, bBundle, aKey).value.secret != Initiate(b, aBundle, bKey).value.secret
  {
    var mine := Initiate(a, bBundle, aKey).value.secret;
    var theirs := Initiate(b, aBundle, bKey).value.secret;
    assert mine.parts[1] == SharedSecret(aKey, Point(b.dh));
    assert theirs.parts[1] == SharedSecret(bKey, Point(a.dh));
  }
}
