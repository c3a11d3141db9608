/**
 Receiving is idempotent: redelivery is harmless, an acknowledged message was processed, and no
 message enters the history twice. Session records stay sound throughout.
 */
module Inbox {
  import opened Crypto
  import opened Ratchet
  import opened SenderKey
  import opened SessionRecord
  import opened SessionSet
  import opened Messaging

  // ---- what the steps of one call leave alone ----

  /** Only the processed mark of the frame and, at most, a consumed one-time prekey. */
  predicate OnlyMarked(s: Store, s': Store) {
    && s' == s.(processed := s'.processed, oneTime := s'.oneTime)
    && s.processed <= s'.processed && s'.oneTime <= s.oneTime
  }

  ghost predicate Settles(s: Store, f: MessageFrame, r: Resolved) {
    match r
    case Read(_, s') => OnlyMarked(s, s') && s'.processed == s.processed
    case Settled(result, s') =>
      OnlyMarked(s, s') && !result.Accepted? && (if result.Retry? then s' == s else f.id in s'.processed)
  }

  lemma {:induction false} SealedSettles(s: Store, order: seq<string>, f: MessageFrame, env: Env)
    ensures Settles(s, f, ResolveSealed(s, order, f, env))
    decreases |order|
  {
    if order != [] {
      SealedSettles(s, order[1..], f, env);
    }
  }

  lemma TakeMarks(s: Store, oneTime: Option<Point>, f: MessageFrame)
    ensures OnlyMarked(s, Take(s, oneTime).1) && Take(s, oneTime).1.processed == s.processed
    ensures OnlyMarked(s, Mark(Take(s, oneTime).1, f.id))
  {
  }

  lemma StampedSettles(s: Store, contact: string, f: MessageFrame, env: Env)
    ensures Settles(s, f, ResolveStamped(s, contact, f, env))
  {
    if f.x3dh.Some? {
      TakeMarks(s, f.x3dh.value.oneTime, f);
    }
  }

  lemma MarkMarks(s: Store, a: string, b: string)
    ensures OnlyMarked(s, Mark(s, a)) && OnlyMarked(s, Mark(Mark(s, a), b)) && OnlyMarked(s, s)
  {
  }

  lemma VetSettles(s: Store, h: Handshake, d: Decrypted<Plaintext>, f: MessageFrame, claimed: Lookup)
    ensures Settles(s, f, VetFirstContact(s, h, d, f, claimed))
  {
    MarkMarks(s, f.id, if d.outcome.Plain? && d.outcome.plain.Wrapped? then d.outcome.plain.rid else "");
  }

  lemma FirstContactSettles(s: Store, box: SealedBox, f: MessageFrame, env: Env)
    ensures Settles(s, f, ResolveFirstContact(s, box, f, env))
  {
    if box.SealedBox? && box.handshake.Some? {
      var h := box.handshake.value;
      VetSettles(s, h, RespondTo(s, h, None, f, env.newKey), f, env.claimed);
    }
  }

  lemma ResolveSettles(s: Store, f: MessageFrame, env: Env)
    ensures Settles(s, f, Resolve(s, f, env))
  {
    match f.from
    case Some(contact) => StampedSettles(s, contact, f, env);
    case None =>
      match f.x3dhSealed
      case Some(box) => FirstContactSettles(s, box, f, env);
      case None => SealedSettles(s, env.order, f, env);
  }

  /** Committing touches sessions, contacts and processed ids only. */
  predicate OnlyCommitted(s: Store, s': Store) {
    && s' == s.(sessions := s'.sessions, contacts := s'.contacts, processed := s'.processed)
    && s.processed <= s'.processed
  }

  lemma SaveSessionsTouches(s: Store, d: Delivery)
    ensures SaveSessions(s, d) == s.(sessions := SaveSessions(s, d).sessions)
  {
  }

  lemma SaveContactTouches(s: Store, d: Delivery)
    ensures SaveContact(s, d) == s.(contacts := SaveContact(s, d).contacts)
  {
  }

  lemma CommitTouches(s: Store, d: Delivery)
    ensures OnlyCommitted(s, Commit(s, d))
    ensures Commit(s, d).processed == s.processed + (if d.rid.Some? then {d.rid.value} else {})
  {
    SaveSessionsTouches(s, d);
    var s1 := SaveSessions(s, d);
    var s2 := if d.rid.Some? then Mark(s1, d.rid.value) else s1;
    SaveContactTouches(s2, d);
  }

  /** A control payload appends nothing: histories keep their ids, place by place. */
  predicate SameIds(s: Store, s': Store) {
    && s'.history.Keys == s.history.Keys
    && forall c :: c in s.history ==>
         |s'.history[c]| == |s.history[c]|
         && forall k :: 0 <= k < |s.history[c]| ==> s'.history[c][k].id == s.history[c][k].id
  }

  predicate OnlyApplied(s: Store, s': Store) {
    s' == s.(contacts := s'.contacts, history := s'.history, groups := s'.groups, ownKeys := s'.ownKeys,
             receivers := s'.receivers)
  }

  lemma DeleteTouches(s: Store, contact: string, targetId: string)
    ensures var s' := ApplyDelete(s, contact, targetId).1;
            s' == s.(history := s'.history) && SameIds(s, s')
  {
  }

  lemma KeyTouches(s: Store, contact: string, p: Payload)
    requires p.KeyDistribution?
    ensures var s' := ApplyKey(s, contact, p).1;
            s' == s.(groups := s'.groups, receivers := s'.receivers)
  {
  }

  lemma MembershipTouches(s: Store, contact: string, p: Payload)
    requires p.Membership?
    ensures var s' := ApplyMembership(s, contact, p).1;
            s' == s.(groups := s'.groups, ownKeys := s'.ownKeys, receivers := s'.receivers)
  {
  }

  lemma ControlTouches(s: Store, contact: string, p: Payload)
    requires !p.Text? && !p.Media?
    ensures OnlyApplied(s, ApplyControl(s, contact, p).1)
    ensures !p.Delete? ==> ApplyControl(s, contact, p).1.history == s.history
  {
    match p
    case KeyDistribution(_, _, _, _) => KeyTouches(s, contact, p);
    case Membership(_, _, _, _) => MembershipTouches(s, contact, p);
    case Delete(targetId) => DeleteTouches(s, contact, targetId);
    case _ =>
  }

  lemma ControlKeepsIds(s: Store, contact: string, p: Payload)
    requires !p.Text? && !p.Media?
    ensures SameIds(s, ApplyControl(s, contact, p).1)
  {
    if p.Delete? {
      DeleteTouches(s, contact, p.targetId);
    } else {
      ControlTouches(s, contact, p);
    }
  }

  // ---- one call ----

  lemma AppliesOnce(s: Store, f: MessageFrame, d: Delivery)
    ensures var r := Apply(s, f, d);
            && !r.result.Retry? && f.id in r.store.processed && s.processed <= r.store.processed
            && (r.result.Accepted? ==> r.result.message.id == f.id)
  {
    var p := d.plain.payload;
    if !p.Text? && !p.Media? {
      ControlTouches(s, d.contact, p);
    }
  }

  /**
   The receipt of one envelope. A retry leaves no trace; every other result leaves the id
   processed; processed ids are never forgotten; and a processed id is a duplicate, without effect.
   */
  lemma ReceivesOnce(s: Store, f: MessageFrame, env: Env)
    ensures var r := DecryptIncoming(s, f, env);
            && (if r.result.Retry? then r.store == s else f.id in r.store.processed)
            && s.processed <= r.store.processed
            && (f.id in s.processed ==> r == Received(Duplicate, s))
            && (r.result.Accepted? ==> f.id !in s.processed && r.result.message.id == f.id)
  {
    if f.id !in s.processed {
      ResolveSettles(s, f, env);
      match Resolve(s, f, env)
      case Settled(_, _) =>
      case Read(d, s') =>
        CommitTouches(s', d);
        AppliesOnce(Commit(s', d), f, d);
    }
  }

  lemma GroupReceivesOnce(s: Store, f: GroupFrame)
    ensures var r := DecryptGroupMessage(s, f);
            && (if r.result.Retry? then r.store == s else f.id in r.store.processed)
            && s.processed <= r.store.processed
            && (f.id in s.processed ==> r == Received(Duplicate, s))
            && (r.result.Accepted? ==> f.id !in s.processed && r.result.message.id == f.id)
  {
  }

  // ---- the history ----

  predicate Holds(s: Store, c: Conversation, k: nat) {
    c in s.history && k < |s.history[c]|
  }

  /** Every stored message was processed. */
  ghost predicate AllProcessed(s: Store) {
    forall c, k: nat :: Holds(s, c, k) ==> s.history[c][k].id in s.processed
  }

  /** No id is stored in two places. */
  ghost predicate NoRepeats(s: Store) {
    forall c, j: nat, d, k: nat :: Holds(s, c, j) && Holds(s, d, k) ==>
      (s.history[c][j].id == s.history[d][k].id ==> c == d && j == k)
  }

  ghost predicate Unused(s: Store, id: string) {
    forall c, k: nat :: Holds(s, c, k) ==> s.history[c][k].id != id
  }

  lemma AppendKeeps(s: Store, c: Conversation, m: Message)
    requires AllProcessed(s) && NoRepeats(s) && Unused(s, m.id)
    ensures var s' := Mark(Append(s, c, m), m.id);
            AllProcessed(s') && NoRepeats(s')
  {
  }

  lemma SameIdsKeep(s: Store, s': Store, id: string)
    requires AllProcessed(s) && NoRepeats(s) && SameIds(s, s') && s.processed <= s'.processed
    ensures AllProcessed(s') && NoRepeats(s')
    ensures Unused(s, id) ==> Unused(s', id)
  {
  }

  lemma ApplyKeepsHistory(s: Store, f: MessageFrame, d: Delivery)
    requires AllProcessed(s) && NoRepeats(s) && Unused(s, f.id)
    ensures AllProcessed(Apply(s, f, d).store) && NoRepeats(Apply(s, f, d).store)
  {
    var p := d.plain.payload;
    if p.Text? || p.Media? {
      AppendKeeps(s, Direct(d.contact), Shown(f, d.contact, p));
    } else {
      var s' := ApplyControl(s, d.contact, p).1;
      ControlTouches(s, d.contact, p);
      ControlKeepsIds(s, d.contact, p);
      SameIdsKeep(s, Mark(s', f.id), f.id);
    }
  }

  lemma ReceiveKeepsHistory(s: Store, f: MessageFrame, env: Env)
    requires AllProcessed(s) && NoRepeats(s)
    ensures var s' := DecryptIncoming(s, f, env).store;
            AllProcessed(s') && NoRepeats(s')
  {
    if f.id !in s.processed {
      ResolveSettles(s, f, env);
      match Resolve(s, f, env)
      case Settled(_, s') =>
        SameIdsKeep(s, s', f.id);
      case Read(d, s') =>
        CommitTouches(s', d);
        SameIdsKeep(s, Commit(s', d), f.id);
        ApplyKeepsHistory(Commit(s', d), f, d);
    }
  }

  lemma GroupReceiveKeepsHistory(s: Store, f: GroupFrame)
    requires AllProcessed(s) && NoRepeats(s)
    ensures var s' := DecryptGroupMessage(s, f).store;
            AllProcessed(s') && NoRepeats(s')
  {
    var r := DecryptGroupMessage(s, f);
    if r.result.Accepted? {
      var from := ReceiverId(f.groupId, f.from);
      AppendKeeps(s.(receivers := r.store.receivers), InGroup(f.groupId), r.result.message);
    } else {
      SameIdsKeep(s, r.store, f.id);
    }
  }

  // ---- every run ----

  /** What reaches the device: a direct or a group envelope, or the user deleting a message here. */
  datatype Arrival =
    | FromPeer(frame: MessageFrame, env: Env)
    | FromGroup(groupFrame: GroupFrame)
    | DeleteHere(c: Conversation, id: string)

  /** The device, the ids it accepted as new messages, in order, and the ids it acknowledged. */
  datatype Device = Device(store: Store, accepted: seq<string>, acked: set<string>)

  /** Every result but a retry is acknowledged. */
  function Handle(d: Device, r: Received, id: string): Device {
    Device(r.store,
           if r.result.Accepted? then d.accepted + [r.result.message.id] else d.accepted,
           if r.result.Retry? then d.acked else d.acked + {id})
  }

  function Without(h: seq<Message>, id: string): (r: seq<Message>)
    ensures |r| <= |h|
  {
    if h == [] then [] else (if h[0].id == id then [] else [h[0]]) + Without(h[1..], id)
  }

  function DeleteLocal(s: Store, c: Conversation, id: string): Store {
    if c in s.history then s.(history := s.history[c := Without(s.history[c], id)]) else s
  }

  function Arrive(d: Device, a: Arrival): Device {
    match a
    case FromPeer(f, env) => Handle(d, DecryptIncoming(d.store, f, env), f.id)
    case FromGroup(f) => Handle(d, DecryptGroupMessage(d.store, f), f.id)
    case DeleteHere(c, id) => d.(store := DeleteLocal(d.store, c, id))
  }

  function ArriveAll(d: Device, arrivals: seq<Arrival>): Device
    decreases |arrivals|
  {
    if arrivals == [] then d else ArriveAll(Arrive(d, arrivals[0]), arrivals[1..])
  }

  ghost predicate Idempotent(d: Device) {
    && AllProcessed(d.store) && NoRepeats(d.store)
    && (forall k :: 0 <= k < |d.accepted| ==> d.accepted[k] in d.store.processed)
    && (forall j, k :: 0 <= j < k < |d.accepted| ==> d.accepted[j] != d.accepted[k])
    && d.acked <= d.store.processed
  }

  /** Deleting keeps a subsequence. */
  lemma {:induction false} WithoutEmbeds(h: seq<Message>, id: string) returns (at: seq<nat>)
    ensures |at| == |Without(h, id)|
    ensures forall k :: 0 <= k < |at| ==> at[k] < |h| && h[at[k]] == Without(h, id)[k]
    ensures forall j, k :: 0 <= j < k < |at| ==> at[j] < at[k]
  {
    if h == [] {
      at := [];
    } else {
      var rest := WithoutEmbeds(h[1..], id);
      at := (if h[0].id == id then [] else [0]) + seq(|rest|, k requires 0 <= k < |rest| => rest[k] + 1);
    }
  }

  lemma DeleteLocalKeeps(s: Store, c: Conversation, id: string)
    requires AllProcessed(s) && NoRepeats(s)
    ensures AllProcessed(DeleteLocal(s, c, id)) && NoRepeats(DeleteLocal(s, c, id))
  {
    if c in s.history {
      var at := WithoutEmbeds(s.history[c], id);
      var s' := DeleteLocal(s, c, id);
      forall d, k: nat | Holds(s', d, k)
        ensures if d == c then Holds(s, c, at[k]) && s'.history[d][k] == s.history[c][at[k]]
                else Holds(s, d, k) && s'.history[d][k] == s.history[d][k]
      {
      }
    }
  }

  lemma HandleKeeps(d: Device, r: Received, id: string)
    requires Idempotent(d) && AllProcessed(r.store) && NoRepeats(r.store)
    requires d.store.processed <= r.store.processed
    requires !r.result.Retry? ==> id in r.store.processed
    requires r.result.Accepted? ==> id !in d.store.processed && r.result.message.id == id
    ensures Idempotent(Handle(d, r, id))
  {
  }

  lemma ArriveKeeps(d: Device, a: Arrival)
    requires Idempotent(d)
    ensures Idempotent(Arrive(d, a))
  {
    match a
    case FromPeer(f, env) =>
      ReceivesOnce(d.store, f, env);
      ReceiveKeepsHistory(d.store, f, env);
      HandleKeeps(d, DecryptIncoming(d.store, f, env), f.id);
    case FromGroup(f) =>
      GroupReceivesOnce(d.store, f);
      GroupReceiveKeepsHistory(d.store, f);
      HandleKeeps(d, DecryptGroupMessage(d.store, f), f.id);
    case DeleteHere(c, id) =>
      DeleteLocalKeeps(d.store, c, id);
  }

  /**
   Idempotent receive. However often and in whatever order envelopes are redelivered, no id is
   accepted twice, not even after the user deleted the message; the history never shows an id
   twice; and only processed ids are acknowledged.
   */
  lemma {:induction false} AcceptedAtMostOnce(d: Device, arrivals: seq<Arrival>)
    requires Idempotent(d)
    ensures Idempotent(ArriveAll(d, arrivals))
    decreases |arrivals|
  {
    if arrivals != [] {
      ArriveKeeps(d, arrivals[0]);
      AcceptedAtMostOnce(Arrive(d, arrivals[0]), arrivals[1..]);
    }
  }

  /** The envelope under this id was dealt with on arrival, or was before; it is not left for redelivery. */
  ghost predicate DealtWith(s: Store, a: Arrival, id: string) {
    match a
    case FromPeer(f, env) => f.id == id && !DecryptIncoming(s, f, env).result.Retry?
    case FromGroup(f) => f.id == id && !DecryptGroupMessage(s, f).result.Retry?
    case DeleteHere(_, _) => false
  }

  ghost predicate AcceptedNow(s: Store, a: Arrival, id: string) {
    match a
    case FromPeer(f, env) => f.id == id && DecryptIncoming(s, f, env).result.Accepted?
    case FromGroup(f) => f.id == id && DecryptGroupMessage(s, f).result.Accepted?
    case DeleteHere(_, _) => false
  }

  /** The store when arrival `i` comes in. */
  ghost function StoreAt(d: Device, arrivals: seq<Arrival>, i: nat): Store
    requires i <= |arrivals|
  {
    ArriveAll(d, arrivals[..i]).store
  }

  lemma ArriveBooks(d: Device, a: Arrival, id: string)
    ensures var d' := Arrive(d, a);
            && (id in d'.acked <==> id in d.acked || DealtWith(d.store, a, id))
            && (id in d'.accepted <==> id in d.accepted || AcceptedNow(d.store, a, id))
  {
    match a
    case FromPeer(f, env) => ReceivesOnce(d.store, f, env);
    case FromGroup(f) => GroupReceivesOnce(d.store, f);
    case DeleteHere(_, _) =>
  }

  /**
   Over every run: an id is acknowledged if and only if an envelope under it came in and was not left
   for redelivery, and it is among the new messages if and only if one was accepted.
   */
  lemma {:induction false} AcknowledgedExactly(d: Device, arrivals: seq<Arrival>, id: string)
    ensures var end := ArriveAll(d, arrivals);
            && (id in end.acked <==>
                  id in d.acked
                  || exists i :: 0 <= i < |arrivals| && DealtWith(StoreAt(d, arrivals, i), arrivals[i], id))
            && (id in end.accepted <==>
                  id in d.accepted
                  || exists i :: 0 <= i < |arrivals| && AcceptedNow(StoreAt(d, arrivals, i), arrivals[i], id))
    decreases |arrivals|
  {
    if arrivals != [] {
      var rest, d1 := arrivals[1..], Arrive(d, arrivals[0]);
      ArriveBooks(d, arrivals[0], id);
      AcknowledgedExactly(d1, rest, id);
      assert StoreAt(d, arrivals, 0) == d.store;
      forall i | 0 <= i < |rest| ensures StoreAt(d1, rest, i) == StoreAt(d, arrivals, i + 1) {
        assert arrivals[..i + 1][0] == arrivals[0] && arrivals[..i + 1][1..] == rest[..i];
      }
      forall i | 0 < i < |arrivals|
        ensures StoreAt(d, arrivals, i) == StoreAt(d1, rest, i - 1) && arrivals[i] == rest[i - 1]
      {
      }
    }
  }

  // ---- session records ----

  ghost predicate SessionsSound(s: Store) {
    forall c :: c in s.sessions ==> Sound(s.sessions[c])
  }

  lemma SaveSessionsKeepsSound(s: Store, d: Delivery)
    requires SessionsSound(s)
    ensures SessionsSound(SaveSessions(s, d))
  {
    var b := LoadBlob(s, d.contact);
    match d.place
    case Replace =>
    case Adopt(makeCurrent) => AddKeepsSound(b, d.session, makeCurrent);
    case Only => SavesKeepSound(b, d.session, 0);
    case AtIndex(k) => SavesKeepSound(b, d.session, k);
  }

  lemma ApplyKeepsSessions(s: Store, f: MessageFrame, d: Delivery)
    ensures Apply(s, f, d).store.sessions == s.sessions
  {
    var p := d.plain.payload;
    if !p.Text? && !p.Media? {
      ControlTouches(s, d.contact, p);
    }
  }

  lemma CommitSessions(s: Store, d: Delivery)
    ensures Commit(s, d).sessions == SaveSessions(s, d).sessions
  {
    SaveSessionsTouches(s, d);
    var s1 := SaveSessions(s, d);
    SaveContactTouches(if d.rid.Some? then Mark(s1, d.rid.value) else s1, d);
  }

  /** Receiving, starting a session and sending keep one to three sessions with the current one among them. */
  lemma ReceiveKeepsSound(s: Store, f: MessageFrame, env: Env)
    requires SessionsSound(s)
    ensures SessionsSound(DecryptIncoming(s, f, env).store)
  {
    if f.id !in s.processed {
      ResolveSettles(s, f, env);
      match Resolve(s, f, env)
      case Settled(_, s') =>
        assert s'.sessions == s.sessions;
      case Read(d, s') =>
        assert s'.sessions == s.sessions;
        SaveSessionsKeepsSound(s', d);
        CommitSessions(s', d);
        ApplyKeepsSessions(Commit(s', d), f, d);
    }
  }

  lemma EnsureKeepsSound(s: Store, contact: string, lookup: Lookup, ephemeral: nat, newKey: nat)
    requires SessionsSound(s)
    ensures SessionsSound(EnsureSession(s, contact, lookup, ephemeral, newKey).1)
  {
  }

  lemma SendKeepsSound(s: Store, contact: string, id: string, p: Payload, pending: Option<Handshake>, token: string,
                       rid: string, nonce: nat, ts: int)
    requires SessionsSound(s)
    ensures var r := EncryptForSend(s, contact, id, p, pending, token, rid, nonce, ts);
            r.Ok? ==> SessionsSound(r.value.1)
  {
  }
}
