/** The client as the source runs it: one keystore, changed one write at a time. */
module Client {
  import opened Crypto
  import opened Ratchet
  import opened RatchetState
  import opened X3dh
  import opened SenderKey
  import opened SessionRecord
  import opened SessionSet
  import opened Messaging

  /** A method's answer and the keystore it leaves are those of the specification. */
  ghost predicate Answers(spec: Resolved, r: Result<Delivery, Incoming>, s: Store) {
    match spec
    case Settled(result, s') => r == Err(result) && s == s'
    case Read(d, s') => r == Ok(d) && s == s'
  }

  class Client {
    const name: string
    const me: Identity
    const signedPreKey: nat
    var oneTime: set<nat>
    var contacts: map<string, Contact>
    var sessions: map<string, Blob<Held>>
    var processed: set<string>
    var history: map<Conversation, seq<Message>>
    var groups: map<string, Group>
    var ownKeys: map<string, Sender>
    var receivers: map<ReceiverId, Receiver>

    /** The keystore's whole content. */
    function View(): Store
      reads this
    {
      Store(name, me, signedPreKey, oneTime, contacts, sessions, processed, history, groups, ownKeys, receivers)
    }

    constructor (s: Store)
      ensures View() == s
    {
      name, me, signedPreKey := s.name, s.me, s.signedPreKey;
      oneTime, contacts, sessions, processed := s.oneTime, s.contacts, s.sessions, s.processed;
      history, groups, ownKeys, receivers := s.history, s.groups, s.ownKeys, s.receivers;
    }

    // ---- keystore ----

    method MarkProcessed(id: string)
      modifies `processed
      ensures processed == old(processed) + {id}
    {
      processed := processed + {id};
    }

    method TakeOneTimePreKeySecret(public: Option<Point>) returns (secret: Option<nat>)
      modifies `oneTime
      ensures (secret, View()) == Take(old(View()), public)
    {
      if public.None? || public.value.owner !in oneTime {
        return None;
      }
      oneTime := oneTime - {public.value.owner};
      secret := Some(public.value.owner);
    }

    method SavePeerSealToken(contact: string, token: string)
      modifies `contacts
      ensures View() == SaveToken(old(View()), contact, token)
    {
      if contact !in contacts {
        return;
      }
      contacts := contacts[contact := contacts[contact].(token := Some(token))];
    }

    method SetDisappearingTimer(contact: string, seconds: nat)
      modifies `contacts
      ensures View() == SaveTimer(old(View()), contact, seconds)
    {
      if contact !in contacts {
        return;
      }
      contacts := contacts[contact := contacts[contact].(timer := seconds)];
    }

    /** Live copies of a contact's sessions, made from what is stored. */
    method LoadSessionSet(contact: string) returns (entries: Option<seq<SessionEntry>>)
      ensures entries.Some? <==> LoadSet(View(), contact).Some?
      ensures entries.Some? ==> forall k :: 0 <= k < |entries.value| ==> fresh(entries.value[k].ratchet)
      ensures entries.Some? ==> DistinctRatchets(entries.value)
      ensures entries.Some? ==> AllHeld(entries.value) == LoadSet(View(), contact).value.sessions
    {
      var record := LoadSet(View(), contact);
      if record.None? {
        return None;
      }
      var stored := record.value.sessions;
      var loaded: seq<SessionEntry> := [];
      for k := 0 to |stored|
        invariant |loaded| == k && DistinctRatchets(loaded)
        invariant forall j :: 0 <= j < k ==> fresh(loaded[j].ratchet) && HeldBy(loaded[j]) == stored[j]
      {
        var ratchet := new RatchetState(stored[k].ratchet);
        loaded := loaded + [SessionEntry(ratchet, stored[k].ad)];
      }
      entries := Some(loaded);
    }

    method AppendMessage(c: Conversation, m: Message)
      modifies `history
      ensures View() == Append(old(View()), c, m)
    {
      var h := if c in history then history[c] else [];
      history := history[c := h + [m]];
    }

    // ---- receiving: finding the sender ----

    /** What the catch clause does: the message will never decrypt, so it is marked and given up. */
    method GiveUp(f: MessageFrame) returns (r: Result<Delivery, Incoming>)
      modifies `processed
      ensures r == Err(Failed) && processed == old(processed) + {f.id}
    {
      MarkProcessed(f.id);
      r := Err(Failed);
    }

    /** Every session of every contact, until one reads the message or breaks on it. */
    method TrialDecryptSealed(f: MessageFrame, env: Env) returns (r: Result<Delivery, Incoming>)
      modifies `processed
      ensures Answers(ResolveSealed(old(View()), env.order, f, env), r, View())
    {
      for i := 0 to |env.order|
        invariant View() == old(View())
        invariant ResolveSealed(View(), env.order, f, env) == ResolveSealed(View(), env.order[i..], f, env)
      {
        var contact := env.order[i];
        assert env.order[i..][1..] == env.order[i + 1..];
        var held := LoadSessionSet(contact);
        if held.Some? {
          var matched := TrialDecryptSessions(held.value, f.frame, DEFAULT_MAX_SKIP, env.newKey);
          match matched {
            case NoneMatched =>
            case Broken(_) =>
              r := GiveUp(f);
              return;
            case Matched(k, p) =>
              return Ok(Delivery(contact, p, HeldBy(held.value[k]), AtIndex(k), false, None, contact in contacts,
                                 None, None));
          }
        }
      }
      r := Err(Retry);
    }

    /** The responder's half of a handshake on a new session object. */
    method RespondAndRead(h: Handshake, secret: Option<nat>, f: MessageFrame, newKey: nat)
      returns (plain: Option<Plaintext>, session: Held)
      ensures var d := RespondTo(View(), h, secret, f, newKey);
              && (plain == if d.outcome.Plain? then Some(d.outcome.plain) else None)
              && (plain.Some? ==> session == Held(d.next, ResponderAd(View(), h)))
    {
      var agreed := Respond(me, signedPreKey, secret, h.identity.dh, h.ephemeral);
      var ratchet := new RatchetState(InitResponder(agreed.secret, signedPreKey));
      var outcome, _ := ratchet.TryRatchetDecrypt(f.frame, agreed.ad, DEFAULT_MAX_SKIP, newKey);
      plain := if outcome.Plain? then Some(outcome.plain) else None;
      session := Held(ratchet.View(), agreed.ad);
    }

    method ReceiveStamped(contact: string, f: MessageFrame, env: Env) returns (r: Result<Delivery, Incoming>)
      modifies `oneTime, `processed
      ensures Answers(ResolveStamped(old(View()), contact, f, env), r, View())
    {
      var identity := if f.x3dh.Some? then Some(f.x3dh.value.identity) else None;
      var known := contact in contacts;
      var keyChanged := known && identity.Some? && contacts[contact].identity != identity.value;
      var held: Option<seq<SessionEntry>> := None;
      if !keyChanged {
        held := LoadSessionSet(contact);
      }
      if held.Some? {
        var matched := TrialDecryptSessions(held.value, f.frame, DEFAULT_MAX_SKIP, env.newKey);
        match matched {
          case NoneMatched =>
          case Broken(_) =>
            r := GiveUp(f);
            return;
          case Matched(k, p) =>
            return Ok(Delivery(contact, p, HeldBy(held.value[k]), AtIndex(k), keyChanged, identity, known, None, None));
        }
      }
      if f.x3dh.None? {
        return Err(Retry);
      }
      var secret := TakeOneTimePreKeySecret(f.x3dh.value.oneTime);
      var plain, session := RespondAndRead(f.x3dh.value, secret, f, env.newKey);
      if plain.None? {
        r := GiveUp(f);
        return;
      }
      var place := if keyChanged then Replace
                   else if held.Some? then Adopt(!IsDesignatedInitiator(name, contact))
                   else Only;
      r := Ok(Delivery(contact, plain.value, session, place, keyChanged, identity, known, None, None));
    }

    method ReceiveFirstContact(box: SealedBox, f: MessageFrame, env: Env) returns (r: Result<Delivery, Incoming>)
      modifies `processed
      ensures Answers(ResolveFirstContact(old(View()), box, f, env), r, View())
    {
      if !box.SealedBox? || box.recipient != Point(me.dh) || box.handshake.None? {
        r := GiveUp(f);
        return;
      }
      var h := box.handshake.value;
      var plain, session := RespondAndRead(h, None, f, env.newKey);
      if plain.None? || !plain.value.Wrapped? || plain.value.su == "" {
        r := GiveUp(f);
        return;
      }
      var contact, rid := plain.value.su, plain.value.rid;
      if rid in processed {
        MarkProcessed(f.id);
        return Err(Duplicate);
      }
      var keyChanged := contact in contacts && contacts[contact].identity != h.identity;
      if !keyChanged && contact in sessions {
        MarkProcessed(f.id);
        return Err(Duplicate);
      }
      if !env.claimed.Found? {
        return Err(Retry);
      }
      if env.claimed.bundle.identity != h.identity {
        MarkProcessed(f.id);
        MarkProcessed(rid);
        return Err(Control(false, NoEffect));
      }
      r := Ok(Delivery(contact, plain.value, session, if keyChanged then Replace else Only,
                       keyChanged, Some(h.identity), contact in contacts, Some(rid), env.claimed.token));
    }

    // ---- receiving: committing ----

    method CommitSession(d: Delivery)
      modifies `sessions
      ensures View() == SaveSessions(old(View()), d)
    {
      var stored := if d.contact in sessions then Some(sessions[d.contact]) else None;
      match d.place {
        case Replace =>
          sessions := sessions[d.contact := ReplaceAll(d.session)];
        case Adopt(makeCurrent) =>
          sessions := sessions[d.contact := Add(stored, d.session, makeCurrent)];
        case AtIndex(k) =>
          var saved := SaveAt(stored, k, d.session);
          if saved.Some? {
            sessions := sessions[d.contact := saved.value];
          }
        case Only =>
          sessions := sessions[d.contact := Save(stored, d.session)];
      }
    }

    /** The ratchet advance comes first, then the contact bookkeeping. */
    method CommitDelivery(d: Delivery)
      modifies `sessions, `contacts, `processed
      ensures View() == Commit(old(View()), d)
    {
      CommitSession(d);
      if d.rid.Some? {
        MarkProcessed(d.rid.value);
      }
      if d.keyChanged && d.identity.Some? {
        contacts := contacts[d.contact := NewContact(d.identity.value, true)];
      } else if !d.known && d.identity.Some? {
        contacts := contacts[d.contact := NewContact(d.identity.value, false)];
      }
      if d.token.Some? {
        SavePeerSealToken(d.contact, d.token.value);
      }
    }

    // ---- receiving: the payload ----

    method DeleteForEveryone(contact: string, targetId: string) returns (effect: Effect)
      modifies `history
      ensures (effect, View()) == ApplyDelete(old(View()), contact, targetId)
    {
      var h := if Direct(contact) in history then history[Direct(contact)] else [];
      var target := FindMessage(h, targetId);
      if target.None? || h[target.value].from != contact || h[target.value].deleted {
        return NoEffect;
      }
      history := history[Direct(contact) := h[target.value := Tombstone(h[target.value])]];
      effect := Tombstoned(contact, targetId);
    }

    method InstallSenderKey(contact: string, p: Payload) returns (effect: Effect)
      requires p.KeyDistribution?
      modifies `groups, `receivers
      ensures (effect, View()) == ApplyKey(old(View()), contact, p)
    {
      if p.groupId in groups {
        var creator := groups[p.groupId].creator;
        if creator != name && contact != creator {
          return NoEffect;
        }
      } else {
        if contact != p.group.creator || name !in p.group.members {
          return NoEffect;
        }
        groups := groups[p.groupId := Group(p.group.name, p.group.members, p.group.creator)];
      }
      if p.sender != name {
        receivers := receivers[ReceiverId(p.groupId, p.sender) := InitReceiver(p.distribution)];
      }
      effect := LearnedKey(p.groupId, p.sender);
    }

    method ChangeMembership(contact: string, p: Payload) returns (effect: Effect)
      requires p.Membership?
      modifies `groups, `ownKeys, `receivers
      ensures (effect, View()) == ApplyMembership(old(View()), contact, p)
    {
      if p.groupId !in groups || contact != groups[p.groupId].creator {
        return NoEffect;
      }
      if p.action.RemoveMember? && p.target == name {
        groups := groups - {p.groupId};
        ownKeys := ownKeys - {p.groupId};
        receivers := DropReceivers(receivers, p.groupId);
        return MembershipChange(p.groupId, RemoveMember, p.target, true);
      }
      var g := groups[p.groupId];
      groups := groups[p.groupId := Group(g.name, p.group.members, g.creator)];
      if p.action.RemoveMember? {
        receivers := receivers - {ReceiverId(p.groupId, p.target)};
      }
      effect := MembershipChange(p.groupId, p.action, p.target, false);
    }

    method ApplyControlPayload(contact: string, p: Payload) returns (effect: Effect)
      requires !p.Text? && !p.Media?
      modifies `contacts, `history, `groups, `ownKeys, `receivers
      ensures (effect, View()) == ApplyControl(old(View()), contact, p)
    {
      effect := NoEffect;
      match p {
        case Timer(seconds) =>
          SetDisappearingTimer(contact, seconds);
        case DeliveryToken(token) =>
          SavePeerSealToken(contact, token);
        case Delete(targetId) =>
          effect := DeleteForEveryone(contact, targetId);
        case KeyDistribution(_, _, _, _) =>
          effect := InstallSenderKey(contact, p);
        case Membership(_, _, _, _) =>
          effect := ChangeMembership(contact, p);
      }
    }

    /** The processed mark comes last. */
    method ApplyPayload(f: MessageFrame, d: Delivery) returns (r: Incoming)
      modifies this
      ensures Received(r, View()) == Apply(old(View()), f, d)
    {
      var p := d.plain.payload;
      if p.Text? || p.Media? {
        var m := Shown(f, d.contact, p);
        AppendMessage(Direct(d.contact), m);
        MarkProcessed(f.id);
        return Accepted(m, d.keyChanged, ReceiptFor(f, d));
      }
      var effect := ApplyControlPayload(d.contact, p);
      MarkProcessed(f.id);
      r := Control(d.keyChanged, effect);
    }

    method Receive(f: MessageFrame, env: Env) returns (r: Incoming)
      modifies this
      ensures Received(r, View()) == DecryptIncoming(old(View()), f, env)
    {
      if f.id in processed {
        return Duplicate;
      }
      var read: Result<Delivery, Incoming>;
      if f.from.Some? {
        read := ReceiveStamped(f.from.value, f, env);
      } else if f.x3dhSealed.Some? {
        read := ReceiveFirstContact(f.x3dhSealed.value, f, env);
      } else {
        read := TrialDecryptSealed(f, env);
      }
      match read {
        case Err(result) =>
          r := result;
        case Ok(d) =>
          CommitDelivery(d);
          r := ApplyPayload(f, d);
      }
    }

    // ---- groups and sending ----

    /** The receiver key is saved only when the message opens. */
    method ReceiveGroup(f: GroupFrame) returns (r: Incoming)
      modifies this
      ensures Received(r, View()) == DecryptGroupMessage(old(View()), f)
    {
      if f.id in processed {
        return Duplicate;
      }
      if f.groupId in groups && f.from !in groups[f.groupId].members {
        MarkProcessed(f.id);
        return Duplicate;
      }
      var from := ReceiverId(f.groupId, f.from);
      if from !in receivers {
        return Retry;
      }
      var d := GroupDecrypt(receivers[from], f.message, f.groupId, DEFAULT_MAX_SKIP);
      match d.outcome {
        case Err(_) =>
          MarkProcessed(f.id);
          r := Failed;
        case Ok(p) =>
          receivers := receivers[from := d.next];
          var m := ShownInGroup(f, p);
          AppendMessage(InGroup(f.groupId), m);
          MarkProcessed(f.id);
          r := Accepted(m, false, None);
      }
    }

    method Ensure(contact: string, lookup: Lookup, ephemeral: nat, newKey: nat) returns (r: Ensured)
      modifies this
      ensures (r, View()) == EnsureSession(old(View()), contact, lookup, ephemeral, newKey)
    {
      if contact in sessions {
        return Ensured(None);
      }
      match lookup {
        case NotFound =>
          return NoSuchUser;
        case NotPublished =>
          return NoKeys;
        case Found(bundle, token) =>
          var handshake := Initiate(me, bundle, ephemeral);
          if handshake.Err? {
            return BadBundle;
          }
          var ratchet := InitInitiator(handshake.value.secret, bundle.signedPreKey, newKey);
          sessions := sessions[contact := Save(None, Held(ratchet, handshake.value.ad))];
          contacts := contacts[contact := NewContact(bundle.identity, false)];
          if token.Some? {
            SavePeerSealToken(contact, token.value);
          }
          r := Ensured(Some(Handshake(Public(me), Point(ephemeral), bundle.oneTime)));
      }
    }

    method Send(contact: string, id: string, p: Payload, pending: Option<Handshake>, token: string, rid: string,
                nonce: nat, ts: int)
      returns (r: Result<MessageFrame, SendError>)
      modifies this
      ensures match EncryptForSend(old(View()), contact, id, p, pending, token, rid, nonce, ts)
              case Ok(x) => r == Ok(x.0) && View() == x.1
              case Err(e) => r == Err(e) && View() == old(View())
    {
      var record := LoadSet(View(), contact);
      if record.None? {
        return Err(NoSession);
      }
      var h := record.value.sessions[record.value.current];
      var ratchet := new RatchetState(h.ratchet);
      var frame := ratchet.RatchetEncrypt(Wrap(name, token, rid, p), h.ad, nonce);
      match frame {
        case Err(_) =>
          r := Err(CannotEncrypt);
        case Ok(x) =>
          sessions := sessions[contact := Save(Some(sessions[contact]), Held(ratchet.View(), h.ad))];
          r := Ok(MessageFrame(id, Some(name), x, pending, None, ts));
      }
    }
  }
}
