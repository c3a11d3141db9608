/** A group message from the sender's chain to the reader's screen. */
module GroupDelivery {
  import opened Crypto
  import opened SenderKey
  import opened SenderKeyAgreement
  import opened Messaging
  import opened Ratchet
  import Inbox

  function TermsOf(seed: Key, signing: nat, groupId: string): GroupTerms {
    GroupTerms(seed, signing, groupId, DEFAULT_MAX_SKIP)
  }

  /** The client keeps the receiving end of `w` for this group and sender. */
  ghost predicate Tuned(s: Store, f: GroupFrame, w: GroupWorld<Payload>) {
    var from := ReceiverId(f.groupId, f.from);
    w.receiver.Some? && from in s.receivers && s.receivers[from] == w.receiver.value
  }

  predicate OnRoster(s: Store, f: GroupFrame) {
    f.groupId in s.groups ==> f.from in s.groups[f.groupId].members
  }

  /**
   What a group message shows: its text or caption, its media, and the sender's clock if it gave
   one. Group messages do not expire, and anything but text and media shows as nothing.
   */
  ghost predicate GroupShows(m: Message, f: GroupFrame, p: Payload) {
    && m.id == f.id && m.from == f.from && !m.deleted && m.expiresAt.None?
    && (p.Text? ==> m.text == p.text && m.media.None? && m.replyTo == p.replyTo)
    && (p.Media? ==>
          && m.media == Some(p.media) && m.replyTo == p.replyTo
          && m.text == if p.caption.Some? then p.caption.value else "")
    && (!p.Text? && !p.Media? ==> m.text == "" && m.media.None? && m.replyTo.None? && m.ts == f.ts)
    && (p.Text? || p.Media? ==> m.ts == if p.sentAt.Some? then p.sentAt.value else f.ts)
  }

  /**
   One more message, last in its group's conversation, the sender's key moved on, and nothing else
   touched but the mark.
   */
  ghost predicate FiledInGroup(s: Store, s': Store, f: GroupFrame, m: Message, next: Receiver) {
    && s' == s.(history := s'.history, receivers := s.receivers[ReceiverId(f.groupId, f.from) := next],
                processed := s.processed + {f.id})
    && Messages(s', InGroup(f.groupId)) == Messages(s, InGroup(f.groupId)) + [m]
    && forall c :: c != InGroup(f.groupId) ==> Messages(s', c) == Messages(s, c)
  }

  /** The message opens under the key kept for this group and sender. */
  ghost predicate OpensHere(s: Store, f: GroupFrame, p: Payload, next: Receiver) {
    && ReceiverId(f.groupId, f.from) in s.receivers
    && var d := GroupDecrypt(s.receivers[ReceiverId(f.groupId, f.from)], f.message, f.groupId, DEFAULT_MAX_SKIP);
       d.outcome == Ok(p) && d.next == next
  }

  /**
   Every group message: one of a member whose key opens it is shown as its payload says and filed;
   with the key missing it is left for redelivery; with a key that does not open it, it is given up.
   */
  lemma GroupMessageExactly(s: Store, f: GroupFrame)
    requires f.id !in s.processed && OnRoster(s, f)
    ensures var r := DecryptGroupMessage(s, f);
            if ReceiverId(f.groupId, f.from) !in s.receivers then r == Received(Retry, s)
            else if r.result.Accepted? then
              exists p, next :: && OpensHere(s, f, p, next) && GroupShows(r.result.message, f, p)
                                && FiledInGroup(s, r.store, f, r.result.message, next)
                                && !r.result.keyChanged && r.result.receipt.None?
            else r == Received(Failed, Mark(s, f.id)) && forall p, next :: !OpensHere(s, f, p, next)
  {
    var from := ReceiverId(f.groupId, f.from);
    if from in s.receivers {
      var d := GroupDecrypt(s.receivers[from], f.message, f.groupId, DEFAULT_MAX_SKIP);
      if d.outcome.Ok? {
        assert OpensHere(s, f, d.outcome.value, d.next);
      }
    }
  }

  /**
   A new message of somebody on the roster is shown exactly when it was sent after we got the
   key, was not read, was not evicted and is not too far ahead; it shows what was sent, and the
   stored key moves on. Otherwise it is given up and the stored key stays as it was.
   */
  lemma ShownExactly(s: Store, f: GroupFrame, w: GroupWorld<Payload>, seed: Key, signing: nat, e: Ear, i: nat)
    requires var t := TermsOf(seed, signing, f.groupId);
             Follows(w, t, e) && Tuned(s, f, w) && i < |w.mail| && f.message == w.mail[i]
    requires OnRoster(s, f) && f.id !in s.processed
    ensures var r := DecryptGroupMessage(s, f);
            var audible := e.start <= i <= e.next + DEFAULT_MAX_SKIP && !HeardBefore(w.read, i) && i !in e.lost;
            if audible then
              && r.result.Accepted? && !r.result.keyChanged && r.result.receipt.None?
              && GroupShows(r.result.message, f, w.sent[i])
              && var moved := GroupStep(w, TermsOf(seed, signing, f.groupId), Arrive(i)).receiver.value;
                 FiledInGroup(s, r.store, f, r.result.message, moved)
            else r == Received(Failed, Mark(s, f.id))
  {
    GroupAgreement(w, TermsOf(seed, signing, f.groupId), e, i);
  }

  /** A distribution installs the receiving end of the sender's chain, from the iteration it was made at. */
  lemma DistributionTunes(s: Store, contact: string, p: Payload, w: GroupWorld<Payload>, f: GroupFrame)
    requires p.KeyDistribution? && p.distribution == Distribute(w.sender) && w.receiver.None?
    requires p.groupId == f.groupId && p.sender == f.from && p.sender != s.name
    requires ApplyKey(s, contact, p).0.LearnedKey?
    ensures Tuned(ApplyKey(s, contact, p).1, f, GroupStep(w, TermsOf(w.sender.chain, w.sender.signing, f.groupId),
                                                          Join))
  {
  }

  /** The group's keys, ours and the others', are all gone, and so is the group. */
  ghost predicate Forgotten(s: Store, groupId: string) {
    groupId !in s.groups && groupId !in s.ownKeys && forall k :: k in s.receivers ==> k.groupId != groupId
  }

  /**
   A member the creator removed is not heard again under that roster; removed ourselves, we keep nothing
   and wait for a new invitation.
   */
  lemma RemovalSilences(s: Store, contact: string, p: Payload, f: GroupFrame)
    requires p.Membership? && p.action.RemoveMember? && p.groupId in s.groups && contact == s.groups[p.groupId].creator
    requires f.groupId == p.groupId && f.id !in s.processed
    ensures var s' := ApplyMembership(s, contact, p).1;
            if p.target == s.name then Forgotten(s', p.groupId) && DecryptGroupMessage(s', f) == Received(Retry, s')
            else
              && ReceiverId(p.groupId, p.target) !in s'.receivers
              && (f.from == p.target && p.target !in p.group.members ==>
                    DecryptGroupMessage(s', f) == Received(Duplicate, Mark(s', f.id)))
  {
  }

  /** The key is the one that was there, or one the group's creator, or anybody in a group of ours, sent. */
  ghost predicate KeyFrom(s: Store, s': Store, contact: string, p: Payload, k: ReceiverId)
    requires k in s'.receivers
  {
    || (k in s.receivers && s'.receivers[k] == s.receivers[k])
    || (&& p.KeyDistribution? && k == ReceiverId(p.groupId, p.sender) && p.sender != s.name
        && s'.receivers[k] == InitReceiver(p.distribution)
        && k.groupId in s'.groups
        && (contact == s'.groups[k.groupId].creator || s.name == s'.groups[k.groupId].creator))
  }

  lemma DistributionInstalls(s: Store, contact: string, p: Payload, k: ReceiverId)
    requires p.KeyDistribution?
    ensures var s' := ApplyKey(s, contact, p).1;
            k in s'.receivers ==> KeyFrom(s, s', contact, p, k)
  {
  }

  lemma MembershipInstallsNothing(s: Store, contact: string, p: Payload, k: ReceiverId)
    requires p.Membership?
    ensures var s' := ApplyMembership(s, contact, p).1;
            k in s'.receivers ==> k in s.receivers && s'.receivers[k] == s.receivers[k]
  {
  }

  /**
   A receiving key is installed only by the group's creator, or by anybody when the group is ours; and
   it starts where the distribution says.
   */
  lemma KeysComeThroughTheCreator(s: Store, contact: string, p: Payload, k: ReceiverId)
    requires !p.Text? && !p.Media?
    ensures var s' := ApplyControl(s, contact, p).1;
            k in s'.receivers ==> KeyFrom(s, s', contact, p, k)
  {
    match p
    case KeyDistribution(_, _, _, _) => DistributionInstalls(s, contact, p, k);
    case Membership(_, _, _, _) => MembershipInstallsNothing(s, contact, p, k);
    case _ =>
  }

  // ---- every run ----

  ghost predicate OffRoster(s: Store, groupId: string, x: string) {
    groupId in s.groups && x !in s.groups[groupId].members
  }

  ghost predicate OffThroughout(d: Inbox.Device, arrivals: seq<Inbox.Arrival>, groupId: string, x: string)
    decreases |arrivals|
  {
    && OffRoster(d.store, groupId, x)
    && (arrivals == [] || OffThroughout(Inbox.Arrive(d, arrivals[0]), arrivals[1..], groupId, x))
  }

  /** No message of `x` that was not there before. */
  ghost predicate NothingNewFrom(h: seq<Message>, h': seq<Message>, x: string) {
    forall m :: m in h' && m.from == x ==> m in h
  }

  lemma PeerLeavesGroups(s: Store, f: MessageFrame, env: Env, groupId: string)
    ensures Messages(DecryptIncoming(s, f, env).store, InGroup(groupId)) == Messages(s, InGroup(groupId))
  {
    if f.id !in s.processed {
      Inbox.ResolveSettles(s, f, env);
      match Resolve(s, f, env)
      case Settled(_, _) =>
      case Read(d, s') =>
        Inbox.CommitTouches(s', d);
        ApplyLeavesGroups(Commit(s', d), f, d, groupId);
    }
  }

  lemma ApplyLeavesGroups(s: Store, f: MessageFrame, d: Delivery, groupId: string)
    ensures Messages(Apply(s, f, d).store, InGroup(groupId)) == Messages(s, InGroup(groupId))
  {
    var p := d.plain.payload;
    if !p.Text? && !p.Media? {
      Inbox.ControlTouches(s, d.contact, p);
    }
  }

  lemma GroupFilesUnderSender(s: Store, f: GroupFrame, groupId: string, x: string)
    requires OffRoster(s, groupId, x)
    ensures NothingNewFrom(Messages(s, InGroup(groupId)), Messages(DecryptGroupMessage(s, f).store, InGroup(groupId)),
                           x)
  {
  }

  lemma {:induction false} WithoutIsFewer(h: seq<Message>, id: string)
    ensures forall m :: m in Inbox.Without(h, id) ==> m in h
  {
    if h != [] {
      WithoutIsFewer(h[1..], id);
    }
  }

  lemma ArriveSilent(d: Inbox.Device, a: Inbox.Arrival, groupId: string, x: string)
    requires OffRoster(d.store, groupId, x)
    ensures NothingNewFrom(Messages(d.store, InGroup(groupId)), Messages(Inbox.Arrive(d, a).store, InGroup(groupId)), x)
  {
    match a
    case FromPeer(f, env) => PeerLeavesGroups(d.store, f, env, groupId);
    case FromGroup(f) => GroupFilesUnderSender(d.store, f, groupId, x);
    case DeleteHere(c, id) => WithoutIsFewer(Messages(d.store, c), id);
  }

  /**
   While somebody is off a group's roster, nothing of theirs enters its history, whatever arrives and
   whatever keys are held.
   */
  lemma {:induction false} OffRosterIsSilent(d: Inbox.Device, arrivals: seq<Inbox.Arrival>, groupId: string, x: string)
    requires OffThroughout(d, arrivals, groupId, x)
    ensures NothingNewFrom(Messages(d.store, InGroup(groupId)),
                           Messages(Inbox.ArriveAll(d, arrivals).store, InGroup(groupId)), x)
    decreases |arrivals|
  {
    if arrivals != [] {
      ArriveSilent(d, arrivals[0], groupId, x);
      OffRosterIsSilent(Inbox.Arrive(d, arrivals[0]), arrivals[1..], groupId, x);
    }
  }
}
