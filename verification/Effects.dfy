/** What each control payload does to the keystore: its whole effect when it is allowed, and nothing when it is not. */
module Effects {
  import opened Crypto
  import opened Ratchet
  import opened SenderKey
  import opened Messaging

  /** A setting of one known contact changes, and nothing else of anybody. */
  ghost predicate OnlySetting(s: Store, s': Store, contact: string) {
    && s' == s.(contacts := s'.contacts) && s'.contacts.Keys == s.contacts.Keys
    && (forall c :: c in s.contacts && c != contact ==> s'.contacts[c] == s.contacts[c])
  }

  lemma TimerTakesEffect(s: Store, contact: string, seconds: nat)
    ensures var (effect, s') := ApplyControl(s, contact, Timer(seconds));
            && effect == NoEffect && OnlySetting(s, s', contact)
            && (contact in s.contacts ==>
                  var a, b := s.contacts[contact], s'.contacts[contact];
                  b.timer == seconds && b == a.(timer := b.timer))
  {
  }

  lemma TokenTakesEffect(s: Store, contact: string, token: string)
    ensures var (effect, s') := ApplyControl(s, contact, DeliveryToken(token));
            && effect == NoEffect && OnlySetting(s, s', contact)
            && (contact in s.contacts ==>
                  var a, b := s.contacts[contact], s'.contacts[contact];
                  b.token == Some(token) && b == a.(token := b.token))
  {
  }

  // ---- deleting for everyone ----

  /** Emptied and marked deleted; who wrote it, when, and when it expires stay. */
  ghost predicate Emptied(m: Message, m': Message) {
    && m'.deleted && m'.text == "" && m'.media.None? && m'.replyTo.None?
    && m'.id == m.id && m'.from == m.from && m'.ts == m.ts && m'.expiresAt == m.expiresAt
  }

  /** The target is the first message under its id in the author's conversation; its author asks, for the first time. */
  ghost predicate MayDelete(s: Store, contact: string, targetId: string, k: nat) {
    var h := Messages(s, Direct(contact));
    && k < |h| && h[k].id == targetId && h[k].from == contact && !h[k].deleted
    && forall j :: 0 <= j < k ==> h[j].id != targetId
  }

  lemma DeleteTakesEffect(s: Store, contact: string, targetId: string, k: nat)
    requires MayDelete(s, contact, targetId, k)
    ensures var (effect, s') := ApplyControl(s, contact, Delete(targetId));
            var h, h' := Messages(s, Direct(contact)), Messages(s', Direct(contact));
            && effect == Tombstoned(contact, targetId)
            && |h'| == |h| && Emptied(h[k], h'[k]) && (forall j :: 0 <= j < |h| && j != k ==> h'[j] == h[j])
            && s' == s.(history := s'.history) && forall c :: c != Direct(contact) ==> Messages(s', c) == Messages(s, c)
  {
  }

  lemma DeleteRefused(s: Store, contact: string, targetId: string)
    requires forall k: nat :: !MayDelete(s, contact, targetId, k)
    ensures ApplyControl(s, contact, Delete(targetId)) == (NoEffect, s)
  {
    var found := FindMessage(Messages(s, Direct(contact)), targetId);
    if found.Some? {
      assert !MayDelete(s, contact, targetId, found.value);
    }
  }

  // ---- membership ----

  ghost predicate OtherGroupsAlone(s: Store, s': Store, groupId: string) {
    && s' == s.(groups := s'.groups, ownKeys := s'.ownKeys, receivers := s'.receivers)
    && (forall g :: g != groupId ==>
          && (g in s'.groups <==> g in s.groups) && (g in s.groups ==> s'.groups[g] == s.groups[g])
          && (g in s'.ownKeys <==> g in s.ownKeys) && (g in s.ownKeys ==> s'.ownKeys[g] == s.ownKeys[g]))
    && (forall r: ReceiverId :: r.groupId != groupId ==>
          (r in s'.receivers <==> r in s.receivers) && (r in s.receivers ==> s'.receivers[r] == s.receivers[r]))
  }

  /** The keys of the group are kept, except that of a member who is gone. */
  ghost predicate KeysKept(s: Store, s': Store, groupId: string, gone: Option<string>) {
    && (groupId in s'.ownKeys <==> groupId in s.ownKeys)
    && (groupId in s.ownKeys ==> s'.ownKeys[groupId] == s.ownKeys[groupId])
    && forall x :: var r := ReceiverId(groupId, x);
         && (r in s'.receivers <==> r in s.receivers && gone != Some(x))
         && (r in s'.receivers ==> s'.receivers[r] == s.receivers[r])
  }

  predicate RemovesUs(s: Store, p: Payload)
    requires p.Membership?
  {
    p.action.RemoveMember? && p.target == s.name
  }

  lemma RemovalForgets(s: Store, contact: string, p: Payload)
    requires p.Membership? && p.groupId in s.groups && s.groups[p.groupId].creator == contact && RemovesUs(s, p)
    ensures var s' := ApplyMembership(s, contact, p).1;
            && OtherGroupsAlone(s, s', p.groupId)
            && p.groupId !in s'.groups && p.groupId !in s'.ownKeys
            && forall r: ReceiverId :: r.groupId == p.groupId ==> r !in s'.receivers
  {
  }

  lemma RosterReplaced(s: Store, contact: string, p: Payload)
    requires p.Membership? && p.groupId in s.groups && s.groups[p.groupId].creator == contact && !RemovesUs(s, p)
    ensures var s' := ApplyMembership(s, contact, p).1;
            && OtherGroupsAlone(s, s', p.groupId)
            && p.groupId in s'.groups && s'.groups[p.groupId].members == p.group.members
            && s'.groups[p.groupId].name == s.groups[p.groupId].name
            && s'.groups[p.groupId].creator == s.groups[p.groupId].creator
            && KeysKept(s, s', p.groupId, if p.action.RemoveMember? then Some(p.target) else None)
  {
  }

  /**
   The creator of a known group says who belongs to it. Removed ourselves, we keep no group and no
   key of it; otherwise the roster is the one given, name and creator stay, and a removed member's
   key is gone. Anybody else changes nothing.
   */
  lemma MembershipTakesEffect(s: Store, contact: string, p: Payload)
    requires p.Membership?
    ensures var (effect, s') := ApplyControl(s, contact, p);
            if p.groupId !in s.groups || s.groups[p.groupId].creator != contact then effect == NoEffect && s' == s
            else
              && OtherGroupsAlone(s, s', p.groupId)
              && if RemovesUs(s, p) then
                   && effect == MembershipChange(p.groupId, RemoveMember, p.target, true)
                   && p.groupId !in s'.groups && p.groupId !in s'.ownKeys
                   && forall r: ReceiverId :: r.groupId == p.groupId ==> r !in s'.receivers
                 else
                   && effect == MembershipChange(p.groupId, p.action, p.target, false)
                   && p.groupId in s'.groups && s'.groups[p.groupId].members == p.group.members
                   && s'.groups[p.groupId].name == s.groups[p.groupId].name
                   && s'.groups[p.groupId].creator == s.groups[p.groupId].creator
                   && KeysKept(s, s', p.groupId, if p.action.RemoveMember? then Some(p.target) else None)
  {
    if p.groupId in s.groups && s.groups[p.groupId].creator == contact {
      if RemovesUs(s, p) {
        RemovalForgets(s, contact, p);
      } else {
        RosterReplaced(s, contact, p);
      }
    }
  }

  // ---- sender keys ----

  /**
   The group's creator relays keys; to its creator, and only there, members send their own; a new group
   comes from who claims to have made it, and we are in it.
   */
  predicate MayInstall(s: Store, contact: string, p: Payload)
    requires p.KeyDistribution?
  {
    if p.groupId in s.groups then s.groups[p.groupId].creator == s.name || s.groups[p.groupId].creator == contact
    else p.group.creator == contact && s.name in p.group.members
  }

  /** The group is there: as it was, or new and as the distribution describes it. No other group changes. */
  ghost predicate GroupThere(s: Store, s': Store, p: Payload)
    requires p.KeyDistribution?
  {
    && s'.groups.Keys == s.groups.Keys + {p.groupId}
    && (forall g :: g in s.groups ==> s'.groups[g] == s.groups[g])
    && (p.groupId !in s.groups ==>
          s'.groups[p.groupId] == Group(p.group.name, p.group.members, p.group.creator))
  }

  /** The sender's receiving key is the one distributed, unless the sender is us. No other key changes. */
  ghost predicate KeyThere(s: Store, s': Store, p: Payload)
    requires p.KeyDistribution?
  {
    var theirs := ReceiverId(p.groupId, p.sender);
    && (forall r :: r != theirs ==> (r in s'.receivers <==> r in s.receivers))
    && (forall r :: r != theirs && r in s.receivers ==> s'.receivers[r] == s.receivers[r])
    && if p.sender == s.name then s'.receivers == s.receivers
       else theirs in s'.receivers && StartsAt(s'.receivers[theirs], p.distribution)
  }

  lemma BringsGroup(s: Store, contact: string, p: Payload)
    requires p.KeyDistribution? && MayInstall(s, contact, p)
    ensures GroupThere(s, ApplyKey(s, contact, p).1, p)
  {
  }

  lemma BringsKey(s: Store, contact: string, p: Payload)
    requires p.KeyDistribution? && MayInstall(s, contact, p)
    ensures KeyThere(s, ApplyKey(s, contact, p).1, p)
  {
  }

  lemma KeyTakesEffect(s: Store, contact: string, p: Payload)
    requires p.KeyDistribution?
    ensures var (effect, s') := ApplyControl(s, contact, p);
            if !MayInstall(s, contact, p) then effect == NoEffect && s' == s
            else
              && effect == LearnedKey(p.groupId, p.sender)
              && s' == s.(groups := s'.groups, receivers := s'.receivers)
              && GroupThere(s, s', p) && KeyThere(s, s', p)
  {
    if MayInstall(s, contact, p) {
      BringsGroup(s, contact, p);
      BringsKey(s, contact, p);
    }
  }

  /** A receiving key starts where the distribution says, with nothing skipped. */
  predicate StartsAt(r: Receiver, d: Distribution) {
    r.chain == d.chain && r.signer == d.signer && r.iteration == d.iteration && r.skipped == []
  }
}
