# FlatFold, verified model

FlatFold is an end-to-end encrypted messenger. This project models the protocols that carry its
messages and proves what they promise. It is written in Dafny 4.11; `dafny verify dfyconfig.toml`
checks all of it.

**Cryptography is symbolic** (`Crypto`). Keys are terms of a free datatype, X25519 is an
unordered pair of names, a sealed value opens only under its own key and associated data, a
signature verifies only for its signer. Random values are names handed in by the caller.

**Ratchets.** `Ratchet` is the Double Ratchet with header encryption as functions on a session
(section 4 of Signal's Double Ratchet specification, revision 1; the comment at the head of
`src/crypto/doubleRatchet.ts` numbers it 5.2). `RatchetState` is the object the source mutates,
proved against those functions. `RatchetScript`, `RatchetAgreement` and `RatchetRun` relate two
sessions and an unreliable network to a script of what was said and two ideal receivers.
`RatchetOutcome` says what becomes of any frame at all, `RatchetSingleUse` and `RatchetStore` add
single use of keys, the bound of the store and saving. `X3dh` is the handshake. `SenderKey`,
`SenderKeyAgreement`, `GroupOutcome` and `GroupDelivery` are the group chain.

**Sessions and inbound messages.** `SessionRecord` and `SessionSet` hold a contact's sessions.
`Messaging` says what one inbound envelope does to the whole keystore; `Client` does it one write
at a time. `Inbox` proves idempotence, `GroupPinning` and `Authorship` who may change what,
`FirstContact` what a newcomer's first message does, `CrashPoints` what a crash between two of the
writes and a redelivery do. `Reading`, `Handshakes`, `Effects` and `Sending` say of every envelope,
stamped or not, with or without a handshake, and of every send, what comes of it and what stays
as it was. `GlareSide`, `Glare`, `GlareRun` and
`GlareConvergence` follow two users who start sessions with each other at once.

**Mailbox.** `Text` and `MailboxKeys` are the storage keys and their order, `Mailbox` the object,
`MailboxRun` every history of one mailbox with its senders, a clock and alarms, `MailboxTokens` the
delivery tokens over those histories, and `Delivery` the mailbox, the frames on the wire and the
device together.

**Passwords, prekeys, chains, codecs.** `IdentityRecord` and `ChangePassword` are the two-wrap
record and the commit across device and server, `Prekeys` the one-time-prekey pool. Both write a
record they read before, and nothing keeps other writers out in between: reading and writing are
separate steps, and `ChangePasswordRun` and `PrekeyRun` interleave them in every way. `OpChain`
runs the client's and the mailbox's promise chains on one small promise machine. `Payloads` is
padding and wrapping at the level of bytes.

Some promises hold only under a condition; where the code does not meet one, a counterexample
stands beside the exact condition: `TopUpLost`, `UsedSecretReturns`, `CeilingOvershot`,
`SaveInsideStageIsLost`, `SaveOverStageLocksOut`, `LostReplyLocksOut`, `LateRequestLocksOut`,
`StaleBeginLocksOut`, `OneIdTwoSenders`, `CutOffAnywhere`, `SealedGlareIsDropped`,
`OneRejectionStopsTheRest`, `ReceiptsAreNeverSwept`, `OrderEndsAtTheWidth`, `SpelledKeyReplaces`,
`WrappedNumberRefused`, `BareTakenForWrapped`.

## Model

| member | source | states |
|---|---|---|
| RatchetState.RatchetState.RatchetEncrypt | src/crypto/doubleRatchet.ts:190-212 | Encrypting uses the head of the sending chain once, advances the chain and the number, and refuses without a sending chain, leaving the session alone |
| RatchetState.RatchetState.CacheUntil | src/crypto/doubleRatchet.ts:260-268 | The skip loop stores the key of every number passed over, in order, with one derivation each |
| RatchetState.RatchetState.EvictOldest | src/crypto/doubleRatchet.ts:270-272 | Deleting the first key while the store is too large leaves exactly its newest 2000 entries |
| RatchetState.RatchetState.SkipMessageKeys | src/crypto/doubleRatchet.ts:254-273 | Skipping further than allowed is refused before anything is derived; otherwise at most `maxSkip` derivations |
| RatchetState.RatchetState.DhRatchetStep | src/crypto/doubleRatchet.ts:277-299 | A ratchet step promotes the waiting header keys, restarts the numbers and re-keys both chains from the peer's point and a new own key |
| RatchetState.RatchetState.TrySkippedMessageKeys | src/crypto/doubleRatchet.ts:226-244 | The first cached key whose header key opens the header decides: its entry is consumed when the message opens, kept when it does not |
| RatchetState.RatchetState.TryRatchetDecrypt | src/crypto/doubleRatchet.ts:308-351 | The in-place decryption on a copy equals the specification; anything but a plaintext leaves the session untouched; at most 2*maxSkip+1 derivations |
| RatchetOutcome.NotThisSessionExactly | src/crypto/doubleRatchet.ts:246-252 | For every session and frame: "not this session" if and only if no cached, receiving or next receiving header key opens the header (a cached one to its own number) |
| RatchetOutcome.KeptKeyDecides | src/crypto/doubleRatchet.ts:226-244 | The first cached key for the message decides: it reads a body sealed under it and is used up, or the tag failure is thrown and nothing moves |
| RatchetOutcome.CurrentChainDecides | src/crypto/doubleRatchet.ts:308-351 | A message of the current chain is read exactly when its body is sealed under the key as many steps on as its number says, throws on any other body, and is refused when that is too far |
| RatchetOutcome.NextChainDecides | src/crypto/doubleRatchet.ts:277-351 | The same for a message after a DH step, with the new chain derived from the header's point |
| RatchetScript.HeaderKeysDiffer | src/crypto/doubleRatchet.ts:58-72 | No two chains of a session ever share a header key, so an opened header names its chain |
| RatchetAgreement.DecryptSimulates | src/crypto/doubleRatchet.ts:308-351 | One decryption of a genuine frame does exactly what an ideal receiver with books of read, cached and lost messages does |
| RatchetAgreement.ReadValid | src/crypto/doubleRatchet.ts:254-299 | Reading keeps the books: every message passed is read, cached or lost, only one of the three, and the lost ones are the oldest |
| RatchetRun.EncryptSimulates | src/crypto/doubleRatchet.ts:190-212 | Encrypting appends the next frame of the sender's current chain, the very frame the other end derives keys for |
| RatchetRun.StartTracks | src/crypto/doubleRatchet.ts:142-188 | Initiator and responder created from one X3DH secret are the two ends of one session |
| RatchetRun.RunFromStart | src/crypto/doubleRatchet.ts:142-351 | In every reachable world, with sends, reordering, duplicates, drops, forged frames and frames thrown back, the two sessions stay the two ends of one session |
| RatchetRun.Agreement | src/crypto/doubleRatchet.ts:308-351 | A message in flight decrypts if and only if it was not read, not evicted and is behind its reader or within `maxSkip`; it decrypts to what was sent; a failure leaves the session as it was |
| RatchetRun.ExactlyOnce | src/crypto/doubleRatchet.ts:226-244 | Whatever the network does, each message is read at most once and as written |
| RatchetRun.NothingLost | src/crypto/doubleRatchet.ts:254-273 | While no more messages were sent than may be skipped or stored, every unread one can be read at any time, in any order |
| RatchetRun.EvictsOldestOnly | src/crypto/doubleRatchet.ts:270-272 | In every reachable world what was evicted is older in (chain, number) order than everything still held |
| RatchetRun.ForeignIgnored | src/crypto/doubleRatchet.ts:246-252 | A frame sealed outside the session is "not this session", and nothing moves |
| RatchetRun.OnlyGenuineBodies | src/crypto/doubleRatchet.ts:308-351 | A plaintext comes only from a body sealed under its own header, with the session's associated data and a key that goes back to its secret; a failed attempt moves nothing |
| RatchetRun.InjectionIgnored | src/crypto/doubleRatchet.ts:308-351 | A foreign header, a genuine header with an altered, swapped or foreign body, and a frame thrown back at its sender are never read and change neither session |
| RatchetRun.WrappedNumberRefused | src/crypto/doubleRatchet.ts:86-98 | Why message numbers are kept below 2^32: at 2^32 the header field wraps and a message within reach is refused |
| RatchetSingleUse.SingleUse | src/crypto/doubleRatchet.ts:308-351 | Once a plaintext was returned, no later state returns one for a frame under the same message key |
| RatchetSingleUse.DecryptSpends | src/crypto/doubleRatchet.ts:226-244 | A successful decryption uses a key never used before and retires it; any other leaves the session as it was |
| RatchetStore.StoreBounded | src/crypto/doubleRatchet.ts:270-272 | However far ahead a frame claims to be, the store never holds more than 2000 keys |
| RatchetStore.RoundTrip | src/keystore/index.ts:156-201 | Saving and reloading a session gives it back, skipped keys in insertion order |
| RatchetStore.PersistingIsTransparent | src/keystore/index.ts:805-849 | A history that saves and reloads between any two operations ends in the same session as one kept in memory |
| X3dh.Agree | src/crypto/x3dh.ts:81-145 | Initiator and responder agree on the associated data always, and on the secret if and only if the responder answers with the one-time prekey that was handed out |
| X3dh.InitiateExactly | src/crypto/x3dh.ts:81-121 | A bundle is used if and only if its identity signed its prekey; the secret mixes three agreements, and the one-time prekey when there is one |
| X3dh.CrossedSecretsDiffer | src/crypto/x3dh.ts:81-121 | Handshakes in opposite directions never give one secret |
| SenderKey.SenderKeyState.SenderKeyEncrypt | src/crypto/senderKey.ts:133-144 | Encrypting advances the chain by one and signs iteration, body and group |
| SenderKey.ReceiverKeyState.MessageKeyForIteration | src/crypto/senderKey.ts:146-178 | The loops compute the specified key and store; too old or too far is refused without effect; at most maxSkip+1 derivations |
| SenderKey.ReceiverKeyState.SenderKeyDecrypt | src/crypto/senderKey.ts:184-197 | A message whose signature fails derives nothing and changes nothing |
| GroupOutcome.SignatureDecides | src/crypto/senderKey.ts:184-192 | A message is turned away for its signature if and only if it is not signed by the sender over its iteration, body and group, and then nothing moves |
| GroupOutcome.KeptGroupKeyDecides | src/crypto/senderKey.ts:146-152 | The first key kept for the iteration decides: it reads a body sealed under it for this group and no other, and is used up |
| GroupOutcome.GroupChainDecides | src/crypto/senderKey.ts:153-197 | With no key kept, too old or too far is refused with nothing moved; otherwise the key is as many steps on as the iteration says, every key passed over is kept, and the chain stands behind it |
| GroupOutcome.PutKeySets | src/crypto/senderKey.ts:160-168 | Storing a key takes the place of an earlier one for its iteration, or goes last |
| SenderKeyAgreement.KeyForSimulates | src/crypto/senderKey.ts:146-178 | Looking up a message key does exactly what an ideal listener does |
| SenderKeyAgreement.GroupAgreement | src/crypto/senderKey.ts:184-197 | A group message opens if and only if it was sent after joining, not read, not evicted and not too far ahead; it opens to what was sent; a duplicate is refused |
| SenderKeyAgreement.ChainsAgree | src/crypto/senderKey.ts:160-177 | The receiver's chain key is the sender's at that iteration, and every cached key the sender's for its index |
| SenderKeyAgreement.GroupExactlyOnce | src/crypto/senderKey.ts:146-152 | Each group message is read at most once, as sent, whatever the network and forgers do |
| SenderKeyAgreement.GroupStoreBounded | src/crypto/senderKey.ts:171-173 | The store of skipped group keys keeps to 2000 |
| GroupDelivery.ShownExactly | src/lib/messaging.ts:891-940 | A group message of a member is shown exactly when its sender chain lets it open, with the text or caption, media, quote and time that were sent; otherwise it is given up and the stored key is left as it was |
| GroupDelivery.GroupMessageExactly | src/lib/messaging.ts:891-940 | Every group message of a member: without a key it waits; opened by the key it is shown as its payload says, filed last in its group and nowhere else; otherwise it is given up |
| GroupDelivery.OffRosterIsSilent | src/lib/messaging.ts:891-940 | Over every sequence of arrivals, while somebody is off a group's roster nothing of theirs enters its history, whatever keys are held |
| GroupDelivery.RemovalSilences | src/lib/messaging.ts:680-716 | A member the creator removed loses its key and is not heard under that roster; removed ourselves, we keep no key and no group |
| GroupDelivery.KeysComeThroughTheCreator | src/lib/messaging.ts:640-674 | A receiving key is installed only by the creator, or when the group is ours, and starts where its distribution says |
| GroupDelivery.DistributionTunes | src/lib/messaging.ts:640-671 | A distribution installs the receiving end of the sender's chain from the iteration it was made at |
| SessionSet.OneDesignatedInitiator | src/lib/sessionSet.ts:42-44 | Of two different names exactly one is the designated initiator |
| SessionSet.SmallerInitiates | src/lib/sessionSet.ts:42-44 | It is the one whose name is smaller in code units |
| SessionSet.TrialFrom | src/lib/sessionSet.ts:64-75 | The match is the first session that reads the frame, all before it having said "not this session"; the first that breaks stops the search |
| SessionSet.TrialDecryptSessions | src/lib/sessionSet.ts:64-75 | The loop over live sessions advances the one that matched and no other |
| SessionRecord.CapDropsOldest | src/keystore/sessionRecord.ts:55-66 | Capping keeps an order-preserving subsequence with the current session in it, and drops only sessions older than every other one it keeps |
| SessionRecord.SavesKeepSound | src/keystore/index.ts:834-882 | Saving keeps one to three sessions with the current one in range |
| SessionRecord.AddKeepsSound | src/keystore/index.ts:888-904 | Adding keeps one to three sessions with the current one in range |
| SessionRecord.SiblingsUntouched | src/keystore/index.ts:834-882 | Saving the current session, or one by index, touches no sibling |
| SessionRecord.AddKeepsCurrentAndNew | src/keystore/index.ts:888-904 | Adopting keeps the session sent on and the newcomer, and sends on the one asked for |
| SessionRecord.SessionStore.SaveSession | src/keystore/index.ts:834-849 | The stored record after saving, stepwise, and no other contact's |
| SessionRecord.SessionStore.SaveSessionAt | src/keystore/index.ts:870-882 | The same by index; nothing happens without a record or out of range |
| SessionRecord.SessionStore.AddSession | src/keystore/index.ts:888-904 | The stored record after adding and capping |
| SessionRecord.SessionStore.LoadSession | src/keystore/index.ts:917-924 | The session loaded for sending is the current one |
| Client.Client.TrialDecryptSealed | src/lib/messaging.ts:250-273 | The loop over contacts and their live sessions finds the sender of a from-less envelope as specified, stops on a broken one, and writes nothing else |
| Client.Client.ReceiveStamped | src/lib/messaging.ts:357-428 | The stamped path resolves as specified: trial, else retry, else handshake with its one-time prekey taken first |
| Client.Client.ReceiveFirstContact | src/lib/messaging.ts:429-524 | The sealed first contact resolves as specified, in its order of checks |
| Client.Client.CommitDelivery | src/lib/messaging.ts:570-590 | Replace, add, save by index or save; then the receipt id, the contact and its token |
| Client.Client.InstallSenderKey | src/lib/messaging.ts:640-674 | Only the creator invites and relays; the creator accepts reciprocated keys |
| Client.Client.ChangeMembership | src/lib/messaging.ts:680-716 | Roster changes, removals and our own removal as specified |
| Client.Client.DeleteForEveryone | src/lib/messaging.ts:617-627 | Only a message its author asks to retract is tombstoned, once |
| Client.Client.Receive | src/lib/messaging.ts:325-753 | The whole inbound step, write by write, equals the specification that the theorems are about |
| Client.Client.ReceiveGroup | src/lib/messaging.ts:891-940 | The group step equals its specification; the receiver key is saved only on success |
| Sending.EnsuresExactly | src/lib/messaging.ts:131-168 | A session that is there is kept; a bundle whose prekey is not signed, or none, leaves nothing; a usable one makes one session on the handshake that goes out and an unverified contact under its identity |
| Sending.SendsExactly | src/lib/messaging.ts:174-206 | A message can be sent if and only if the current session has a sending chain; header, associated data, key, name, token and receipt id are the right ones, and only that session moves |
| Client.Client.Ensure | src/lib/messaging.ts:131-167 | Starting a session as specified: nothing when one exists, nothing kept when the bundle is bad |
| Client.Client.Send | src/lib/messaging.ts:174-206 | Sending encrypts on the current session and saves it, or fails without effect |
| Inbox.ReceivesOnce | src/lib/messaging.ts:325-753 | A retry leaves no trace; every other result leaves the id processed; a processed id is a duplicate without effect |
| Inbox.GroupReceivesOnce | src/lib/messaging.ts:891-940 | The same for group messages |
| Reading.StampedExactly | src/lib/messaging.ts:357-392 | A stamped message under an unchanged identity: the first of the sender's sessions to recognise it decides, read on it or given up; without a handshake it waits if and only if none recognises it |
| Reading.SealedExactly | src/lib/messaging.ts:250-273 | A from-less message: the first listed contact with a session that recognises it is the sender; read on that session it has its effect in that name and only that session moves, otherwise it is given up; it waits if and only if there is no such contact |
| Handshakes.StampedHandshakeExactly | src/lib/messaging.ts:387-428 | A stamped message only its handshake can open: the named prekey is used up; read, contact and sessions are brought up to date and it has its effect; otherwise it is given up |
| Handshakes.SealedHandshakeExactly | src/lib/messaging.ts:429-524 | A sealed first message, branch by branch: given up, a duplicate, waiting for the bundle, dropped, or taking effect under one new session in the name it claims |
| Effects.TimerTakesEffect | src/lib/messaging.ts:594-599 | A timer changes that setting of a known contact and nothing else |
| Effects.TokenTakesEffect | src/lib/messaging.ts:601-610 | A delivery token likewise |
| Effects.DeleteTakesEffect | src/lib/messaging.ts:612-627 | The author's request empties the message, keeps who wrote it and when, and touches no other |
| Effects.DeleteRefused | src/lib/messaging.ts:612-627 | Any other request changes nothing |
| Effects.MembershipTakesEffect | src/lib/messaging.ts:680-716 | The creator's word sets the roster, drops a removed member's key or, when it is us, the whole group; anybody else's changes nothing |
| Effects.KeyTakesEffect | src/lib/messaging.ts:640-674 | An allowed distribution pins a new group and installs the sender's key where it starts; any other changes nothing |
| Inbox.ReceiveKeepsHistory | src/lib/messaging.ts:733-742 | No id is stored twice, and every stored message is processed |
| Inbox.AcceptedAtMostOnce | src/pages/Chat.tsx:618-642 | Under any redelivery each id is accepted at most once, even after a local delete, and only processed ids are acknowledged |
| Inbox.AcknowledgedExactly | src/pages/Chat.tsx:618-642 | Over every run: an id is acknowledged if and only if an envelope under it came in and was not left for redelivery, and is among the new messages if and only if one was accepted |
| Inbox.ReceiveKeepsSound | src/lib/messaging.ts:570-578 | Receiving keeps every session record sound |
| Inbox.EnsureKeepsSound | src/lib/messaging.ts:131-157 | So does starting a session |
| Inbox.SendKeepsSound | src/lib/messaging.ts:186-196 | So does sending |
| GroupPinning.WhoSpoke | src/lib/messaging.ts:341-539 | No message is taken from anybody without a session of theirs, a handshake under the stamped name answered with the one-time prekey it names, or a sealed handshake whose identity the claimed name publishes |
| GroupPinning.OnlyTheCreatorGoverns | src/lib/messaging.ts:640-716 | A stored group keeps name and creator; its roster changes or it goes only by a membership payload authenticated as its creator; a new one comes only from the creator it names |
| GroupPinning.PinnedForGood | src/lib/messaging.ts:640-716 | Over every sequence of arrivals a stored group keeps its name and creator until it is deleted |
| GroupPinning.SealedGlareIsDropped | src/lib/messaging.ts:483-494 | A sealed first contact under the same identity is a duplicate when a session exists, and its message is never read afterwards |
| Authorship.AcceptedIsFiledUnderItsSender | src/lib/messaging.ts:718-742 | An accepted message shows what the payload says and is filed under the one it is authenticated to be from, last in that conversation and in no other |
| Authorship.OnlyAuthorsRetract | src/lib/messaging.ts:612-627 | No envelope alters a stored message, except that its authenticated author may have it emptied, in the author's own conversation |
| Authorship.IdentityNeverChangesSilently | src/lib/messaging.ts:367-378 | A known contact's identity, verification and warning stay as they are unless a key change is reported; then the warning is raised, the verification dropped and only the new session left |
| Authorship.OnlyTheSendersSessionsMove | src/lib/messaging.ts:554-578 | An envelope moves the sessions of the contact it is authenticated to be from, and nobody else's |
| FirstContact.StampedFirstContact | src/lib/messaging.ts:357-428 | A first message on the stamped path is read as written, its sender becomes a contact with a session, and the one-time prekey is used up |
| FirstContact.SealedFirstContact | src/lib/messaging.ts:429-524 | A sealed first contact is believed exactly when the claimed name publishes the proven identity; no bundle means retry; another identity is dropped without a trace but its marks |
| GlareSide.ReceivesOwn | src/lib/messaging.ts:378-386 | A frame on our own session moves that session only |
| GlareSide.ReceivesTheirs | src/lib/messaging.ts:378-386 | A frame on the adopted session moves that one only, current or not |
| GlareSide.WaitsForHello | src/lib/messaging.ts:387-392 | A frame that overtook the handshake is left for redelivery, nothing changed |
| GlareSide.ReceivesHello | src/lib/messaging.ts:394-427 | The peer's first message is read and its session joins ours; which one is sent on follows the tie-break |
| GlareSide.AddsTheirs | src/lib/sessionSet.ts:84-86 | What is stored after adopting is what `currentAfterAdopting` says |
| GlareSide.Sends | src/lib/messaging.ts:186-196 | Sending moves the session the tie-break chose and no other |
| GlareRun.Converged | src/lib/messaging.ts:570-578 | Once each side processed the other's first message both send on the designated initiator's session |
| GlareConvergence.SideBegins | src/lib/messaging.ts:131-206 | Starting a session and sending gives the first letter with the handshake on it, and the peer's answer to that handshake is the same secret |
| GlareConvergence.GlareConverges | src/lib/messaging.ts:378-428 | Whatever is sent and in whatever order it arrives, both sides end on sessions of one X3DH secret |
| GlareConvergence.MessagesReadExactly | src/lib/messaging.ts:378-428 | However much was sent: a message in flight on either session is read as said exactly when it does not overtake the peer's first message and its session can still read it; one that overtook is left untouched |
| GlareConvergence.EveryMessageReadable | src/lib/messaging.ts:378-428 | So while no more than 1000 were sent, every message in flight is read as said, or left untouched until the handshake it overtook was processed |
| Text.PaddedOrder | worker/mailbox.ts:71-73 | Zero-padded decimals that fit the width sort like the numbers |
| MailboxKeys.StampedInjective | worker/mailbox.ts:71-73 | A queue key names its sender, number and id, when names hold no colon |
| MailboxKeys.CrossCollision | worker/mailbox.ts:229-230 | A sealed key equals a stamped one exactly when the sealed id spells out the rest of it |
| MailboxKeys.KeysInSendOrder | worker/mailbox.ts:63-73 | Below 10^12 key order is send order within a sender |
| MailboxKeys.SealedKeysInOrder | worker/mailbox.ts:240-244 | Sealed envelopes sort in the order they were received |
| MailboxKeys.OrderEndsAtTheWidth | worker/mailbox.ts:71-73 | Message 10^12 sorts before the one sent just ahead of it |
| Mailbox.Mailbox.HandleDeliver | worker/mailbox.ts:158-188 | Live when connected and never stored; queued under its key with the alarm armed when there is room; dropped otherwise |
| Mailbox.Mailbox.HandleSealedDeliver | worker/mailbox.ts:208-244 | The same behind a valid token, with a receive number drawn only when queued |
| Mailbox.Mailbox.HandleRegisterToken | worker/mailbox.ts:194-201 | Newest first, no duplicates, three at most |
| Mailbox.Mailbox.FlushQueued | worker/mailbox.ts:249-254 | Everything queued is sent in key order and nothing is removed |
| Mailbox.Mailbox.HandleAck | worker/mailbox.ts:363-370 | The first envelope with the id goes, and no other |
| Mailbox.Mailbox.DeleteExpired | worker/mailbox.ts:401-409 | The sweep loop removes exactly the expired envelopes and counts the rest |
| Mailbox.Mailbox.Alarm | worker/mailbox.ts:399-413 | A sweep, and a new alarm exactly while something is left |
| Mailbox.Mailbox.HandlePurge | worker/mailbox.ts:144-156 | Nothing is left |
| Mailbox.Mailbox.NextSendSeq | worker/mailbox.ts:321-329 | The number drawn and the counter in memory and storage |
| Mailbox.InsertAdds | worker/mailbox.ts:168-170 | A write under a new key adds one envelope and leaves the others |
| Mailbox.RemoveOne | worker/mailbox.ts:365-369 | Keys differ, so deleting one key deletes one envelope |
| Mailbox.DeliverExactly | worker/mailbox.ts:158-188 | On every box: with somebody connected, with 500 queued or too large an envelope the box is as it was; otherwise the envelope joins the queue, replacing only an entry under its own key, and the sweep is armed |
| Mailbox.DeliverSealedExactly | worker/mailbox.ts:208-244 | The same, only with a registered token, and the number of receipt drawn only when queued |
| Mailbox.AckExactly | worker/mailbox.ts:363-370 | An acknowledgement takes the first envelope with its id out of the queue and leaves everything else; with none under the id nothing happens |
| Mailbox.SweepExactly | worker/mailbox.ts:399-415 | A sweep takes exactly the envelopes timestamped more than 14 days back, leaves the others in order, and sets an alarm in 24 hours exactly when something is left |
| Mailbox.PurgeForgets | worker/mailbox.ts:140-156 | Account deletion leaves no envelope, token, alarm, connection or number, and sealed envelopes are turned away from then on |
| MailboxTokens.HonouredExactly | worker/mailbox.ts:190-201 | Over every run: a delivery token is honoured if and only if it was registered since the account was last deleted, and fewer than three others after it |
| MailboxTokens.RunKeepsNewest | worker/mailbox.ts:190-201 | At every state the tokens stand newest first, each with just those in front of it that were registered after it |
| MailboxRun.QueueConserved | worker/mailbox.ts:144-188 | Over every history, whatever ids the clients choose, at most 500 are queued; and at every state the queue is what was accepted less what was acknowledged, swept or purged, if and only if no envelope was stored under a key another spells out |
| MailboxRun.DeliveryOnlyAdds | worker/mailbox.ts:168-188 | A delivery never evicts or overwrites what is queued, unless its key is spelled out by an id on the other path: exactly then it replaces an envelope |
| MailboxRun.SpelledKeyReplaces | worker/mailbox.ts:229-230 | It can happen: two envelopes accepted under one key, and one queued |
| MailboxRun.PlainNeverClashes | worker/mailbox.ts:229-230 | With sealed ids free of colons no key is ever taken |
| MailboxRun.StampedTaken | worker/mailbox.ts:71-73 | A new stamped key is taken exactly when something sealed is queued whose id spells it out; by stamped ones never |
| MailboxRun.FlushInSendOrder | worker/mailbox.ts:249-254 | The flush sends one sender's envelopes in the order they were sent |
| MailboxRun.GoneInTime | worker/mailbox.ts:390-413 | With alarms on time a non-empty queue has one armed, and a stamped envelope is gone 14 days and 24 hours after its timestamp |
| MailboxRun.ReceiptsAreNeverSwept | src/lib/sealedWrap.ts:80-82 | A sealed receipt carries no timestamp and outlives every sweep |
| MailboxRun.TakenKeyOverwrites | worker/mailbox.ts:169 | A write keeps the queue's length exactly when its key is taken: then it replaces |
| MailboxRun.NumbersNeverRepeat | worker/mailbox.ts:321-329 | Across evictions and reloads the send numbers come out one after the other |
| Delivery.QueuedUntilAcknowledged | worker/mailbox.ts:3-11 | Mailbox and device together: an accepted envelope is queued, outlived, purged with the account or acknowledged after the device dealt with its id; none is accepted twice |
| Delivery.QueuedUntilProcessed | worker/mailbox.ts:363-370 | When nothing else bears its id, what left the queue by an acknowledgement is the very frame the device decided on |
| Delivery.ArriveMarks | src/lib/messaging.ts:325-753 | Handling a frame marks no id but its own and the receipt id inside it |
| Delivery.OneIdTwoSenders | worker/mailbox.ts:285-290 | Another sender's envelope under the same id has the genuine one acknowledged and deleted unread |
| IdentityRecord.SealKeeps | src/keystore/identityRecord.ts:78-86 | A sealed record keeps key and document under its password |
| IdentityRecord.OpensExactly | src/keystore/identityRecord.ts:94-131 | Exactly the record's passwords open it, to one key and document; an old record is migrated and a staged one settled on the password used |
| IdentityRecord.StageAddsPassword | src/keystore/identityRecord.ts:138-151 | Staging needs a password of the record and adds the next one; the document is untouched |
| IdentityRecord.SettleKeepsOne | src/keystore/identityRecord.ts:155-164 | Promoting keeps the next password only, aborting the current one only |
| ChangePasswordRun.MasterKeyNeverLost | src/keystore/index.ts:298-371 | However readers, writers and crashes interleave, some password opens the record, and whichever does opens it to the one master key |
| ChangePasswordRun.OldOrNewAlwaysOpens | src/keystore/index.ts:592-598 | At every state the record holds the document last saved under no password but the two in play, if and only if no write goes astray: none of the wraps over a later save, none that puts back a password out of play; then the old or the new password opens it and no other |
| ChangePasswordRun.UnchangedIsOnCourse | src/keystore/index.ts:341-371 | A write of the record as it was read, still unchanged, never goes astray |
| ChangePasswordRun.SafeIsExact | src/keystore/index.ts:298-371 | Step by step, when exactly the server's password still opens the record |
| ChangePasswordRun.ServerOpensExactly | src/contexts/AuthContext.tsx:185-195 | Over every run the server's password opens the record at every state if and only if every step was safe |
| ChangePasswordRun.ServerPasswordOpens | src/contexts/AuthContext.tsx:185-195 | If errors mean never applied, the server's password is the one used to unlock and to begin, and the wraps are written only as they still are, it opens the record at every state |
| ChangePasswordRun.OnlyTheOwnerChanges | worker/index.ts:287-314 | Over every run, a step that changes the server's password is the update of a request whose sender was found, at an earlier check, to know the password the server had then |
| ChangePasswordRun.LostReplyLocksOut | src/contexts/AuthContext.tsx:208-213 | A lost reply after the server applied the change rolls back to a password the server no longer takes |
| ChangePasswordRun.LateRequestLocksOut | src/keystore/index.ts:305-310 | An unlock collapses the record before a late request is applied |
| ChangePasswordRun.StaleBeginLocksOut | src/keystore/identityRecord.ts:143-150 | Beginning another change from the old password drops the one the server has |
| ChangePasswordRun.SaveInsideStageIsLost | src/keystore/index.ts:346-355 | A document saved while a change is being staged is overwritten by the staged record |
| ChangePasswordRun.SaveOverStageLocksOut | src/keystore/index.ts:592-598 | A save that read the record before it was staged and writes it after drops the staged wrap: the change succeeds, settling does nothing, and the server's password opens nothing |
| ChangePassword.Account.StageChangePassword | src/keystore/index.ts:341-357 | Staging reads the record, and whatever happens meanwhile writes the staged form of what it read, or nothing |
| ChangePassword.Account.FinalizeChangePassword | src/keystore/index.ts:360-364 | Reads, and writes the promoted form of what it read; no effect on a record that is not staged |
| ChangePassword.Account.RollbackChangePassword | src/keystore/index.ts:367-371 | Reads, and writes what it read without the staged wrap; no effect on a record that is not staged |
| ChangePassword.Account.SaveDoc | src/keystore/index.ts:592-598 | Writes back the wraps it read with the new document |
| ChangePassword.Account.Unlock | src/keystore/index.ts:298-330 | Opens with exactly the passwords of the record it read, and writes only to migrate or settle it |
| ChangePassword.Account.HandleChangePassword | worker/index.ts:287-314 | A token if and only if the current password is the server's at the check, the new one has 8 to 1024 characters and the limit is not reached; it stays good exactly when no other change was applied between check and update, and every earlier one is signed out |
| ChangePassword.Account.ChangePassword | src/contexts/AuthContext.tsx:204-222 | The flow is stage, ask, settle: it succeeds if and only if the record opens, the server's password was given and the reply arrives, and then the server has the new one |
| ChangePasswordRun.HearsOnlyItsOwn | src/contexts/AuthContext.tsx:204-222 | Over every run: the client goes forward only when the server applied the very request it waits for |
| ChangePasswordRun.ChangeEndsExactly | src/contexts/AuthContext.tsx:204-222 | One change with nothing else going on: in the end exactly one password opens the record, to the same key and document: the next one when the client heard that the server took it, the current one in every other case |
| OpChain.SessionOpChain.Enqueue | src/lib/inboundDispatch.ts:75-89 | Each call hands back its operation's own promise and leaves a tail that never rejects |
| OpChain.SendChain.Chain | worker/mailbox.ts:270-276 | Each call chains without a rejection handler |
| OpChain.OneAfterTheOther | src/lib/inboundDispatch.ts:68-73 | Tasks start in order, each after the one before finished, whatever its outcome; each promise settles with its own task's outcome |
| OpChain.AlwaysMovesOn | src/lib/inboundDispatch.ts:80-85 | While a task is unfinished one is running or a reaction is due |
| OpChain.OneRejectionStopsTheRest | worker/mailbox.ts:272 | In the mailbox's chain a rejection keeps every later send from starting, as long as the object stays in memory |
| OpChain.StartedOnlyAfterSuccess | worker/mailbox.ts:272 | There a send starts only after every earlier one succeeded |
| Payloads.BucketFor | src/lib/chatPayload.ts:83-88 | The loop computes the bucket |
| Payloads.BucketBounds | src/lib/chatPayload.ts:79-88 | A bucket holds its content and is at most the larger of 256 and twice it |
| Payloads.BucketIsLeast | src/lib/chatPayload.ts:79-88 | A bucket is the least of the sizes 256, 512, 1024, 2048, 4096 and the multiples of 4096 that holds its content |
| Payloads.BucketMonotone | src/lib/chatPayload.ts:83-88 | Buckets grow with their content |
| Payloads.BucketIdempotent | src/lib/chatPayload.ts:83-88 | A bucket is its own bucket |
| Payloads.EncodeChatPayload | src/lib/chatPayload.ts:90-101 | The buffer filled in place is length, text and zeros to the bucket |
| Payloads.RoundTripExactly | src/lib/chatPayload.ts:103-127 | Decoding recovers the text for every length below 2^32 and for no other |
| Payloads.DecodeExactly | src/lib/chatPayload.ts:103-108 | Any bytes decode to a text exactly when they are its length in four bytes, the text, and anything after |
| Payloads.WrapSealed | src/lib/sealedWrap.ts:39-55 | The array filled with a moving offset is the specified wrapper |
| Payloads.UnwrapSealed | src/lib/sealedWrap.ts:60-73 | The array read with a moving offset gives the specified fields |
| Payloads.UnwrapsWrapped | src/lib/sealedWrap.ts:39-73 | A wrapper comes apart into what it was made of; a name over 32 bytes comes back empty, a token or id not 32 long as thirty-two zeros |
| Payloads.ReadsWrapped | src/lib/messaging.ts:546-548 | Unwrap then decode recovers the payload |
| Payloads.BareTakenForWrapped | src/lib/sealedWrap.ts:23-25 | A bare payload is taken for a wrapped one exactly from 2^25 to 2^25 + 33*2^16 bytes of text |
| Payloads.ReadsBare | src/lib/messaging.ts:546-548 | Shorter than 2^25 bytes a bare payload is read as written |
| Prekeys.Device.AddOneTimePreKeys | src/keystore/index.ts:642-651 | Loads the document, and whatever happens meanwhile stores what it read with the new secrets, before the public keys are returned |
| Prekeys.Device.TakeOneTimePreKeySecret | src/keystore/index.ts:653-661 | Loads, and stores what it read without the secret; an unknown key ends without a write |
| Prekeys.Device.HandleAddOneTimePreKeys | worker/keys.ts:98-120 | The server counts, clamps to the room there was, and inserts later |
| Prekeys.Device.ReplenishIfLow | src/lib/prekeyReplenish.ts:42-67 | Count, save, publish; nothing when in flight, checked recently or healthy; a failed count starts no quiet period |
| Prekeys.ReplenishFillsToTarget | src/lib/prekeyReplenish.ts:42-67 | Undisturbed, a low pool's missing keys are made and their secrets kept whatever becomes of the request, and when that arrives the pool is filled to 20 with just those |
| Prekeys.ReplenishLeavesAlone | src/lib/prekeyReplenish.ts:42-51 | A healthy pool, a recent check or a failed count changes nothing |
| PrekeyRun.EveryKeyBackedExactly | src/keystore/index.ts:585-598 | Over every run, with all writers of the document interleaved: every key still wanted keeps its secret and every used secret stays gone, at every state, if and only if no write of the document was overtaken |
| PrekeyRun.EveryKeyBackedAndHandedOnce | worker/db.ts:211-221 | No key is handed out twice, whatever interleaves; with no write overtaken each key on the server has its secret, and a handed-out key keeps it until used and not longer |
| PrekeyRun.SavedKeySurvivesExactly | src/keystore/index.ts:642-651 | A saved key stays in the document until it is used if and only if no writer that had read the document before is stored after it |
| PrekeyRun.UsedKeyStaysGoneExactly | src/keystore/index.ts:653-661 | A used secret stays gone if and only if no writer that had read it is stored after the take |
| PrekeyRun.TakingIsSafeExactly | src/keystore/index.ts:653-661 | Taking a secret in time is harmless exactly when its key is not still to be handed out |
| PrekeyRun.TopUpLost | src/pages/Chat.tsx:1038 | A contact stored around a top-up: the key is on the server and its secret is gone |
| PrekeyRun.UsedSecretReturns | src/keystore/index.ts:620-624 | A contact stored around a take brings the used secret back |
| PrekeyRun.MissingSecretBreaksFirstContact | src/keystore/index.ts:630-637 | Answering agrees with the claimer exactly when the secret is there |
| PrekeyRun.AcceptedWithin | worker/keys.ts:98-120 | Of more than 200 keys nothing is accepted; of a first batch everything; of a top-up the longest beginning that leaves no more than 100 stored |
| PrekeyRun.GivenExactly | worker/keys.ts:144-167 | Over every run: a request is given the key longest on the server if and only if there is one and the requester has not asked before in this window; otherwise the keys stay |
| PrekeyRun.CeilingHolds | worker/keys.ts:109-118 | Requests handled one at a time never lift the pool above 100 |
| PrekeyRun.CeilingOvershot | worker/keys.ts:112-118 | Two requests counted before either is inserted both get the whole room |
| CrashPoints.CutOffAnywhere | src/lib/messaging.ts:733-742 | A crash between two writes, then redelivery: after the session is saved and before its effect a message is never shown or applied, after it once, after the mark it is a duplicate |
| CrashPoints.CutOffAfterThePrekey | src/lib/messaging.ts:394-403 | Cut off after its one-time prekey is taken, a first message is given up on redelivery |
| CrashPoints.CutOffAfterTheFirstSession | src/lib/messaging.ts:570-578 | Cut off after its session is saved, a first message is given up on redelivery |

## Left out

- RatchetRun.Agreement: message numbers stay below 2^32, where WrappedNumberRefused shows what happens otherwise; nobody but the two ends seals anything under a key that goes back to the session's secret, and every other frame may be injected.
- RatchetRun.NothingLost: speaks of at most `maxSkip` and 2000 letters; Agreement has the exact condition for all others.
- RatchetState.RatchetState.TryRatchetDecrypt: header bytes of the wrong length are one junk value, and the low-order points X25519 rejects are not modelled.
- Client.Client.Receive: a locked keystore, failing storage and malformed base64 or JSON inside a payload are not modelled, nor other writers of the document that holds contacts and prekeys while one message is handled; for the prekeys PrekeyRun says what those do.
- Client.Client.InstallSenderKey: groups' keys are dropped by group id; the source drops them by key prefix, the same thing while group ids hold no colon.
- Inbox.AcceptedAtMostOnce: the history holds received messages; own sent messages, expiry sweeps, conversation summaries and the media cache are not part of the keystore modelled here.
- GlareConvergence.GlareConverges: both handshakes and all later messages travel on the server-stamped path, where the promise holds; SealedGlareIsDropped is the other path. Up to two sessions per contact occur in it.
- GlareConvergence.EveryMessageReadable: for up to 1000 messages on the wire, the skip limit; MessagesReadExactly has no such bound.
- CrashPoints.CutOffAnywhere: for stamped messages on a session that is kept; the sealed path is not followed through a crash, and the two writes of an invitation (the group and its first key) count as one.
- MailboxRun.QueueConserved: names hold no colon, which registration sees to, and a sender's own account is not deleted and made again, which would restart its counter.
- Delivery.QueuedUntilProcessed: what a sealed envelope claims to be is a message or a receipt; a sealed envelope in the form of a group message, and one without an id, have no frame in the model.
- MailboxRun.GoneInTime: for server-stamped envelopes; a sealed envelope carries the client's timestamp or none.
- Mailbox.Mailbox.FlushQueued: storage is one sequence in key order; keys are ASCII, where byte order and character order agree. Failing writes are not modelled.
- ChangePasswordRun.ServerPasswordOpens: one change at a time on this device, as the form sees to; a change from another device is a request like any other only once it is staged here, and is not modelled otherwise.
- Payloads.WrapSealed: names, tokens and receipt ids are byte strings; a name of at most 32 characters but more than 32 bytes is not modelled.
- OpChain.OneAfterTheOther: the order of microtasks is left open: any due reaction may go next.
- OpChain.OneRejectionStopsTheRest: within one life of the mailbox object; eviction makes a new object with a new chain.
- PrekeyRun.EveryKeyBackedExactly: within one identity's lifetime, and handshakes name only keys that were handed out; TakingIsSafeExactly says what happens otherwise. A crash ends every writer of the client at once.
- The sealed relay and the anonymous bundle lookup are an answer handed to the receiver; server-side blocks are a flag on a send.
- Live delivered-notifications, wake-up pushes, recovery codes, biometric and passkey unlock, two-factor login, account deletion on the device, and the unknown-sender gate of the chat page.
- Building group payloads, rotation and relaying of sender keys after a membership change (src/pages/Chat.tsx).
- React components, media transfer, themes, plugins, HTTP routing and the SQL and IndexedDB plumbing: a single get or put is an atomic step.
