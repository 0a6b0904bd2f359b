# A Dafny model of the Signal session layer

This project models the session layer of the repository: the Double Ratchet of
`native/signal/src/ratchet.rs`, the X3DH builders that start it, the byte-level codecs under
it, and the JavaScript wrapper that queues, archives and stores sessions around it.

- `Keys.dfy`, `Ladder.dfy`: key material as terms. X25519, HKDF and HMAC are injective
  constructors, a shared secret depends on the unordered pair of private keys, and `Derives`
  says what can be computed from what.
- `Chain.dfy`, `ChainRuns.dfy`: one symmetric chain as a mutable object, its capped store of
  skipped keys, the recursive fill and its read-only twin; whole epochs in any order.
- `Ratchet.dfy`, `SessionEntries.dfy`: a session entry on values ("copy, step, verify, keep or
  roll back") and as the mutable record the code edits (plan, peek, verify, apply, fill,
  remove), with the proof that the second refines the first.
- `EntryLaws.dfy`: what one encrypt or decrypt of an entry promises its caller: the prekeys
  named, nothing read twice, the older encodings of a record.
- `X3dh.dfy`: both session builders, who can compute the root they agree on, what they refuse.
- `Conversation*.dfy`: two parties over a network that reorders, drops, duplicates, rewrites and
  forges; the invariant of every run and what follows from it. A fresh private key is a number
  never drawn before; an attacker may attach any tag it has seen or can compute.
- `Compromise.dfy`: exactly which message keys a stolen entry gives, now and later.
- `Varint.dfy`, `Proto.dfy`, `ProtoMessages.dfy`: the protobuf codec.
- `Cbc.dfy`, `Hkdf.dfy`: CBC with PKCS#7 over any invertible block function, and the three HKDF
  loops over any 32-byte HMAC.
- `Records.dfy`, `SessionCipher.dfy`: records of several entries, archiving and eviction, and
  runs of the wrapper's operations over one address.
- `SessionReceipt.dfy`: exactly what each operation answers and leaves in storage.
- `FirstContact.dfy`, `WrapperRuns.dfy`: from one application's storage to the other's, the first
  message and every run after it.
- `Forgery.dfy`: prekey messages made up by someone who holds neither private key.
- `Queue.dfy`, `SessionQueue.dfy`: the per-address promise queue under every interleaving, and
  the counters sent when any mix of the wrapper's operations is queued on it.

Inputs from outside are parameters: the random seed of a new key pair, the clock, the order in
which a map is walked, and whether a storage write rejects.

Two places where the code and its comments differ, and the model follows the code. The comment
on `archiveAndMerge` (src/session-cipher.js:105-108, 145-148) says the backlog of an archived
session stays decryptable; decryption only ever tries the selected current entry
(native/signal/src/ratchet.rs:626-629), so the model proves nothing of the kind. The step list
above `plan_ratchet` (native/signal/src/ratchet.rs:322-328) says the previous receiving chain is
filled and its key dropped; the code only checks that it could be filled, then removes it.

## Model

| member | source | states |
|---|---|---|
| `Chains.Chain.EvictOldest` | native/signal/src/ratchet.rs:204-210 | the trimming loop leaves `Newest` of the store |
| `Chains.NewestMember` | native/signal/src/ratchet.rs:194-210 | an index survives trimming exactly when fewer than 2000 stored indices are above it, and it keeps its key |
| `Chains.NewestSeparates` | native/signal/src/ratchet.rs:194-210 | whatever trimming drops is older than whatever it keeps |
| `Chains.NewestAbsorbs` | native/signal/src/ratchet.rs:221-250 | trimming after each insert keeps what one trim of everything would keep |
| `Chains.Chain.Fill` | native/signal/src/ratchet.rs:252-276 | the recursion either fails with the guard's error and changes nothing, or reaches the specified state completely |
| `Chains.FillCloses` | native/signal/src/ratchet.rs:252-276 | a fill that passes the guards never fails part of the way: the key walks the HMAC chain, the counter is the target, the store is the newest 2000 of the old and new keys |
| `Chains.FilledHoldsTarget` | native/signal/src/ratchet.rs:252-276 | after a growing fill the target's own key is stored whatever was evicted |
| `Chains.Chain.Take` | native/signal/src/ratchet.rs:692-699 | fill then remove: the key of the counter, or the error, and the chain left behind |
| `Chains.WhyTakeFails` | native/signal/src/ratchet.rs:252-281 | each error exactly: behind the chain and not stored, chain closed, more than 2000 ahead; and nothing else |
| `Chains.Chain.Peek` | native/signal/src/ratchet.rs:283-301 | the read-only loop fails on the same inputs as the recursive fill and returns exactly the key the fill would have stored |
| `ChainRuns.CappedFill` | native/signal/src/ratchet.rs:204-276 | a growing fill keeps exactly the newest 2000 of old and new keys, each its proper key, and drops nothing below the cap |
| `ChainRuns.CapConverges` | native/signal/src/ratchet.rs:221-276 | a chain within the cap stays within it; one over it is within it after its first growing fill |
| `ChainRuns.FirstJumpEvictsNothing` | native/signal/src/ratchet.rs:41-48 | the largest single jump from an empty store evicts nothing |
| `ChainRuns.EpochDelivery` | native/signal/src/ratchet.rs:252-301 | any arrival order that stays in the window yields every message its own key; the chain left is a function of the set delivered: position the maximum, store exactly the undelivered counters below it |
| `ChainRuns.OrderIndependence` | native/signal/src/ratchet.rs:252-301 | two orders of one set of messages leave the same chain |
| `SessionEntries.SessionEntry.FindChain` | native/signal/src/ratchet.rs:149-163 | the first of the ids that is a key of the map |
| `SessionEntries.SessionEntry.CheckClosing` | native/signal/src/ratchet.rs:342-360 | the previous receiving chain is walked ahead only to learn whether it can be, and nothing is written |
| `SessionEntries.SessionEntry.SnapshotCounter` | native/signal/src/ratchet.rs:368-375 | the counter recorded for the sending chain about to be replaced |
| `SessionEntries.SessionEntry.PlanRatchet` | native/signal/src/ratchet.rs:331-422 | no plan when a chain for the remote key exists; otherwise the error of the step or a plan of two fresh chains that leaves the entry as it was |
| `SessionEntries.SessionEntry.ApplyRatchet` | native/signal/src/ratchet.rs:424-453 | applying the plan reaches the entry one ratchet step further |
| `SessionEntries.PlannedIsStopped` | native/signal/src/ratchet.rs:368-447 | the counter planned before the step is the one the retired sending chain stopped at |
| `SessionEntries.StepRetires` | native/signal/src/ratchet.rs:424-453 | a step removes the last remote key's chain under both encodings and our own last chain, and reaches no chain of another key |
| `SessionEntries.SessionEntry.PeekKey` | native/signal/src/ratchet.rs:656-663 | the message key of the planned or stored receiving chain, or the error taking it would give |
| `SessionEntries.SessionEntry.Verify` | native/signal/src/ratchet.rs:648-682 | the whole read-only pass: message key and plan when the MAC verifies, the first error otherwise |
| `SessionEntries.SessionEntry.Commit` | native/signal/src/ratchet.rs:689-699 | the writing pass reaches the specified entry |
| `SessionEntries.SessionEntry.DecryptEntry` | native/signal/src/ratchet.rs:638-706 | every error up to and including the MAC leaves the entry identical; past the MAC the entry is the committed one, and a padding error leaves pendingPreKey |
| `SessionEntries.TwoPassesAgree` | native/signal/src/ratchet.rs:650-699 | reading first and writing after the MAC succeeds exactly when stepping a copy does, with the same entry and key, provided the keys are apart |
| `SessionEntries.DecryptRefinesNaive` | native/signal/src/ratchet.rs:638-706 | decrypt refines "copy, step, verify, keep or roll back"; once the MAC has verified on keys that are apart only the padding can fail, and keys that are not apart are exactly when the commit fails |
| `SessionEntries.DecryptStored` | native/signal/src/ratchet.rs:614-636 | decrypt on a stored entry gives exactly the first error of the two passes or the new entry and plaintext, and succeeds exactly when the naive decrypt does, with its result |
| `SessionEntries.DecryptedIsNaive` | native/signal/src/ratchet.rs:638-706 | that outcome is the naive decrypt's, errors included, unless the remote key is our own current key or the key just drawn; success agrees even then |
| `SessionEntries.DecryptKeepsWellStored` | native/signal/src/ratchet.rs:204-276 | after a decrypt no stored key is ahead of its chain, so the two passes agree on the entry again |
| `SessionEntries.EncryptKeepsWellStored` | native/signal/src/ratchet.rs:536-560 | the same after an encrypt |
| `SessionEntries.SessionEntry.SelectSending` | native/signal/src/ratchet.rs:498-534 | the chain the public key names if it is sending, else the only sending one, else the two errors |
| `ConversationSteps.EncryptSucceeds` | native/signal/src/ratchet.rs:536-611 | in a conversation an encrypt emits the packet of the next counter of its epoch, sealed and tagged under that epoch's key with the right previous counter, wrapped while prekeys are pending |
| `SessionEntries.SessionEntry.Encrypt` | native/signal/src/ratchet.rs:474-611 | on success exactly one chain has moved one key on and the message carries that key and counter |
| `SessionEntries.EncryptStored` | native/signal/src/ratchet.rs:474-611 | encrypt on a stored entry equals its specification, errors included, and names pending prekeys by their own ids |
| `EntryLaws.EncryptTouchesOneChain` | native/signal/src/ratchet.rs:536-611 | an encrypt changes one chain and nothing else of the entry; while prekeys are pending the message names them, each id in the field the peer looks it up by, with the base key, identity and registration id |
| `EntryLaws.FirstFlight` | native/signal/src/ratchet.rs:577-611 | any number of encrypts: all name the same prekeys while these are pending, none does otherwise, and the counters are consecutive |
| `EntryLaws.ReplyEndsPrekeys` | native/signal/src/ratchet.rs:689-706 | after a decrypt no message names prekeys, and the identities stay |
| `EntryLaws.ReplayRefused` | native/signal/src/ratchet.rs:692-699 | what an entry has decrypted it refuses from then on, whatever is drawn |
| `EntryLaws.RefusalTellsNothing` | native/signal/src/ratchet.rs:666-689 | the error for a packet whose MAC does not verify is the same for every body and every such tag, and never a padding error |
| `EntryLaws.WhichChainSends` | native/signal/src/ratchet.rs:498-534 | the named chain sends if it is a sending one; else the only one; none and several are the two errors |
| `EntryLaws.LegacyChainReads` | native/signal/src/ratchet.rs:114-163 | a chain stored under the unprefixed key reads as the same chain under the prefixed one |
| `EntryLaws.LegacyChainSends` | native/signal/src/ratchet.rs:484-534 | and sends as it |
| `EntryLaws.LegacyKindReads` | native/signal/src/session.rs:112-127 | a receiving chain of kind 0 reads as one of kind 2 |
| `X3dh.BuildInitial` | native/signal/src/x3dh.rs:82-203 | refuses in the source's order; otherwise the initiator's entry, one ratchet step past the X3DH root |
| `X3dh.BuildRecipient` | native/signal/src/x3dh.rs:216-294 | refuses in the source's order; otherwise the recipient's entry at the X3DH root, from swapped a1 and a2 |
| `X3dh.RootsMeetOnSamePrekeys` | native/signal/src/x3dh.rs:118-157 | with one base key, two roots are one exactly when both identities, the signed prekey and the one-time prekey are |
| `X3dh.RootsTellInitiators` | native/signal/src/x3dh.rs:118-157 | with one recipient, exactly when the initiator's identity and base key are |
| `X3dh.RootKnownTo` | native/signal/src/x3dh.rs:118-157 | the root can be computed exactly by who holds a private half of each of DH1 to DH4 |
| `X3dh.RootNeedsRecipient` | native/signal/src/x3dh.rs:118-157 | so not by who lacks the base key and any one of the recipient's keys |
| `X3dh.SubstitutionRefused` | native/signal/src/x3dh.rs:86-117 | in an accepted bundle no other signed prekey, encoding of it or signer passes the signature, and no other own identity or prekey its check |
| `Ladder.RootSecret` | native/signal/src/x3dh.rs:118-157 | who holds neither identity key nor signed prekey private half computes no root of the ladder |
| `Conversation.Handshake` | native/signal/src/x3dh.rs:82-294 | both builders on matching parameters reach the initial two-party world |
| `Conversation.InitialInv` | native/signal/src/x3dh.rs:82-294 | that world satisfies the two-party invariant |
| `ConversationSteps.SendKeepsInv` | native/signal/src/ratchet.rs:474-611 | every encrypt keeps the two-party invariant |
| `ConversationRuns.DeliveryKeepsInv` | native/signal/src/ratchet.rs:638-706 | every delivery, of anything a hostile network can produce, keeps it |
| `ConversationRuns.RunKeepsInv` | native/signal/src/ratchet.rs:331-706 | it holds after every interleaving of encrypts and deliveries |
| `ConversationTheorems.LadderAgreement` | native/signal/src/ratchet.rs:331-453 | both root keys lie on one ladder exactly one rung apart; sending and receiving chain of one key are one HMAC chain, the receiver not ahead |
| `ConversationTheorems.ReachableShape` | native/signal/src/ratchet.rs:424-534 | at most one sending chain, under the public key, and one receiving chain, under the last remote key; the sending store stays empty; encrypt never meets the ambiguity |
| `ConversationTheorems.WhenEncryptFails` | native/signal/src/ratchet.rs:506-560 | encrypt fails exactly when the entry has no sending chain yet or the u32 counter is used up |
| `ConversationTheorems.Delivery` | native/signal/src/ratchet.rs:474-706 | a peer's message decrypts to exactly its plaintext if and only if its chain has or reaches the counter, or it opens the next epoch within both skip bounds |
| `ConversationTheorems.NothingIsLost` | native/signal/src/ratchet.rs:204-301 | in every reachable world and for epochs of any length, a message of the current epoch not older than the last 2000 counters the reader has come to is readable if and only if it was not accepted before and is at most MAX_SKIP ahead |
| `ConversationTheorems.Authenticity` | native/signal/src/ratchet.rs:666-682 | what decrypts is a packet the peer emitted, unchanged, with the plaintext it was emitted with |
| `ConversationTheorems.AtMostOnce` | native/signal/src/ratchet.rs:692-699 | over any run no (ephemeral key, counter) is accepted twice |
| `ConversationTheorems.AcceptedWasSent` | native/signal/src/ratchet.rs:638-706 | every acceptance has its emission with the same plaintext |
| `ConversationTheorems.SenderCounters` | native/signal/src/ratchet.rs:368-375 | counters under one key are 0, 1, 2, ... in order, no message key is used twice, previous_counter is the last counter of the sender's key before |
| `Compromise.CompromiseScope` | native/signal/src/ratchet.rs:265-275 | a stolen entry gives exactly: later keys of its sending chain, what its receiving chain holds or comes to, and the one next epoch; nothing consumed, evicted or retired, and nothing two ratchet steps on |
| `Compromise.OwnMessages` | native/signal/src/ratchet.rs:542-545 | of its own side's messages, exactly those sent later on the chain it held |
| `Compromise.ForwardSecrecy` | native/signal/src/ratchet.rs:424-453 | of the peer's messages so far, exactly those it could still have read |
| `Compromise.ConsumedKeysAreGone` | native/signal/src/ratchet.rs:692-699 | none it has read |
| `Varints.ReadVarint` | native/signal/src/proto.rs:44-65 | the shift-and-or loop returns what the bytes spell, with the source's two errors, and never moves past the end |
| `Varints.VarintIff` | native/signal/src/proto.rs:44-65 | accepted exactly when at most ten bytes end the number, the tenth at most 1; the value is the exact base-128 sum |
| `Varints.RoundAdds` | native/signal/src/proto.rs:53-59 | no round drops a bit in the shift and the or adds |
| `Varints.WriteVarint` | native/signal/src/proto.rs:67-78 | appends the least-first base-128 bytes |
| `Varints.VarintRoundTrip` | native/signal/src/proto.rs:44-78 | every u64 reads back, whatever follows |
| `Varints.NotCanonical` | native/signal/src/proto.rs:53-58 | a number has more than one accepted spelling |
| `ProtoMessages.ReadBytes` | native/signal/src/proto.rs:80-88 | length-delimited bytes, or the error, with the cursor inside the input |
| `ProtoMessages.ReadNumber` | native/signal/src/proto.rs:90-98 | a varint out of u32 range is an error, never truncated |
| `ProtoMessages.ReadTag` | native/signal/src/proto.rs:105-117 | field and wire type, moving at least one byte on |
| `ProtoMessages.SkipField` | native/signal/src/proto.rs:123-151 | skips exactly the payload of wire types 0, 1, 2 and 5 |
| `ProtoMessages.WriteTag` | native/signal/src/proto.rs:119-121 | the or of shifted field and wire type is their sum |
| `ProtoMessages.DecodeWhisper` | native/signal/src/proto.rs:168-217 | the loop computes the specified decoding of every byte string |
| `ProtoMessages.DecodePreKey` | native/signal/src/proto.rs:234-304 | the loop computes the specified decoding of every byte string |
| `ProtoMessages.EncodeWhisper` | native/signal/src/proto.rs:219-230 | writes the message's fields in order |
| `ProtoMessages.EncodePreKey` | native/signal/src/proto.rs:306-325 | writes the message's fields in order, the optional ids only when present |
| `Proto.DecodeIsFold` | native/signal/src/proto.rs:153-217 | decoding any string of fields followed by anything is the fold over the fields, errors included |
| `Proto.DecodeNeedsFields` | native/signal/src/proto.rs:105-151 | what is not a string of fields decodes to no message |
| `Proto.UnknownIgnored` | native/signal/src/proto.rs:123-151 | unknown fields at any field boundary change nothing |
| `Proto.FoldKeepsLast` | native/signal/src/proto.rs:180-203 | the fold succeeds exactly when every known field has its wire type and range, and keeps the last of each |
| `Proto.WireTypes` | native/signal/src/proto.rs:123-151 | wire type 1 takes eight bytes, 5 four, 0 a varint; 3 and 4 are refused as groups, 6 and 7 as unsupported |
| `Proto.SizedBytes` | native/signal/src/proto.rs:80-88 | wire type 2 takes the size read and that many bytes, or is truncated |
| `ProtoMessages.WhisperLastWins` | native/signal/src/proto.rs:168-217 | decode_whisper accepts exactly the field strings that suit and end with non-empty byte fields; each field is the last one given |
| `ProtoMessages.PreKeyLastWins` | native/signal/src/proto.rs:234-304 | the same for decode_pkmsg, whose registration id must be given |
| `ProtoMessages.ItemsReadBack` | native/signal/src/proto.rs:100-121 | any written string of fields parses as those fields |
| `ProtoMessages.WhisperRoundTrip` | native/signal/src/proto.rs:168-230 | decode(encode(m)) is m exactly when both byte fields are non-empty, else the error of the first empty one |
| `ProtoMessages.PreKeyRoundTrip` | native/signal/src/proto.rs:234-325 | the same with and without the optional ids |
| `ProtoMessages.WhisperOnTheWire` | native/signal/src/proto.rs:219-230 | the bytes written: tags 0a, 10, 18, 22 in front of the four fields |
| `ProtoMessages.PreKeyOnTheWire` | native/signal/src/proto.rs:306-325 | the bytes written: tags 12, 1a, 22, 28, and 08 and 30 for the ids that are there |
| `Cbc.Encrypt` | native/signal/src/ratchet.rs:51-69 | the chaining loop computes CBC of the padded plaintext |
| `Cbc.CheckPadding` | native/signal/src/ratchet.rs:89-105 | the accumulated difference accepts exactly PKCS#7 padding |
| `Cbc.Decrypt` | native/signal/src/ratchet.rs:72-106 | the loop and the padding check compute the specified decryption |
| `Cbc.RoundTrip` | native/signal/src/ratchet.rs:51-106 | decrypt(encrypt(p)) is p for every p and every invertible block function |
| `Cbc.AcceptsItsImage` | native/signal/src/ratchet.rs:72-106 | decrypt(c) is Ok(p) exactly when encrypt(p) is c |
| `Cbc.ChainAt` | native/signal/src/ratchet.rs:51-69 | each ciphertext block deciphers to its plaintext block xored with the block before it (NIST SP 800-38A, section 6.2) |
| `Cbc.PaddingIsStandard` | native/signal/src/ratchet.rs:51-106 | what is encrypted and what is accepted is exactly the padding of RFC 5652, section 6.3 |
| `Hkdf.DeriveThree` | native/signal/src/x3dh.rs:34-52 | the first three blocks of RFC 5869 |
| `Hkdf.DeriveN` | native/signal/src/ratchet.rs:168-192 | the first n blocks |
| `Hkdf.DeriveJs` | src/crypto.js:36-60 | the in-place buffer computes the first one to three blocks, with the two argument errors |
| `Hkdf.Prefix` | native/signal/src/ratchet.rs:366-382 | fewer blocks are the first of more, so the initiator's three-chunk first step meets the recipient's two-chunk one |
| `Hkdf.BlockAt` | native/signal/src/ratchet.rs:181-190 | block i + 1 is where the loop puts it |
| `Hkdf.ThreeBlocks` | native/signal/src/ratchet.rs:168-192 | the three blocks written out as RFC 5869 has them: the salt keys the extraction, the octets count 1, 2, 3 |
| `Queue.QueueJob.Add` | src/queue-job.js:15-39 | a call from inside a job of the key is dropped and changes nothing; any other is chained after the tail and becomes the tail |
| `Queue.Drive` | src/queue-job.js:15-46 | a queue object driven through any enabled action keeps the tails of the interleaving model and chains, or drops, the job the model does, with the context of the calling job |
| `Queue.ReentryIsDropped` | src/queue-job.js:24 | in every run, a call for its own key from inside a job that has begun changes nothing |
| `Queue.QueueIndex.SharedQueue` | src/session-record.js:24-31 | one queue for each storage and address, made on first use, never shared between two places |
| `Queue.StepKeepsInv` | src/queue-job.js:15-46 | every interleaving step keeps: chained after the last job of the key, in add order, seeing the record sequential execution leaves |
| `Queue.Alone` | src/queue-job.js:29-30 | while a job is under way those of its key before it have settled and those after it wait |
| `Queue.Linearizable` | src/queue-job.js:15-46 | in every run same-key jobs begin in add order without overlap, settle with the results of sequential execution, and leave its record |
| `Queue.NeverStuck` | src/queue-job.js:29-38 | past rejections and clean-ups, the first unsettled job of a key can always move |
| `Queue.ForgottenWhenSettled` | src/queue-job.js:32-37 | a tail is forgotten only when every job of its key has settled |
| `SessionQueue.EncryptCounts` | native/signal/src/ratchet.rs:536-560 | a successful encrypt uses the next counter under the current ephemeral key and leaves the same chain the sending one |
| `SessionQueue.DecryptStands` | native/signal/src/ratchet.rs:424-453 | a decrypt without a ratchet step leaves the sending chain and its counter alone; one with a step ends with a sending chain of the key just drawn, from which nothing was sent |
| `SessionQueue.StepRestartsCounter` | native/signal/src/ratchet.rs:424-453 | so the first message after a step carries counter 0: counters rise under one ephemeral key, not across keys |
| `SessionQueue.OpMoves` | src/session-cipher.js:40-130 | each operation on a record keeps the open entry's ephemeral key with a counter that does not fall, or makes it the key just drawn |
| `SessionQueue.KeyHistory` | src/session-cipher.js:40-130 | the same from any queued job to any later one |
| `SessionQueue.CountersNeverRepeat` | src/session-record.js:21-31 | in every interleaving of any encrypts, decrypts and initiations queued on an address, whose key draws do not repeat, from no record or a well-formed one, of two successful encrypts under one ephemeral key the one added later carries the larger counter |
| `Records.CurrentSession` | native/signal/src/session.rs:237-254 | none of an empty record; otherwise an entry no other outranks by (open, used), and of equals the last in walk order |
| `Records.CurrentSessionEntry` | src/session-cipher.js:13-22 | none of an empty record; otherwise an entry no other outranks, and of equals the first in walk order |
| `Records.SelectionsAgree` | src/session-cipher.js:8-22 | the two selections agree where no two entries tie |
| `Records.CurrentIsUsedLast` | native/signal/src/session.rs:237-254 | the selected entry is open when any is, and no such entry was used later |
| `Records.Parsed.ArchiveOpen` | src/session-cipher.js:153-157 | every open entry is closed at its last use, or now when it was never used |
| `Records.Parsed.EvictOldest` | src/session-cipher.js:171-178 | deletes the specified archived entries |
| `Records.SortedRises` | src/session-cipher.js:172-174 | the archived entries are listed once each in order of closing |
| `Records.EvictionDropsOldest` | src/session-cipher.js:165-178 | open entries stay, at most 40 archived stay, and none is dropped that was closed after one that is kept |
| `Records.SortIsStable` | src/session-cipher.js:172-174 | entries closed at one time keep the order they are walked in |
| `Records.ArchiveAndMerge` | src/session-cipher.js:149-163 | archive, merge and evict in place compute the specified record, whose times and survivors are those of `Records.MergeClosesAt` and `Records.ArchivedSurvives` |
| `Records.MergeKeepsSound` | src/session-cipher.js:149-178 | after a merge exactly the fresh entry is open, the others are the old ones archived, at most 40 of them |
| `Records.MergeClosesAt` | src/session-cipher.js:153-157 | the open entry is closed at its last use, or now when it was never used; a closed one keeps its time; nothing else changes |
| `Records.MergeKeepsForty` | src/session-cipher.js:165-178 | none is lost while fewer than 40 are archived, exactly 40 are left otherwise |
| `Records.ArchivedSurvives` | src/session-cipher.js:149-178 | the session just archived stays when fewer than 40 others were closed no earlier, and goes when 40 were closed later |
| `SessionCipher.Storage.InitOutgoing` | src/session-builder.js:16-42 | the record is replaced by one with a fresh initiator entry, or the refusal changes nothing |
| `SessionCipher.Storage.InitIncoming` | src/session-builder.js:49-90 | builds a candidate entry or gives the prekey error, and stores nothing |
| `SessionCipher.BuildCandidate` | src/session-cipher.js:91-111 | the stored record when it knows the base key, a merged or lone fresh entry otherwise |
| `SessionCipher.DecryptPreKeyWhisperMessage` | src/session-cipher.js:80-130 | exactly what is stored and returned, each error included, with storage writes that may reject |
| `SessionCipher.DecryptWhisperMessage` | src/session-cipher.js:62-78 | the same for a whisper message |
| `SessionCipher.EncryptMessage` | src/session-cipher.js:40-60 | the same for an encrypt |
| `SessionCipher.ChangesOnlyAuthenticated` | src/session-cipher.js:98-120 | the stored record changes only to the output of a decrypt whose MAC verified over this message, from the current entry's peer to us |
| `Forgery.ForgedChangesNothing` | src/session-cipher.js:99-102 | a message whose tag is noise, over another message, for another receiver, from another sender, or under a key the sender can compute while the tried entry's secrets are not computable, changes neither record nor prekeys |
| `Forgery.FreshEntryIsUnknown` | native/signal/src/x3dh.rs:216-260 | nothing in the entry a prekey message would build is computable without the named identity key or our signed prekey |
| `Forgery.StrangersChangeNothing` | src/session-cipher.js:91-120 | so a prekey message for a new session that a stranger to both private keys makes up changes nothing, whatever base key and prekey it names |
| `SessionCipher.PrekeyGoesLast` | src/session-cipher.js:120-127 | the prekey named is removed exactly when the message is answered, storage can remove it and the base key was new; no other goes; by then the session is stored |
| `SessionCipher.RunKeepsGood` | src/session-cipher.js:40-178 | over any sequence of operations, from no record or a well-formed one, exactly one entry is open, at most 40 are archived, no stored key is ahead of its chain, so every operation may be called again, and no prekey comes back |
| `SessionCipher.CurrentIsTheOpenOne` | native/signal/src/session.rs:237-254 | after any such sequence the entry the next operation uses is the open one |
| `SessionCipher.UsedPrekeyRefused` | src/session-builder.js:52-60 | a message that would build on a prekey already used is refused and changes nothing |
| `SessionReceipt.WhisperIsStored` | src/session-cipher.js:62-78 | a whisper message is answered exactly when there is a session, its open entry decrypts it and the write succeeds; then the open entry is stored as the decrypt left it and no other differs; otherwise nothing changes |
| `SessionReceipt.WhisperReplayRefused` | src/session-cipher.js:62-78 | delivered again it is refused and nothing changes |
| `SessionReceipt.PreKeyIsStored` | src/session-cipher.js:91-128 | the same for a prekey message on the session it names or builds, with the prekey it costs and a removal that may reject |
| `SessionReceipt.PreKeyReplayRefused` | src/session-cipher.js:86-98 | delivered again it meets the session it left, is refused and changes nothing |
| `SessionReceipt.PrekeyBuildsOnce` | src/session-cipher.js:121-127 | a one-time prekey builds one session: after any operations a message that would build another on it is refused |
| `SessionReceipt.BuildArchives` | src/session-cipher.js:105-110 | a message that builds a session beside others archives them, and loses none that there is room for |
| `SessionReceipt.ClosedRecordRefuses` | native/signal/src/ratchet.rs:722-726 | a record in which nothing is open reads no prekey message |
| `SessionReceipt.EncryptIsStored` | src/session-cipher.js:40-60 | an encrypt is answered exactly when there is a session, its open entry encrypts and the write succeeds; then the moved chain is stored |
| `SessionReceipt.InitiationIsStored` | src/session-builder.js:16-42 | an initiation is answered exactly when the bundle is accepted and the write succeeds; the record then has one fresh open entry |
| `SessionReceipt.RejectedWriteChangesNothing` | src/session-cipher.js:55-57 | a rejected write answers nothing and leaves storage as it was |
| `FirstContact.FlightGoesOn` | native/signal/src/ratchet.rs:474-611 | each encrypt before a reply sends the next prekey message of the session the initiation settled on |
| `FirstContact.RecipientReads` | native/signal/src/ratchet.rs:638-706 | a recipient's entry reads it exactly at the same root and signed prekey, from that sender, as that receiver, drawing another key, within 2000 |
| `FirstContact.FirstContact` | src/session-cipher.js:80-130 | given to the recipient's storage as the first to arrive, it is answered exactly when the recipient holds the identity key, signed prekey and one-time prekey the initiator used, and then with its plaintext |
| `WrapperRuns.InitiationBegins` | src/session-builder.js:16-42 | an answered initiation and a peer with the bundle's prekeys are where a conversation begins |
| `WrapperRuns.RunFollows` | src/session-cipher.js:40-130 | every run of the wrapper's operations on the two storages, with rejecting writes and a hostile network, follows a run of the conversation |
| `WrapperRuns.AnsweredAtMostOnce` | src/session-cipher.js:62-130 | over such a run no message is answered twice |
| `WrapperRuns.AnswersWereSent` | src/session-cipher.js:40-130 | every answer is the plaintext the other side gave to an encrypt that was answered |
| `WrapperRuns.AnsweredWhenReadable` | src/session-cipher.js:62-130 | a sent message is answered, with its plaintext, exactly when the conversation has it readable |

## Left out

- Curve, signature, hash, HMAC and AES internals, randomness and timing: abstract, as above;
  scrubbing of secrets from memory has no functional content.
- JSON and base64: a record is its value, and a base64 text its bytes. A stored field that is not
  valid base64 is modelled for the public key used as a map key only.
- The 0x33 version byte and the shortest-length check before decoding, and the joining of message
  and MAC into one byte string: the ratchet works on decoded messages, and the MAC is over the
  message value. That two byte strings spell one message therefore does not show in the ratchet
  proofs; `Varints.NotCanonical` says that it happens.
- The AES key, the MAC key and the IV drawn from a message key are not told apart: a ciphertext and
  a tag name the message key itself.
- Small-order points and keys of a wrong length are one refused point (`Bad`).
- X3dh.BuildInitial: takes a recipient key only in its 33-byte form led by 0x05; the source looks
  at the length and not at the first byte (native/signal/src/x3dh.rs:87-90).
- X3dh.BuildRecipient: takes a sender identity only in that form, where the source again looks at
  the length alone (native/signal/src/x3dh.rs:225-227).
- SessionEntries.SessionEntry.DecryptEntry: asks that no stored key is ahead of its chain and that
  counters start at -1. New entries satisfy it and every operation keeps it
  (`SessionCipher.RunKeepsGood`); a record edited by hand may not.
- SessionEntries.DecryptStored: asks the same.
- SessionCipher.DecryptPreKeyWhisperMessage: asks the same of every stored entry.
- SessionCipher.DecryptWhisperMessage: asks the same of every stored entry.
- Conversation.Handshake: one session between two parties; records with several entries are in
  Records.dfy and SessionCipher.dfy.
- ConversationTheorems.Delivery: the entry's chains appear in the condition, because whether a key
  more than 2000 counters old was evicted depends on what else arrived;
  `ConversationTheorems.NothingIsLost` is free of that.
- WrapperRuns.RunFollows: the peer starts without a session, frames carry the header of the first
  contact, and the private keys drawn are numbered in the order of the deliveries.
- Records.MergeKeepsSound: asks that entries sit under their own base key, that use times are not
  negative and that one entry is open, which every record the wrapper writes satisfies.
- Records.CurrentSession: ties are broken by the order the map is walked in, which differs between
  the two implementations; `Records.SelectionsAgree` asks that there are none.
- Queue.QueueJob.Add: the dropped job of a re-entrant call settles at once and is not part of a run.
- Queue.NeverStuck: a job that awaits a job of another key it issued itself, and so deadlock across
  keys, is not modelled; issuing such a job is.
- SessionQueue.CountersNeverRepeat: prekeys are shared by all addresses of a storage, so what
  storage answers for them is a parameter of each job and not followed through the queue.
- Queue.StepKeepsInv: a job is one load, one computation and at most one store; other awaits inside
  it change nothing the model sees.
- archive_current, the native exports, the platform loader, and the parsing and version check of a
  stored record.
