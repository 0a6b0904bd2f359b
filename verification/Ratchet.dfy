/**
 The Double Ratchet on values: what one encrypt and one decrypt mean for a session
 entry.  Decrypt is given here in its naive form, "copy the entry, step it, take the
 key, verify, keep or roll back"; module SessionEntries shows that the code's
 plan / peek / verify / apply / fill order does the same thing.
 */
module Ratchet {
  import opened Outcomes
  import opened Keys
  import opened Chains

  const U32: nat := 0x1_0000_0000
  const MAX_I64: int := 0x7fff_ffff_ffff_ffff

  type u32 = n: nat | n < U32

  type Plaintext = string

  /** AES-CBC under the cipher key and IV of a message key, or any other bytes. */
  datatype Ciphertext = Sealed(key: Secret, plain: Plaintext) | Garbage(bytes: nat)

  datatype WhisperMessage = WhisperMessage(ephemeral: Raw, counter: u32, previousCounter: u32, body: Ciphertext)

  /** The truncated HMAC over sender identity, receiver identity and message, under the
      MAC key of a message key, or any other 8 bytes. */
  datatype Tag = Mac(key: Secret, sender: Raw, receiver: Raw, msg: WhisperMessage) | Noise(bytes: nat)

  datatype Packet = Packet(msg: WhisperMessage, tag: Tag)

  datatype PreKeyMessage = PreKeyMessage(
    preKeyId: Option<u32>, baseKey: Raw, identityKey: Raw, message: Packet,
    registrationId: u32, signedPreKeyId: Option<u32>)

  datatype Outgoing = Whisper(packet: Packet) | PreKeyWhisper(pkmsg: PreKeyMessage)
  {
    function Inner(): Packet {
      match this
      case Whisper(p) => p
      case PreKeyWhisper(m) => m.message
    }
  }

  datatype PendingPreKey = PendingPreKey(signedKeyId: Option<u32>, preKeyId: Option<u32>, baseKey: Raw)

  datatype EntryState = EntryState(
    registrationId: u32,
    priv: Priv,               // currentRatchet.ephemeralKeyPair.privKey
    pubKey: Id,               // currentRatchet.ephemeralKeyPair.pubKey
    lastRemote: Id,           // currentRatchet.lastRemoteEphemeralKey
    previousCounter: u32,
    root: Secret,
    remoteIdentity: Raw,      // indexInfo.remoteIdentityKey
    chains: map<Id, ChainState>,
    pending: Option<PendingPreKey>)
  {
    /** No chain holds a key ahead of its own position, and positions start at -1. */
    ghost predicate WellStored() {
      forall id :: id in chains ==> chains[id].Behind()
    }
  }

  /** find_chain: the first of ids that is a key of the map. */
  function FirstIn<V>(m: map<Id, V>, ids: seq<Id>): (found: Option<Id>)
    ensures found.Some? ==> found.value in m
    ensures |ids| == 1 ==> found == if ids[0] in m then Some(ids[0]) else None
    ensures |ids| == 2 ==> found == if ids[0] in m then Some(ids[0]) else if ids[1] in m then Some(ids[1]) else None
  {
    if ids == [] then None
    else if ids[0] in m then Some(ids[0])
    else FirstIn(m, ids[1..])
  }

  /** The map without any of ids. */
  function Without<V>(m: map<Id, V>, ids: seq<Id>): (rest: map<Id, V>)
    ensures |ids| == 1 ==> rest == m - {ids[0]}
    ensures |ids| == 2 ==> rest == m - {ids[0]} - {ids[1]}
  {
    if ids == [] then m else Without(m - {ids[0]}, ids[1..])
  }

  // ---- the DH ratchet step ----

  function RetiredIds(e: EntryState): seq<Id> {
    if e.lastRemote == Empty then [] else IdsOfText(e.lastRemote)
  }

  /** Why the previous receiving chain cannot be walked to the counter the peer says it
      stopped at; the walk itself is discarded. */
  function ClosingError(e: EntryState, previousCounter: u32): Option<Error> {
    match FirstIn(e.chains, RetiredIds(e))
    case None => None
    case Some(id) =>
      if !e.chains[id].IsReceiving() then None
      else
        match Filled(e.chains[id], previousCounter)
        case Err(x) => Some(x)
        case Ok(_) => None
  }

  /** The chains after the previous receiving chain is dropped and the new one is in. */
  function WithReceiving(e: EntryState, remote: Raw, receiving: ChainState): map<Id, ChainState> {
    Without(e.chains, RetiredIds(e))[Named(remote) := receiving]
  }

  /** The chains without the sending chain our public key names. */
  function WithoutSending(chains: map<Id, ChainState>, pubKey: Id): map<Id, ChainState> {
    match FirstIn(chains, IdsOfText(pubKey))
    case None => chains
    case Some(id) => chains - {id}
  }

  /** The last counter of the sending chain our public key names, 0 when it sent nothing. */
  function StoppedAt(chains: map<Id, ChainState>, pubKey: Id, otherwise: u32): u32 {
    match FirstIn(chains, IdsOfText(pubKey))
    case None => otherwise
    case Some(id) =>
      if !chains[id].IsSending() then otherwise
      else if chains[id].counter > 0 then chains[id].counter % U32
      else 0
  }

  /** The entry one ratchet step further: a receiving chain for the remote key, our next
      ephemeral pair, and a sending chain for it. */
  function AfterStep(e: EntryState, remote: Raw, theirs: Priv, seed: Priv): EntryState {
    var dh := Agree(e.priv, theirs);
    var root := RootOf(e.root, dh);
    var dh' := Agree(seed, theirs);
    var chains := WithReceiving(e, remote, FreshChain(ChainOf(e.root, dh), RECEIVING));
    e.(priv := seed,
       pubKey := Named(Wire(Pub(seed))),
       lastRemote := Named(remote),
       previousCounter := StoppedAt(chains, e.pubKey, e.previousCounter),
       root := RootOf(root, dh'),
       chains := WithoutSending(chains, e.pubKey)[Named(Wire(Pub(seed))) := FreshChain(ChainOf(root, dh'), SENDING)])
  }

  /** A step is taken only when no chain exists for the remote key. */
  function Stepped(e: EntryState, remote: Raw, previousCounter: u32, seed: Priv): Result<EntryState> {
    if FirstIn(e.chains, ChainKeyIds(remote)).Some? then Ok(e)
    else
      match ClosingError(e, previousCounter)
      case Some(x) => Err(x)
      case None =>
        match PointOf(remote)
        case Bad(_) => Err(BadPublicKey)
        case Pub(theirs) => Ok(AfterStep(e, remote, theirs, seed))
  }

  // ---- decrypt ----

  function Open(key: Secret, c: Ciphertext): Option<Plaintext> {
    if c.Sealed? && c.key == key then Some(c.plain) else None
  }

  /** Step, find the receiving chain, take the message key, check the MAC. */
  function Authenticated(e: EntryState, p: Packet, us: Raw, seed: Priv): Result<(EntryState, Secret)> {
    match Stepped(e, p.msg.ephemeral, p.msg.previousCounter, seed)
    case Err(x) => Err(x)
    case Ok(e1) =>
      match FirstIn(e1.chains, ChainKeyIds(p.msg.ephemeral))
      case None => Err(NoReceivingChain)
      case Some(id) =>
        if !e1.chains[id].IsReceiving() then Err(NoReceivingChain)
        else
          match Taken(e1.chains[id], p.msg.counter)
          case Err(x) => Err(x)
          case Ok((c, key)) =>
            if p.tag != Mac(key, e.remoteIdentity, us, p.msg) then Err(BadMac)
            else Ok((e1.(chains := e1.chains[id := c]), key))
  }

  /** decrypt_entry in its naive order: every step works on a copy, and an error at any
      point is the whole result. */
  function NaiveDecrypt(e: EntryState, p: Packet, us: Raw, seed: Priv): Result<(EntryState, Plaintext)> {
    match Authenticated(e, p, us, seed)
    case Err(x) => Err(x)
    case Ok((e1, key)) =>
      match Open(key, p.msg.body)
      case None => Err(BadPadding)
      case Some(plain) => Ok((e1.(pending := None), plain))
  }

  /** A step leaves the new receiving chain in the map, unless the remote key is our own
      current key or the key pair just drawn. */
  predicate Apart(e: EntryState, remote: Raw, seed: Priv) {
    FirstIn(e.chains, ChainKeyIds(remote)).Some?
    || (&& FirstIn(WithReceiving(e, remote, FreshChain(Filler, RECEIVING)), IdsOfText(e.pubKey)) != Some(Named(remote))
        && Wire(Pub(seed)) != remote)
  }

  // ---- encrypt ----

  function SendingIds(chains: map<Id, ChainState>): set<Id> {
    set id | id in chains && chains[id].IsSending()
  }

  ghost function TheOne(ids: set<Id>): (id: Id)
    requires |ids| == 1
    ensures ids == {id}
  {
    var id :| id in ids;
    assert |ids - {id}| == 0;
    id
  }

  /** The sending chain: the one the current public key names, or the only one. */
  ghost function SendingChain(e: EntryState): (r: Result<Id>)
    ensures r.Ok? ==> r.value in e.chains
  {
    var named := FirstIn(e.chains, IdsOfText(e.pubKey));
    if named.Some? && e.chains[named.value].IsSending() then Ok(named.value)
    else if |SendingIds(e.chains)| == 0 then Err(NoSendingChain)
    else if |SendingIds(e.chains)| == 1 then Ok(TheOne(SendingIds(e.chains)))
    else Err(AmbiguousSendingChain)
  }

  /** The ephemeral key as it goes on the wire. */
  function WireKey(pubKey: Id): Raw {
    match pubKey
    case Named(raw) => WireForm(raw)
    case Empty => Bare(Bad(0))
    case Unparsed(_) => Bare(Bad(0))
  }

  function Emitted(e: EntryState, counter: u32, key: Secret, plain: Plaintext, us: Raw): Packet {
    var msg := WhisperMessage(WireKey(e.pubKey), counter, e.previousCounter, Sealed(key, plain));
    Packet(msg, Mac(key, us, e.remoteIdentity, msg))
  }

  function Wrapped(e: EntryState, p: Packet, us: Raw, registrationId: u32): Outgoing {
    match e.pending
    case None => Whisper(p)
    case Some(pk) => PreKeyWhisper(PreKeyMessage(pk.preKeyId, WireForm(pk.baseKey), us, p, registrationId, pk.signedKeyId))
  }

  /** The message sent under counter, unless the wire's u32 has no room for it. */
  function Numbered(e: EntryState, counter: int, key: Secret, plain: Plaintext, us: Raw, registrationId: u32): Result<Outgoing> {
    if counter >= U32 || counter < 0 then Err(CounterTooWide)
    else Ok(Wrapped(e, Emitted(e, counter, key, plain, us), us, registrationId))
  }

  /** One step of the sending chain, whose new message key is used and not kept. */
  function EncryptOn(e: EntryState, id: Id, plain: Plaintext, us: Raw, registrationId: u32): Result<(EntryState, Outgoing)>
    requires id in e.chains
  {
    var c := e.chains[id];
    if c.counter >= MAX_I64 then Err(CounterOverflow)
    else
      match Taken(c, c.counter + 1)
      case Err(x) => Err(x)
      case Ok((c1, key)) =>
        match Numbered(e, c.counter + 1, key, plain, us, registrationId)
        case Err(x) => Err(x)
        case Ok(out) => Ok((e.(chains := e.chains[id := c1]), out))
  }

  /** encrypt. */
  ghost function EncryptSpec(e: EntryState, plain: Plaintext, us: Raw, registrationId: u32): Result<(EntryState, Outgoing)> {
    if e.pubKey.Unparsed? then Err(BadBase64)
    else
      match SendingChain(e)
      case Err(x) => Err(x)
      case Ok(id) => EncryptOn(e, id, plain, us, registrationId)
  }

  /** An encrypt depends on the entry by its fields and the one chain it sends on. */
  lemma EncryptsWith(e: EntryState, id: Id, c: ChainState, taken: Result<(ChainState, Secret)>,
                     plain: Plaintext, us: Raw, registrationId: u32)
    requires id in e.chains && e.chains[id] == c && taken == Taken(c, c.counter + 1)
    ensures EncryptOn(e, id, plain, us, registrationId)
         == if c.counter >= MAX_I64 then Err(CounterOverflow)
            else if taken.Err? then Err(taken.error)
            else if Numbered(e, c.counter + 1, taken.value.1, plain, us, registrationId).Err? then Err(CounterTooWide)
            else Ok((e.(chains := e.chains[id := taken.value.0]),
                     Numbered(e, c.counter + 1, taken.value.1, plain, us, registrationId).value))
  {
  }

  /** Without a step, a decrypt depends on the entry by its fields and the chain it reads on. */
  lemma ReadsWith(e: EntryState, id: Id, c: ChainState, taken: Result<(ChainState, Secret)>, p: Packet, us: Raw, seed: Priv)
    requires FirstIn(e.chains, ChainKeyIds(p.msg.ephemeral)) == Some(id) && e.chains[id] == c && c.IsReceiving()
    requires taken == Taken(c, p.msg.counter)
    ensures NaiveDecrypt(e, p, us, seed)
         == if taken.Err? then Err(taken.error)
            else if p.tag != Mac(taken.value.1, e.remoteIdentity, us, p.msg) then Err(BadMac)
            else if Open(taken.value.1, p.msg.body).None? then Err(BadPadding)
            else Ok((e.(chains := e.chains[id := taken.value.0], pending := None), Open(taken.value.1, p.msg.body).value))
  {
  }
}
