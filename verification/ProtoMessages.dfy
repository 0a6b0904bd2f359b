/**
 The two Signal messages: the decoders as loops over a cursor, the encoders as writers, and
 the round trip between them.
 */
module ProtoMessages {
  import opened Varints
  import opened Proto

  datatype WhisperMessage = WhisperMessage(
    ephemeralKey: seq<byte>, counter: u32, previousCounter: u32, ciphertext: seq<byte>)

  datatype PreKeyMessage = PreKeyMessage(
    preKeyId: Option<u32>, baseKey: seq<byte>, identityKey: seq<byte>, message: seq<byte>,
    registrationId: u32, signedPreKeyId: Option<u32>)

  // ---- messages out of folded fields ----

  function TextOf(seen: map<nat, Item>, field: nat): seq<byte> {
    if field in seen && seen[field].Bytes? then seen[field].data else []
  }

  function NumberOf(seen: map<nat, Item>, field: nat): u32 {
    if field in seen && seen[field].Varint? && seen[field].value < 0x1_0000_0000 then seen[field].value else 0
  }

  function MaybeNumber(seen: map<nat, Item>, field: nat): Option<u32> {
    if field in seen then Some(NumberOf(seen, field)) else None
  }

  /** Why a required field of bytes will not do. */
  function Lacking(seen: map<nat, Item>, field: nat): Option<Error> {
    if field !in seen then Some(Required(field))
    else if TextOf(seen, field) == [] then Some(EmptyBytes(field))
    else None
  }

  /** The checks after the loop of decode_whisper. */
  function WhisperFrom(seen: map<nat, Item>): Result<WhisperMessage> {
    if Lacking(seen, 1).Some? then Err(Lacking(seen, 1).value)
    else if Lacking(seen, 4).Some? then Err(Lacking(seen, 4).value)
    else Ok(WhisperMessage(TextOf(seen, 1), NumberOf(seen, 2), NumberOf(seen, 3), TextOf(seen, 4)))
  }

  /** The checks after the loop of decode_pkmsg. */
  function PreKeyFrom(seen: map<nat, Item>): Result<PreKeyMessage> {
    if Lacking(seen, 2).Some? then Err(Lacking(seen, 2).value)
    else if Lacking(seen, 3).Some? then Err(Lacking(seen, 3).value)
    else if Lacking(seen, 4).Some? then Err(Lacking(seen, 4).value)
    else if 5 !in seen then Err(Required(5))
    else Ok(PreKeyMessage(MaybeNumber(seen, 1), TextOf(seen, 2), TextOf(seen, 3), TextOf(seen, 4),
                          NumberOf(seen, 5), MaybeNumber(seen, 6)))
  }

  function DecodedWhisper(s: seq<byte>): Result<WhisperMessage> {
    match FieldsAt(Whisper, s, map[])
    case Err(e) => Err(e)
    case Ok(seen) => WhisperFrom(seen)
  }

  function DecodedPreKey(s: seq<byte>): Result<PreKeyMessage> {
    match FieldsAt(PreKeyWhisper, s, map[])
    case Err(e) => Err(e)
    case Ok(seen) => PreKeyFrom(seen)
  }

  // ---- reading methods ----

  /** read_bytes. */
  method ReadBytes(bytes: seq<byte>, pos: nat) returns (r: Result<seq<byte>>, next: nat)
    requires pos <= |bytes|
    ensures pos <= next <= |bytes|
    ensures r.Ok? ==> BytesAt(bytes[pos..]) == Ok(Read(r.value, next - pos))
    ensures r.Err? ==> BytesAt(bytes[pos..]) == Err(r.error)
  {
    var len;
    len, next := ReadVarint(bytes, pos);
    match len {
      case Err(e) => return Err(e), next;
      case Ok(n) =>
        if n > |bytes| - next {
          return Err(BytesTruncated), next;
        }
        var out := bytes[next..next + n];
        assert out == bytes[pos..][next - pos..next - pos + n];
        return Ok(out), next + n;
    }
  }

  /** read_varint_u32. */
  method ReadNumber(bytes: seq<byte>, pos: nat, field: nat) returns (r: Result<u32>, next: nat)
    requires pos <= |bytes|
    ensures pos <= next <= |bytes|
    ensures r.Ok? ==> NumberAt(field, bytes[pos..]) == Ok(Read(r.value, next - pos))
    ensures r.Err? ==> NumberAt(field, bytes[pos..]) == Err(r.error)
  {
    var value;
    value, next := ReadVarint(bytes, pos);
    match value {
      case Err(e) => return Err(e), next;
      case Ok(v) =>
        if v >= 0x1_0000_0000 {
          return Err(TooWide(field)), next;
        }
        return Ok(v), next;
    }
  }

  /** read_tag; it moves past at least one byte. */
  method ReadTag(bytes: seq<byte>, pos: nat) returns (r: Result<Tag>, next: nat)
    requires pos <= |bytes|
    ensures pos <= next <= |bytes|
    ensures r.Ok? ==> TagRead(bytes, pos, r.value, next)
    ensures r.Err? ==> TagAt(bytes[pos..]) == Err(r.error)
  {
    var tag;
    tag, next := ReadVarint(bytes, pos);
    match tag {
      case Err(e) => return Err(e), next;
      case Ok(v) =>
        if v > 0xffff_ffff {
          return Err(TagOverflow), next;
        }
        var field, wire := v / 8, v % 8;
        if field == 0 || field > 0x1fff_ffff {
          return Err(InvalidField), next;
        }
        return Ok(Tag(field, wire)), next;
    }
  }

  /** From pos to next stands a payload that reads as item, or none for this reason. */
  ghost predicate PayloadRead(bytes: seq<byte>, pos: nat, tag: Tag, item: Result<Item>, next: nat)
    requires pos <= |bytes|
  {
    && pos <= next <= |bytes|
    && PayloadAt(tag, bytes[pos..]) == if item.Ok? then Ok(Read(item.value, next - pos)) else Err(item.error)
  }

  /** The same for a field of a message. */
  ghost predicate FieldRead(form: Form, bytes: seq<byte>, pos: nat, tag: Tag, item: Result<Item>, next: nat)
    requires pos <= |bytes|
  {
    && pos <= next <= |bytes|
    && FieldAt(form, tag, bytes[pos..]) == if item.Ok? then Ok(Read(item.value, next - pos)) else Err(item.error)
  }

  /** skip_field. */
  method SkipField(bytes: seq<byte>, pos: nat, tag: Tag) returns (r: Result<()>, next: nat, ghost item: Result<Item>)
    requires pos <= |bytes|
    ensures pos <= next <= |bytes| && (r.Ok? <==> item.Ok?) && (r.Err? ==> item == Err(r.error))
    ensures PayloadRead(bytes, pos, tag, item, next)
  {
    match tag.wire {
      case 0 =>
        var v;
        v, next := ReadVarint(bytes, pos);
        match v {
          case Err(e) => return Err(e), next, Err(e);
          case Ok(value) => return Ok(()), next, Ok(Varint(tag.field, value));
        }
      case 1 =>
        if |bytes| - pos < 8 {
          return Err(Fixed64Truncated), pos, Err(Fixed64Truncated);
        }
        return Ok(()), pos + 8, Ok(Fixed64(tag.field, bytes[pos..][..8]));
      case 2 =>
        var d;
        d, next := ReadBytes(bytes, pos);
        match d {
          case Err(e) => return Err(e), next, Err(e);
          case Ok(data) => return Ok(()), next, Ok(Bytes(tag.field, data));
        }
      case 5 =>
        if |bytes| - pos < 4 {
          return Err(Fixed32Truncated), pos, Err(Fixed32Truncated);
        }
        return Ok(()), pos + 4, Ok(Fixed32(tag.field, bytes[pos..][..4]));
      case w =>
        if w == 3 || w == 4 {
          return Err(GroupWireType), pos, Err(GroupWireType);
        }
        return Err(UnsupportedWireType), pos, Err(UnsupportedWireType);
    }
  }

  lemma UnknownReads(form: Form, bytes: seq<byte>, pos: nat, tag: Tag, item: Result<Item>, next: nat)
    requires pos <= |bytes| && KindOf(form, tag.field) == Unknown && PayloadRead(bytes, pos, tag, item, next)
    ensures FieldRead(form, bytes, pos, tag, item, next)
    ensures item.Ok? ==> item.value.field == tag.field
  {
  }

  function BytesItem(field: nat, r: Result<seq<byte>>): Result<Item> {
    match r
    case Ok(data) => Ok(Bytes(field, data))
    case Err(e) => Err(e)
  }

  function NumberItem(field: nat, r: Result<u32>): Result<Item> {
    match r
    case Ok(value) => Ok(Varint(field, value))
    case Err(e) => Err(e)
  }

  /** expect_wire, then read_bytes. */
  method ExpectBytes(bytes: seq<byte>, pos: nat, tag: Tag, ghost form: Form) returns (r: Result<seq<byte>>, next: nat)
    requires pos <= |bytes| && KindOf(form, tag.field) == Text
    ensures pos <= next <= |bytes| && FieldRead(form, bytes, pos, tag, BytesItem(tag.field, r), next)
  {
    if tag.wire != 2 {
      return Err(WrongWireType(tag.field)), pos;
    }
    r, next := ReadBytes(bytes, pos);
  }

  /** expect_wire, then read_varint_u32. */
  method ExpectNumber(bytes: seq<byte>, pos: nat, tag: Tag, ghost form: Form) returns (r: Result<u32>, next: nat)
    requires pos <= |bytes| && KindOf(form, tag.field) == Number
    ensures pos <= next <= |bytes| && FieldRead(form, bytes, pos, tag, NumberItem(tag.field, r), next)
  {
    if tag.wire != 0 {
      return Err(WrongWireType(tag.field)), pos;
    }
    r, next := ReadNumber(bytes, pos, tag.field);
  }

  /** The loop has decoded bytes up to pos into seen. */
  ghost predicate OnTrack(form: Form, bytes: seq<byte>, pos: nat, seen: map<nat, Item>)
    requires pos <= |bytes|
  {
    FieldsAt(form, bytes, map[]) == FieldsAt(form, bytes[pos..], seen)
  }

  lemma TrackStarts(form: Form, bytes: seq<byte>)
    ensures OnTrack(form, bytes, 0, map[])
  {
    assert bytes[0..] == bytes;
  }

  lemma TrackEnds(form: Form, bytes: seq<byte>, seen: map<nat, Item>)
    requires OnTrack(form, bytes, |bytes|, seen)
    ensures FieldsAt(form, bytes, map[]) == Ok(seen)
  {
  }

  /** From pos to at stands a tag. */
  ghost predicate TagRead(bytes: seq<byte>, pos: nat, tag: Tag, at: nat)
    requires pos <= |bytes|
  {
    pos < at <= |bytes| && TagAt(bytes[pos..]) == Ok(Read(tag, at - pos))
  }

  /** One turn of the decoding loop, as the cursor sees it. */
  lemma FieldsStep(form: Form, bytes: seq<byte>, pos: nat, seen: map<nat, Item>, tag: Tag, at: nat, item: Result<Item>, next: nat)
    requires pos <= at <= |bytes| && OnTrack(form, bytes, pos, seen) && TagRead(bytes, pos, tag, at)
    requires FieldRead(form, bytes, at, tag, item, next)
    ensures item.Err? ==> FieldsAt(form, bytes, map[]) == Err(item.error)
    ensures item.Ok? ==> at <= next <= |bytes| && OnTrack(form, bytes, next, Noted(form, seen, item.value))
  {
    Tails(bytes, pos, at - pos);
    Tails(bytes, at, next - at);
    FieldsUnfold(form, bytes[pos..], seen, Read(tag, at - pos), bytes[at..], item, next - at, bytes[next..]);
  }

  lemma NoTag(form: Form, bytes: seq<byte>, pos: nat, seen: map<nat, Item>)
    requires pos < |bytes| && OnTrack(form, bytes, pos, seen) && TagAt(bytes[pos..]).Err?
    ensures FieldsAt(form, bytes, map[]) == Err(TagAt(bytes[pos..]).error)
  {
  }

  lemma Tails(bytes: seq<byte>, i: nat, j: nat)
    requires i + j <= |bytes|
    ensures bytes[i..][j..] == bytes[i + j..]
  {
  }

  lemma FieldsUnfold(form: Form, s: seq<byte>, seen: map<nat, Item>, tag: Read<Tag>, body: seq<byte>,
                     item: Result<Item>, size: nat, rest: seq<byte>)
    requires s != [] && TagAt(s) == Ok(tag) && body == s[tag.size..]
    requires FieldAt(form, tag.value, body) == if item.Ok? then Ok(Read(item.value, size)) else Err(item.error)
    requires size <= |body| && rest == body[size..]
    ensures item.Err? ==> FieldsAt(form, s, seen) == Err(item.error)
    ensures item.Ok? ==> FieldsAt(form, s, seen) == FieldsAt(form, rest, Noted(form, seen, item.value))
  {
  }

  /** The message being filled in and the flags beside it. */
  datatype WhisperDraft = WhisperDraft(msg: WhisperMessage, seenEphemeralKey: bool, seenCiphertext: bool)

  function WhisperDraftOf(seen: map<nat, Item>): WhisperDraft {
    WhisperDraft(WhisperMessage(TextOf(seen, 1), NumberOf(seen, 2), NumberOf(seen, 3), TextOf(seen, 4)),
                 1 in seen, 4 in seen)
  }

  /** One field of the decode_whisper loop, past the tag. */
  method WhisperField(bytes: seq<byte>, pos: nat, tag: Tag, d: WhisperDraft, ghost seen: map<nat, Item>)
    returns (r: Result<WhisperDraft>, next: nat, ghost item: Result<Item>)
    requires pos <= |bytes| && d == WhisperDraftOf(seen)
    ensures pos <= next <= |bytes|
    ensures FieldRead(Whisper, bytes, pos, tag, item, next)
    ensures r == if item.Ok? then Ok(WhisperDraftOf(Noted(Whisper, seen, item.value))) else Err(item.error)
  {
    match tag.field {
      case 1 =>
        var v;
        v, next := ExpectBytes(bytes, pos, tag, Whisper);
        item := BytesItem(tag.field, v);
        if v.Err? {
          return Err(v.error), next, item;
        }
        return Ok(d.(msg := d.msg.(ephemeralKey := v.value), seenEphemeralKey := true)), next, item;
      case 2 =>
        var v;
        v, next := ExpectNumber(bytes, pos, tag, Whisper);
        item := NumberItem(tag.field, v);
        if v.Err? {
          return Err(v.error), next, item;
        }
        return Ok(d.(msg := d.msg.(counter := v.value))), next, item;
      case 3 =>
        var v;
        v, next := ExpectNumber(bytes, pos, tag, Whisper);
        item := NumberItem(tag.field, v);
        if v.Err? {
          return Err(v.error), next, item;
        }
        return Ok(d.(msg := d.msg.(previousCounter := v.value))), next, item;
      case 4 =>
        var v;
        v, next := ExpectBytes(bytes, pos, tag, Whisper);
        item := BytesItem(tag.field, v);
        if v.Err? {
          return Err(v.error), next, item;
        }
        return Ok(d.(msg := d.msg.(ciphertext := v.value), seenCiphertext := true)), next, item;
      case _ =>
        var skipped;
        skipped, next, item := SkipField(bytes, pos, tag);
        UnknownReads(Whisper, bytes, pos, tag, item, next);
        if skipped.Err? {
          return Err(skipped.error), next, item;
        }
        return Ok(d), next, item;
    }
  }

  /** One turn of the decode_whisper loop. */
  method WhisperTurn(bytes: seq<byte>, pos: nat, d: WhisperDraft, ghost seen: map<nat, Item>)
    returns (r: Result<WhisperDraft>, next: nat, ghost after: map<nat, Item>)
    requires pos < |bytes| && d == WhisperDraftOf(seen) && OnTrack(Whisper, bytes, pos, seen)
    ensures pos <= next <= |bytes|
    ensures r.Ok? ==> pos < next && OnTrack(Whisper, bytes, next, after) && r.value == WhisperDraftOf(after)
    ensures r.Err? ==> FieldsAt(Whisper, bytes, map[]) == Err(r.error)
  {
    var tag;
    tag, next := ReadTag(bytes, pos);
    after := seen;
    if tag.Err? {
      NoTag(Whisper, bytes, pos, seen);
      return Err(tag.error), next, after;
    }
    ghost var at, item: Result<Item> := next, Err(VarintTruncated);
    r, next, item := WhisperField(bytes, next, tag.value, d, seen);
    FieldsStep(Whisper, bytes, pos, seen, tag.value, at, item, next);
    if r.Ok? {
      after := Noted(Whisper, seen, item.value);
    }
  }

  /** The checks after the loop. */
  method CheckWhisper(d: WhisperDraft, ghost seen: map<nat, Item>) returns (r: Result<WhisperMessage>)
    requires d == WhisperDraftOf(seen)
    ensures r == WhisperFrom(seen)
  {
    if !d.seenEphemeralKey {
      return Err(Required(1));
    }
    if d.msg.ephemeralKey == [] {
      return Err(EmptyBytes(1));
    }
    if !d.seenCiphertext {
      return Err(Required(4));
    }
    if d.msg.ciphertext == [] {
      return Err(EmptyBytes(4));
    }
    return Ok(d.msg);
  }

  /** decode_whisper. */
  method DecodeWhisper(bytes: seq<byte>) returns (r: Result<WhisperMessage>)
    ensures r == DecodedWhisper(bytes)
  {
    var d := WhisperDraft(WhisperMessage([], 0, 0, []), false, false);
    var pos := 0;
    ghost var seen: map<nat, Item> := map[];
    TrackStarts(Whisper, bytes);
    while pos < |bytes|
      invariant pos <= |bytes| && d == WhisperDraftOf(seen)
      invariant OnTrack(Whisper, bytes, pos, seen)
      decreases |bytes| - pos
    {
      var after;
      after, pos, seen := WhisperTurn(bytes, pos, d, seen);
      if after.Err? {
        return Err(after.error);
      }
      d := after.value;
    }
    TrackEnds(Whisper, bytes, seen);
    r := CheckWhisper(d, seen);
  }

  datatype PreKeyDraft = PreKeyDraft(
    msg: PreKeyMessage, seenBaseKey: bool, seenIdentityKey: bool, seenMessage: bool, seenRegistrationId: bool)

  function PreKeyDraftOf(seen: map<nat, Item>): PreKeyDraft {
    PreKeyDraft(PreKeyMessage(MaybeNumber(seen, 1), TextOf(seen, 2), TextOf(seen, 3), TextOf(seen, 4),
                              NumberOf(seen, 5), MaybeNumber(seen, 6)),
                2 in seen, 3 in seen, 4 in seen, 5 in seen)
  }

  /** The draft with one more field. */
  function PreKeyWith(d: PreKeyDraft, item: Item): PreKeyDraft {
    match item
    case Varint(field, value) =>
      var number := if value < 0x1_0000_0000 then value else 0;
      if field == 1 then d.(msg := d.msg.(preKeyId := Some(number)))
      else if field == 5 then d.(msg := d.msg.(registrationId := number), seenRegistrationId := true)
      else if field == 6 then d.(msg := d.msg.(signedPreKeyId := Some(number)))
      else d
    case Bytes(field, data) =>
      if field == 2 then d.(msg := d.msg.(baseKey := data), seenBaseKey := true)
      else if field == 3 then d.(msg := d.msg.(identityKey := data), seenIdentityKey := true)
      else if field == 4 then d.(msg := d.msg.(message := data), seenMessage := true)
      else d
    case _ => d
  }

  lemma PreKeyNotes(seen: map<nat, Item>, item: Item)
    requires KindOf(PreKeyWhisper, item.field) == Number ==> item.Varint?
    requires KindOf(PreKeyWhisper, item.field) == Text ==> item.Bytes?
    ensures PreKeyDraftOf(Noted(PreKeyWhisper, seen, item)) == PreKeyWith(PreKeyDraftOf(seen), item)
  {
  }

  /** One field of the decode_pkmsg loop, past the tag. */
  method PreKeyField(bytes: seq<byte>, pos: nat, tag: Tag, d: PreKeyDraft, ghost seen: map<nat, Item>)
    returns (r: Result<PreKeyDraft>, next: nat, ghost item: Result<Item>)
    requires pos <= |bytes| && d == PreKeyDraftOf(seen)
    ensures pos <= next <= |bytes|
    ensures FieldRead(PreKeyWhisper, bytes, pos, tag, item, next)
    ensures r == if item.Ok? then Ok(PreKeyDraftOf(Noted(PreKeyWhisper, seen, item.value))) else Err(item.error)
  {
    match tag.field {
      case 1 =>
        var v;
        v, next := ExpectNumber(bytes, pos, tag, PreKeyWhisper);
        item := NumberItem(tag.field, v);
        if v.Err? {
          return Err(v.error), next, item;
        }
        PreKeyNotes(seen, item.value);
        return Ok(d.(msg := d.msg.(preKeyId := Some(v.value)))), next, item;
      case 2 =>
        var v;
        v, next := ExpectBytes(bytes, pos, tag, PreKeyWhisper);
        item := BytesItem(tag.field, v);
        if v.Err? {
          return Err(v.error), next, item;
        }
        PreKeyNotes(seen, item.value);
        return Ok(d.(msg := d.msg.(baseKey := v.value), seenBaseKey := true)), next, item;
      case 3 =>
        var v;
        v, next := ExpectBytes(bytes, pos, tag, PreKeyWhisper);
        item := BytesItem(tag.field, v);
        if v.Err? {
          return Err(v.error), next, item;
        }
        PreKeyNotes(seen, item.value);
        return Ok(d.(msg := d.msg.(identityKey := v.value), seenIdentityKey := true)), next, item;
      case 4 =>
        var v;
        v, next := ExpectBytes(bytes, pos, tag, PreKeyWhisper);
        item := BytesItem(tag.field, v);
        if v.Err? {
          return Err(v.error), next, item;
        }
        PreKeyNotes(seen, item.value);
        return Ok(d.(msg := d.msg.(message := v.value), seenMessage := true)), next, item;
      case 5 =>
        var v;
        v, next := ExpectNumber(bytes, pos, tag, PreKeyWhisper);
        item := NumberItem(tag.field, v);
        if v.Err? {
          return Err(v.error), next, item;
        }
        PreKeyNotes(seen, item.value);
        return Ok(d.(msg := d.msg.(registrationId := v.value), seenRegistrationId := true)), next, item;
      case 6 =>
        var v;
        v, next := ExpectNumber(bytes, pos, tag, PreKeyWhisper);
        item := NumberItem(tag.field, v);
        if v.Err? {
          return Err(v.error), next, item;
        }
        PreKeyNotes(seen, item.value);
        return Ok(d.(msg := d.msg.(signedPreKeyId := Some(v.value)))), next, item;
      case _ =>
        var skipped;
        skipped, next, item := SkipField(bytes, pos, tag);
        UnknownReads(PreKeyWhisper, bytes, pos, tag, item, next);
        if skipped.Err? {
          return Err(skipped.error), next, item;
        }
        return Ok(d), next, item;
    }
  }

  /** One turn of the decode_pkmsg loop. */
  method PreKeyTurn(bytes: seq<byte>, pos: nat, d: PreKeyDraft, ghost seen: map<nat, Item>)
    returns (r: Result<PreKeyDraft>, next: nat, ghost after: map<nat, Item>)
    requires pos < |bytes| && d == PreKeyDraftOf(seen) && OnTrack(PreKeyWhisper, bytes, pos, seen)
    ensures pos <= next <= |bytes|
    ensures r.Ok? ==> pos < next && OnTrack(PreKeyWhisper, bytes, next, after) && r.value == PreKeyDraftOf(after)
    ensures r.Err? ==> FieldsAt(PreKeyWhisper, bytes, map[]) == Err(r.error)
  {
    var tag;
    tag, next := ReadTag(bytes, pos);
    after := seen;
    if tag.Err? {
      NoTag(PreKeyWhisper, bytes, pos, seen);
      return Err(tag.error), next, after;
    }
    ghost var at, item: Result<Item> := next, Err(VarintTruncated);
    r, next, item := PreKeyField(bytes, next, tag.value, d, seen);
    FieldsStep(PreKeyWhisper, bytes, pos, seen, tag.value, at, item, next);
    if r.Ok? {
      after := Noted(PreKeyWhisper, seen, item.value);
    }
  }

  /** The checks after the loop. */
  method CheckPreKey(d: PreKeyDraft, ghost seen: map<nat, Item>) returns (r: Result<PreKeyMessage>)
    requires d == PreKeyDraftOf(seen)
    ensures r == PreKeyFrom(seen)
  {
    if !d.seenBaseKey {
      return Err(Required(2));
    }
    if d.msg.baseKey == [] {
      return Err(EmptyBytes(2));
    }
    if !d.seenIdentityKey {
      return Err(Required(3));
    }
    if d.msg.identityKey == [] {
      return Err(EmptyBytes(3));
    }
    if !d.seenMessage {
      return Err(Required(4));
    }
    if d.msg.message == [] {
      return Err(EmptyBytes(4));
    }
    if !d.seenRegistrationId {
      return Err(Required(5));
    }
    return Ok(d.msg);
  }

  /** decode_pkmsg. */
  method DecodePreKey(bytes: seq<byte>) returns (r: Result<PreKeyMessage>)
    ensures r == DecodedPreKey(bytes)
  {
    var d := PreKeyDraft(PreKeyMessage(None, [], [], [], 0, None), false, false, false, false);
    var pos := 0;
    ghost var seen: map<nat, Item> := map[];
    TrackStarts(PreKeyWhisper, bytes);
    while pos < |bytes|
      invariant pos <= |bytes| && d == PreKeyDraftOf(seen)
      invariant OnTrack(PreKeyWhisper, bytes, pos, seen)
      decreases |bytes| - pos
    {
      var after;
      after, pos, seen := PreKeyTurn(bytes, pos, d, seen);
      if after.Err? {
        return Err(after.error);
      }
      d := after.value;
    }
    TrackEnds(PreKeyWhisper, bytes, seen);
    r := CheckPreKey(d, seen);
  }

  // ---- writing ----

  function TagBytes(field: nat, wire: nat): seq<byte> {
    VarintBytes(8 * field + wire)
  }

  function WireOf(item: Item): nat {
    match item
    case Varint(_, _) => 0
    case Fixed64(_, _) => 1
    case Bytes(_, _) => 2
    case Fixed32(_, _) => 5
  }

  function Body(item: Item): seq<byte> {
    match item
    case Varint(_, value) => VarintBytes(value)
    case Fixed64(_, data) => data
    case Bytes(_, data) => VarintBytes(|data|) + data
    case Fixed32(_, data) => data
  }

  /** A field as the encoders write it. */
  function ItemBytes(item: Item): seq<byte> {
    TagBytes(item.field, WireOf(item)) + Body(item)
  }

  function ItemsBytes(items: seq<Item>): seq<byte> {
    if items == [] then [] else ItemBytes(items[0]) + ItemsBytes(items[1..])
  }

  /** Field numbers, sizes and values that the wire format has room for. */
  predicate Writable(item: Item) {
    && 1 <= item.field < 0x2000_0000
    && match item
       case Varint(_, value) => value < 0x1_0000_0000_0000_0000
       case Fixed64(_, data) => |data| == 8
       case Bytes(_, data) => |data| < 0x1_0000_0000_0000_0000
       case Fixed32(_, data) => |data| == 4
  }

  /** write_bytes; a slice is shorter than 2^64. */
  method WriteBytes(buf: seq<byte>, data: seq<byte>) returns (out: seq<byte>)
    requires |data| < 0x1_0000_0000_0000_0000
    ensures out == buf + (VarintBytes(|data|) + data)
  {
    out := WriteVarint(buf, |data|);
    out := out + data;
  }

  /** write_tag: the shifted field number and the wire type share no bit. */
  method WriteTag(buf: seq<byte>, field: u32, wire: nat) returns (out: seq<byte>)
    requires field < 0x2000_0000 && wire < 8
    ensures out == buf + TagBytes(field, wire)
  {
    TagBits(field, wire);
    out := WriteVarint(buf, BitOr(wire, Shl(field, 3)));
  }

  lemma Pow2Of3()
    ensures Pow2(3) == 8
  {
    assert Pow2(1) == 2 && Pow2(2) == 4;
  }

  lemma TagShift(field: u32)
    requires field < 0x2000_0000
    ensures Shl(field, 3) == 8 * field
  {
    Pow2Of3();
  }

  lemma TagBits(field: u32, wire: nat)
    requires field < 0x2000_0000 && wire < 8
    ensures BitOr(wire, Shl(field, 3)) == 8 * field + wire
  {
    TagShift(field);
    LowBits(wire, field);
  }

  lemma LowBits(wire: nat, field: nat)
    requires wire < 8
    ensures BitOr(wire, 8 * field) == 8 * field + wire
  {
    Pow2Of3();
    BitOrAdds(wire, field, 3);
    assert field * Pow2(3) == 8 * field;
  }

  function WhisperItems(m: WhisperMessage): seq<Item> {
    [Bytes(1, m.ephemeralKey), Varint(2, m.counter), Varint(3, m.previousCounter), Bytes(4, m.ciphertext)]
  }

  function Maybe(field: nat, id: Option<u32>): seq<Item> {
    match id
    case None => []
    case Some(v) => [Varint(field, v)]
  }

  function PreKeyItems(m: PreKeyMessage): seq<Item> {
    Maybe(1, m.preKeyId)
    + [Bytes(2, m.baseKey), Bytes(3, m.identityKey), Bytes(4, m.message), Varint(5, m.registrationId)]
    + Maybe(6, m.signedPreKeyId)
  }

  lemma Regroup<T>(a: seq<T>, b: seq<T>, c: seq<T>)
    ensures a + b + c == a + (b + c)
  {
  }

  lemma {:induction false} ItemsBytesAppend(items: seq<Item>, item: Item)
    ensures ItemsBytes(items + [item]) == ItemsBytes(items) + ItemBytes(item)
  {
    var all := items + [item];
    if items == [] {
      assert all[0] == item && all[1..] == [];
    } else {
      ItemsBytesAppend(items[1..], item);
      assert all[0] == items[0] && all[1..] == items[1..] + [item];
      Regroup(ItemBytes(items[0]), ItemsBytes(items[1..]), ItemBytes(item));
    }
  }

  method WriteNumberField(buf: seq<byte>, field: u32, value: u32, ghost items: seq<Item>) returns (out: seq<byte>)
    requires 1 <= field < 0x2000_0000 && buf == ItemsBytes(items)
    ensures out == ItemsBytes(items + [Varint(field, value)])
  {
    out := WriteTag(buf, field, 0);
    out := WriteVarint(out, value);
    Regroup(buf, TagBytes(field, 0), VarintBytes(value));
    ItemsBytesAppend(items, Varint(field, value));
  }

  method WriteBytesField(buf: seq<byte>, field: u32, data: seq<byte>, ghost items: seq<Item>) returns (out: seq<byte>)
    requires 1 <= field < 0x2000_0000 && buf == ItemsBytes(items) && |data| < 0x1_0000_0000_0000_0000
    ensures out == ItemsBytes(items + [Bytes(field, data)])
  {
    out := WriteTag(buf, field, 2);
    out := WriteBytes(out, data);
    Regroup(buf, TagBytes(field, 2), VarintBytes(|data|) + data);
    ItemsBytesAppend(items, Bytes(field, data));
  }

  method WriteMaybe(buf: seq<byte>, field: u32, id: Option<u32>, ghost items: seq<Item>) returns (out: seq<byte>)
    requires 1 <= field < 0x2000_0000 && buf == ItemsBytes(items)
    ensures out == ItemsBytes(items + Maybe(field, id))
  {
    match id
    case None =>
      assert items + [] == items;
      return buf;
    case Some(v) =>
      out := WriteNumberField(buf, field, v, items);
  }

  /** encode_whisper. */
  method EncodeWhisper(m: WhisperMessage) returns (out: seq<byte>)
    requires |m.ephemeralKey| < 0x1_0000_0000_0000_0000 && |m.ciphertext| < 0x1_0000_0000_0000_0000
    ensures out == ItemsBytes(WhisperItems(m))
  {
    ghost var items: seq<Item> := [];
    out := WriteBytesField([], 1, m.ephemeralKey, items);
    items := items + [Bytes(1, m.ephemeralKey)];
    out := WriteNumberField(out, 2, m.counter, items);
    items := items + [Varint(2, m.counter)];
    out := WriteNumberField(out, 3, m.previousCounter, items);
    items := items + [Varint(3, m.previousCounter)];
    out := WriteBytesField(out, 4, m.ciphertext, items);
    assert items + [Bytes(4, m.ciphertext)] == WhisperItems(m);
  }

  predicate Sized(m: PreKeyMessage) {
    |m.baseKey| < 0x1_0000_0000_0000_0000 && |m.identityKey| < 0x1_0000_0000_0000_0000
    && |m.message| < 0x1_0000_0000_0000_0000
  }

  /** encode_pkmsg. */
  method EncodePreKey(m: PreKeyMessage) returns (out: seq<byte>)
    requires Sized(m)
    ensures out == ItemsBytes(PreKeyItems(m))
  {
    out := WriteMaybe([], 1, m.preKeyId, []);
    ghost var items := [] + Maybe(1, m.preKeyId);
    out := WriteBytesField(out, 2, m.baseKey, items);
    items := items + [Bytes(2, m.baseKey)];
    out := WriteBytesField(out, 3, m.identityKey, items);
    items := items + [Bytes(3, m.identityKey)];
    out := WriteBytesField(out, 4, m.message, items);
    items := items + [Bytes(4, m.message)];
    out := WriteNumberField(out, 5, m.registrationId, items);
    items := items + [Varint(5, m.registrationId)];
    out := WriteMaybe(out, 6, m.signedPreKeyId, items);
    PreKeyItemsInOrder(m);
  }

  lemma PreKeyItemsInOrder(m: PreKeyMessage)
    ensures [] + Maybe(1, m.preKeyId) + [Bytes(2, m.baseKey)] + [Bytes(3, m.identityKey)] + [Bytes(4, m.message)]
            + [Varint(5, m.registrationId)] + Maybe(6, m.signedPreKeyId)
         == PreKeyItems(m)
  {
  }

  // ---- what is written reads back ----

  lemma TagReadsBack(field: nat, wire: nat, rest: seq<byte>)
    requires 1 <= field < 0x2000_0000 && wire < 8
    ensures TagAt(TagBytes(field, wire) + rest) == Ok(Read(Tag(field, wire), |TagBytes(field, wire)|))
  {
    VarintRoundTrip(8 * field + wire, rest);
  }

  lemma BytesReadBack(data: seq<byte>, rest: seq<byte>)
    requires |data| < 0x1_0000_0000_0000_0000
    ensures BytesAt(VarintBytes(|data|) + data + rest) == Ok(Read(data, |VarintBytes(|data|) + data|))
  {
    var head := VarintBytes(|data|);
    Regroup(head, data, rest);
    VarintRoundTrip(|data|, data + rest);
    assert (head + data + rest)[|head|..|head| + |data|] == data;
  }

  lemma BodyReadsBack(item: Item, rest: seq<byte>)
    requires Writable(item)
    ensures PayloadAt(Tag(item.field, WireOf(item)), Body(item) + rest) == Ok(Read(item, |Body(item)|))
  {
    match item {
      case Varint(_, value) => VarintRoundTrip(value, rest);
      case Bytes(_, data) => BytesReadBack(data, rest);
      case Fixed64(_, data) => assert (data + rest)[..8] == data;
      case Fixed32(_, data) => assert (data + rest)[..4] == data;
    }
  }

  /** A written field parses as itself, whatever follows. */
  lemma ItemReadsBack(item: Item, rest: seq<byte>)
    requires Writable(item) && Parse(rest).Ok?
    ensures Parse(ItemBytes(item) + rest) == Ok([item] + Parse(rest).value)
  {
    var tag, body := TagBytes(item.field, WireOf(item)), Body(item);
    var s := ItemBytes(item) + rest;
    Regroup(tag, body, rest);
    TagReadsBack(item.field, WireOf(item), body + rest);
    BodyReadsBack(item, rest);
    assert s[|tag|..] == body + rest && (body + rest)[|body|..] == rest;
  }

  /** Any string of writable fields parses as those fields. */
  lemma {:induction false} ItemsReadBack(items: seq<Item>)
    requires forall i :: 0 <= i < |items| ==> Writable(items[i])
    ensures Parse(ItemsBytes(items)) == Ok(items)
  {
    if items != [] {
      ItemsReadBack(items[1..]);
      ItemReadsBack(items[0], ItemsBytes(items[1..]));
      assert items == [items[0]] + items[1..];
    }
  }

  predicate Suits(form: Form, items: seq<Item>) {
    forall i :: 0 <= i < |items| ==> Writable(items[i]) && Misfit(form, items[i]).None?
  }

  lemma DecodesWritten(form: Form, items: seq<Item>)
    requires Suits(form, items)
    ensures FieldsAt(form, ItemsBytes(items), map[]) == Fold(form, items, map[])
  {
    ItemsReadBack(items);
    DecodeIsFold(form, ItemsBytes(items), [], map[]);
    assert ItemsBytes(items) + [] == ItemsBytes(items);
  }

  lemma {:induction false} FoldAppend(form: Form, items: seq<Item>, item: Item, seen: map<nat, Item>)
    requires Fold(form, items, seen).Ok? && Misfit(form, item).None?
    ensures Fold(form, items + [item], seen) == Ok(Noted(form, Fold(form, items, seen).value, item))
  {
    var all := items + [item];
    if items == [] {
      assert all[0] == item && all[1..] == [];
    } else {
      assert all[0] == items[0] && all[1..] == items[1..] + [item];
      FoldAppend(form, items[1..], item, Noted(form, seen, items[0]));
    }
  }

  lemma WhisperFolds(m: WhisperMessage)
    ensures Fold(Whisper, WhisperItems(m), map[])
         == Ok(map[1 := Bytes(1, m.ephemeralKey), 2 := Varint(2, m.counter),
                   3 := Varint(3, m.previousCounter), 4 := Bytes(4, m.ciphertext)])
  {
    var a, b, c, d := Bytes(1, m.ephemeralKey), Varint(2, m.counter), Varint(3, m.previousCounter), Bytes(4, m.ciphertext);
    FoldAppend(Whisper, [], a, map[]);
    FoldAppend(Whisper, [a], b, map[]);
    FoldAppend(Whisper, [a, b], c, map[]);
    FoldAppend(Whisper, [a, b, c], d, map[]);
    assert [] + [a] == [a] && [a] + [b] == [a, b] && [a, b] + [c] == [a, b, c] && [a, b, c] + [d] == WhisperItems(m);
  }

  lemma WhisperSuits(m: WhisperMessage)
    requires |m.ephemeralKey| < 0x1_0000_0000_0000_0000 && |m.ciphertext| < 0x1_0000_0000_0000_0000
    ensures Suits(Whisper, WhisperItems(m))
  {
  }

  lemma WhisperMade(m: WhisperMessage)
    ensures WhisperFrom(map[1 := Bytes(1, m.ephemeralKey), 2 := Varint(2, m.counter),
                            3 := Varint(3, m.previousCounter), 4 := Bytes(4, m.ciphertext)]) ==
            if m.ephemeralKey == [] then Err(EmptyBytes(1))
            else if m.ciphertext == [] then Err(EmptyBytes(4))
            else Ok(m)
  {
  }

  /** Decoding what was encoded gives the message back exactly when both byte fields are
      non-empty. */
  lemma WhisperRoundTrip(m: WhisperMessage)
    requires |m.ephemeralKey| < 0x1_0000_0000_0000_0000 && |m.ciphertext| < 0x1_0000_0000_0000_0000
    ensures DecodedWhisper(ItemsBytes(WhisperItems(m))) ==
            if m.ephemeralKey == [] then Err(EmptyBytes(1))
            else if m.ciphertext == [] then Err(EmptyBytes(4))
            else Ok(m)
  {
    WhisperSuits(m);
    DecodesWritten(Whisper, WhisperItems(m));
    WhisperFolds(m);
    WhisperMade(m);
  }

  lemma PreKeyFolds(m: PreKeyMessage)
    ensures Fold(PreKeyWhisper, PreKeyItems(m), map[]).Ok?
    ensures var seen := Fold(PreKeyWhisper, PreKeyItems(m), map[]).value;
            && 2 in seen && seen[2] == Bytes(2, m.baseKey)
            && 3 in seen && seen[3] == Bytes(3, m.identityKey)
            && 4 in seen && seen[4] == Bytes(4, m.message)
            && 5 in seen && seen[5] == Varint(5, m.registrationId)
            && MaybeNumber(seen, 1) == m.preKeyId && MaybeNumber(seen, 6) == m.signedPreKeyId
  {
    var items := Maybe(1, m.preKeyId);
    if m.preKeyId.Some? {
      FoldAppend(PreKeyWhisper, [], items[0], map[]);
      assert [] + [items[0]] == items;
    }
    FoldAppend(PreKeyWhisper, items, Bytes(2, m.baseKey), map[]);
    items := items + [Bytes(2, m.baseKey)];
    FoldAppend(PreKeyWhisper, items, Bytes(3, m.identityKey), map[]);
    items := items + [Bytes(3, m.identityKey)];
    FoldAppend(PreKeyWhisper, items, Bytes(4, m.message), map[]);
    items := items + [Bytes(4, m.message)];
    FoldAppend(PreKeyWhisper, items, Varint(5, m.registrationId), map[]);
    items := items + [Varint(5, m.registrationId)];
    if m.signedPreKeyId.Some? {
      FoldAppend(PreKeyWhisper, items, Varint(6, m.signedPreKeyId.value), map[]);
      items := items + [Varint(6, m.signedPreKeyId.value)];
    }
    assert items == PreKeyItems(m);
  }

  lemma PreKeySuits(m: PreKeyMessage)
    requires Sized(m)
    ensures Suits(PreKeyWhisper, PreKeyItems(m))
  {
  }

  lemma PreKeyRoundTrip(m: PreKeyMessage)
    requires Sized(m)
    ensures DecodedPreKey(ItemsBytes(PreKeyItems(m))) ==
            if m.baseKey == [] then Err(EmptyBytes(2))
            else if m.identityKey == [] then Err(EmptyBytes(3))
            else if m.message == [] then Err(EmptyBytes(4))
            else Ok(m)
  {
    PreKeySuits(m);
    DecodesWritten(PreKeyWhisper, PreKeyItems(m));
    PreKeyFolds(m);
  }

  // ---- what any byte string decodes to ----

  function LastText(items: seq<Item>, field: nat): seq<byte> {
    match LastOf(items, field)
    case Some(Bytes(_, data)) => data
    case _ => []
  }

  function LastNumber(items: seq<Item>, field: nat): u32 {
    match LastOf(items, field)
    case Some(Varint(_, value)) => if value < 0x1_0000_0000 then value else 0
    case _ => 0
  }

  function LastMaybe(items: seq<Item>, field: nat): Option<u32> {
    if LastOf(items, field).Some? then Some(LastNumber(items, field)) else None
  }

  ghost predicate AllSuit(form: Form, items: seq<Item>) {
    forall i :: 0 <= i < |items| ==> Misfit(form, items[i]).None?
  }

  lemma LastFolded(form: Form, items: seq<Item>, field: nat)
    requires KindOf(form, field) != Unknown && Fold(form, items, map[]).Ok?
    ensures var seen := Fold(form, items, map[]).value;
            && TextOf(seen, field) == LastText(items, field)
            && NumberOf(seen, field) == LastNumber(items, field)
            && MaybeNumber(seen, field) == LastMaybe(items, field)
            && (field in seen <==> LastOf(items, field).Some?)
  {
    FoldKeepsLast(form, items, map[], field);
  }

  lemma FoldsAsParsed(form: Form, s: seq<byte>)
    ensures FieldsAt(form, s, map[]).Ok? <==> Parse(s).Ok? && AllSuit(form, Parse(s).value)
    ensures FieldsAt(form, s, map[]).Ok? ==> FieldsAt(form, s, map[]) == Fold(form, Parse(s).value, map[])
  {
    if Parse(s).Ok? {
      DecodeIsFold(form, s, [], map[]);
      assert s + [] == s;
      FoldKeepsLast(form, Parse(s).value, map[], 0);
    } else {
      DecodeNeedsFields(form, s, map[]);
    }
  }

  /** decode_whisper accepts exactly the strings of fields that all suit the message and give
      both byte fields last a non-empty value; each field of the message is the last one given,
      and a counter that is not given is 0. */
  lemma WhisperLastWins(s: seq<byte>)
    ensures DecodedWhisper(s).Ok? <==>
              && Parse(s).Ok? && AllSuit(Whisper, Parse(s).value)
              && LastText(Parse(s).value, 1) != [] && LastText(Parse(s).value, 4) != []
    ensures DecodedWhisper(s).Ok? ==>
              var items := Parse(s).value;
              DecodedWhisper(s).value == WhisperMessage(LastText(items, 1), LastNumber(items, 2), LastNumber(items, 3), LastText(items, 4))
  {
    FoldsAsParsed(Whisper, s);
    if FieldsAt(Whisper, s, map[]).Ok? {
      LastFolded(Whisper, Parse(s).value, 1);
      LastFolded(Whisper, Parse(s).value, 2);
      LastFolded(Whisper, Parse(s).value, 3);
      LastFolded(Whisper, Parse(s).value, 4);
    }
  }

  /** The same for decode_pkmsg, whose registration id must be given too. */
  lemma PreKeyLastWins(s: seq<byte>)
    ensures DecodedPreKey(s).Ok? <==>
              && Parse(s).Ok? && AllSuit(PreKeyWhisper, Parse(s).value)
              && LastText(Parse(s).value, 2) != [] && LastText(Parse(s).value, 3) != []
              && LastText(Parse(s).value, 4) != [] && LastOf(Parse(s).value, 5).Some?
    ensures DecodedPreKey(s).Ok? ==>
              var items := Parse(s).value;
              DecodedPreKey(s).value == PreKeyMessage(LastMaybe(items, 1), LastText(items, 2), LastText(items, 3), LastText(items, 4),
                                                      LastNumber(items, 5), LastMaybe(items, 6))
  {
    FoldsAsParsed(PreKeyWhisper, s);
    if FieldsAt(PreKeyWhisper, s, map[]).Ok? {
      LastFolded(PreKeyWhisper, Parse(s).value, 1);
      LastFolded(PreKeyWhisper, Parse(s).value, 2);
      LastFolded(PreKeyWhisper, Parse(s).value, 3);
      LastFolded(PreKeyWhisper, Parse(s).value, 4);
      LastFolded(PreKeyWhisper, Parse(s).value, 5);
      LastFolded(PreKeyWhisper, Parse(s).value, 6);
    }
  }

  // ---- the bytes themselves ----

  lemma TagByte(field: nat, wire: nat)
    requires 8 * field + wire < 128
    ensures TagBytes(field, wire) == [8 * field + wire]
  {
  }

  /** A size in front of its bytes. */
  function Counted(data: seq<byte>): seq<byte> {
    VarintBytes(|data|) + data
  }

  function MaybeBytes(tag: byte, id: Option<u32>): seq<byte> {
    if id.Some? then [tag] + VarintBytes(id.value) else []
  }

  lemma {:induction false} ItemsBytesConcat(items: seq<Item>, more: seq<Item>)
    ensures ItemsBytes(items + more) == ItemsBytes(items) + ItemsBytes(more)
  {
    if more == [] {
      assert items + more == items;
    } else {
      var rest, last := more[..|more| - 1], more[|more| - 1];
      assert items + more == (items + rest) + [last] && more == rest + [last];
      ItemsBytesConcat(items, rest);
      ItemsBytesAppend(items + rest, last);
      ItemsBytesAppend(rest, last);
      Regroup(ItemsBytes(items), ItemsBytes(rest), ItemBytes(last));
    }
  }

  lemma TwoItems(a: Item, b: Item)
    ensures ItemsBytes([a, b]) == ItemBytes(a) + ItemBytes(b)
  {
    assert [a, b][1..] == [b] && [b][1..] == [];
    assert ItemsBytes([b]) == ItemBytes(b) + [];
  }

  lemma FourItems(a: Item, b: Item, c: Item, d: Item)
    ensures ItemsBytes([a, b, c, d]) == ItemBytes(a) + ItemBytes(b) + ItemBytes(c) + ItemBytes(d)
  {
    TwoItems(a, b);
    TwoItems(c, d);
    assert [a, b] + [c, d] == [a, b, c, d];
    ItemsBytesConcat([a, b], [c, d]);
    Regroup(ItemBytes(a) + ItemBytes(b), ItemBytes(c), ItemBytes(d));
  }

  lemma NumberOnTheWire(field: nat, value: nat)
    requires field < 16
    ensures ItemBytes(Varint(field, value)) == [8 * field] + VarintBytes(value)
  {
    TagByte(field, 0);
  }

  lemma TextOnTheWire(field: nat, data: seq<byte>)
    requires field < 15
    ensures ItemBytes(Bytes(field, data)) == [8 * field + 2] + Counted(data)
  {
    TagByte(field, 2);
  }

  /** A WhisperMessage on the wire: fields 1 and 4 as sized bytes, 2 and 3 as varints, led by the
      tags 0a, 10, 18 and 22. */
  lemma WhisperOnTheWire(m: WhisperMessage)
    ensures ItemsBytes(WhisperItems(m))
         == ([0x0a] + Counted(m.ephemeralKey)) + ([0x10] + VarintBytes(m.counter))
            + ([0x18] + VarintBytes(m.previousCounter)) + ([0x22] + Counted(m.ciphertext))
  {
    TextOnTheWire(1, m.ephemeralKey);
    NumberOnTheWire(2, m.counter);
    NumberOnTheWire(3, m.previousCounter);
    TextOnTheWire(4, m.ciphertext);
    FourItems(Bytes(1, m.ephemeralKey), Varint(2, m.counter), Varint(3, m.previousCounter), Bytes(4, m.ciphertext));
  }

  lemma MaybeOnTheWire(field: nat, id: Option<u32>)
    requires field < 16
    ensures ItemsBytes(Maybe(field, id)) == MaybeBytes(8 * field, id)
  {
    if id.Some? {
      NumberOnTheWire(field, id.value);
      ItemsBytesAppend([], Varint(field, id.value));
      assert [] + [Varint(field, id.value)] == [Varint(field, id.value)];
    }
  }

  /** A PreKeyWhisperMessage on the wire: the one-time prekey id under 08 and the signed one under
      30 when there are any, base key, identity key and message under 12, 1a and 22, the
      registration id under 28. */
  lemma PreKeyOnTheWire(m: PreKeyMessage)
    ensures ItemsBytes(PreKeyItems(m))
         == MaybeBytes(0x08, m.preKeyId)
            + (([0x12] + Counted(m.baseKey)) + ([0x1a] + Counted(m.identityKey)) + ([0x22] + Counted(m.message))
               + ([0x28] + VarintBytes(m.registrationId)))
            + MaybeBytes(0x30, m.signedPreKeyId)
  {
    var four := [Bytes(2, m.baseKey), Bytes(3, m.identityKey), Bytes(4, m.message), Varint(5, m.registrationId)];
    MaybeOnTheWire(1, m.preKeyId);
    MaybeOnTheWire(6, m.signedPreKeyId);
    TextOnTheWire(2, m.baseKey);
    TextOnTheWire(3, m.identityKey);
    TextOnTheWire(4, m.message);
    NumberOnTheWire(5, m.registrationId);
    FourItems(four[0], four[1], four[2], four[3]);
    ItemsBytesConcat(Maybe(1, m.preKeyId), four);
    ItemsBytesConcat(Maybe(1, m.preKeyId) + four, Maybe(6, m.signedPreKeyId));
  }
}
