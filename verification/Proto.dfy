/**
 The protobuf messages of proto.rs.  A byte string is read as a sequence of fields; the two
 decoders are folds over that sequence, and the encoders write sequences that read back.
 */
module Proto {
  import opened Varints

  datatype Tag = Tag(field: nat, wire: nat)

  datatype Item =
    | Varint(field: nat, value: nat)
    | Fixed64(field: nat, data: seq<byte>)
    | Bytes(field: nat, data: seq<byte>)
    | Fixed32(field: nat, data: seq<byte>)

  // ---- reading, as functions of the bytes left ----

  /** read_bytes. */
  function BytesAt(s: seq<byte>): (r: Result<Read<seq<byte>>>)
    ensures r.Ok? ==> 1 <= r.value.size <= |s|
  {
    match VarintAt(s, 0)
    case Err(e) => Err(e)
    case Ok(len) =>
      if len.value > |s| - len.size then Err(BytesTruncated)
      else Ok(Read(s[len.size..len.size + len.value], len.size + len.value))
  }

  /** read_tag. */
  function TagAt(s: seq<byte>): (r: Result<Read<Tag>>)
    ensures r.Ok? ==> 1 <= r.value.size <= |s| && 1 <= r.value.value.field < 0x2000_0000 && r.value.value.wire < 8
  {
    match VarintAt(s, 0)
    case Err(e) => Err(e)
    case Ok(tag) =>
      if tag.value > 0xffff_ffff then Err(TagOverflow)
      else if tag.value / 8 == 0 then Err(InvalidField)
      else Ok(Read(Tag(tag.value / 8, tag.value % 8), tag.size))
  }

  function FixedAt(s: seq<byte>, size: nat, error: Error): Result<Read<seq<byte>>> {
    if |s| < size then Err(error) else Ok(Read(s[..size], size))
  }

  /** skip_field, which reads a payload by its wire type and drops it. */
  function PayloadAt(tag: Tag, s: seq<byte>): (r: Result<Read<Item>>)
    ensures r.Ok? ==> r.value.size <= |s| && r.value.value.field == tag.field
  {
    match tag.wire
    case 0 =>
      (match VarintAt(s, 0)
       case Err(e) => Err(e)
       case Ok(v) => Ok(Read(Varint(tag.field, v.value), v.size)))
    case 1 =>
      (match FixedAt(s, 8, Fixed64Truncated)
       case Err(e) => Err(e)
       case Ok(d) => Ok(Read(Fixed64(tag.field, d.value), d.size)))
    case 2 =>
      (match BytesAt(s)
       case Err(e) => Err(e)
       case Ok(d) => Ok(Read(Bytes(tag.field, d.value), d.size)))
    case 5 =>
      (match FixedAt(s, 4, Fixed32Truncated)
       case Err(e) => Err(e)
       case Ok(d) => Ok(Read(Fixed32(tag.field, d.value), d.size)))
    case w => if w == 3 || w == 4 then Err(GroupWireType) else Err(UnsupportedWireType)
  }

  /** The two message types, and what each of their fields holds. */
  datatype Form = Whisper | PreKeyWhisper
  datatype Kind = Number | Text | Unknown

  function KindOf(form: Form, field: nat): Kind {
    match form
    case Whisper => if field == 1 || field == 4 then Text else if field == 2 || field == 3 then Number else Unknown
    case PreKeyWhisper =>
      if field == 1 || field == 5 || field == 6 then Number
      else if 2 <= field <= 4 then Text
      else Unknown
  }

  /** read_varint_u32. */
  function NumberAt(field: nat, s: seq<byte>): (r: Result<Read<u32>>)
    ensures r.Ok? ==> 1 <= r.value.size <= |s|
  {
    match VarintAt(s, 0)
    case Err(e) => Err(e)
    case Ok(v) => if v.value >= 0x1_0000_0000 then Err(TooWide(field)) else Ok(Read(v.value, v.size))
  }

  /** One field of a message: a known field has its one wire type and range, an unknown one
      is read by its wire type. */
  function FieldAt(form: Form, tag: Tag, s: seq<byte>): (r: Result<Read<Item>>)
    ensures r.Ok? ==> r.value.size <= |s|
  {
    match KindOf(form, tag.field)
    case Unknown => PayloadAt(tag, s)
    case Number =>
      if tag.wire != 0 then Err(WrongWireType(tag.field))
      else
        (match NumberAt(tag.field, s)
         case Err(e) => Err(e)
         case Ok(v) => Ok(Read(Varint(tag.field, v.value), v.size)))
    case Text =>
      if tag.wire != 2 then Err(WrongWireType(tag.field))
      else
        (match BytesAt(s)
         case Err(e) => Err(e)
         case Ok(d) => Ok(Read(Bytes(tag.field, d.value), d.size)))
  }

  function Noted(form: Form, seen: map<nat, Item>, item: Item): map<nat, Item> {
    if KindOf(form, item.field) == Unknown then seen else seen[item.field := item]
  }

  /** The while loop of the decoders, with the fields assigned so far in seen. */
  function FieldsAt(form: Form, s: seq<byte>, seen: map<nat, Item>): Result<map<nat, Item>>
    decreases |s|
  {
    if s == [] then Ok(seen)
    else
      match TagAt(s)
      case Err(e) => Err(e)
      case Ok(tag) =>
        match FieldAt(form, tag.value, s[tag.size..])
        case Err(e) => Err(e)
        case Ok(item) => FieldsAt(form, s[tag.size..][item.size..], Noted(form, seen, item.value))
  }

  // ---- fields and their fold ----

  /** A byte string read as a sequence of fields, whatever message it is for. */
  function Parse(s: seq<byte>): Result<seq<Item>>
    decreases |s|
  {
    if s == [] then Ok([])
    else
      match TagAt(s)
      case Err(e) => Err(e)
      case Ok(tag) =>
        match PayloadAt(tag.value, s[tag.size..])
        case Err(e) => Err(e)
        case Ok(item) =>
          match Parse(s[tag.size..][item.size..])
          case Err(e) => Err(e)
          case Ok(items) => Ok([item.value] + items)
  }

  /** Why a field does not suit a message. */
  function Misfit(form: Form, item: Item): Option<Error> {
    match KindOf(form, item.field)
    case Unknown => None
    case Number =>
      if !item.Varint? then Some(WrongWireType(item.field))
      else if item.value >= 0x1_0000_0000 then Some(TooWide(item.field))
      else None
    case Text => if item.Bytes? then None else Some(WrongWireType(item.field))
  }

  function Fold(form: Form, items: seq<Item>, seen: map<nat, Item>): Result<map<nat, Item>> {
    if items == [] then Ok(seen)
    else
      match Misfit(form, items[0])
      case Some(e) => Err(e)
      case None => Fold(form, items[1..], Noted(form, seen, items[0]))
  }

  lemma BytesThen(s: seq<byte>, rest: seq<byte>)
    requires BytesAt(s).Ok?
    ensures BytesAt(s + rest) == BytesAt(s)
  {
    VarintThen(s, 0, rest);
    var len := VarintAt(s, 0).value;
    assert (s + rest)[len.size..len.size + len.value] == s[len.size..len.size + len.value];
  }

  lemma TagThen(s: seq<byte>, rest: seq<byte>)
    requires TagAt(s).Ok?
    ensures TagAt(s + rest) == TagAt(s)
  {
    VarintThen(s, 0, rest);
  }

  lemma PayloadThen(tag: Tag, s: seq<byte>, rest: seq<byte>)
    requires PayloadAt(tag, s).Ok?
    ensures PayloadAt(tag, s + rest) == PayloadAt(tag, s)
  {
    if tag.wire == 0 {
      VarintThen(s, 0, rest);
    } else if tag.wire == 1 {
      assert (s + rest)[..8] == s[..8];
    } else if tag.wire == 2 {
      BytesThen(s, rest);
    } else {
      assert tag.wire == 5;
      assert (s + rest)[..4] == s[..4];
    }
  }

  /** A field that parses is decoded as it parses, or refused for not suiting the message. */
  lemma FieldIsPayload(form: Form, tag: Tag, s: seq<byte>)
    ensures PayloadAt(tag, s).Ok? ==>
              FieldAt(form, tag, s) == match Misfit(form, PayloadAt(tag, s).value.value)
                                       case Some(e) => Err(e)
                                       case None => PayloadAt(tag, s)
    ensures PayloadAt(tag, s).Err? ==> FieldAt(form, tag, s).Err?
  {
  }

  lemma ParseStep(s: seq<byte>, tag: Read<Tag>, body: seq<byte>, item: Read<Item>)
    requires s != [] && TagAt(s) == Ok(tag) && body == s[tag.size..] && PayloadAt(tag.value, body) == Ok(item)
    requires Parse(s).Ok?
    ensures Parse(body[item.size..]).Ok? && Parse(s).value == [item.value] + Parse(body[item.size..]).value
  {
  }

  lemma DecodeStep(form: Form, s: seq<byte>, rest: seq<byte>, seen: map<nat, Item>, tag: Read<Tag>, body: seq<byte>, item: Read<Item>)
    requires s != [] && TagAt(s) == Ok(tag) && body == s[tag.size..] && PayloadAt(tag.value, body) == Ok(item)
    ensures Misfit(form, item.value).Some? ==> FieldsAt(form, s + rest, seen) == Err(Misfit(form, item.value).value)
    ensures Misfit(form, item.value).None? ==>
              FieldsAt(form, s + rest, seen) == FieldsAt(form, body[item.size..] + rest, Noted(form, seen, item.value))
  {
    TagThen(s, rest);
    assert (s + rest)[tag.size..] == body + rest;
    PayloadThen(tag.value, body, rest);
    FieldIsPayload(form, tag.value, body + rest);
    assert (body + rest)[item.size..] == body[item.size..] + rest;
  }

  lemma FoldStep(form: Form, item: Item, items: seq<Item>, seen: map<nat, Item>)
    ensures Misfit(form, item).Some? ==> Fold(form, [item] + items, seen) == Err(Misfit(form, item).value)
    ensures Misfit(form, item).None? ==> Fold(form, [item] + items, seen) == Fold(form, items, Noted(form, seen, item))
  {
    assert ([item] + items)[1..] == items;
  }

  /** Decoding any string of fields, followed by anything, is folding the fields and going on
      with what follows; the error, too, is that of the first field that does not suit. */
  lemma {:induction false} DecodeIsFold(form: Form, s: seq<byte>, rest: seq<byte>, seen: map<nat, Item>)
    requires Parse(s).Ok?
    ensures var folded := Fold(form, Parse(s).value, seen);
            && (folded.Err? ==> FieldsAt(form, s + rest, seen) == Err(folded.error))
            && (folded.Ok? ==> FieldsAt(form, s + rest, seen) == FieldsAt(form, rest, folded.value))
    decreases |s|
  {
    if s == [] {
      assert s + rest == rest;
    } else {
      var tag := TagAt(s).value;
      var body := s[tag.size..];
      var item := PayloadAt(tag.value, body).value;
      ParseStep(s, tag, body, item);
      DecodeStep(form, s, rest, seen, tag, body, item);
      FoldStep(form, item.value, Parse(body[item.size..]).value, seen);
      if Misfit(form, item.value).None? {
        DecodeIsFold(form, body[item.size..], rest, Noted(form, seen, item.value));
      }
    }
  }

  /** A byte string that is not a string of fields is decoded as no message. */
  lemma {:induction false} DecodeNeedsFields(form: Form, s: seq<byte>, seen: map<nat, Item>)
    requires Parse(s).Err?
    ensures FieldsAt(form, s, seen).Err?
    decreases |s|
  {
    if TagAt(s).Ok? {
      var tag := TagAt(s).value;
      var body := s[tag.size..];
      FieldIsPayload(form, tag.value, body);
      if PayloadAt(tag.value, body).Ok? && Misfit(form, PayloadAt(tag.value, body).value.value).None? {
        var item := PayloadAt(tag.value, body).value;
        DecodeNeedsFields(form, body[item.size..], Noted(form, seen, item.value));
      }
    }
  }

  /** Unknown fields between any fields change nothing. */
  lemma UnknownIgnored(form: Form, before: seq<byte>, unknown: seq<byte>, after: seq<byte>)
    requires Parse(before).Ok? && Parse(unknown).Ok?
    requires forall i :: 0 <= i < |Parse(unknown).value| ==> KindOf(form, Parse(unknown).value[i].field) == Unknown
    ensures FieldsAt(form, before + unknown + after, map[]) == FieldsAt(form, before + after, map[])
  {
    assert before + unknown + after == before + (unknown + after);
    DecodeIsFold(form, before, unknown + after, map[]);
    DecodeIsFold(form, before, after, map[]);
    if Fold(form, Parse(before).value, map[]).Ok? {
      var seen := Fold(form, Parse(before).value, map[]).value;
      DecodeIsFold(form, unknown, after, seen);
      FoldUnknown(form, Parse(unknown).value, seen);
    }
  }

  lemma FoldUnknown(form: Form, items: seq<Item>, seen: map<nat, Item>)
    requires forall i :: 0 <= i < |items| ==> KindOf(form, items[i].field) == Unknown
    ensures Fold(form, items, seen) == Ok(seen)
  {
  }

  // ---- the fold keeps the last of each field ----

  function LastOf(items: seq<Item>, field: nat): Option<Item> {
    if items == [] then None
    else if items[|items| - 1].field == field then Some(items[|items| - 1])
    else LastOf(items[..|items| - 1], field)
  }

  lemma LastOfCons(items: seq<Item>, field: nat)
    requires items != []
    ensures LastOf(items, field) ==
            if LastOf(items[1..], field).Some? then LastOf(items[1..], field)
            else if items[0].field == field then Some(items[0]) else None
  {
    if |items| > 1 {
      LastOfCons(items[..|items| - 1], field);
      assert items[..|items| - 1][1..] == items[1..][..|items| - 2];
    }
  }

  /** The fold succeeds exactly when every field suits the message, and then holds the last
      of each known field. */
  lemma {:induction false} FoldKeepsLast(form: Form, items: seq<Item>, seen: map<nat, Item>, field: nat)
    ensures Fold(form, items, seen).Ok? <==> forall i :: 0 <= i < |items| ==> Misfit(form, items[i]).None?
    ensures Fold(form, items, seen).Ok? && KindOf(form, field) != Unknown ==>
              var out := Fold(form, items, seen).value;
              if LastOf(items, field).Some? then field in out && out[field] == LastOf(items, field).value
              else (field in out <==> field in seen) && (field in seen ==> out[field] == seen[field])
  {
    if items != [] {
      LastOfCons(items, field);
      if Misfit(form, items[0]).None? {
        FoldKeepsLast(form, items[1..], Noted(form, seen, items[0]), field);
        assert forall i :: 1 <= i < |items| ==> items[i] == items[1..][i - 1];
      }
    }
  }

  // ---- the wire types ----

  /** What each wire type takes up ("Protocol Buffers, Encoding"): 0 a varint, 1 eight bytes, 2 a
      varint and as many bytes as it says, 5 four bytes; 3 and 4 are groups, which are refused, and
      6 and 7 are none. */
  lemma WireTypes(tag: Tag, s: seq<byte>)
    requires tag.wire < 8
    ensures tag.wire == 0 ==> (PayloadAt(tag, s).Ok? <==> VarintAt(s, 0).Ok?)
    ensures tag.wire == 0 && VarintAt(s, 0).Ok? ==>
              PayloadAt(tag, s).value == Read(Varint(tag.field, VarintAt(s, 0).value.value), VarintAt(s, 0).value.size)
    ensures tag.wire == 1 && |s| >= 8 ==> PayloadAt(tag, s) == Ok(Read(Fixed64(tag.field, s[..8]), 8))
    ensures tag.wire == 1 && |s| < 8 ==> PayloadAt(tag, s) == Err(Fixed64Truncated)
    ensures tag.wire == 5 && |s| >= 4 ==> PayloadAt(tag, s) == Ok(Read(Fixed32(tag.field, s[..4]), 4))
    ensures tag.wire == 5 && |s| < 4 ==> PayloadAt(tag, s) == Err(Fixed32Truncated)
    ensures tag.wire == 3 || tag.wire == 4 ==> PayloadAt(tag, s) == Err(GroupWireType)
    ensures tag.wire == 6 || tag.wire == 7 ==> PayloadAt(tag, s) == Err(UnsupportedWireType)
  {
  }

  /** Wire type 2: the size first, then as many bytes, or an error when there are fewer. */
  lemma SizedBytes(field: nat, s: seq<byte>, n: nat, size: nat)
    requires n <= |s| && IsVarint(s[..n], 0) && Base128(s[..n]) == size
    ensures PayloadAt(Tag(field, 2), s)
         == if n + size <= |s| then Ok(Read(Bytes(field, s[n..n + size]), n + size)) else Err(BytesTruncated)
  {
    VarintIff(s, size, n);
  }
}
