/** The identity of a workspace root: entries sorted by path, their byte total,
    and the preimage that is hashed. The preimage is written field by field, with
    big-endian lengths and numbers; a decoder reads it back. */
module WorkspaceManifest {
  import opened Ordering
  import opened Wrappers

  type Digest(==)

  type U64 = n: nat | n <= 0xFFFF_FFFF_FFFF_FFFF

  const MAX_UINT64: nat := 0xFFFF_FFFF_FFFF_FFFF
  const VERSION: U64 := 1

  // ---------------------------------------------------------------------
  // Numbers
  // ---------------------------------------------------------------------

  /** Two hundred fifty-six to the power of `k`. */
  function Limit(k: nat): (r: nat)
    ensures r > 0
  {
    if k == 0 then 1 else 256 * Limit(k - 1)
  }

  /** The `k` low bytes of a number, highest first. */
  function BigEndian(n: nat, k: nat): (r: Bytes)
    ensures |r| == k
  {
    if k == 0 then [] else BigEndian(n / 256, k - 1) + [n % 256]
  }

  function Value(bytes: Bytes): nat {
    if bytes == [] then 0 else 256 * Value(bytes[..|bytes| - 1]) + bytes[|bytes| - 1]
  }

  lemma {:induction false} ValueOfBigEndian(n: nat, k: nat)
    requires n < Limit(k)
    ensures Value(BigEndian(n, k)) == n
  {
    if k > 0 {
      ValueOfBigEndian(n / 256, k - 1);
      assert BigEndian(n, k)[..k - 1] == BigEndian(n / 256, k - 1);
    }
  }

  lemma {:induction false} ValueIsSmall(bytes: Bytes)
    ensures Value(bytes) < Limit(|bytes|)
  {
    if bytes != [] { ValueIsSmall(bytes[..|bytes| - 1]); }
  }

  lemma EightBytes()
    ensures Limit(8) == MAX_UINT64 + 1
  {
    assert Limit(1) == 256;
    assert Limit(2) == 65536;
    assert Limit(3) == 16777216;
    assert Limit(4) == 4294967296;
    assert Limit(5) == 1099511627776;
    assert Limit(6) == 281474976710656;
    assert Limit(7) == 72057594037927936;
  }

  /** A number shifted right by whole bytes. */
  function ShiftBytes(n: nat, bytes: nat): nat {
    if bytes == 0 then n else ShiftBytes(n / 256, bytes - 1)
  }

  lemma {:induction false} ByteOfBigEndian(n: nat, k: nat, index: nat)
    requires index < k
    ensures BigEndian(n, k)[k - 1 - index] == ShiftBytes(n, index) % 256
  {
    if index > 0 { ByteOfBigEndian(n / 256, k - 1, index - 1); }
  }

  /** Fills eight bytes from the last to the first. */
  method EncodeUint(value: U64) returns (encoded: array<Byte>)
    ensures fresh(encoded) && encoded[..] == BigEndian(value, 8)
  {
    hide BigEndian, ShiftBytes;
    encoded := new Byte[8](_ => 0);
    ghost var expected := BigEndian(value, 8);
    var index := 0;
    while index < encoded.Length
      invariant index <= 8 && encoded.Length == 8
      invariant forall k :: 8 - index <= k < 8 ==> encoded[k] == expected[k]
    {
      ByteOfBigEndian(value, 8, index);
      encoded[encoded.Length - 1 - index] := ShiftBytes(value, index) % 256;
      index := index + 1;
    }
  }

  // ---------------------------------------------------------------------
  // Fields
  // ---------------------------------------------------------------------

  /** What is written: a number, or bytes behind their length. */
  datatype Field = Num(value: U64) | Blob(bytes: Bytes)

  predicate Writable(f: Field) { f.Blob? ==> |f.bytes| <= MAX_UINT64 }

  function EncodeField(f: Field): Bytes
    requires Writable(f)
  {
    match f
    case Num(value) => BigEndian(value, 8)
    case Blob(bytes) => BigEndian(|bytes|, 8) + bytes
  }

  ghost predicate AllWritable(fields: seq<Field>) { forall i :: 0 <= i < |fields| ==> Writable(fields[i]) }

  function EncodeFields(fields: seq<Field>): Bytes
    requires AllWritable(fields)
  {
    if fields == [] then [] else EncodeField(fields[0]) + EncodeFields(fields[1..])
  }

  /** The kinds of the fields to be read next: true for bytes. */
  type Shape = seq<bool>

  function DecodeNumber(bytes: Bytes): Option<(U64, Bytes)> {
    if |bytes| < 8 then None
    else
      EightBytes();
      ValueIsSmall(bytes[..8]);
      Some((Value(bytes[..8]), bytes[8..]))
  }

  function DecodeField(blob: bool, bytes: Bytes): (r: Option<(Field, Bytes)>)
    ensures r.Some? ==> |r.value.1| + 8 <= |bytes|
  {
    match DecodeNumber(bytes)
    case None => None
    case Some((value, rest)) =>
      if !blob then Some((Num(value), rest))
      else if |rest| < value then None
      else Some((Blob(rest[..value]), rest[value..]))
  }

  function DecodeFields(shape: Shape, bytes: Bytes): (r: Option<(seq<Field>, Bytes)>)
    ensures r.Some? ==> |r.value.0| == |shape| && |r.value.1| + 8 * |shape| <= |bytes|
    ensures r.Some? ==> forall i :: 0 <= i < |shape| ==> r.value.0[i].Blob? == shape[i]
    decreases |shape|
  {
    if shape == [] then Some(([], bytes))
    else match DecodeField(shape[0], bytes)
      case None => None
      case Some((field, rest)) =>
        match DecodeFields(shape[1..], rest)
        case None => None
        case Some((fields, rest)) => Some(([field] + fields, rest))
  }

  function ShapeOf(fields: seq<Field>): (r: Shape)
    ensures |r| == |fields|
    ensures forall i :: 0 <= i < |fields| ==> r[i] == fields[i].Blob?
  {
    if fields == [] then [] else [fields[0].Blob?] + ShapeOf(fields[1..])
  }

  lemma NumberRoundTrip(value: U64, rest: Bytes)
    ensures DecodeNumber(BigEndian(value, 8) + rest) == Some((value, rest))
  {
    EightBytes();
    ValueOfBigEndian(value, 8);
    assert (BigEndian(value, 8) + rest)[..8] == BigEndian(value, 8);
    assert (BigEndian(value, 8) + rest)[8..] == rest;
  }

  lemma FieldRoundTrip(f: Field, rest: Bytes)
    requires Writable(f)
    ensures DecodeField(f.Blob?, EncodeField(f) + rest) == Some((f, rest))
  {
    hide DecodeNumber, BigEndian;
    match f
    case Num(value) => NumberRoundTrip(value, rest);
    case Blob(bytes) =>
      assert EncodeField(f) + rest == BigEndian(|bytes|, 8) + (bytes + rest);
      NumberRoundTrip(|bytes|, bytes + rest);
      assert (bytes + rest)[..|bytes|] == bytes && (bytes + rest)[|bytes|..] == rest;
  }

  /** Fields are read back from what was written, and nothing behind them is
      touched. */
  lemma {:induction false} FieldsRoundTrip(fields: seq<Field>, rest: Bytes)
    requires AllWritable(fields)
    ensures DecodeFields(ShapeOf(fields), EncodeFields(fields) + rest) == Some((fields, rest))
    decreases |fields|
  {
    hide DecodeField, EncodeField;
    if fields == [] {
      assert EncodeFields(fields) + rest == rest;
    } else {
      var tail := EncodeFields(fields[1..]) + rest;
      assert EncodeFields(fields) + rest == EncodeField(fields[0]) + tail;
      FieldRoundTrip(fields[0], tail);
      FieldsRoundTrip(fields[1..], rest);
      assert ShapeOf(fields)[1..] == ShapeOf(fields[1..]);
      assert [fields[0]] + fields[1..] == fields;
    }
  }

  lemma {:induction false} EncodeFieldsOfConcat(a: seq<Field>, b: seq<Field>)
    requires AllWritable(a) && AllWritable(b)
    ensures AllWritable(a + b) && EncodeFields(a + b) == EncodeFields(a) + EncodeFields(b)
  {
    hide EncodeField;
    if a == [] {
      assert a + b == b;
    } else {
      assert (a + b)[1..] == a[1..] + b;
      EncodeFieldsOfConcat(a[1..], b);
    }
  }

  // ---------------------------------------------------------------------
  // Entries
  // ---------------------------------------------------------------------

  type U32 = n: nat | n <= 0xFFFF_FFFF

  datatype TextSemantics = TextSemantics(
    encoding: Bytes, byteLength: U64, sha256: Bytes, hasBOM: bool, lf: U64, crlf: U64, cr: U64,
    finalLF: bool, mixed: bool, empty: bool)

  datatype SymlinkEvidence = SymlinkEvidence(
    pathKey: Bytes, targetHash: Bytes, targetLength: U64, targetClass: Bytes, rootIdentity: Bytes, parentChainHash: Bytes,
    platform: Bytes, primitiveVersion: Bytes, reasonCode: Bytes)

  datatype NativePath = NativePath(
    repoPathKey: Bytes, rootIdentity: Bytes, platform: Bytes, filesystemClass: Bytes, comparisonKeyHash: Bytes,
    parentChainHash: Bytes, disposition: Bytes, reasonCode: Bytes, evidenceVersion: Bytes)

  datatype Entry = Entry(
    path: Bytes, kind: Bytes, mode: U32, bytes: U64, sha256: Bytes, contentClass: Bytes, text: Option<TextSemantics>,
    linkTarget: Bytes, symlink: Option<SymlinkEvidence>, native: Option<NativePath>)

  function Flag(b: bool): Field { Num(if b then 1 else 0) }

  function Unflag(f: Field): Option<bool>
    requires f.Num?
  {
    if f.value == 0 then Some(false) else if f.value == 1 then Some(true) else None
  }

  function TextFields(t: TextSemantics): seq<Field> {
    [Blob(t.encoding), Num(t.byteLength), Blob(t.sha256), Flag(t.hasBOM), Num(t.lf), Num(t.crlf), Num(t.cr),
     Flag(t.finalLF), Flag(t.mixed), Flag(t.empty)]
  }

  const TEXT_SHAPE: Shape := [true, false, true, false, false, false, false, false, false, false]

  predicate HasShape(fields: seq<Field>, shape: Shape) {
    |fields| == |shape| && forall i :: 0 <= i < |shape| ==> fields[i].Blob? == shape[i]
  }

  function TextOf(f: seq<Field>): Option<TextSemantics>
    requires HasShape(f, TEXT_SHAPE)
  {
    var hasBOM :- Unflag(f[3]);
    var finalLF :- Unflag(f[7]);
    var mixed :- Unflag(f[8]);
    var empty :- Unflag(f[9]);
    Some(TextSemantics(f[0].bytes, f[1].value, f[2].bytes, hasBOM, f[4].value, f[5].value, f[6].value, finalLF, mixed, empty))
  }

  function SymlinkFields(l: SymlinkEvidence): seq<Field> {
    [Blob(l.pathKey), Blob(l.targetHash), Num(l.targetLength), Blob(l.targetClass), Blob(l.rootIdentity),
     Blob(l.parentChainHash), Blob(l.platform), Blob(l.primitiveVersion), Blob(l.reasonCode)]
  }

  const SYMLINK_SHAPE: Shape := [true, true, false, true, true, true, true, true, true]

  function SymlinkOf(f: seq<Field>): SymlinkEvidence
    requires HasShape(f, SYMLINK_SHAPE)
  {
    SymlinkEvidence(f[0].bytes, f[1].bytes, f[2].value, f[3].bytes, f[4].bytes, f[5].bytes, f[6].bytes, f[7].bytes, f[8].bytes)
  }

  function NativeFields(n: NativePath): seq<Field> {
    [Blob(n.repoPathKey), Blob(n.rootIdentity), Blob(n.platform), Blob(n.filesystemClass), Blob(n.comparisonKeyHash),
     Blob(n.parentChainHash), Blob(n.disposition), Blob(n.reasonCode), Blob(n.evidenceVersion)]
  }

  const NATIVE_SHAPE: Shape := [true, true, true, true, true, true, true, true, true]

  function NativeOf(f: seq<Field>): NativePath
    requires HasShape(f, NATIVE_SHAPE)
  {
    NativePath(f[0].bytes, f[1].bytes, f[2].bytes, f[3].bytes, f[4].bytes, f[5].bytes, f[6].bytes, f[7].bytes, f[8].bytes)
  }

  function HeadFields(e: Entry): seq<Field> {
    [Blob(e.path), Blob(e.kind), Num(e.mode), Num(e.bytes), Blob(e.sha256), Blob(e.contentClass)]
  }

  const HEAD_SHAPE: Shape := [true, true, false, false, true, true]

  /** An absent part is a zero, a present one a one and its fields. */
  function PartFields(part: Option<seq<Field>>): seq<Field> {
    match part case None => [Num(0)] case Some(fields) => [Num(1)] + fields
  }

  function TextPart(e: Entry): Option<seq<Field>> { if e.text.None? then None else Some(TextFields(e.text.value)) }
  function SymlinkPart(e: Entry): Option<seq<Field>> { if e.symlink.None? then None else Some(SymlinkFields(e.symlink.value)) }
  function NativePart(e: Entry): Option<seq<Field>> { if e.native.None? then None else Some(NativeFields(e.native.value)) }

  /** Everything an entry writes, in order. */
  function EntryFields(e: Entry): seq<Field> {
    HeadFields(e) + PartFields(TextPart(e)) + [Blob(e.linkTarget)] + PartFields(SymlinkPart(e)) + PartFields(NativePart(e))
  }

  function DecodePart(shape: Shape, bytes: Bytes): (r: Option<(Option<seq<Field>>, Bytes)>)
    ensures r.Some? && r.value.0.Some? ==> HasShape(r.value.0.value, shape)
    ensures r.Some? ==> |r.value.1| <= |bytes|
  {
    var (present, rest) :- DecodeNumber(bytes);
    if present == 0 then Some((None, rest))
    else if present == 1 then
      var (fields, rest) :- DecodeFields(shape, rest);
      Some((Some(fields), rest))
    else None
  }

  function DecodeEntry(bytes: Bytes): (r: Option<(Entry, Bytes)>)
    ensures r.Some? ==> |r.value.1| < |bytes|
  {
    var (head, bytes) :- DecodeFields(HEAD_SHAPE, bytes);
    var (text, bytes) :- DecodePart(TEXT_SHAPE, bytes);
    var (link, bytes) :- DecodeFields([true], bytes);
    var (symlink, bytes) :- DecodePart(SYMLINK_SHAPE, bytes);
    var (native, bytes) :- DecodePart(NATIVE_SHAPE, bytes);
    var entry :- EntryOf(head, text, link, symlink, native);
    Some((entry, bytes))
  }

  function EntryOf(head: seq<Field>, text: Option<seq<Field>>, link: seq<Field>, symlink: Option<seq<Field>>,
                   native: Option<seq<Field>>): Option<Entry>
    requires HasShape(head, HEAD_SHAPE) && HasShape(link, [true])
    requires text.Some? ==> HasShape(text.value, TEXT_SHAPE)
    requires symlink.Some? ==> HasShape(symlink.value, SYMLINK_SHAPE)
    requires native.Some? ==> HasShape(native.value, NATIVE_SHAPE)
  {
    if head[2].value > 0xFFFF_FFFF then None
    else
      var semantics :- if text.None? then Some(None) else (var t :- TextOf(text.value); Some(Some(t)));
      Some(Entry(head[0].bytes, head[1].bytes, head[2].value, head[3].value, head[4].bytes, head[5].bytes, semantics,
                 link[0].bytes,
                 if symlink.None? then None else Some(SymlinkOf(symlink.value)),
                 if native.None? then None else Some(NativeOf(native.value))))
  }

  lemma TextIsReadBack(t: TextSemantics)
    ensures HasShape(TextFields(t), TEXT_SHAPE) && TextOf(TextFields(t)) == Some(t)
  {
  }

  lemma SymlinkIsReadBack(l: SymlinkEvidence)
    ensures HasShape(SymlinkFields(l), SYMLINK_SHAPE) && SymlinkOf(SymlinkFields(l)) == l
  {
  }

  lemma NativeIsReadBack(n: NativePath)
    ensures HasShape(NativeFields(n), NATIVE_SHAPE) && NativeOf(NativeFields(n)) == n
  {
  }

  lemma PartsHaveShape(e: Entry)
    ensures HasShape(HeadFields(e), HEAD_SHAPE)
    ensures TextPart(e).Some? ==> HasShape(TextPart(e).value, TEXT_SHAPE) && TextOf(TextPart(e).value) == e.text
    ensures SymlinkPart(e).Some? ==> HasShape(SymlinkPart(e).value, SYMLINK_SHAPE) && Some(SymlinkOf(SymlinkPart(e).value)) == e.symlink
    ensures NativePart(e).Some? ==> HasShape(NativePart(e).value, NATIVE_SHAPE) && Some(NativeOf(NativePart(e).value)) == e.native
  {
    hide TextFields, SymlinkFields, NativeFields, TextOf, SymlinkOf, NativeOf;
    if e.text.Some? { TextIsReadBack(e.text.value); }
    if e.symlink.Some? { SymlinkIsReadBack(e.symlink.value); }
    if e.native.Some? { NativeIsReadBack(e.native.value); }
  }

  lemma EntryOfFields(e: Entry)
    requires HasShape(HeadFields(e), HEAD_SHAPE)
    requires TextPart(e).Some? ==> HasShape(TextPart(e).value, TEXT_SHAPE)
    requires SymlinkPart(e).Some? ==> HasShape(SymlinkPart(e).value, SYMLINK_SHAPE)
    requires NativePart(e).Some? ==> HasShape(NativePart(e).value, NATIVE_SHAPE)
    ensures EntryOf(HeadFields(e), TextPart(e), [Blob(e.linkTarget)], SymlinkPart(e), NativePart(e)) == Some(e)
  {
    hide TextFields, SymlinkFields, NativeFields, TextOf, SymlinkOf, NativeOf;
    PartsHaveShape(e);
  }

  lemma ShapeIsShapeOf(fields: seq<Field>, shape: Shape)
    requires HasShape(fields, shape)
    ensures ShapeOf(fields) == shape
  {
  }

  lemma PartRoundTrip(part: Option<seq<Field>>, shape: Shape, rest: Bytes)
    requires part.Some? ==> HasShape(part.value, shape)
    requires AllWritable(PartFields(part))
    ensures DecodePart(shape, EncodeFields(PartFields(part)) + rest) == Some((part, rest))
  {
    hide DecodeNumber, BigEndian, DecodeFields;
    match part
    case None =>
      EncodeOne(Num(0));
      NumberRoundTrip(0, rest);
    case Some(fields) =>
      assert forall i :: 0 <= i < |fields| ==> fields[i] == PartFields(part)[i + 1];
      EncodeOne(Num(1));
      EncodeFieldsOfConcat([Num(1)], fields);
      assert EncodeFields(PartFields(part)) + rest == BigEndian(1, 8) + (EncodeFields(fields) + rest);
      NumberRoundTrip(1, EncodeFields(fields) + rest);
      ShapeIsShapeOf(fields, shape);
      FieldsRoundTrip(fields, rest);
  }

  lemma EncodeOne(f: Field)
    requires Writable(f)
    ensures EncodeFields([f]) == EncodeField(f)
  {
    hide EncodeField;
    assert [f][1..] == [];
    assert EncodeFields([f]) == EncodeField(f) + EncodeFields([]);
  }

  function EncodeEntry(e: Entry): Bytes
    requires AllWritable(EntryFields(e))
  {
    EncodeFields(EntryFields(e))
  }

  lemma ConcatWritable(a: seq<Field>, b: seq<Field>)
    requires AllWritable(a + b)
    ensures AllWritable(a) && AllWritable(b)
  {
    assert forall i :: 0 <= i < |a| ==> (a + b)[i] == a[i];
    assert forall i :: 0 <= i < |b| ==> (a + b)[|a| + i] == b[i];
  }

  /** An entry's encoding, part by part. */
  lemma EncodeEntryParts(e: Entry)
    requires AllWritable(EntryFields(e))
    ensures AllWritable(HeadFields(e)) && AllWritable(PartFields(TextPart(e))) && Writable(Blob(e.linkTarget))
    ensures AllWritable(PartFields(SymlinkPart(e))) && AllWritable(PartFields(NativePart(e)))
    ensures EncodeEntry(e) ==
            EncodeFields(HeadFields(e)) + EncodeFields(PartFields(TextPart(e))) + EncodeFields([Blob(e.linkTarget)]) +
            EncodeFields(PartFields(SymlinkPart(e))) + EncodeFields(PartFields(NativePart(e)))
  {
    hide EncodeFields, HeadFields, PartFields, TextPart, SymlinkPart, NativePart, AllWritable;
    var head, text, link := HeadFields(e), PartFields(TextPart(e)), [Blob(e.linkTarget)];
    var symlink, native := PartFields(SymlinkPart(e)), PartFields(NativePart(e));
    ConcatWritable(head + text + link + symlink, native);
    ConcatWritable(head + text + link, symlink);
    ConcatWritable(head + text, link);
    ConcatWritable(head, text);
    OnlyWritable(Blob(e.linkTarget));
    EncodeFieldsOfConcat(head + text + link + symlink, native);
    EncodeFieldsOfConcat(head + text + link, symlink);
    EncodeFieldsOfConcat(head + text, link);
    EncodeFieldsOfConcat(head, text);
  }

  lemma OnlyWritable(f: Field)
    requires AllWritable([f])
    ensures Writable(f)
  {
    assert [f][0] == f;
  }

  /** An entry is read back from its encoding, and nothing behind it is touched. */
  lemma EntryRoundTrip(e: Entry, rest: Bytes)
    requires AllWritable(EntryFields(e))
    ensures DecodeEntry(EncodeEntry(e) + rest) == Some((e, rest))
  {
    hide EncodeFields, DecodeFields, DecodePart, HeadFields, PartFields, TextPart, SymlinkPart, NativePart, EntryOf, EncodeEntry,
      AllWritable, EntryFields, HasShape;
    EncodeEntryParts(e);
    PartsHaveShape(e);
    LinkHasShape(e);
    var native := EncodeFields(PartFields(NativePart(e))) + rest;
    var symlink := EncodeFields(PartFields(SymlinkPart(e))) + native;
    var link := EncodeFields([Blob(e.linkTarget)]) + symlink;
    var text := EncodeFields(PartFields(TextPart(e))) + link;
    assert EncodeEntry(e) + rest == EncodeFields(HeadFields(e)) + text;
    ShapeIsShapeOf(HeadFields(e), HEAD_SHAPE);
    FieldsRoundTrip(HeadFields(e), text);
    PartRoundTrip(TextPart(e), TEXT_SHAPE, link);
    FieldsRoundTrip([Blob(e.linkTarget)], symlink);
    PartRoundTrip(SymlinkPart(e), SYMLINK_SHAPE, native);
    PartRoundTrip(NativePart(e), NATIVE_SHAPE, rest);
    EntryOfFields(e);
  }

  lemma LinkHasShape(e: Entry)
    requires Writable(Blob(e.linkTarget))
    ensures ShapeOf([Blob(e.linkTarget)]) == [true] && AllWritable([Blob(e.linkTarget)])
  {
  }

  // ---------------------------------------------------------------------
  // The preimage
  // ---------------------------------------------------------------------

  /** No path, text or link is longer than a 64-bit length can say. */
  ghost predicate AllEncodable(entries: seq<Entry>) {
    forall i :: 0 <= i < |entries| ==> AllWritable(EntryFields(entries[i]))
  }

  ghost function EncodeEntries(entries: seq<Entry>): Bytes
    requires AllEncodable(entries)
  {
    if entries == [] then [] else EncodeEntry(entries[0]) + EncodeEntries(entries[1..])
  }

  ghost function Preimage(version: U64, entries: seq<Entry>): Bytes
    requires AllEncodable(entries)
  {
    BigEndian(version, 8) + EncodeEntries(entries)
  }

  function DecodeEntries(bytes: Bytes): Option<seq<Entry>>
    decreases |bytes|
  {
    if bytes == [] then Some([])
    else
      var (entry, rest) :- DecodeEntry(bytes);
      var entries :- DecodeEntries(rest);
      Some([entry] + entries)
  }

  function DecodePreimage(bytes: Bytes): Option<(U64, seq<Entry>)> {
    var (version, rest) :- DecodeNumber(bytes);
    var entries :- DecodeEntries(rest);
    Some((version, entries))
  }

  lemma EntryIsNotEmpty(e: Entry)
    requires AllWritable(EntryFields(e))
    ensures EncodeEntry(e) != []
  {
    hide EncodeEntry, EntryFields, DecodeFields;
    EntryRoundTrip(e, []);
    assert EncodeEntry(e) + [] == EncodeEntry(e);
  }

  lemma {:induction false} EntriesRoundTrip(entries: seq<Entry>)
    requires AllEncodable(entries)
    ensures DecodeEntries(EncodeEntries(entries)) == Some(entries)
  {
    hide EncodeEntry, EntryFields, DecodeEntry;
    if entries != [] {
      EntryRoundTrip(entries[0], EncodeEntries(entries[1..]));
      EntryIsNotEmpty(entries[0]);
      EntriesRoundTrip(entries[1..]);
      assert [entries[0]] + entries[1..] == entries;
    }
  }

  /** A decoder reads version and entries back from the preimage. */
  lemma PreimageRoundTrip(version: U64, entries: seq<Entry>)
    requires AllEncodable(entries)
    ensures DecodePreimage(Preimage(version, entries)) == Some((version, entries))
  {
    hide EncodeEntries, DecodeEntries, DecodeNumber, BigEndian;
    NumberRoundTrip(version, EncodeEntries(entries));
    EntriesRoundTrip(entries);
  }

  /** So different manifests have different preimages. */
  lemma PreimagesDiffer(version: U64, entries: seq<Entry>, version2: U64, entries2: seq<Entry>)
    requires AllEncodable(entries) && AllEncodable(entries2)
    requires Preimage(version, entries) == Preimage(version2, entries2)
    ensures version == version2 && entries == entries2
  {
    hide Preimage, DecodePreimage;
    PreimageRoundTrip(version, entries);
    PreimageRoundTrip(version2, entries2);
  }

  // ---------------------------------------------------------------------
  // The manifest
  // ---------------------------------------------------------------------

  const DIRECTORY: Bytes := [100, 105, 114, 101, 99, 116, 111, 114, 121]

  function Counted(e: Entry): nat { if e.kind == DIRECTORY then 0 else e.bytes }

  function Sum(entries: seq<Entry>): nat {
    if entries == [] then 0 else Sum(entries[..|entries| - 1]) + Counted(entries[|entries| - 1])
  }

  function PathBelow(): (Entry, Entry) -> bool { (a: Entry, b: Entry) => CompareBytes(a.path, b.path) < 0 }

  function EntryPath(): Entry -> Bytes { (e: Entry) => e.path }

  datatype Manifest = Manifest(version: U64, entries: seq<Entry>, totalBytes: U64, hash: Digest)

  lemma PathBelowIsStrictOrder()
    ensures WeakOrder(PathBelow()) && Decides(PathBelow(), EntryPath())
  {
    hide CompareBytes;
    forall a, b ensures PathBelow()(a, b) ==> !PathBelow()(b, a) {
      CompareBytesDecides(a.path, b.path);
    }
    forall a, b, c | PathBelow()(a, c) ensures PathBelow()(a, b) || PathBelow()(b, c) {
      CompareBytesSplits(a.path, b.path, c.path);
    }
    forall a, b | EntryPath()(a) != EntryPath()(b) ensures PathBelow()(a, b) || PathBelow()(b, a) {
      CompareBytesDecides(a.path, b.path);
      CompareBytesDecides(b.path, a.path);
    }
  }

  /** What a manifest accepts, whatever the order of the entries. */
  ghost predicate Acceptable(valid: Entry -> bool, entries: seq<Entry>) {
    (forall e :: e in entries ==> valid(e)) && DistinctKeys(EntryPath(), entries) && Sum(entries) <= MAX_UINT64
  }

  lemma SortIsEncodable(entries: seq<Entry>)
    requires AllEncodable(entries)
    ensures AllEncodable(StableSort(PathBelow(), entries))
  {
    hide StableSort, EntryFields;
    var sorted := StableSort(PathBelow(), entries);
    StableSortPermutes(PathBelow(), entries);
    SameMembers(entries, sorted);
    forall i | 0 <= i < |sorted| ensures sorted[i] in entries {
      assert sorted[i] in sorted;
    }
  }

  ghost function NewManifest(valid: Entry -> bool, digest: Bytes -> Digest, entries: seq<Entry>): (manifest: Option<Manifest>)
    requires AllEncodable(entries)
    ensures manifest.Some? ==> AllEncodable(manifest.value.entries)
  {
    var sorted := StableSort(PathBelow(), entries);
    SortIsEncodable(entries);
    if Acceptable(valid, entries) then Some(Manifest(VERSION, sorted, Sum(entries), digest(Preimage(VERSION, sorted)))) else None
  }

  lemma {:induction false} SumOfInsert(s: seq<Entry>, x: Entry)
    ensures Sum(InsertLast(PathBelow(), s, x)) == Sum(s) + Counted(x)
  {
    if s == [] || !PathBelow()(x, s[|s| - 1]) {
      assert (s + [x])[..|s|] == s;
    } else {
      SumOfInsert(s[..|s| - 1], x);
      var r := InsertLast(PathBelow(), s[..|s| - 1], x);
      assert (r + [s[|s| - 1]])[..|r|] == r;
    }
  }

  lemma {:induction false} SumOfSort(s: seq<Entry>)
    ensures Sum(StableSort(PathBelow(), s)) == Sum(s)
  {
    if s != [] {
      SumOfSort(s[..|s| - 1]);
      SumOfInsert(StableSort(PathBelow(), s[..|s| - 1]), s[|s| - 1]);
    }
  }

  lemma {:induction false} PrefixSums(s: seq<Entry>, i: nat)
    requires i <= |s|
    ensures Sum(s[..i]) <= Sum(s)
    decreases |s|
  {
    if i < |s| {
      PrefixSums(s[..|s| - 1], i);
      assert s[..|s| - 1][..i] == s[..i];
    } else {
      assert s[..i] == s;
    }
  }

  lemma SameMembers(s: seq<Entry>, t: seq<Entry>)
    requires multiset(s) == multiset(t)
    ensures forall e :: e in s <==> e in t
  {
    forall e ensures e in s <==> e in t {
      assert e in multiset(s) <==> e in multiset(t);
    }
  }

  /** Any permutation of the entries makes the same manifest, hash included, or
      none. */
  lemma PermutationsMakeTheSameManifest(valid: Entry -> bool, digest: Bytes -> Digest, entries: seq<Entry>, other: seq<Entry>)
    requires multiset(entries) == multiset(other) && AllEncodable(entries) && AllEncodable(other)
    ensures NewManifest(valid, digest, entries) == NewManifest(valid, digest, other)
  {
    hide DistinctKeys, Sum, StableSort, Preimage, AllEncodable;
    SameMembers(entries, other);
    if DistinctKeys(EntryPath(), entries) || DistinctKeys(EntryPath(), other) {
      if DistinctKeys(EntryPath(), entries) {
        RearrangingKeepsDistinct(EntryPath(), entries, other);
      } else {
        RearrangingKeepsDistinct(EntryPath(), other, entries);
      }
      PathBelowIsStrictOrder();
      ArrangementsSortAlike(PathBelow(), EntryPath(), entries, other);
      SumOfSort(entries);
      SumOfSort(other);
    }
  }

  /** And so has the same preimage. */
  lemma PermutationsHaveTheSamePreimage(valid: Entry -> bool, digest: Bytes -> Digest, entries: seq<Entry>, other: seq<Entry>)
    requires multiset(entries) == multiset(other) && AllEncodable(entries) && AllEncodable(other)
    requires NewManifest(valid, digest, entries).Some?
    ensures NewManifest(valid, digest, other).Some?
    ensures Preimage(VERSION, NewManifest(valid, digest, other).value.entries) ==
            Preimage(VERSION, NewManifest(valid, digest, entries).value.entries)
  {
    PermutationsMakeTheSameManifest(valid, digest, entries, other);
  }

  /** A manifest holds exactly the given entries, by the bytes of their paths. */
  lemma EntriesAreInByteOrder(valid: Entry -> bool, digest: Bytes -> Digest, entries: seq<Entry>, i: nat, j: nat)
    requires AllEncodable(entries) && NewManifest(valid, digest, entries).Some?
    requires i < j < |NewManifest(valid, digest, entries).value.entries|
    ensures var m := NewManifest(valid, digest, entries).value;
            multiset(m.entries) == multiset(entries) && exists shared :: ComesFirst(m.entries[i].path, m.entries[j].path, shared)
  {
    hide StableSort, Sum, DistinctKeys, AllEncodable, Preimage, CompareBytes;
    PathBelowIsStrictOrder();
    var sorted := StableSort(PathBelow(), entries);
    StableSortIsStrict(PathBelow(), EntryPath(), entries);
    assert PathBelow()(sorted[i], sorted[j]);
    CompareBytesIsByteOrder(sorted[i].path, sorted[j].path);
  }

  /** Two manifests with one hash are the same manifest, or their preimages collide. */
  lemma OneHashOneManifest(valid: Entry -> bool, digest: Bytes -> Digest, entries: seq<Entry>, other: seq<Entry>)
    requires AllEncodable(entries) && AllEncodable(other)
    requires NewManifest(valid, digest, entries).Some? && NewManifest(valid, digest, other).Some?
    ensures var m, n := NewManifest(valid, digest, entries).value, NewManifest(valid, digest, other).value;
            var p, q := Preimage(VERSION, m.entries), Preimage(VERSION, n.entries);
            m.hash == n.hash ==> m == n || (p != q && digest(p) == digest(q))
  {
    hide StableSort, Preimage, Sum, AllEncodable;
    var m, n := NewManifest(valid, digest, entries).value, NewManifest(valid, digest, other).value;
    SumOfSort(entries);
    SumOfSort(other);
    if Preimage(VERSION, m.entries) == Preimage(VERSION, n.entries) {
      PreimagesDiffer(VERSION, m.entries, VERSION, n.entries);
    }
  }

  /** Neighbours in a sorted list differ exactly when all paths do. */
  lemma NeighboursTellAll(entries: seq<Entry>)
    ensures var sorted := StableSort(PathBelow(), entries);
            (forall i :: 0 < i < |sorted| ==> sorted[i - 1].path != sorted[i].path) <==> DistinctKeys(EntryPath(), entries)
  {
    PathBelowIsStrictOrder();
    var sorted := StableSort(PathBelow(), entries);
    StableSortPermutes(PathBelow(), entries);
    StableSortSorts(PathBelow(), entries);
    if DistinctKeys(EntryPath(), entries) {
      RearrangingKeepsDistinct(EntryPath(), entries, sorted);
      forall i | 0 < i < |sorted| ensures sorted[i - 1].path != sorted[i].path {
        assert EntryPath()(sorted[i - 1]) != EntryPath()(sorted[i]);
      }
    } else if forall i :: 0 < i < |sorted| ==> sorted[i - 1].path != sorted[i].path {
      SortedNeighbours(sorted);
      RearrangingKeepsDistinct(EntryPath(), sorted, entries);
    }
  }

  lemma SortedNeighbours(sorted: seq<Entry>)
    requires WeakOrder(PathBelow()) && Decides(PathBelow(), EntryPath()) && Sorted(PathBelow(), sorted)
    requires forall i :: 0 < i < |sorted| ==> sorted[i - 1].path != sorted[i].path
    ensures DistinctKeys(EntryPath(), sorted)
  {
    forall i, j | 0 <= i < j < |sorted| ensures EntryPath()(sorted[i]) != EntryPath()(sorted[j]) {
      assert sorted[j - 1].path != sorted[j].path;
      assert !PathBelow()(sorted[j], sorted[j - 1]);
      assert EntryPath()(sorted[j - 1]) != EntryPath()(sorted[j]);
      assert PathBelow()(sorted[j - 1], sorted[j]);
      if i < j - 1 { assert !PathBelow()(sorted[j - 1], sorted[i]); }
      CompareBytesDecides(sorted[i].path, sorted[j].path);
    }
  }

  /** Sorts, validates and sums, and refuses paths that occur twice. */
  method NewWorkspaceManifest(valid: Entry -> bool, digest: Bytes -> Digest, entries: seq<Entry>) returns (manifest: Option<Manifest>)
    requires AllEncodable(entries)
    ensures manifest == NewManifest(valid, digest, entries)
  {
    hide StableSort, Sum, DistinctKeys, Preimage, AllEncodable;
    var sorted := StableSort(PathBelow(), entries);
    StableSortPermutes(PathBelow(), entries);
    SameMembers(entries, sorted);
    SumOfSort(entries);
    NeighboursTellAll(entries);
    var total := 0;
    NothingSums();
    for i := 0 to |sorted|
      invariant forall k :: 0 <= k < i ==> valid(sorted[k])
      invariant total == Sum(sorted[..i]) <= MAX_UINT64
    {
      var entry := sorted[i];
      if !valid(entry) {
        return None;
      }
      SumNext(sorted, i);
      PrefixSums(sorted, i + 1);
      if entry.kind != DIRECTORY {
        if total > MAX_UINT64 - entry.bytes {
          return None;
        }
        total := total + entry.bytes;
      }
    }
    assert sorted[..|sorted|] == sorted;
    var i := 1;
    while i < |sorted|
      invariant 1 <= i && forall k :: 0 < k < i && k < |sorted| ==> sorted[k - 1].path != sorted[k].path
    {
      if sorted[i - 1].path == sorted[i].path {
        return None;
      }
      i := i + 1;
    }
    SortIsEncodable(entries);
    var writer := new HashWriter();
    writer.WriteManifest(VERSION, sorted);
    return Some(Manifest(VERSION, sorted, total, digest(writer.written)));
  }

  lemma NothingSums()
    ensures Sum([]) == 0
  {
  }

  lemma SumNext(s: seq<Entry>, i: nat)
    requires i < |s|
    ensures Sum(s[..i + 1]) == Sum(s[..i]) + Counted(s[i])
  {
    assert s[..i + 1][..i] == s[..i];
  }

  // ---------------------------------------------------------------------
  // The writer
  // ---------------------------------------------------------------------

  function AllFields(entries: seq<Entry>): seq<Field> {
    if entries == [] then [] else AllFields(entries[..|entries| - 1]) + EntryFields(entries[|entries| - 1])
  }

  lemma {:induction false} AllFieldsAreWritable(entries: seq<Entry>)
    requires AllEncodable(entries)
    ensures AllWritable(AllFields(entries))
  {
    hide EntryFields;
    if entries != [] { AllFieldsAreWritable(entries[..|entries| - 1]); }
  }

  lemma {:induction false} EncodeEntriesLast(entries: seq<Entry>, last: Entry)
    requires AllEncodable(entries + [last])
    ensures AllEncodable(entries) && AllWritable(EntryFields(last))
    ensures EncodeEntries(entries + [last]) == EncodeEntries(entries) + EncodeEntry(last)
    decreases |entries|
  {
    hide EncodeEntry, EntryFields;
    assert (entries + [last])[|entries|] == last;
    assert forall i :: 0 <= i < |entries| ==> (entries + [last])[i] == entries[i];
    if entries == [] {
      assert entries + [last] == [last] && [last][1..] == [];
    } else {
      assert (entries + [last])[1..] == entries[1..] + [last];
      EncodeEntriesLast(entries[1..], last);
    }
  }

  /** Written field by field, the entries make their encoding. */
  lemma {:induction false} FieldsEncodeEntries(entries: seq<Entry>)
    requires AllEncodable(entries)
    ensures AllWritable(AllFields(entries)) && EncodeFields(AllFields(entries)) == EncodeEntries(entries)
  {
    hide EntryFields, EncodeFields;
    AllFieldsAreWritable(entries);
    if entries == [] {
      NothingEncodes();
    } else {
      var rest, last := entries[..|entries| - 1], entries[|entries| - 1];
      FieldsEncodeEntries(rest);
      EncodeFieldsOfConcat(AllFields(rest), EntryFields(last));
      assert rest + [last] == entries;
      EncodeEntriesLast(rest, last);
    }
  }

  lemma NothingEncodes()
    ensures EncodeFields([]) == []
  {
  }

  lemma FieldsEncodePreimage(version: U64, entries: seq<Entry>)
    requires AllEncodable(entries)
    ensures AllWritable([Num(version)] + AllFields(entries))
    ensures EncodeFields([Num(version)] + AllFields(entries)) == Preimage(version, entries)
  {
    hide EncodeFields, AllFields, EncodeEntries;
    FieldsEncodeEntries(entries);
    EncodeOne(Num(version));
    EncodeFieldsOfConcat([Num(version)], AllFields(entries));
  }

  /** What has been handed to the hash, and the fields it is made of. */
  class HashWriter {
    var written: Bytes
    ghost var fields: seq<Field>

    ghost predicate Valid()
      reads this
    {
      AllWritable(fields) && written == EncodeFields(fields)
    }

    constructor ()
      ensures Valid() && written == [] && fields == []
    {
      written, fields := [], [];
    }

    method WriteUint(value: U64)
      requires Valid()
      modifies this
      ensures Valid() && fields == old(fields) + [Num(value)]
    {
      hide EncodeFields;
      var encoded := EncodeUint(value);
      EncodeOne(Num(value));
      EncodeFieldsOfConcat(fields, [Num(value)]);
      written, fields := written + encoded[..], fields + [Num(value)];
    }

    method WriteBytes(value: Bytes)
      requires Valid() && |value| <= MAX_UINT64
      modifies this
      ensures Valid() && fields == old(fields) + [Blob(value)]
    {
      hide EncodeFields;
      var length := EncodeUint(|value|);
      EncodeOne(Blob(value));
      EncodeFieldsOfConcat(fields, [Blob(value)]);
      assert written + length[..] + value == written + (length[..] + value);
      written := written + length[..];
      written := written + value;
      fields := fields + [Blob(value)];
    }

    method WriteBool(value: bool)
      requires Valid()
      modifies this
      ensures Valid() && fields == old(fields) + [Flag(value)]
    {
      if value {
        WriteUint(1);
        return;
      }
      WriteUint(0);
    }

    /** The next field of a known list has been written. */
    lemma Advanced(before: seq<Field>, list: seq<Field>, k: nat, now: seq<Field>)
      requires k < |list| && now == before + list[..k] + [list[k]]
      ensures now == before + list[..k + 1]
    {
      assert list[..k + 1] == list[..k] + [list[k]];
    }

    method WriteTextSemantics(value: Option<TextSemantics>)
      requires Valid() && (value.Some? ==> AllWritable(TextFields(value.value)))
      modifies this
      ensures Valid()
      ensures fields == old(fields) + PartFields(if value.None? then None else Some(TextFields(value.value)))
    {
      hide EncodeFields, AllWritable;
      if value.None? {
        WriteUint(0);
        return;
      }
      var t := value.value;
      ghost var f := TextFields(t);
      assert Writable(f[0]) && Writable(f[2]) by { WritableAt(f, 0); WritableAt(f, 2); }
      WriteUint(1);
      ghost var before := fields;
      WriteContent(t, before);
      WriteEndings(t, before);
      WriteBool(t.empty);
      Advanced(before, f, 9, fields);
      assert f[..10] == f;
      assert before + f == old(fields) + ([Num(1)] + f);
    }

    method WriteContent(t: TextSemantics, ghost before: seq<Field>)
      requires Valid() && fields == before && Writable(TextFields(t)[0]) && Writable(TextFields(t)[2])
      modifies this
      ensures Valid() && fields == before + TextFields(t)[..4]
    {
      hide EncodeFields, AllWritable;
      ghost var f := TextFields(t);
      WriteBytes(t.encoding);
      Advanced(before, f, 0, fields);
      WriteUint(t.byteLength);
      Advanced(before, f, 1, fields);
      WriteBytes(t.sha256);
      Advanced(before, f, 2, fields);
      WriteBool(t.hasBOM);
      Advanced(before, f, 3, fields);
    }

    method WriteEndings(t: TextSemantics, ghost before: seq<Field>)
      requires Valid() && fields == before + TextFields(t)[..4]
      modifies this
      ensures Valid() && fields == before + TextFields(t)[..9]
    {
      hide EncodeFields, AllWritable;
      ghost var f := TextFields(t);
      WriteUint(t.lf);
      Advanced(before, f, 4, fields);
      WriteUint(t.crlf);
      Advanced(before, f, 5, fields);
      WriteUint(t.cr);
      Advanced(before, f, 6, fields);
      WriteBool(t.finalLF);
      Advanced(before, f, 7, fields);
      WriteBool(t.mixed);
      Advanced(before, f, 8, fields);
    }

    lemma WritableAt(list: seq<Field>, i: nat)
      requires AllWritable(list) && i < |list|
      ensures Writable(list[i])
    {
    }

    method WriteSymlink(value: Option<SymlinkEvidence>)
      requires Valid() && (value.Some? ==> AllWritable(SymlinkFields(value.value)))
      modifies this
      ensures Valid()
      ensures fields == old(fields) + PartFields(if value.None? then None else Some(SymlinkFields(value.value)))
    {
      hide EncodeFields, AllWritable;
      if value.None? {
        WriteBool(false);
        return;
      }
      var l := value.value;
      ghost var f := SymlinkFields(l);
      WriteBool(true);
      ghost var before := fields;
      assert f[..0] == [];
      WriteKnown(before, f, 0, l.pathKey);
      WriteKnown(before, f, 1, l.targetHash);
      WriteUint(l.targetLength);
      Advanced(before, f, 2, fields);
      WriteKnown(before, f, 3, l.targetClass);
      WriteKnown(before, f, 4, l.rootIdentity);
      WriteKnown(before, f, 5, l.parentChainHash);
      WriteKnown(before, f, 6, l.platform);
      WriteKnown(before, f, 7, l.primitiveVersion);
      WriteKnown(before, f, 8, l.reasonCode);
      assert f[..9] == f;
      assert before + f == old(fields) + ([Num(1)] + f);
    }

    /** Writes the bytes that come next in a known list of fields. */
    method WriteKnown(ghost before: seq<Field>, ghost list: seq<Field>, ghost k: nat, value: Bytes)
      requires Valid() && k < |list| && AllWritable(list) && list[k] == Blob(value) && fields == before + list[..k]
      modifies this
      ensures Valid() && fields == before + list[..k + 1]
    {
      WritableAt(list, k);
      WriteBytes(value);
      Advanced(before, list, k, fields);
    }

    method WriteNativePath(value: Option<NativePath>)
      requires Valid() && (value.Some? ==> AllWritable(NativeFields(value.value)))
      modifies this
      ensures Valid()
      ensures fields == old(fields) + PartFields(if value.None? then None else Some(NativeFields(value.value)))
    {
      hide EncodeFields, AllWritable;
      if value.None? {
        WriteBool(false);
        return;
      }
      var n := value.value;
      ghost var f := NativeFields(n);
      WriteBool(true);
      ghost var before := fields;
      assert f[..0] == [];
      WriteKnown(before, f, 0, n.repoPathKey);
      WriteKnown(before, f, 1, n.rootIdentity);
      WriteKnown(before, f, 2, n.platform);
      WriteKnown(before, f, 3, n.filesystemClass);
      WriteKnown(before, f, 4, n.comparisonKeyHash);
      WriteKnown(before, f, 5, n.parentChainHash);
      WriteKnown(before, f, 6, n.disposition);
      WriteKnown(before, f, 7, n.reasonCode);
      WriteKnown(before, f, 8, n.evidenceVersion);
      assert f[..9] == f;
      assert before + f == old(fields) + ([Num(1)] + f);
    }

    method WriteEntry(e: Entry)
      requires Valid() && AllWritable(EntryFields(e))
      modifies this
      ensures Valid() && fields == old(fields) + EntryFields(e)
    {
      hide EncodeFields, AllWritable, EncodeEntry, TextFields, SymlinkFields, NativeFields, PartFields;
      EncodeEntryParts(e);
      ghost var head := HeadFields(e);
      assert head[..0] == [];
      ghost var before := fields;
      WriteKnown(before, head, 0, e.path);
      WriteKnown(before, head, 1, e.kind);
      WriteUint(e.mode);
      Advanced(before, head, 2, fields);
      WriteUint(e.bytes);
      Advanced(before, head, 3, fields);
      WriteKnown(before, head, 4, e.sha256);
      WriteKnown(before, head, 5, e.contentClass);
      assert head[..6] == head;
      WriteTail(e);
      Regrouped(before, head, PartFields(TextPart(e)), [Blob(e.linkTarget)], PartFields(SymlinkPart(e)), PartFields(NativePart(e)));
    }

    lemma Regrouped(a: seq<Field>, b: seq<Field>, c: seq<Field>, d: seq<Field>, e: seq<Field>, f: seq<Field>)
      ensures a + b + c + d + e + f == a + (b + c + d + e + f)
    {
    }

    method WriteTail(e: Entry)
      requires Valid() && AllWritable(EntryFields(e))
      modifies this
      ensures Valid()
      ensures fields == old(fields) + PartFields(TextPart(e)) + [Blob(e.linkTarget)] + PartFields(SymlinkPart(e)) + PartFields(NativePart(e))
    {
      hide EncodeFields, EncodeEntry, TextFields, SymlinkFields, NativeFields;
      EncodeEntryParts(e);
      PartWritable(TextPart(e));
      PartWritable(SymlinkPart(e));
      PartWritable(NativePart(e));
      WriteTextSemantics(e.text);
      WriteBytes(e.linkTarget);
      WriteSymlink(e.symlink);
      WriteNativePath(e.native);
    }

    lemma PartWritable(part: Option<seq<Field>>)
      requires AllWritable(PartFields(part))
      ensures part.Some? ==> AllWritable(part.value)
    {
      if part.Some? { ConcatWritable([Num(1)], part.value); }
    }

    /** The whole manifest, from the version to the last entry. */
    method WriteManifest(version: U64, entries: seq<Entry>)
      requires Valid() && fields == [] && AllEncodable(entries)
      modifies this
      ensures written == Preimage(version, entries)
    {
      hide EncodeFields, AllFields, EntryFields;
      WriteUint(version);
      NoFields();
      for i := 0 to |entries|
        invariant Valid() && fields == [Num(version)] + AllFields(entries[..i])
      {
        WriteEntry(entries[i]);
        AllFieldsNext(entries, i);
        assert [Num(version)] + AllFields(entries[..i]) + EntryFields(entries[i]) ==
               [Num(version)] + (AllFields(entries[..i]) + EntryFields(entries[i]));
      }
      assert entries[..|entries|] == entries;
      FieldsEncodePreimage(version, entries);
    }

    lemma NoFields()
      ensures AllFields([]) == []
    {
    }

    lemma AllFieldsNext(entries: seq<Entry>, i: nat)
      requires i < |entries|
      ensures AllFields(entries[..i + 1]) == AllFields(entries[..i]) + EntryFields(entries[i])
    {
      assert entries[..i + 1][..i] == entries[..i];
    }
  }
}
