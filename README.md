# bytecodec in Dafny

A model of the core of `bytecodec`, a Go package that turns values into a flat
byte stream and back. The type of the value decides the encoding: booleans and
integers take fixed-width big-endian bytes, strings take their bytes, structs
are their fields in order, arrays and slices are their elements, pointers and
interfaces are what they hold. Field tags (`length:…`, `gbk`, `bcd:…`) adjust
the string, array and slice codecs and link a length field to the field whose
length it holds (`lengthref`).

The model follows the code as it is written, including where it does not do
what its tests expect (see "As written" below).

## Layout

| file | module | what it holds |
|---|---|---|
| `wrappers.dfy` | `Wrappers` | `Option` |
| `outcomes.dfy` | `Outcomes` | codec errors (`CodecError`), unrecovered panics (`Crash`), `Outcome` |
| `binary.dfy` | `Binary` | big-endian integers of 1, 2, 4 and 8 bytes, two's complement |
| `strings.dfy` | `GoStrings` | `strings.Split` with a one-character separator, and `Join` |
| `strconv.dfy` | `GoStrconv` | `strconv.Atoi` (fast path, `ParseInt`, `ParseUint`), and `Itoa` |
| `tags.dfy` | `Tags` | `tagOptions`, `parseTag` |
| `types.dfy` | `Types` | Go types as a table of shapes, values, heap cells, zero values |
| `fields.dfy` | `StructFields` | the filtered field list of a struct, `findref`, `existLengthref` |
| `codecs.dfy` | `Codecs` | the codec values `newTypeCodec` builds, and `Fits` (a codec belongs to a type) |
| `cursor.dfy` | `Cursor` | `CodecState` and `pointerTrack` as classes |
| `registry.dfy` | `Registry` | `typeCodec`, `newTypeCodec`, `typeFields`, `cachedTypeFields` |
| `encspec.dfy` | `EncSpec` | what encoding a value of a type writes, as a recursive function |
| `encoder.dfy` | `Encoder` | the `encode` methods on a `CodecState`, proved to write what `EncSpec` says |
| `encprops.dfy` | `EncProps` | properties of encoding |
| `decspec.dfy` | `DecSpec` | what decoding does to a destination, as a recursive function |
| `decoder.dfy` | `Decoder` | the `decode` methods on a `CodecState`, proved to do what `DecSpec` says |
| `decprops.dfy` | `DecProps` | properties of decoding, and the round trips that hold |
| `api.dfy` | `Api` | `Marshal`, `Unmarshal`, `InvalidUnmarshalError.Error` |
| `examples.dfy` | `Examples` | the `lengthTag` value of the package tests, marshalled |

Types are a finite table `TypeId -> GoType`, so recursive types (a struct with
a pointer to itself) can be written down. Go forbids types of infinite size:
in a well-formed table a struct's fields and an array's element have smaller
ids. A pointer is an address into a heap of cells.

The Go code signals errors with `panic` and recovers them in `CodecState.code`.
Here every call returns an `Outcome`. A `Raised` error is one that `code`
recovers and `Marshal`/`Unmarshal` return. A `Crashed` outcome is a panic that
is re-raised (a reflect `Set` on an unaddressable value, `make` with a
negative length), a value that does not fit its type, or a run past the fuel
given. The first failure ends the whole run.

The codec cache and the field cache are package variables in Go. Here they are
a `Caches` value that goes into each call and comes back out. The
`encode`/`decode` methods dispatch on the codec that `typeCodec` built. The
specification functions dispatch on the type. `Fits` plus `Registry.Valid`
connect the two. A placeholder (`RecursiveWrap`) found in the cache stands for
the finished codec of its type.

Encoding terminates for every input. Past depth 1000 each pointer is recorded
in the seen set, and a pointer already recorded fails. The termination measure
is the depth left plus the (type, address) pairs not yet recorded. Decoding
does not terminate for every input. Go recurses without bound, and the array
and slice loops may never end. Decoding is therefore bounded by `fuel` and
ends in `OutOfFuel` when the fuel runs out.

### As written

Where the code and its tests disagree, the model follows the code:

- `typeFields` reads the `json` tag (codec.go:1106). The tests annotate with
  `bytecodec:` tags, so their options never reach the codecs.
- `parseTag` stores a `length` value that parses as an integer as text in
  `lengthref`, and leaves `length` at 0 (tags.go:28-34). It reads the `bcd`
  key, not `bcd8421`, and never reads a `lengthref` key.
- `findref` compares the holder's `lengthref` with each entry's `lengthref`,
  not with the entry's name (codec.go:778). It therefore always finds the
  holder itself, or a later entry with the same `lengthref`.
- The array and slice decode loops never advance `i` (codec.go:926-936,
  984-1005). Every pass decodes into element 0. Afterwards an array is all
  zero values and a slice is a new empty slice.
- Struct decode stores lengths into the field list it shares with the field
  cache (codec.go:877). The lengths persist into later calls.
- `CodecState.Read` raises `bytecodecError{DataLengthErr}`, an error wrapped
  once more (codec.go:144). The model calls it `DataLengthErr`.
- A raw string decoded without a length copies the unread tail and consumes
  nothing (codec.go:654-660).

So the round trips the tests check for structs, arrays and slices are not
properties of this code. Round trips are proved for booleans and integers.

## Model

| member | source | states |
|---|---|---|
| GoStrings.SplitJoin | tags.go:18-20 | splitting the join of separator-free pieces gives the pieces back |
| GoStrings.JoinSplit | tags.go:18-20 | joining the pieces of a split gives the text back |
| GoStrings.SplitLength | tags.go:18-21 | a split has one more piece than the text has separators |
| GoStrconv.AtoiItoa | tags.go:29 | `Atoi` parses the decimal text of every 64-bit integer back to that integer with no error |
| GoStrconv.AtoiFailureValue | tags.go:29-31 | a failed `Atoi` returns 0 for a syntax error and a 64-bit bound for a range error |
| Tags.ParseTag | tags.go:16-48 | the token loop leaves the settings map `Settings(Split(tag, ';'))`, and the options read from it are `TagOptionsOf(tag)` |
| Tags.EmptyTag | tags.go:16-47 | `parseTag("")` gives the zero `tagOptions` |
| Tags.TokenWithoutColonIgnored | tags.go:20-23 | a token without `:` leaves the settings map unchanged |
| Tags.BareGbkIgnored | tags.go:20-23 | a bare `gbk` or `gbk18030` token sets no flag and gives the zero options |
| Tags.LaterTokenOverrides | tags.go:19-25 | a token `k:v…` sets `k` to the text between its first and second `:`, overriding an earlier value |
| Tags.OptionsOfKeys | tags.go:28-46 | a parsing `length` value goes to `lengthref` with `length` 0; a syntax error gives length 0, a range error a non-zero bound; the flags are set iff their values are non-empty; `bcd` takes a parsing value, else 0 |
| Tags.OtherKeysIgnored | tags.go:28-46 | a key other than `length`, `gbk`, `gbk18030`, `bcd` (such as `lengthref` or `bcd8421`) changes no option |
| Tags.NumericLengthGoesToLengthref | tags.go:28-34 | `parseTag("length:4")` has `length` 0 and `lengthref` "4" |
| Binary.IntRoundTrip | codec.go:375-521 | decoding the big-endian bytes of an in-range value with the same kind gives the value back, sign-extended for signed kinds |
| Binary.FromBigEndianOf | codec.go:395-407 | reading back `BigEndian(n, w)` gives `n` modulo 256^w |
| Binary.FromBigEndianBound | codec.go:402-407 | `w` big-endian bytes denote a number below 256^w |
| Types.IntKindOf | codec.go:242-260 | an integer codec is chosen exactly for the eleven integer kinds |
| Cursor.ReadFrom | codec.go:141-147 | a read of `n` bytes fails iff nothing is unread and `n > 0`; otherwise it copies `min(n, unread)` bytes, zero-fills the rest and consumes what it copied |
| Cursor.ReadByteFrom | codec.go:149-155 | `ReadByte` fails iff nothing is unread; otherwise it returns the first byte and consumes it |
| Cursor.CodecState.Read | codec.go:141-147 | the read fails (Go raises `DataLengthErr`) exactly when `ReadFrom` does; otherwise the bytes returned and the buffer left are `ReadFrom`'s |
| Cursor.CodecState.ReadByte | codec.go:149-155 | the read fails exactly when nothing is unread; otherwise the byte and the buffer left are `ReadByteFrom`'s |
| Cursor.CodecState.Write | codec.go:82-85 | the bytes are appended to the unread bytes |
| Cursor.CodecState.WriteByte | codec.go:82-85 | the byte is appended |
| Cursor.PointerTrack.constructor | codec.go:78-80 | a new track has depth 0 and an empty seen set |
| Cursor.CodecState.New | codec.go:91-94 | a new state has no bytes and a fresh, empty pointer track |
| Cursor.CodecState.Sub | codec.go:96-104 | a sub-state has no bytes and the given pointer track |
| Cursor.CodecState.Gensub | codec.go:115-117 | a fresh, empty state that shares this state's pointer track |
| StructFields.FieldInfosUpTo | codec.go:1097-1120 | every entry names a kept field (exported, not embedded, `json` tag not "-") |
| StructFields.FieldInfosOrdered | codec.go:1099-1118 | entries are in struct-field order |
| StructFields.FieldInfosEntries | codec.go:1110-1117 | each entry has its field's name, index and parsed `json` tag |
| StructFields.FieldInfosComplete | codec.go:1100-1109 | every kept field has an entry |
| StructFields.FindRefUpTo | codec.go:776-785 | the result is the last index whose `lengthref` equals the key, or none when no entry has it |
| StructFields.FindRef | codec.go:776-785 | `findref` returns an index into the list |
| StructFields.ExistLengthref | codec.go:787-794 | true iff some entry's `lengthref` equals the field's name |
| StructFields.FindRefAlwaysFound | codec.go:776-785 | `findref` on a list member always finds, at or after the member, an entry with the same `lengthref` |
| Registry.TypeCodec | codec.go:200-225 | a cached codec is returned as is; otherwise the codec built is cached under `t`; a type not being built never gets a placeholder; the result fits `t`; the caches only grow, stay consistent and keep every field list |
| Registry.NewTypeCodec | codec.go:231-280 | the codec built is not a placeholder and fits `t`: its kind is `t`'s kind, an integer coder has `t`'s integer kind, and element codecs fit the element type; the caches stay consistent |
| Registry.CachedTypeFields | codec.go:1125-1131 | a cached list is returned as is; otherwise the built list is cached; either way it is the list the type's codec uses |
| Registry.TypeFields | codec.go:1097-1120 | the list built is exactly the kept fields in order, each with a codec that fits its type |
| Registry.AddField | codec.go:1099-1118 | one field: kept fields get their parsed tag and codec, other fields are skipped |
| Registry.AddPlaceholder | codec.go:211-216 | storing a placeholder for an uncached type keeps the caches consistent |
| Registry.ReplacePlaceholder | codec.go:220-224 | replacing the placeholder by a fitting codec ends the pending state |
| Registry.EmptyValid | codec.go:163 | the empty caches are consistent |
| EncSpec.LengthValue | codec.go:806-821 | the length converted to the holder's kind: for an unsigned holder its value modulo 256^width, for a signed one a value in the kind's range |
| EncProps.LengthWraps | codec.go:806-821 | for every byte count, the holder's slot is the count's low bytes in the holder's width, so a count too big for the holder wraps (300 in a `uint8` holder writes 0x2C) |
| EncSpec.BudgetDrops | codec.go:1029-1040 | following a pointer one level deeper uses up budget, so encoding terminates |
| Encoder.Encode | codec.go:190-193 | with any codec that fits `t`, success appends exactly the bytes `Enc` specifies for `(t, v)` and leaves the pointer track's depth and seen set as they were; failure reports the failure `Enc` specifies |
| Encoder.EncodeScalar | codec.go:359-521 | bool, integer, string and unsupported coders append what `EncScalar` specifies, or report its failure |
| Encoder.EncodeString | codec.go:618-651 | appends what `EncString` specifies (BCD, then GB18030/GBK, then raw bytes with the length check), or reports its failure |
| Encoder.EncodeInterface | codec.go:695-701 | appends what `EncIface` specifies: nothing for nil, else the dynamic value as its dynamic type |
| Encoder.EncodeStruct | codec.go:744-773 | appends what `EncStruct` specifies: the field slots concatenated in list order |
| Encoder.EncodeFields | codec.go:747-771 | the slots after the loop are those `EncFields` specifies, field by field in list order |
| Encoder.EncodeField | codec.go:748-770 | the slots after one field are those `EncField` specifies |
| Encoder.EncodeLengthref | codec.go:796-838 | the slots after a holder are those `EncLengthref` specifies: the ref field's bytes, then its byte count through the holder |
| Encoder.EncodeHolder | codec.go:805-837 | the slots are those `EncHolder` specifies: the holder's slot gets the encoded length, the ref's slot the ref bytes |
| Encoder.EncodeArray | codec.go:901-913 | appends what `EncArray` specifies: the elements in order, then the length check |
| Encoder.EncodeSlice | codec.go:959-971 | appends what `EncSlice` specifies: the first `len` elements in order, then the length check |
| Encoder.EncodeElems | codec.go:904-906 | the loop appends what `EncElems` specifies, the elements' encodings in index order |
| Encoder.EncodePtr | codec.go:1025-1041 | appends what `EncPtr` specifies: nothing for nil, else the pointee |
| Encoder.EncodePointee | codec.go:1029-1040 | appends what `EncPointee` specifies (depth +1; past 1000 a recorded pointer fails, else it is recorded); on success depth and seen set are as before the call |
| Encoder.CodecIntKindFits | codec.go:186-188 | the kind `typ()` reports, looking through a placeholder, is the integer kind of the type |
| EncProps.IntWidths | codec.go:248-260 | 1, 2, 4 or 8 bytes by kind; `int`, `uint`, `uintptr` take 8; signed iff an `int` kind |
| EncProps.BoolEncoding | codec.go:359-365 | a bool writes the one byte 1 or 0 |
| EncProps.IntEncoding | codec.go:381-521 | an integer writes exactly its width of big-endian bytes, the value truncated to that width, whatever the tag says |
| EncProps.RawStringLength | codec.go:647-650 | a raw string fails iff a non-zero tag length differs from its byte count, with `LengthErr`; otherwise it writes its bytes |
| EncProps.TranscodedNoLengthCheck | codec.go:622-645 | the BCD and GBK branches never raise `LengthErr` |
| EncProps.ElemsConcat | codec.go:904-906 | the elements' encodings are concatenated in index order |
| EncProps.SeqLength | codec.go:909-912 | arrays and slices fail iff a non-zero tag length differs from the bytes written, with `LengthErr`; otherwise they write those bytes |
| EncProps.PlainFields | codec.go:747-771 | with no `lengthref`, slot `j` gets field `j`'s encoding |
| EncProps.PlainStruct | codec.go:744-773 | a struct with no `lengthref` writes its fields' encodings concatenated in list order |
| EncProps.ReferencedFieldSkipped | codec.go:766-768 | a field some `lengthref` names leaves the slots unchanged |
| EncProps.HolderFindsRef | codec.go:753-759 | the not-found `TagErr` is unreachable; the holder goes to `encodeLengthref` with the last entry whose `lengthref` equals its own |
| EncProps.HolderNotInteger | codec.go:822-827 | a holder of non-integer kind raises `LengthrefInvalidKind` |
| EncProps.LengthReadBack | codec.go:806-821 | a length that fits the holder's kind (below 256^width/2 when signed, below 256^width for a 1-, 2- or 4-byte unsigned holder, below 2^63 for a 64-bit one) is the holder's value itself and is read back by struct decode as the same int |
| EncProps.NilWritesNothing | codec.go:1026-1028 | nil pointers and nil interfaces write no bytes |
| EncProps.CycleCheck | codec.go:1029-1035 | within 1000 levels nothing is checked; past them the cycle error comes iff the pointer is already recorded |
| Decoder.Decode | codec.go:195-198 | with any codec that fits `t`, success yields the value, unread bytes, memory and field lists `Dec` specifies, the pointer track as before; failure reports `Dec`'s failure; the caches stay consistent |
| Decoder.DecodeScalar | codec.go:367-521 | bool, integer, string and unsupported coders do what `DecScalar` specifies |
| DecSpec.Region | codec.go:654-659 | a negative tag length or one above Go's allocation limit (`MaxAlloc`, 2^48) panics in `make`; a positive one reads that many bytes (zero-filled past the end) and fails with DataLengthErr only when nothing is unread; none takes the whole tail and leaves it unread |
| Decoder.ReadRegion | codec.go:654-659 | with a tag length, that many bytes are read, or the `make` panic for a negative or too large length; without one, the whole tail is taken and left unread |
| Decoder.DecodeString | codec.go:653-687 | does what `DecScalar` specifies for a string: the region, then BCD, GB18030/GBK or raw text |
| Decoder.DecodeInterface | codec.go:703-709 | does what `DecIface` specifies: nil decodes nothing, else the dynamic value, as not settable |
| Decoder.DecodeStruct | codec.go:840-886 | does what `DecStruct` specifies: pass 1 over the shared list, then pass 2 over the fields |
| Decoder.StoreLengths | codec.go:842-879 | the shared cached list becomes `Pass1`'s list, changed only in `length` options |
| Decoder.StoreLength | codec.go:846-877 | one holder's value is stored as the `length` of its ref entry |
| Decoder.DecodeFields | codec.go:881-885 | does what `DecFields` specifies: every field in list order, with the options its entry holds then |
| Decoder.DecodeField | codec.go:882-884 | does what `DecField` specifies for one field; the field count is kept |
| Decoder.DecodeArray | codec.go:915-945 | does what `DecArray` specifies: the region in a sub-state, then the array loop on it |
| Decoder.SubState | codec.go:916-923 | a fresh sub-state holds the region, shares the pointer track, and the region is consumed; `Region`'s failure otherwise |
| Decoder.DecodeArrayRest | codec.go:925-942 | does what `ArrayRest` specifies: the loop, then every element set to zero |
| Decoder.SetAll | codec.go:937-941 | every element becomes the zero value |
| Decoder.DecodeArrayLoop | codec.go:925-935 | does what `ArrayLoop` specifies: element 0 decoded until the sub-state is empty |
| Decoder.DecodeSlice | codec.go:973-1011 | does what `DecSlice` specifies: the region in a sub-state, then the slice loop on it |
| Decoder.DecodeSliceRest | codec.go:983-1009 | does what `SliceRest` specifies: the loop, then a new empty slice |
| Decoder.DecodeSliceLoop | codec.go:983-1005 | does what `SliceLoop` specifies: grow, lengthen, decode element 0, until the sub-state is empty |
| Decoder.PrepareSlice | codec.go:985-997 | gives what `SlicePrep` specifies: a slice of capacity 0 grows to `GrownCap` with its first `len` elements copied; then one of length 0 gets length 1; either step on an unsettable slice panics |
| Decoder.DecodePtr | codec.go:1043-1060 | does what `DecPtr` specifies: nil gets a fresh zero cell first, then the pointee is decoded |
| Decoder.DecodePointee | codec.go:1047-1059 | does what `DecPointee` specifies: the cycle check as in encode, the decoded value written back to the cell |
| DecSpec.Alloc | codec.go:1044-1046 | `reflect.New` gives a fresh address holding the zero value |
| DecSpec.SetLength | codec.go:877 | the ref entry's `length` becomes `n`; its other options, every other entry and the list's length stay as they were |
| DecSpec.Grow | codec.go:987-995 | the new backing has `GrownCap` elements: a copy of the first `len`, then zeros |
| DecProps.IntDecoding | codec.go:385-521 | an integer decoder reads its width of bytes as big-endian, sign-extended for signed kinds; the bytes after stay unread |
| DecProps.IntRoundTrip | codec.go:381-521 | what an integer coder writes decodes to the original in-range value and consumes exactly those bytes |
| DecProps.BoolRoundTrip | codec.go:359-373 | what a bool coder writes decodes to the same bool and consumes one byte |
| DecProps.HugeLengthPanics | codec.go:654-657 | a string whose tag length exceeds the allocation limit (e.g. MaxInt64 from an out-of-range `length:`) panics whatever is unread |
| DecProps.RawStringKeepsUnread | codec.go:654-660 | a raw string without a length takes all unread bytes and consumes none |
| DecProps.RawStringArrayStalls | codec.go:925-935 | an array of raw strings without a length, over a non-empty region, never ends |
| DecProps.Pass1OnlyLengths | codec.go:842-879 | pass 1 changes the list only in `length` options |
| DecProps.Pass1AlwaysFinds | codec.go:847-849 | pass 1 never raises the not-found `TagErr` |
| DecProps.Pass1Stores | codec.go:846-877 | a holder stores its value, as an int, into the `length` of the entry `findref` returns, and changes no other entry; a non-integer holder raises `LengthrefInvalidKind` |
| DecProps.Pass1SkipsPlain | codec.go:846 | an entry without `lengthref` changes nothing |
| DecProps.StructPasses | codec.go:842-885 | a failing pass 1 fails the struct decode; otherwise pass 2 runs over the updated list |
| DecProps.GrownCapIsMax | codec.go:988-991 | the new capacity is max(4, cap + cap/2), more than before |
| DecProps.SliceBecomesEmpty | codec.go:1007-1009 | a successful slice decode leaves a new empty non-nil slice and needed a settable destination |
| DecProps.ArrayBecomesZero | codec.go:936-941 | a successful array decode leaves every element zero; a length-0 array is unchanged |
| DecProps.NilPointerAllocates | codec.go:1044-1046 | a nil pointer gets a fresh cell with the zero element before decoding; if not settable it panics |
| DecProps.DecodeCycleCheck | codec.go:1048-1059 | decode records pointers past depth 1000 and fails on one already recorded; in every other case the outcome is the element's decode one level deeper, written back to the cell, so the cycle error comes only from an already-recorded pointer or from the element's own decode |
| DecProps.UnsettableKept | codec.go:703-709 | a value reached through an interface comes out of a successful decode unchanged |
| DecProps.UnsettableArrayFails | codec.go:936-941 | an unsettable array comes out unchanged or the decode fails |
| DecProps.UnsettableSliceFails | codec.go:1007-1009 | an unsettable slice always fails to decode |
| DecProps.UnsettableScalarFails | codec.go:367-373 | an unsettable bool, integer or string always fails to decode |
| Api.Marshal | encode.go:3-14 | on success the bytes are exactly what the value encodes to from an empty state and empty track; on error the result is no bytes and the error; nil gives no bytes and no error |
| Api.MarshalValue | encode.go:4-13 | the bytes are exactly `Enc` of the value as its type, with no options and an empty track; on error no bytes |
| Api.ErrorText | decode.go:11-20 | "bytecodec: Unmarshal(nil)" exactly for a nil type; "bytecodec: Unmarshal(non-pointer T)" for a non-pointer type T; "bytecodec: Unmarshal(nil T)" for a pointer type T |
| Api.RefusalText | decode.go:11-26 | the text of a refused argument: "nil" for no argument, "non-pointer T" for a value of a non-pointer type, "nil T" for a nil pointer |
| Api.InvalidArgument | decode.go:23-26 | the argument is refused iff it is not a non-nil pointer; the error carries its type |
| Api.Unmarshal | decode.go:22-37 | the error is `InvalidUnmarshalError` iff the argument is refused, and then nothing changes; otherwise the memory is what decoding `data` through the pointer, not settable, with an empty track, leaves (bytes left unread are no error), or the decode's error |
| Api.UnmarshalInto | decode.go:28-36 | the memory and error are those `Unmarshalled` specifies for the pointer and `data` |
| Examples.MarshalLengthTag | codec_test.go:256-274 | `Marshal(&lengthTag{…})` is `00 01 00 02 61 62 63 64 01 02 03 04 00` |
| Examples.SliceField | codec_test.go:257 | the `[]uint16{1, 2}` field writes `00 01 00 02` |
| Examples.ArrayField | codec_test.go:259 | the `[5]byte{1, 2, 3, 4, 0}` field writes `01 02 03 04 00` |

## Left out

- Floating-point coders and float length conversions (codec.go:523-573, 822-825, 869-872): IEEE-754 bit patterns and NaN/Inf checks. Float kinds are not in the type model.
- GBK/GB18030 transcoding and BCD packing: external libraries. They are the function-valued parameters in `Types.Transcoders`, which may fail.
- `ByteCoder` user hooks, `byteCoderCoder`, `addrByteCoderCoder`, `condAddrCoder` (codec.go:18-21, 231-237, 295-351, 1066-1095): user callbacks and reflect addressability.
- `sync.Map`, the `sync.WaitGroup` of `recursiveWrapCoder` and `encodeStatePool`: concurrency and pooling. The caches are modelled sequentially. A pooled state that is reused is modelled as a fresh state.
- The `Error()` methods of `DecodeGBKErr` … `LengthErr` and `MarshalerError`/`UnmarshalerError` (codec.go:24-66, 575-609): message text only.
- Slices are values (nil flag, length, backing array). Two slices sharing one backing array, and pointers into struct fields or array elements (`&x.f`), are not modelled.
- `Decoder.Decode`: bounded by `fuel`. Go recursion is unbounded, and a loop that consumes no byte runs forever; both end in `OutOfFuel` here. That the Go loop never ends is shown only for raw strings (`RawStringArrayStalls`).
- Encoder methods: after a failure they say nothing about the bytes written so far. `Marshal` returns no bytes on error (encode.go), so its caller never sees them.
- Decoder methods: after a failure they say nothing about the memory, the bytes left unread or the lengths stored in the cached field lists. Only the error and the consistency of the caches (`Stays`) are stated.
- `Api.Unmarshal`: a failed decode is specified only by its error. The caller still holds the pointer and can see what the model leaves unspecified: fields decoded before the failure, cells allocated for nil pointers (codec.go:1044-1046), and lengths that pass 1 stored in the shared cached list (codec.go:877), which stay for later `Marshal` and `Unmarshal` calls even when pass 2 then fails.
- `Api.UnmarshalInto`: the same. On failure the memory and the cached lengths are unconstrained apart from `Stays`.
- Stack exhaustion on deep but finite structures is not modelled.
- `Api.Unmarshal`: the decoded destination is returned as the new memory. The root is not settable (`reflect.ValueOf` of the argument), so only what it points to changes.
