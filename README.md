# imebra core, modelled in Dafny

This project models the public contract of the core classes of imebra, a C++
library for DICOM. Its headers forward every call to a hidden implementation,
so the model follows the declarations and their documentation comments. Five
parts are modelled.

- **Byte buffers** (`memory.dfy`, module `Memory`). `ReadMemory` is an
  immutable byte buffer. `ReadWriteMemory` is a byte buffer that can be
  resized and overwritten in place. Both are classes over a `seq<bv8>`. A
  caller's `char*` plus its size becomes an `array<bv8>` plus a size, and the
  copies into and out of those arrays are loops with invariants.
- **Tags, VRs and element conversions** (`tags.dfy`, module `Tags`). Tag ids
  are in ascending group/element order (DICOM PS3.5 section 7.1). The VRs are
  those of DICOM PS3.5 Table 6.2-1. The conversions a data handler performs
  on write and on read are modelled: integers to decimal text on string VRs,
  decimal text to integers on binary VRs, and the range checks of each
  binary VR.
- **The data set store** (`dataset.dfy`, module `DataSets`). A `DataSet` maps
  tag ids to `Tag` objects. A `Tag` holds a VR, numbered buffers of elements
  and the sequence items of DICOM PS3.5 section 7.5. A `ReadingDataHandler` is
  a value, the snapshot of one buffer. A `WritingDataHandler` is an object
  that fills a new buffer. When it is destroyed it replaces the tag's buffer;
  here that is the explicit `Commit`. The store also models the frame-order
  rule of `setImage`/`getImage`.
- **DIMSE messages** (`dimse.dfy`, module `Dimse`). These are the commands and
  responses of DICOM PS3.7 sections 9 and 10 (C-STORE, C-GET, C-FIND, C-MOVE,
  C-ECHO, C-CANCEL and the six N- services). They are immutable datatypes.
  Each imebra constructor becomes a function that fixes the fields its
  accessors read back. `getAs*Command` becomes `GetAs`, which returns a
  `Result`. A response constructor requires a command of its own kind.
- **The DICOMDIR record tree** (`dicomdir.dfy`, module `DicomDirs`). These
  are the directory records of DICOM PS3.3 Annex F. Each record has
  next-sibling and first-child links, file-path parts and a record type.
  `DicomDir` hands out new records, holds the first root record and, in
  `UpdateDataSet`, writes the tree's layout. That walk is a depth-first
  traversal with an explicit stack, proved to follow the pre-order function
  `Order`.

`errors.dfy` (module `Errors`) holds the exception types as an `Error`
datatype. It also holds `Result`, `Option` and `Outcome`, and the fixed-width
integer types. A method that throws in C++ returns `Fail(error)` in the model
and then changes nothing.

Where the headers leave room for more than one reading:

- The overloads with a default value are documented differently. The signed
  one (dataSet.h:553-568) returns the default when the tag does not exist or
  lacks the buffer; the unsigned and string ones (dataSet.h:610-625,
  dataSet.h:724-739) mention only a tag that does not exist. The model applies
  the first wording to all three, so each returns the default when the tag or
  its buffer 0 is missing. An element past the end of the buffer is
  MissingItemError, with or without a default.
- The setters that take a tag id are documented as writing only the first
  item of the tag's content, after wiping out every item of the old content
  (dataSet.h:103-104). The model reads "the tag's content" as buffer 0, the
  buffer these setters and the matching getters use, and "all the items" as
  its elements: a setter replaces all of buffer 0 with the one new element and
  keeps the tag's other buffers, so a tag with buffers 0 and 1 still has two
  buffers after a setter. It creates the tag with the given VR when it is
  missing.

Decisions where the headers are silent:

- Getters that take a tag id read element 0 of buffer 0, or element
  `elementNumber` of buffer 0, as the comments say. When the value does not
  convert to the tag's VR, a setter fails with DataHandlerConversionError and
  changes nothing.
- A missing tag is MissingGroupError when no tag of its group is stored, and
  otherwise MissingTagError.
- `setSequenceItem` with an id equal to the number of items appends. A larger
  id is MissingItemError.
- `resize` keeps the bytes that still fit and zero-fills the rest.
  `assignRegion` with a region past the end is MemorySizeError.
- The deprecated `CMoveCommand` constructor without a destination AET gives
  an empty destination.
- `CFindResponse` is not a `CPartialResponse` in the header, so it has no
  sub-operation counters in the model.
- `ReadWriteMemory(initialSize)` fills the new memory with zero bytes.
- A UID getter of a command kind that does not carry that UID returns
  MissingTagError, the error of a tag that is absent from the command data set.
- `NSetResponse(command, responseCode)` lists no modified attributes.
- The strings of a buffer of a multi-valued string VR (every string VR but LT,
  ST, UT and UR) are stored joined by the backslash separator of DICOM PS3.5
  section 6.4, and a reading handler splits them at the separator again. So
  a written string that holds a separator reads back as several elements,
  and a single write of a separator-free string reads back unchanged.

## Model

| member | source | states |
|---|---|---|
| Memory.ReadBytes | imebra/include/imebra/readMemory.h:68-82 | reading a caller's buffer gives exactly its first `size` bytes |
| Memory.Resized | imebra/include/imebra/readWriteMemory.h:118-123 | a resized content has the new length, keeps the old bytes that fit and is zero past the old end |
| Memory.OverwrittenAt | imebra/include/imebra/readWriteMemory.h:167-190 | overwriting a region keeps the length, puts the patch inside the region and leaves every byte outside it as it was |
| Memory.CopyOut | imebra/include/imebra/readMemory.h:119-141 | copies `count` bytes from `offset` into the front of the destination, and leaves the rest of the destination as it was |
| Memory.CopyAll | imebra/include/imebra/readMemory.h:93-117 | returns the content's size; copies all of it when the destination is large enough, and otherwise leaves the destination untouched |
| Memory.CopyRegion | imebra/include/imebra/readMemory.h:119-141 | succeeds exactly when the region fits in the content; then copies that region; otherwise fails with MemorySizeError and copies nothing |
| Memory.ReadMemory.constructor | imebra/include/imebra/readMemory.h:63-66 | a default-constructed memory has size 0 and is empty |
| Memory.ReadMemory.FromBytes | imebra/include/imebra/readMemory.h:68-82 | the memory holds exactly the first sourceSize bytes of the source |
| Memory.ReadMemory.Size | imebra/include/imebra/readMemory.h:86-91 | the number of bytes held, which the constructors fix |
| Memory.ReadMemory.Empty | imebra/include/imebra/readMemory.h:159-165 | empty holds exactly when the memory has no bytes |
| Memory.ReadMemory.Data | imebra/include/imebra/readMemory.h:93-117 | always returns the size; copies every byte when the destination is large enough; otherwise leaves the destination untouched |
| Memory.ReadMemory.RegionData | imebra/include/imebra/readMemory.h:119-141 | succeeds exactly when offset + size fits; then copies that region; otherwise fails with MemorySizeError and copies nothing |
| Memory.ReadWriteMemory.constructor | imebra/include/imebra/readWriteMemory.h:65-70 | a default-constructed memory is empty |
| Memory.ReadWriteMemory.WithSize | imebra/include/imebra/readWriteMemory.h:72-79 | a new memory holds initialSize zero bytes |
| Memory.ReadWriteMemory.FromMemory | imebra/include/imebra/readWriteMemory.h:81-86 | the new memory's content equals the source memory's content |
| Memory.ReadWriteMemory.FromBytes | imebra/include/imebra/readWriteMemory.h:88-102 | the memory holds exactly the first sourceSize bytes of the source |
| Memory.ReadWriteMemory.Size | imebra/include/imebra/readMemory.h:86-91 | the number of bytes held, which the constructors and every resizing method state |
| Memory.ReadWriteMemory.Empty | imebra/include/imebra/readMemory.h:159-165 | empty holds exactly when the memory has no bytes |
| Memory.ReadWriteMemory.Data | imebra/include/imebra/readMemory.h:93-117 | the same copy-or-report-size rule as ReadMemory.Data |
| Memory.ReadWriteMemory.RegionData | imebra/include/imebra/readMemory.h:119-141 | the same bounds rule as ReadMemory.RegionData |
| Memory.ReadWriteMemory.CopyFrom | imebra/include/imebra/readWriteMemory.h:106-111 | the content becomes the source memory's content |
| Memory.ReadWriteMemory.Clear | imebra/include/imebra/readWriteMemory.h:113-116 | the size becomes 0 |
| Memory.ReadWriteMemory.Resize | imebra/include/imebra/readWriteMemory.h:118-123 | the size becomes newSize and the bytes that fit are kept |
| Memory.ReadWriteMemory.Reserve | imebra/include/imebra/readWriteMemory.h:125-131 | neither the size nor the content changes |
| Memory.ReadWriteMemory.Assign | imebra/include/imebra/readWriteMemory.h:150-165 | content and size become the first sourceSize source bytes |
| Memory.ReadWriteMemory.AssignRegion | imebra/include/imebra/readWriteMemory.h:167-190 | succeeds exactly when the region fits; then overwrites only that region; the size never changes; when the region does not fit it fails with MemorySizeError and changes nothing |
| Tags.LessIsStrictTotalOrder | imebra/include/imebra/dataSet.h:209-215 | the group-then-element order is irreflexive, transitive, total and asymmetric |
| Tags.LeastExists | imebra/include/imebra/dataSet.h:209-215 | every non-empty set of tag ids has a least member, so the ordered listing always has a next id |
| Tags.BlankFits | imebra/include/imebra/writingDataHandler.h:82-93 | the element a growing buffer gets is a legal value of every non-sequence VR |
| Tags.DecimalRoundTrip | imebra/include/imebra/readingDataHandler.h:100-122 | parsing the decimal text of any integer gives that integer back |
| Tags.FromInteger | imebra/include/imebra/writingDataHandler.h:115-137 | a stored integer is a legal value of the VR; string VRs always accept; a failure is DataHandlerConversionError |
| Tags.FromString | imebra/include/imebra/writingDataHandler.h:151-161 | a stored string converts to a legal value of the VR; a failure is DataHandlerConversionError |
| Tags.ToSignedLong | imebra/include/imebra/readingDataHandler.h:100-110 | succeeds exactly when the element holds or spells an integer in the 32-bit signed range, and then returns it; otherwise DataHandlerConversionError |
| Tags.ToUnsignedLong | imebra/include/imebra/readingDataHandler.h:112-122 | succeeds exactly when the element holds or spells an integer in the 32-bit unsigned range, and then returns it; otherwise DataHandlerConversionError |
| Tags.SignedLongRoundTrip | imebra/include/imebra/dataSet.h:570-581 | a signed value that a VR accepts is committed as one element and read back unchanged |
| Tags.UnsignedLongRoundTrip | imebra/include/imebra/dataSet.h:627-638 | an unsigned value that a VR accepts is committed as one element and read back unchanged |
| Tags.StringRoundTrip | imebra/include/imebra/dataSet.h:741-752 | an accepted string reads back unchanged on a single-valued string VR, and on a multi-valued one when it holds no separator; on a multi-valued VR it is committed as the values between separators, which join back to it; on a binary VR it reads back in canonical decimal form |
| Tags.DecimalTextAsInteger | imebra/include/imebra/writingDataHandler.h:151-161 | writing the decimal text of an integer stores the same element as writing the integer |
| Tags.JoinLengthAppend | imebra/include/imebra/tag.h:84-93 | appending a string to a string buffer adds its length, plus one separator unless the buffer was empty |
| Tags.Split | imebra/include/imebra/readingDataHandler.h:81-91 | reading a string buffer back from memory gives at least one element |
| Tags.JoinSplit | imebra/include/imebra/readingDataHandler.h:81-91 | joining the values read back from a string buffer gives the stored text again |
| Tags.JoinCons | imebra/include/imebra/writingDataHandler.h:76-80 | joining an element before two or more others puts exactly one separator after its text |
| Tags.SplitAtFirst | imebra/include/imebra/readingDataHandler.h:81-91 | reading a string back splits at its first separator and reads the rest the same way |
| Tags.SplitJoin | imebra/include/imebra/readingDataHandler.h:81-91 | separator-free strings written into a buffer are read back as exactly those strings |
| Tags.CommitKeepsSeparatorFree | imebra/include/imebra/writingDataHandler.h:76-80 | committing elements that hold no separator stores them unchanged |
| Tags.DecimalHasNoSeparator | imebra/include/imebra/writingDataHandler.h:115-137 | the decimal text of an integer holds no separator, so it is one value |
| Tags.IntegerCommitsAsWritten | imebra/include/imebra/writingDataHandler.h:115-137 | an integer written into a buffer is committed as exactly that one element |
| DataSets.Resized | imebra/include/imebra/writingDataHandler.h:82-93 | a resized buffer has the requested length, keeps the elements that fit and blanks the new ones |
| DataSets.WithItem | imebra/include/imebra/tag.h:224-234 | setting an item succeeds exactly for an existing id or the next id; the item is then at that id and every other item is unchanged; a larger id is MissingItemError |
| DataSets.ReadingDataHandler.GetSize | imebra/include/imebra/readingDataHandler.h:81-91 | the number of elements of the snapshot; for strings, the number of values between separators |
| DataSets.ReadingDataHandler.GetDataType | imebra/include/imebra/readingDataHandler.h:93-98 | the VR of the tag the snapshot was taken from |
| DataSets.ReadingDataHandler.GetSignedLong | imebra/include/imebra/readingDataHandler.h:100-110 | returns the snapshot's element as a 32-bit signed integer when it is one, and otherwise DataHandlerConversionError |
| DataSets.ReadingDataHandler.GetUnsignedLong | imebra/include/imebra/readingDataHandler.h:112-122 | returns the snapshot's element as a 32-bit unsigned integer when it is one, and otherwise DataHandlerConversionError |
| DataSets.ReadingDataHandler.GetString | imebra/include/imebra/readingDataHandler.h:136-146 | a string element comes back unchanged, and a number as decimal text that parses back to it |
| DataSets.Tag.constructor | imebra/include/imebra/dataSet.h:225-233 | a new tag has the given VR, no buffers and no items |
| DataSets.Tag.GetBuffersCount | imebra/include/imebra/tag.h:67-72 | the count is the number of buffer ids for which a buffer exists, and 0 exactly when none exists |
| DataSets.Tag.BufferExists | imebra/include/imebra/tag.h:74-82 | true exactly for a stored buffer id; GetBufferSize and GetReadingDataHandler succeed exactly then |
| DataSets.KeysAfterStore | imebra/include/imebra/tag.h:67-72 | storing a buffer adds its id to the tag's buffer ids, so the count grows by one exactly when the id was new |
| DataSets.Tag.GetBufferSize | imebra/include/imebra/tag.h:84-93 | the buffer's size in bytes when the buffer exists, and otherwise MissingBufferError |
| DataSets.Tag.GetReadingDataHandler | imebra/include/imebra/tag.h:95-105 | when the buffer exists, a snapshot of exactly that buffer with the tag's VR; otherwise MissingBufferError |
| DataSets.Tag.GetWritingDataHandler | imebra/include/imebra/tag.h:107-121 | a fresh handler on an empty buffer, tied to this tag and buffer id, with the tag's VR |
| DataSets.Tag.GetSequenceItem | imebra/include/imebra/tag.h:205-214 | the item when it exists, and otherwise MissingItemError |
| DataSets.Tag.SetSequenceItem | imebra/include/imebra/tag.h:224-234 | a later get returns the item, it exists and the tag is SQ; an id past the end fails with MissingItemError and changes nothing |
| DataSets.Tag.SequenceItemExists | imebra/include/imebra/tag.h:216-222 | true exactly for the id of an existing item; GetSequenceItem succeeds exactly then |
| DataSets.Tag.GetDataType | imebra/include/imebra/tag.h:247-252 | the tag's VR, which SetSequenceItem and AppendSequenceItem turn into SQ |
| DataSets.Tag.AppendSequenceItem | imebra/include/imebra/tag.h:236-245 | the item is added after every existing item and the tag becomes SQ |
| DataSets.WritingDataHandler.constructor | imebra/include/imebra/writingDataHandler.h:56-58 | a new handler works on empty memory, with the tag's VR |
| DataSets.WritingDataHandler.SetSize | imebra/include/imebra/writingDataHandler.h:82-93 | the size becomes the requested one, kept elements are unchanged and new ones are blank |
| DataSets.WritingDataHandler.GetSize | imebra/include/imebra/writingDataHandler.h:95-106 | the number of elements of the handler's buffer, which SetSize sets |
| DataSets.WritingDataHandler.GetDataType | imebra/include/imebra/writingDataHandler.h:108-113 | the tag's VR when the handler was obtained |
| DataSets.WritingDataHandler.SetSignedLong | imebra/include/imebra/writingDataHandler.h:115-125 | replaces only element `index` with the converted value; a failed conversion changes nothing and is DataHandlerConversionError |
| DataSets.WritingDataHandler.SetUnsignedLong | imebra/include/imebra/writingDataHandler.h:127-137 | replaces only element `index` with the converted value; a failed conversion changes nothing and is DataHandlerConversionError |
| DataSets.WritingDataHandler.SetString | imebra/include/imebra/writingDataHandler.h:151-161 | replaces only element `index` with the converted string; a failed conversion changes nothing and is DataHandlerConversionError |
| DataSets.WritingDataHandler.Commit | imebra/include/imebra/writingDataHandler.h:76-80 | the tag's buffer is replaced by the handler's buffer as it reads back from memory (the strings of a multi-valued string VR split at the separator), and every other buffer is kept |
| DataSets.WithFirstElement | imebra/include/imebra/dataSet.h:103-108 | after a single-value write, buffer 0 holds just the new element, or on a multi-valued string VR the values between the separators of its text; other buffers are kept and the VR and items are unchanged |
| DataSets.DataSet.constructor | imebra/include/imebra/dataSet.h:152-160 | a new data set is empty, with implicit VR little endian and charset ISO 2022 IR 6 |
| DataSets.DataSet.WithTransferSyntax | imebra/include/imebra/dataSet.h:162-180 | a new data set is empty, with the given transfer syntax |
| DataSets.DataSet.WithCharsets | imebra/include/imebra/dataSet.h:182-201 | a new data set is empty, with the given transfer syntax and charsets |
| DataSets.DataSet.GetTags | imebra/include/imebra/dataSet.h:209-215 | lists exactly the stored tag ids, strictly ascending by group and then by element |
| DataSets.DataSet.GetTag | imebra/include/imebra/dataSet.h:217-223 | the stored tag when it is present; otherwise MissingGroupError when no tag of the group is stored, and MissingTagError otherwise |
| DataSets.DataSet.GetTagCreate | imebra/include/imebra/dataSet.h:225-233 | returns the existing tag, or a new empty tag of the given VR; no other tag changes |
| DataSets.DataSet.BufferExists | imebra/include/imebra/dataSet.h:531-536 | true exactly when the tag is stored and has that buffer |
| DataSets.DataSet.GetReadingDataHandler | imebra/include/imebra/dataSet.h:357-372 | a snapshot of the buffer when the tag and buffer exist; otherwise the missing tag or MissingBufferError |
| DataSets.DataSet.GetWritingDataHandler | imebra/include/imebra/dataSet.h:374-390 | a fresh empty handler on the existing tag, or on a new tag of the given VR; no other tag changes |
| DataSets.DataSet.GetElement | imebra/include/imebra/dataSet.h:543-551 | element `elementNumber` of buffer 0; otherwise the missing tag, MissingBufferError, or MissingItemError past the end |
| DataSets.DataSet.GetSignedLong | imebra/include/imebra/dataSet.h:538-551 | propagates a missing tag, buffer or element; otherwise the element's value as a signed 32-bit integer, which succeeds exactly when the element is an integer in that range, and DataHandlerConversionError otherwise |
| DataSets.DataSet.GetSignedLongOr | imebra/include/imebra/dataSet.h:553-568 | the default when the tag or its buffer is missing, and otherwise the same as GetSignedLong |
| DataSets.DataSet.GetUnsignedLong | imebra/include/imebra/dataSet.h:595-608 | propagates a missing tag, buffer or element; otherwise the element's value as an unsigned 32-bit integer, which succeeds exactly when the element is an integer in that range, and DataHandlerConversionError otherwise |
| DataSets.DataSet.GetUnsignedLongOr | imebra/include/imebra/dataSet.h:610-625 | the default when the tag or its buffer is missing, and otherwise the same as GetUnsignedLong |
| DataSets.DataSet.GetString | imebra/include/imebra/dataSet.h:709-722 | propagates a missing tag, buffer or element; otherwise the element as text, which always succeeds |
| DataSets.DataSet.GetStringOr | imebra/include/imebra/dataSet.h:724-739 | the default when the tag or its buffer is missing, and otherwise the same as GetString |
| DataSets.DataSet.SetSignedLong | imebra/include/imebra/dataSet.h:570-581 | succeeds exactly when the tag's VR accepts the value; buffer 0 then holds only that value and reads back as it; the tag is created with the given VR when missing; other tags are unchanged; on failure nothing changes |
| DataSets.DataSet.SetUnsignedLong | imebra/include/imebra/dataSet.h:627-638 | the same as SetSignedLong, for an unsigned value |
| DataSets.DataSet.SetString | imebra/include/imebra/dataSet.h:741-752 | the same as SetSignedLong, for a string; a single-valued string VR, or a multi-valued one given a string without separator, reads it back unchanged; a multi-valued VR stores the values between separators; a binary VR reads back the canonical decimal of the parsed number |
| DataSets.DataSet.GetSequenceItem | imebra/include/imebra/dataSet.h:315-328 | the tag's item; otherwise the missing tag or MissingItemError |
| DataSets.DataSet.SetSequenceItem | imebra/include/imebra/dataSet.h:330-340 | creates the tag as SQ when it is missing, and a later get returns the item; an id past the end fails with MissingItemError and changes nothing |
| DataSets.DataSet.GetDataType | imebra/include/imebra/dataSet.h:924-930 | the tag's VR, or the missing tag |
| DataSets.DataSet.GetImage | imebra/include/imebra/dataSet.h:244-263 | the frame when it exists, and otherwise DataSetImageDoesntExistError |
| DataSets.DataSet.SetImage | imebra/include/imebra/dataSet.h:282-303 | accepts only the next frame number, else DataSetWrongFrameError; only a frame of frame 0's format, else DataSetDifferentFormatError; an accepted frame is appended and read back; on failure nothing changes |
| Dimse.CommandField | imebra/include/imebra/dimse.h:189-195 | every request's Command Field has bit 15 clear |
| Dimse.CommandTypeOf | imebra/include/imebra/dimse.h:189-195 | a decoded kind has exactly the given Command Field |
| Dimse.CommandFieldRoundTrip | imebra/include/imebra/dimse.h:189-195 | decoding any kind's Command Field gives that kind back |
| Dimse.Command.GetId | imebra/include/imebra/dimse.h:180-187 | the message ID the command was built with, as each constructor states |
| Dimse.Command.GetAbstractSyntax | imebra/include/imebra/dimse.h:123 | the abstract syntax the command was built with, as each constructor states |
| Dimse.Command.GetCommandType | imebra/include/imebra/dimse.h:189-195 | the kind the command was built as, as each constructor states |
| Dimse.Command.GetAffectedSopClassUid | imebra/include/imebra/dimse.h:133-139 | missing exactly for C-CANCEL, N-GET, N-SET, N-ACTION and N-DELETE, with MissingTagError; the other kinds carry it |
| Dimse.Command.GetAffectedSopInstanceUid | imebra/include/imebra/dimse.h:125-131 | present exactly for C-STORE, N-EVENT-REPORT and N-CREATE; otherwise MissingTagError |
| Dimse.Command.GetRequestedSopClassUid | imebra/include/imebra/dimse.h:149-155 | present exactly for N-GET, N-SET, N-ACTION and N-DELETE; otherwise MissingTagError |
| Dimse.Command.GetRequestedSopInstanceUid | imebra/include/imebra/dimse.h:141-147 | present exactly when the requested class UID is, for N-GET, N-SET, N-ACTION and N-DELETE; otherwise MissingTagError |
| Dimse.Command.GetPayloadDataSet | imebra/include/imebra/dimse.h:121 | C-STORE, C-GET, C-FIND, C-MOVE and N-SET always carry a payload; C-ECHO, C-CANCEL, N-GET and N-DELETE never do |
| Dimse.Command.GetOriginatorAet | imebra/include/imebra/dimse.h:502-511 | the originator AET of a C-STORE, as CStoreCommand states |
| Dimse.Command.GetOriginatorMessageId | imebra/include/imebra/dimse.h:512-522 | the originator message ID of a C-STORE, as CStoreCommand states |
| Dimse.Command.GetDestinationAet | imebra/include/imebra/dimse.h:846-852 | the destination AET of a C-MOVE, as the two C-MOVE constructors state |
| Dimse.Command.GetCancelMessageId | imebra/include/imebra/dimse.h:1043-1051 | the ID of the message a C-CANCEL cancels, as CCancelCommand states |
| Dimse.Command.GetEventId | imebra/include/imebra/dimse.h:1124-1131 | the event ID of an N-EVENT-REPORT, as its constructors state |
| Dimse.Command.GetActionId | imebra/include/imebra/dimse.h:1462-1469 | the action ID of an N-ACTION, as its constructors state |
| Dimse.Command.GetAttributeList | imebra/include/imebra/dimse.h:1235-1243 | the attribute list of an N-GET, as NGetCommand states |
| Dimse.Command.GetAs | imebra/include/imebra/dimse.h:197-375 | returns the same command exactly when the kind matches, and otherwise BadCast |
| Dimse.NarrowsToExactlyItsKind | imebra/include/imebra/dimse.h:197-375 | exactly one kind narrows a command, the kind it was built as, and narrowing to it gives the command back |
| Dimse.CStoreCommand | imebra/include/imebra/dimse.h:471-522 | the kind, id, abstract syntax, UIDs, originator AET, originator id and payload read back as given |
| Dimse.CGetCommand | imebra/include/imebra/dimse.h:576-598 | the kind, id, abstract syntax, affected class UID and identifier read back; there is no affected instance UID |
| Dimse.CFindCommand | imebra/include/imebra/dimse.h:700-723 | the kind, id, abstract syntax, affected class UID and identifier read back; there is no affected instance UID |
| Dimse.CMoveCommand | imebra/include/imebra/dimse.h:819-852 | the kind, id, abstract syntax, class UID, destination AET and identifier read back |
| Dimse.CMoveCommandWithoutDestination | imebra/include/imebra/dimse.h:790-817 | the deprecated constructor gives an empty destination AET; the rest read back |
| Dimse.CEchoCommand | imebra/include/imebra/dimse.h:953-972 | the kind, id, abstract syntax and class UID read back; there is no payload |
| Dimse.CCancelCommand | imebra/include/imebra/dimse.h:1024-1051 | the kind, id and cancelled message id read back; there is no class UID and no payload |
| Dimse.NEventReportCommand | imebra/include/imebra/dimse.h:1074-1096 | the kind, id, UIDs and event id read back; there is no payload |
| Dimse.NEventReportCommandWithInformation | imebra/include/imebra/dimse.h:1098-1131 | the kind, id, UIDs, event id and event information read back |
| Dimse.NGetCommand | imebra/include/imebra/dimse.h:1208-1243 | the kind, id, requested UIDs and attribute list read back unchanged; there is no payload |
| Dimse.NSetCommand | imebra/include/imebra/dimse.h:1312-1336 | the kind, id, requested UIDs and modification list read back |
| Dimse.NActionCommandWithInformation | imebra/include/imebra/dimse.h:1410-1436 | the kind, id, requested UIDs, action id and action information read back |
| Dimse.NActionCommand | imebra/include/imebra/dimse.h:1438-1469 | the kind, id, requested UIDs and action id read back; there is no payload |
| Dimse.NCreateCommandWithAttributes | imebra/include/imebra/dimse.h:1543-1566 | the kind, id, affected UIDs and attribute list read back |
| Dimse.NCreateCommand | imebra/include/imebra/dimse.h:1568-1588 | the kind, id and affected UIDs read back; there is no payload |
| Dimse.NDeleteCommand | imebra/include/imebra/dimse.h:1683-1703 | the kind, id and requested UIDs read back; there is no payload |
| Dimse.ResponseKindIsCommandKind | imebra/include/imebra/dimse.h:542-550 | a response answers a command that narrows to the response's kind, never C-CANCEL |
| Dimse.Response.GetStatusCode | imebra/include/imebra/dimse.h:396-397 | the status code the response was built with, as each response constructor states |
| Dimse.Response.GetAbstractSyntax | imebra/include/imebra/dimse.h:123 | the abstract syntax of the command answered |
| Dimse.Response.GetPayloadDataSet | imebra/include/imebra/dimse.h:121 | C-STORE, C-ECHO, N-SET and N-DELETE responses carry no payload |
| Dimse.Response.GetSubOperations | imebra/include/imebra/dimse.h:418-450 | the four sub-operation counters of a C-GET or C-MOVE response, as their constructors state |
| Dimse.Response.GetEventId | imebra/include/imebra/dimse.h:1180-1186 | the event ID of the N-EVENT-REPORT command answered |
| Dimse.Response.GetActionId | imebra/include/imebra/dimse.h:1515-1522 | the action ID of the N-ACTION command answered |
| Dimse.Response.GetModifiedAttributes | imebra/include/imebra/dimse.h:1383-1389 | the attributes an N-SET response lists as modified, as its constructors state |
| Dimse.CStoreResponse | imebra/include/imebra/dimse.h:542-550 | built only from a C-STORE command; answers it with the given status and its message id |
| Dimse.CGetResponseWithIdentifier | imebra/include/imebra/dimse.h:619-652 | built only from a C-GET command; the status, the four sub-operation counters and the identifier read back |
| Dimse.CGetResponse | imebra/include/imebra/dimse.h:654-678 | built only from a C-GET command; the status and the four sub-operation counters read back |
| Dimse.CFindResponseWithIdentifier | imebra/include/imebra/dimse.h:743-756 | built only from a C-FIND command; the status is pending and the identifier reads back |
| Dimse.CFindResponse | imebra/include/imebra/dimse.h:758-769 | built only from a C-FIND command; the status reads back and there is no payload |
| Dimse.CMoveResponseWithIdentifier | imebra/include/imebra/dimse.h:873-906 | built only from a C-MOVE command; the status, counters and identifier read back |
| Dimse.CMoveResponse | imebra/include/imebra/dimse.h:908-932 | built only from a C-MOVE command; the status and counters read back |
| Dimse.CEchoResponse | imebra/include/imebra/dimse.h:993-1003 | built only from a C-ECHO command; the status reads back |
| Dimse.NEventReportResponseWithReply | imebra/include/imebra/dimse.h:1152-1164 | built only from an N-EVENT-REPORT command; the status is success, and the event id and reply read back |
| Dimse.NEventReportResponse | imebra/include/imebra/dimse.h:1166-1186 | built only from an N-EVENT-REPORT command; the status and the command's event id read back |
| Dimse.NGetResponseWithAttributes | imebra/include/imebra/dimse.h:1263-1277 | built only from an N-GET command; the status and the attribute list read back |
| Dimse.NGetResponse | imebra/include/imebra/dimse.h:1279-1290 | built only from an N-GET command; the status reads back and there is no payload |
| Dimse.NSetResponseWithModified | imebra/include/imebra/dimse.h:1357-1368 | built only from an N-SET command; the status is success and the modified attributes read back unchanged |
| Dimse.NSetResponse | imebra/include/imebra/dimse.h:1370-1389 | built only from an N-SET command; the status reads back and no attributes are listed as modified |
| Dimse.NActionResponseWithReply | imebra/include/imebra/dimse.h:1489-1501 | built only from an N-ACTION command; the status is success, and the action id and reply read back |
| Dimse.NActionResponse | imebra/include/imebra/dimse.h:1503-1522 | built only from an N-ACTION command; the status and the command's action id read back |
| Dimse.NCreateResponseWithAttributes | imebra/include/imebra/dimse.h:1609-1620 | built only from an N-CREATE command; the instance UID is the command's, and the attribute list reads back |
| Dimse.NCreateResponseForInstance | imebra/include/imebra/dimse.h:1622-1635 | built only from an N-CREATE command; the given instance UID and attribute list read back |
| Dimse.NCreateResponse | imebra/include/imebra/dimse.h:1637-1648 | built only from an N-CREATE command; the status reads back and the instance UID is the command's |
| Dimse.NCreateResponseForInstanceOnly | imebra/include/imebra/dimse.h:1650-1661 | built only from an N-CREATE command; the given instance UID reads back and there is no payload |
| Dimse.NDeleteResponse | imebra/include/imebra/dimse.h:1723-1734 | built only from an N-DELETE command; the status reads back |
| DicomDirs.FindType | imebra/include/imebra/dicomDirEntry.h:137-140 | a type found for a string is one of the candidates and has exactly that string |
| DicomDirs.TypeFromString | imebra/include/imebra/dicomDirEntry.h:137-140 | a type named by a string has exactly that type string |
| DicomDirs.TypeStringInjective | imebra/include/imebra/dicomDirEntry.h:137-140 | no two record types share a type string |
| DicomDirs.FindTypeFinds | imebra/include/imebra/dicomDirEntry.h:137-140 | searching candidates that contain a type, by its string, finds that type |
| DicomDirs.TypeStringHasNoSeparator | imebra/include/imebra/dicomDirEntry.h:137-140 | a type string is one value of the multi-valued VR CS |
| DicomDirs.TypeStringRoundTrip | imebra/include/imebra/dicomDirEntry.h:137-140 | the type string of every record type names that type |
| DicomDirs.DicomDirEntry.constructor | imebra/include/imebra/dicomDirEntry.h:77-96 | a new record has no next sibling, no first child and no file parts |
| DicomDirs.DicomDirEntry.GetEntryDataSet | imebra/include/imebra/dicomDirEntry.h:70-75 | the record's own data set, which GetNewEntry appends to the Directory Record Sequence |
| DicomDirs.DicomDirEntry.GetNextEntry | imebra/include/imebra/dicomDirEntry.h:77-86 | the next sibling, null for a new record, as the constructor and SetNextEntry state |
| DicomDirs.DicomDirEntry.GetFirstChildEntry | imebra/include/imebra/dicomDirEntry.h:88-96 | the first child, null for a new record, as the constructor and SetFirstChildEntry state |
| DicomDirs.DicomDirEntry.GetFileParts | imebra/include/imebra/dicomDirEntry.h:112-122 | the file parts, empty for a new record, as the constructor and SetFileParts state |
| DicomDirs.DicomDirEntry.GetType | imebra/include/imebra/dicomDirEntry.h:137-138 | the record type the record was created with, which GetTypeString names |
| DicomDirs.DicomDirEntry.SetNextEntry | imebra/include/imebra/dicomDirEntry.h:98-103 | the next entry reads back, and the child link and file parts are unchanged |
| DicomDirs.DicomDirEntry.SetFirstChildEntry | imebra/include/imebra/dicomDirEntry.h:105-110 | the first child reads back, and the sibling link and file parts are unchanged |
| DicomDirs.DicomDirEntry.SetFileParts | imebra/include/imebra/dicomDirEntry.h:124-135 | the file parts read back unchanged, and both links are unchanged |
| DicomDirs.DicomDirEntry.GetTypeString | imebra/include/imebra/dicomDirEntry.h:137-140 | the type string names exactly the record's type |
| DicomDirs.OrderIsFresh | imebra/include/imebra/dicomDir.h:110-119 | the pre-order walk lists each record at most once, and only records of this DICOMDIR, so a cycle of links stops it |
| DicomDirs.OrderSkip | imebra/include/imebra/dicomDir.h:110-119 | the walk skips a null, visited or foreign link |
| DicomDirs.OrderVisit | imebra/include/imebra/dicomDir.h:110-119 | the walk lists a new record, then its children, then its later siblings |
| DicomDirs.Walk | imebra/include/imebra/dicomDir.h:110-119 | the explicit-stack traversal lists exactly the records of the pre-order `Order`, and its visited set holds exactly those records |
| DicomDirs.AppendRecord | imebra/include/imebra/dicomDir.h:79-87 | the record's data set is appended after every existing item of the Directory Record Sequence, which is created as SQ when missing; no other tag changes |
| DicomDirs.NewEntry | imebra/include/imebra/dicomDir.h:79-87 | a fresh record of the given type whose fresh data set reads back its Directory Record Type string; the record has no links and no file parts |
| DicomDirs.EntryDataSets | imebra/include/imebra/dicomDir.h:79-87 | lists the records' data sets, element k being record k's, which Valid compares with the Directory Record Sequence |
| DicomDirs.EntryDataSetsAppend | imebra/include/imebra/dicomDir.h:79-87 | appending a record appends its data set to the list of the records' data sets |
| DicomDirs.DistinctAppend | imebra/include/imebra/dicomDir.h:79-87 | appending a record that is not yet listed keeps the records distinct |
| DicomDirs.DicomDir.AddRecord | imebra/include/imebra/dicomDir.h:79-87 | the record is appended to the records and its data set to the Directory Record Sequence, so record i still owns item i; root, layout and the record are unchanged |
| DicomDirs.DicomDir.constructor | imebra/include/imebra/dicomDir.h:62-65 | a new DICOMDIR has an empty data set, no records and no root record |
| DicomDirs.DicomDir.GetNewEntry | imebra/include/imebra/dicomDir.h:79-87 | a fresh record of the given type, with no links and no file parts; its data set holds its type string and is appended to the Directory Record Sequence, so record i still owns item i; root and layout are unchanged |
| DicomDirs.DicomDir.GetFirstRootEntry | imebra/include/imebra/dicomDir.h:89-97 | the first root record, null for a new DICOMDIR, as the constructor and SetFirstRootEntry state |
| DicomDirs.DicomDir.SetFirstRootEntry | imebra/include/imebra/dicomDir.h:99-108 | the root reads back, and the layout written to the data set does not change until UpdateDataSet |
| DicomDirs.DicomDir.PositionLocatesItem | imebra/include/imebra/dicomDir.h:110-119 | a nonzero position names the item of the Directory Record Sequence that holds the record's data set |
| DicomDirs.DicomDir.Position | imebra/include/imebra/dicomDir.h:110-119 | the position is 0 exactly for null or a foreign record, and otherwise points at that record |
| DicomDirs.DicomDir.Links | imebra/include/imebra/dicomDir.h:110-119 | given the set of reachable records, computes for every record the positions of its next sibling and first child, or 0 when it is unreachable |
| DicomDirs.DicomDir.UpdateDataSet | imebra/include/imebra/dicomDir.h:110-119 | returns the managed data set and writes the root position and, for every reachable record, the positions of its next sibling and first child; unreachable records get no links; record i still owns item i, so each position names an item |

## Left out

- DimseService and getNextCommandID: association handling, a receiving thread and blocking calls are concurrency and network I/O.
- DimseResponse::getStatus: the status-class mapping (PS3.7 Annex C) is not in the header.
- DimseCommandBase::getCommandDataSet: the encoding of the command data set is not in the model; only the fields it carries are.
- The UID getters of responses: the model keeps the command a response answers, and reads UIDs through it.
- The priority of a C- command is stored but has no getter in the header, so nothing is stated about it.
- Dimse.NCreateResponseWithAttributes: the success status is an assumption; the header gives no status for this constructor.
- Dimse.NCreateResponseForInstance: the success status is an assumption; the header gives no status.
- Dimse.NCreateResponseForInstanceOnly: the success status is an assumption; the header gives no status.
- Dimse.ResponseField and Dimse.ResponseFieldIdentifiesKind model a DICOM fact the header does not expose: the Command Field (0000,0100) of a response is the request's code plus 0x8000 (DICOM PS3.7 Annex E). The response's command data set, the only place it would appear, is not part of this model, so the two members and the last clause of Dimse.ResponseKindIsCommandKind are additions of the model rather than promises of the header.
- Dimse.Response.GetMessageIdBeingRespondedTo is an accessor added by the model; the header has no getter for the message ID a response answers.
- Dimse.Response.GetCreatedInstanceUid is an accessor added by the model; the header has no getter for the UID of an N-CREATE response.
- Doubles, dates, ages and Unicode strings (get/setDouble, getAge, getDate, getUnicodeString and the setters): floating point, charsets and character encoding are not modelled.
- The getters and setters without a VR argument (getTagCreate(id), set*(id, v), getWritingDataHandler(id, buffer)): they take the VR from the DICOM dictionary, which is not part of this model.
- Numeric and raw data handlers, and the stream readers and writers: these are byte-level views and I/O.
- Tags.ParseDecimal: padding spaces around a number and leading '+' signs are not accepted, and decimal strings (DS) with a fraction or exponent are not converted to integers.
- DataSets.WithFirstElement: keeps the tag's buffers other than 0; the reading of dataSet.h:103-104 in which a setter also drops those buffers is not modelled.
- Tags.Committed: an empty buffer and a buffer holding one empty string both stand for empty text on a multi-valued string VR, but the model commits each as written, so the first reads back with size 0 and the second with size 1. How the library reads back empty memory of such a VR is not stated in the headers, and the model does not decide it.
- Tags.InRange: the float VRs accept only the integers up to 2^24 (FL, OF) or 2^53 (FD, OD) in magnitude; a larger integer, which the library rounds to a nearby float, fails with DataHandlerConversionError in the model, because floating point is not modelled.
- ReadWriteMemory as a subclass of ReadMemory: it is a separate class with the same read operations; size_t bounds are not modelled.
- The destructor of WritingDataHandler is the explicit `Commit`; nothing commits a handler automatically.
- The raw pointer accessors `data(size_t*)` of the memory classes: they return a pointer into the buffer.
- getImageApplyModalityTransform, getLUT, getVOIs and image quality/compression: these are pixel processing.
- DicomDirs.DicomDir.UpdateDataSet: the DICOMDIR's byte offsets ((0004,1400), (0004,1420), (0004,1200)) are replaced by record positions in a `Layout` value kept by the DicomDir; nothing is written into the record data sets. A link to a record of another DICOMDIR is written as no link, and a cycle of links ends the walk.
- DicomDirs.DicomDirEntry.SetFileParts: the parts are kept in a field of the record instead of the Referenced File ID (0004,1500) of its data set.
- The DicomDir(DataSet) constructor, which parses an existing DICOMDIR: reading the offsets of a stored file is not modelled.
- Stream I/O, Pipe, TCPStream, pixel transforms, LUTs and DicomDictionary: I/O, concurrency and image numerics.
