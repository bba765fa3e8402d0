/**
 * The DICOM data set: a store of tags indexed by tag id. Each tag has a VR,
 * numbered buffers of elements and, for a sequence (VR SQ), a list of
 * embedded data sets (DICOM PS3.5 section 7.5). Buffers are read through
 * reading handlers, which hold a snapshot, and written through writing
 * handlers, which fill a fresh buffer and store it into the tag when they are
 * destroyed (here: when `Commit` is called).
 */
module DataSets {
  import opened Errors
  import opened Tags

  /** The content of a tag as a value. */
  datatype TagState = TagState(vr: VR, buffers: map<nat, seq<Element>>, items: seq<DataSet>)

  /** The properties every frame of one data set must share. */
  datatype ImageFormat = ImageFormat(width: nat, height: nat, colorSpace: string, bitsAllocated: nat, highBit: nat)

  datatype Image = Image(format: ImageFormat, pixels: seq<int>)

  /** `elements` cut or extended to `n` elements, new elements being `blank`. */
  function Resized(elements: seq<Element>, n: nat, blank: Element): (r: seq<Element>)
    ensures |r| == n
    ensures forall k :: 0 <= k < n ==> r[k] == if k < |elements| then elements[k] else blank
  {
    if n <= |elements| then elements[..n] else elements + seq(n - |elements|, _ => blank)
  }

  /**
   * The sequence items after item `id` is set: an existing item is replaced,
   * the position just past the end appends, and any later position is missing.
   */
  function WithItem(items: seq<DataSet>, id: nat, item: DataSet): (r: Result<seq<DataSet>>)
    ensures r.Ok? <==> id <= |items|
    ensures r.Err? ==> r.error == MissingItemError
    ensures r.Ok? ==> |r.value| == (if id < |items| then |items| else |items| + 1)
    ensures r.Ok? ==> r.value[id] == item
    ensures r.Ok? ==> forall k :: 0 <= k < |items| && k != id ==> r.value[k] == items[k]
  {
    if id < |items| then Ok(items[id := item])
    else if id == |items| then Ok(items + [item])
    else Err(MissingItemError)
  }

  /**
   * A read-only view of one buffer. It holds the elements the buffer had
   * when the handler was obtained; writing the buffer later replaces the
   * tag's buffer and never changes this value.
   */
  datatype ReadingDataHandler = ReadingDataHandler(vr: VR, elements: seq<Element>)
  {
    function GetSize(): nat
    {
      |elements|
    }

    function GetDataType(): VR
    {
      vr
    }

    /** Element `index` as a signed 32-bit integer, or a conversion error. */
    function GetSignedLong(index: nat): (r: Result<int32>)
      requires index < GetSize()
      ensures r.Ok? ==> ToInteger(elements[index]) == Ok(r.value as int)
      ensures r.Err? ==> r.error == DataHandlerConversionError
      ensures ToInteger(elements[index]).Ok? && IsInt32(ToInteger(elements[index]).value) ==> r.Ok?
    {
      ToSignedLong(elements[index])
    }

    /** Element `index` as an unsigned 32-bit integer, or a conversion error. */
    function GetUnsignedLong(index: nat): (r: Result<uint32>)
      requires index < GetSize()
      ensures r.Ok? ==> ToInteger(elements[index]) == Ok(r.value as int)
      ensures r.Err? ==> r.error == DataHandlerConversionError
      ensures ToInteger(elements[index]).Ok? && IsUint32(ToInteger(elements[index]).value) ==> r.Ok?
    {
      ToUnsignedLong(elements[index])
    }

    /** Element `index` as a string; a number is given in decimal. */
    function GetString(index: nat): (r: string)
      requires index < GetSize()
      ensures elements[index].Text? ==> r == elements[index].s
      ensures elements[index].Number? ==> ParseDecimal(r) == Ok(elements[index].n)
    {
      if elements[index].Number? then DecimalRoundTrip(elements[index].n); ToText(elements[index])
      else ToText(elements[index])
    }
  }

  /** A tag of a data set. */
  class Tag {
    var vr: VR
    var buffers: map<nat, seq<Element>>
    var items: seq<DataSet>

    /** A tag with no buffers and no sequence items. */
    constructor (vr: VR)
      ensures State() == TagState(vr, map[], [])
    {
      this.vr := vr;
      buffers := map[];
      items := [];
    }

    function State(): TagState
      reads this
    {
      TagState(vr, buffers, items)
    }

    /** The number of stored buffers: the number of ids for which a buffer exists. */
    function GetBuffersCount(): (n: nat)
      reads this
      ensures n == |set id | id in buffers.Keys && BufferExists(id)|
      ensures n == 0 <==> forall id :: !BufferExists(id)
    {
      assert buffers != map[] ==> |buffers.Keys| != 0 by {
        if buffers != map[] {
          var id :| id in buffers;
          assert id in buffers.Keys;
        }
      }
      assert (set id | id in buffers.Keys && BufferExists(id)) == buffers.Keys;
      |buffers.Keys|
    }

    predicate BufferExists(bufferId: nat)
      reads this
    {
      bufferId in buffers
    }

    /** The size in bytes of buffer `bufferId`, or MissingBufferError. */
    function GetBufferSize(bufferId: nat): (r: Result<nat>)
      reads this
      ensures r.Ok? <==> BufferExists(bufferId)
      ensures r.Err? ==> r.error == MissingBufferError
      ensures r.Ok? ==> r.value == BufferSize(vr, buffers[bufferId])
    {
      if bufferId in buffers then Ok(BufferSize(vr, buffers[bufferId])) else Err(MissingBufferError)
    }

    /** A snapshot of buffer `bufferId`, or MissingBufferError. */
    function GetReadingDataHandler(bufferId: nat): (r: Result<ReadingDataHandler>)
      reads this
      ensures r.Ok? <==> BufferExists(bufferId)
      ensures r.Err? ==> r.error == MissingBufferError
      ensures r.Ok? ==> r.value.GetDataType() == vr && r.value.elements == buffers[bufferId]
    {
      if bufferId in buffers then Ok(ReadingDataHandler(vr, buffers[bufferId])) else Err(MissingBufferError)
    }

    /** A writing handler on a new, empty buffer that will be stored at `bufferId`. */
    method GetWritingDataHandler(bufferId: nat) returns (h: WritingDataHandler)
      ensures fresh(h)
      ensures h.tag == this && h.bufferId == bufferId && h.vr == vr && h.elements == []
    {
      h := new WritingDataHandler(this, bufferId);
    }

    /** Sequence item `dataSetId`, or MissingItemError. */
    function GetSequenceItem(dataSetId: nat): (r: Result<DataSet>)
      reads this
      ensures r.Ok? <==> SequenceItemExists(dataSetId)
      ensures r.Err? ==> r.error == MissingItemError
      ensures r.Ok? ==> r.value == items[dataSetId]
    {
      if dataSetId < |items| then Ok(items[dataSetId]) else Err(MissingItemError)
    }

    predicate SequenceItemExists(dataSetId: nat)
      reads this
    {
      dataSetId < |items|
    }

    /**
     * Replaces sequence item `dataSetId`, or appends it when `dataSetId` is the
     * number of items; the tag becomes a sequence. A larger id is missing.
     */
    method SetSequenceItem(dataSetId: nat, dataSet: DataSet) returns (o: Outcome)
      modifies this
      ensures o == Pass <==> WithItem(old(items), dataSetId, dataSet).Ok?
      ensures o == Pass ==> State() == TagState(SQ, old(buffers), WithItem(old(items), dataSetId, dataSet).value)
      ensures o == Pass ==> GetSequenceItem(dataSetId) == Ok(dataSet) && SequenceItemExists(dataSetId)
      ensures o != Pass ==> o == Fail(MissingItemError) && State() == old(State())
    {
      var updated := WithItem(items, dataSetId, dataSet);
      if updated.Err? {
        return Fail(updated.error);
      }
      items := updated.value;
      vr := SQ;
      o := Pass;
    }

    /** Adds a sequence item after all existing ones; the tag becomes a sequence. */
    method AppendSequenceItem(dataSet: DataSet)
      modifies this
      ensures State() == TagState(SQ, old(buffers), old(items) + [dataSet])
      ensures GetSequenceItem(old(|items|)) == Ok(dataSet)
    {
      items := items + [dataSet];
      vr := SQ;
    }

    function GetDataType(): VR
      reads this
    {
      vr
    }
  }

  /**
   * Writes a buffer of a tag. The handler starts on an empty buffer; its VR
   * is the tag's VR when the handler was obtained and never changes.
   */
  class WritingDataHandler {
    const tag: Tag
    const bufferId: nat
    const vr: VR
    var elements: seq<Element>

    constructor (tag: Tag, bufferId: nat)
      ensures this.tag == tag && this.bufferId == bufferId && vr == tag.vr && elements == []
    {
      this.tag := tag;
      this.bufferId := bufferId;
      vr := tag.vr;
      elements := [];
    }

    /** Resizes the buffer to `elementsNumber` elements, new ones blank. */
    method SetSize(elementsNumber: nat)
      modifies this
      ensures elements == Resized(old(elements), elementsNumber, Blank(vr))
      ensures GetSize() == elementsNumber
    {
      elements := Resized(elements, elementsNumber, Blank(vr));
    }

    function GetSize(): nat
      reads this
    {
      |elements|
    }

    function GetDataType(): VR
    {
      vr
    }

    /** Writes a signed 32-bit integer into element `index`, or fails and changes nothing. */
    method SetSignedLong(index: nat, value: int32) returns (o: Outcome)
      requires index < GetSize()
      modifies this
      ensures o == Pass <==> FromInteger(vr, value).Ok?
      ensures o == Pass ==> elements == old(elements)[index := FromInteger(vr, value).value]
      ensures o != Pass ==> o == Fail(DataHandlerConversionError) && elements == old(elements)
    {
      var e := FromInteger(vr, value);
      if e.Err? {
        return Fail(e.error);
      }
      elements := elements[index := e.value];
      o := Pass;
    }

    /** Writes an unsigned 32-bit integer into element `index`, or fails and changes nothing. */
    method SetUnsignedLong(index: nat, value: uint32) returns (o: Outcome)
      requires index < GetSize()
      modifies this
      ensures o == Pass <==> FromInteger(vr, value).Ok?
      ensures o == Pass ==> elements == old(elements)[index := FromInteger(vr, value).value]
      ensures o != Pass ==> o == Fail(DataHandlerConversionError) && elements == old(elements)
    {
      var e := FromInteger(vr, value);
      if e.Err? {
        return Fail(e.error);
      }
      elements := elements[index := e.value];
      o := Pass;
    }

    /** Writes a string into element `index`, or fails and changes nothing. */
    method SetString(index: nat, value: string) returns (o: Outcome)
      requires index < GetSize()
      modifies this
      ensures o == Pass <==> FromString(vr, value).Ok?
      ensures o == Pass ==> elements == old(elements)[index := FromString(vr, value).value]
      ensures o != Pass ==> o == Fail(DataHandlerConversionError) && elements == old(elements)
    {
      var e := FromString(vr, value);
      if e.Err? {
        return Fail(e.error);
      }
      elements := elements[index := e.value];
      o := Pass;
    }

    /**
     * The destructor: the tag's buffer `bufferId` is replaced by this
     * handler's buffer as it reads back from memory, where the strings of a
     * multi-valued string VR are stored joined by the separator.
     */
    method Commit()
      modifies tag
      ensures tag.State() == old(tag.State()).(buffers := old(tag.buffers)[bufferId := Committed(vr, elements)])
      ensures tag.GetReadingDataHandler(bufferId) == Ok(ReadingDataHandler(tag.vr, Committed(vr, elements)))
    {
      KeysAfterStore(tag.buffers, bufferId, Committed(vr, elements));
      tag.buffers := tag.buffers[bufferId := Committed(vr, elements)];
    }
  }

  /** A DICOM data set. */
  class DataSet {
    const transferSyntax: string
    const charsets: seq<string>
    var tags: map<TagId, Tag>
    var frames: seq<Image>

    /** No two tag ids share one Tag object. */
    ghost predicate Valid()
      reads this
    {
      forall a, b :: a in tags && b in tags && a != b ==> tags[a] != tags[b]
    }

    /** An empty data set, implicit VR little endian, charset ISO 2022 IR 6. */
    constructor ()
      ensures Valid() && tags == map[] && frames == []
      ensures transferSyntax == "1.2.840.10008.1.2" && charsets == ["ISO 2022 IR 6"]
    {
      transferSyntax := "1.2.840.10008.1.2";
      charsets := ["ISO 2022 IR 6"];
      tags := map[];
      frames := [];
    }

    /** An empty data set with the given transfer syntax and charset ISO 2022 IR 6. */
    constructor WithTransferSyntax(transferSyntax: string)
      ensures Valid() && tags == map[] && frames == []
      ensures this.transferSyntax == transferSyntax && charsets == ["ISO 2022 IR 6"]
    {
      this.transferSyntax := transferSyntax;
      charsets := ["ISO 2022 IR 6"];
      tags := map[];
      frames := [];
    }

    /** An empty data set with the given transfer syntax and default charsets. */
    constructor WithCharsets(transferSyntax: string, charsets: seq<string>)
      ensures Valid() && tags == map[] && frames == []
      ensures this.transferSyntax == transferSyntax && this.charsets == charsets
    {
      this.transferSyntax := transferSyntax;
      this.charsets := charsets;
      tags := map[];
      frames := [];
    }

    /** Some tag of the group is stored. */
    predicate HasGroup(group: uint16)
      reads this
    {
      exists id :: id in tags && id.group == group
    }

    /** The error for a tag id that is not stored. */
    function MissingTag(tagId: TagId): Error
      reads this
    {
      if HasGroup(tagId.group) then MissingTagError else MissingGroupError
    }

    /** All stored tag ids, ascending by group and then by element number. */
    method GetTags() returns (ids: seq<TagId>)
      ensures Ascending(ids)
      ensures forall id :: id in ids <==> id in tags
    {
      ids := [];
      var remaining := tags.Keys;
      while remaining != {}
        invariant remaining <= tags.Keys
        invariant forall id :: id in tags ==> (id in ids <==> id !in remaining)
        invariant forall id :: id in ids ==> id in tags
        invariant Ascending(ids)
        invariant forall i, x :: 0 <= i < |ids| && x in remaining ==> Less(ids[i], x)
        decreases |remaining|
      {
        LeastExists(remaining);
        var m :| m in remaining && forall x :: x in remaining ==> !Less(x, m);
        forall x | x in remaining - {m}
          ensures Less(m, x)
        {
          LessIsStrictTotalOrder(m, x, m);
        }
        ids := ids + [m];
        remaining := remaining - {m};
      }
    }

    /** The tag `tagId`, or MissingTagError/MissingGroupError. */
    function GetTag(tagId: TagId): (r: Result<Tag>)
      reads this
      ensures r.Ok? <==> tagId in tags
      ensures r.Ok? ==> r.value == tags[tagId]
      ensures r.Err? ==> (r.error == MissingGroupError <==> forall id :: id in tags ==> id.group != tagId.group)
      ensures r.Err? ==> r.error in {MissingGroupError, MissingTagError}
    {
      if tagId in tags then Ok(tags[tagId]) else Err(MissingTag(tagId))
    }

    /**
     * The tag `tagId`; when it is missing, a new tag of VR `tagVR` is stored
     * first. No other tag changes.
     */
    method GetTagCreate(tagId: TagId, tagVR: VR) returns (t: Tag)
      requires Valid()
      modifies this
      ensures Valid() && frames == old(frames)
      ensures tagId in old(tags) ==> t == old(tags[tagId]) && tags == old(tags)
      ensures tagId !in old(tags) ==> fresh(t) && tags == old(tags)[tagId := t] && t.State() == TagState(tagVR, map[], [])
      ensures tagId in tags && tags[tagId] == t
    {
      if tagId in tags {
        t := tags[tagId];
      } else {
        t := new Tag(tagVR);
        tags := tags[tagId := t];
      }
    }

    /** Tag `tagId` exists and has buffer `bufferId`. */
    predicate BufferExists(tagId: TagId, bufferId: nat)
      reads this, tags.Values
    {
      tagId in tags && tags[tagId].BufferExists(bufferId)
    }

    /** A snapshot of buffer `bufferId` of tag `tagId`, or the missing tag or buffer. */
    function GetReadingDataHandler(tagId: TagId, bufferId: nat): (r: Result<ReadingDataHandler>)
      reads this, tags.Values
      ensures r.Ok? <==> BufferExists(tagId, bufferId)
      ensures tagId !in tags ==> r == Err(MissingTag(tagId))
      ensures tagId in tags && !BufferExists(tagId, bufferId) ==> r == Err(MissingBufferError)
      ensures r.Ok? ==> r.value == ReadingDataHandler(tags[tagId].vr, tags[tagId].buffers[bufferId])
    {
      if tagId in tags then tags[tagId].GetReadingDataHandler(bufferId) else Err(MissingTag(tagId))
    }

    /**
     * A writing handler for buffer `bufferId` of tag `tagId`; the tag is
     * created with VR `tagVR` when it is missing.
     */
    method GetWritingDataHandler(tagId: TagId, bufferId: nat, tagVR: VR) returns (h: WritingDataHandler)
      requires Valid()
      modifies this
      ensures Valid() && frames == old(frames)
      ensures tagId in tags && fresh(h) && h.tag == tags[tagId] && h.bufferId == bufferId && h.elements == []
      ensures h.vr == (if tagId in old(tags) then old(tags[tagId].vr) else tagVR)
      ensures tagId in old(tags) ==> h.tag == old(tags[tagId]) && tags == old(tags)
      ensures tagId !in old(tags) ==> fresh(h.tag) && tags == old(tags)[tagId := h.tag]
      ensures h.tag.State() == old(StateOrNew(tagId, tagVR))
    {
      var t := GetTagCreate(tagId, tagVR);
      h := t.GetWritingDataHandler(bufferId);
    }

    /**
     * Element `elementNumber` of buffer 0 of tag `tagId`: the missing tag,
     * MissingBufferError, or MissingItemError when the buffer is shorter.
     */
    function GetElement(tagId: TagId, elementNumber: nat): (r: Result<Element>)
      reads this, tags.Values
      ensures r.Ok? <==> BufferExists(tagId, 0) && elementNumber < |tags[tagId].buffers[0]|
      ensures r.Ok? ==> r.value == tags[tagId].buffers[0][elementNumber]
      ensures tagId !in tags ==> r == Err(MissingTag(tagId))
      ensures tagId in tags && !BufferExists(tagId, 0) ==> r == Err(MissingBufferError)
      ensures BufferExists(tagId, 0) && !r.Ok? ==> r == Err(MissingItemError)
    {
      var handler :- GetReadingDataHandler(tagId, 0);
      if elementNumber < handler.GetSize() then Ok(handler.elements[elementNumber])
      else Err(MissingItemError)
    }

    /** The value of a stored element as a signed 32-bit integer. */
    function GetSignedLong(tagId: TagId, elementNumber: nat): (r: Result<int32>)
      reads this, tags.Values
      ensures GetElement(tagId, elementNumber).Err? ==> r == Err(GetElement(tagId, elementNumber).error)
      ensures r.Ok? ==> GetElement(tagId, elementNumber).Ok? && ToInteger(GetElement(tagId, elementNumber).value) == Ok(r.value as int)
      ensures GetElement(tagId, elementNumber).Ok? && r.Err? ==> r.error == DataHandlerConversionError
      ensures (GetElement(tagId, elementNumber).Ok? && ToInteger(GetElement(tagId, elementNumber).value).Ok? &&
               IsInt32(ToInteger(GetElement(tagId, elementNumber).value).value)) ==> r.Ok?
    {
      var handler :- GetReadingDataHandler(tagId, 0);
      if elementNumber < handler.GetSize() then handler.GetSignedLong(elementNumber)
      else Err(MissingItemError)
    }

    /** As GetSignedLong, but `defaultValue` when the tag or its buffer 0 is missing. */
    function GetSignedLongOr(tagId: TagId, elementNumber: nat, defaultValue: int32): (r: Result<int32>)
      reads this, tags.Values
      ensures !BufferExists(tagId, 0) ==> r == Ok(defaultValue)
      ensures BufferExists(tagId, 0) ==> r == GetSignedLong(tagId, elementNumber)
    {
      if BufferExists(tagId, 0) then GetSignedLong(tagId, elementNumber) else Ok(defaultValue)
    }

    /** The value of a stored element as an unsigned 32-bit integer. */
    function GetUnsignedLong(tagId: TagId, elementNumber: nat): (r: Result<uint32>)
      reads this, tags.Values
      ensures GetElement(tagId, elementNumber).Err? ==> r == Err(GetElement(tagId, elementNumber).error)
      ensures r.Ok? ==> GetElement(tagId, elementNumber).Ok? && ToInteger(GetElement(tagId, elementNumber).value) == Ok(r.value as int)
      ensures GetElement(tagId, elementNumber).Ok? && r.Err? ==> r.error == DataHandlerConversionError
      ensures (GetElement(tagId, elementNumber).Ok? && ToInteger(GetElement(tagId, elementNumber).value).Ok? &&
               IsUint32(ToInteger(GetElement(tagId, elementNumber).value).value)) ==> r.Ok?
    {
      var handler :- GetReadingDataHandler(tagId, 0);
      if elementNumber < handler.GetSize() then handler.GetUnsignedLong(elementNumber)
      else Err(MissingItemError)
    }

    /** As GetUnsignedLong, but `defaultValue` when the tag or its buffer 0 is missing. */
    function GetUnsignedLongOr(tagId: TagId, elementNumber: nat, defaultValue: uint32): (r: Result<uint32>)
      reads this, tags.Values
      ensures !BufferExists(tagId, 0) ==> r == Ok(defaultValue)
      ensures BufferExists(tagId, 0) ==> r == GetUnsignedLong(tagId, elementNumber)
    {
      if BufferExists(tagId, 0) then GetUnsignedLong(tagId, elementNumber) else Ok(defaultValue)
    }

    /** The value of a stored element as a string. */
    function GetString(tagId: TagId, elementNumber: nat): (r: Result<string>)
      reads this, tags.Values
      ensures GetElement(tagId, elementNumber).Err? ==> r == Err(GetElement(tagId, elementNumber).error)
      ensures r.Ok? ==> GetElement(tagId, elementNumber).Ok? && r.value == ToText(GetElement(tagId, elementNumber).value)
      ensures GetElement(tagId, elementNumber).Ok? ==> r.Ok?
    {
      var handler :- GetReadingDataHandler(tagId, 0);
      if elementNumber < handler.GetSize() then Ok(handler.GetString(elementNumber))
      else Err(MissingItemError)
    }

    /** As GetString, but `defaultValue` when the tag or its buffer 0 is missing. */
    function GetStringOr(tagId: TagId, elementNumber: nat, defaultValue: string): (r: Result<string>)
      reads this, tags.Values
      ensures !BufferExists(tagId, 0) ==> r == Ok(defaultValue)
      ensures BufferExists(tagId, 0) ==> r == GetString(tagId, elementNumber)
    {
      if BufferExists(tagId, 0) then GetString(tagId, elementNumber) else Ok(defaultValue)
    }

    /** The content of tag `tagId`, or of a new tag of VR `tagVR` when it is missing. */
    function StateOrNew(tagId: TagId, tagVR: VR): TagState
      reads this, tags.Values
    {
      if tagId in tags then tags[tagId].State() else TagState(tagVR, map[], [])
    }

    /** The stored Tag object of `tagId`, as a frame. */
    function Stored(tagId: TagId): set<Tag>
      reads this
    {
      if tagId in tags then {tags[tagId]} else {}
    }

    /**
     * Writes `newValue` as the only element of buffer 0 of tag `tagId`,
     * creating the tag with VR `tagVR` when it is missing. The other buffers
     * and the other tags keep their content. When the value does not convert
     * to the tag's VR nothing changes.
     */
    method SetSignedLong(tagId: TagId, newValue: int32, tagVR: VR) returns (o: Outcome)
      requires Valid()
      modifies this, Stored(tagId)
      ensures Valid() && frames == old(frames)
      ensures o == Pass <==> FromInteger(old(StateOrNew(tagId, tagVR)).vr, newValue).Ok?
      ensures o == Pass ==> tagId in tags && tags == old(tags)[tagId := tags[tagId]]
      ensures o == Pass ==> tagId in old(tags) ==> tags == old(tags)
      ensures o == Pass && tagId !in old(tags) ==> fresh(tags[tagId])
      ensures o == Pass ==> (tags[tagId].State() ==
                old(WithFirstElement(StateOrNew(tagId, tagVR), FromInteger(StateOrNew(tagId, tagVR).vr, newValue).value)))
      ensures o == Pass ==> GetSignedLong(tagId, 0) == Ok(newValue)
      ensures o != Pass ==> o == Fail(DataHandlerConversionError) && tags == old(tags) && unchanged(Stored(tagId))
    {
      var vr := StateOrNew(tagId, tagVR).vr;
      if FromInteger(vr, newValue).Err? {
        return Fail(DataHandlerConversionError);
      }
      ghost var e := FromInteger(vr, newValue).value;
      var h := GetWritingDataHandler(tagId, 0, tagVR);
      h.SetSize(1);
      o := h.SetSignedLong(0, newValue);
      assert h.elements == [e];
      h.Commit();
      SignedLongRoundTrip(vr, newValue);
    }

    /** As SetSignedLong, for an unsigned 32-bit integer. */
    method SetUnsignedLong(tagId: TagId, newValue: uint32, tagVR: VR) returns (o: Outcome)
      requires Valid()
      modifies this, Stored(tagId)
      ensures Valid() && frames == old(frames)
      ensures o == Pass <==> FromInteger(old(StateOrNew(tagId, tagVR)).vr, newValue).Ok?
      ensures o == Pass ==> tagId in tags && tags == old(tags)[tagId := tags[tagId]]
      ensures o == Pass ==> tagId in old(tags) ==> tags == old(tags)
      ensures o == Pass && tagId !in old(tags) ==> fresh(tags[tagId])
      ensures o == Pass ==> (tags[tagId].State() ==
                old(WithFirstElement(StateOrNew(tagId, tagVR), FromInteger(StateOrNew(tagId, tagVR).vr, newValue).value)))
      ensures o == Pass ==> GetUnsignedLong(tagId, 0) == Ok(newValue)
      ensures o != Pass ==> o == Fail(DataHandlerConversionError) && tags == old(tags) && unchanged(Stored(tagId))
    {
      var vr := StateOrNew(tagId, tagVR).vr;
      if FromInteger(vr, newValue).Err? {
        return Fail(DataHandlerConversionError);
      }
      ghost var e := FromInteger(vr, newValue).value;
      var h := GetWritingDataHandler(tagId, 0, tagVR);
      h.SetSize(1);
      o := h.SetUnsignedLong(0, newValue);
      assert h.elements == [e];
      h.Commit();
      UnsignedLongRoundTrip(vr, newValue);
    }

    /** As SetSignedLong, for a string. */
    method SetString(tagId: TagId, newString: string, tagVR: VR) returns (o: Outcome)
      requires Valid()
      modifies this, Stored(tagId)
      ensures Valid() && frames == old(frames)
      ensures o == Pass <==> FromString(old(StateOrNew(tagId, tagVR)).vr, newString).Ok?
      ensures o == Pass ==> tagId in tags && tags == old(tags)[tagId := tags[tagId]]
      ensures o == Pass ==> tagId in old(tags) ==> tags == old(tags)
      ensures o == Pass && tagId !in old(tags) ==> fresh(tags[tagId])
      ensures o == Pass ==> (tags[tagId].State() ==
                old(WithFirstElement(StateOrNew(tagId, tagVR), FromString(StateOrNew(tagId, tagVR).vr, newString).value)))
      ensures o == Pass && IsStringVR(old(StateOrNew(tagId, tagVR)).vr) &&
              (!IsMultiValuedStringVR(old(StateOrNew(tagId, tagVR)).vr) || Separator !in newString) ==>
                GetString(tagId, 0) == Ok(newString)
      ensures o == Pass && IsMultiValuedStringVR(old(StateOrNew(tagId, tagVR)).vr) ==>
                tags[tagId].buffers[0] == Split(newString)
      ensures o == Pass && IsBinaryVR(old(StateOrNew(tagId, tagVR)).vr) ==>
                GetString(tagId, 0) == Ok(IntToDecimal(ParseDecimal(newString).value))
      ensures o != Pass ==> o == Fail(DataHandlerConversionError) && tags == old(tags) && unchanged(Stored(tagId))
    {
      var vr := StateOrNew(tagId, tagVR).vr;
      if FromString(vr, newString).Err? {
        return Fail(DataHandlerConversionError);
      }
      ghost var e := FromString(vr, newString).value;
      var h := GetWritingDataHandler(tagId, 0, tagVR);
      h.SetSize(1);
      o := h.SetString(0, newString);
      assert h.elements == [e];
      h.Commit();
      StringRoundTrip(vr, newString);
    }

    /** Sequence item `itemId` of tag `tagId`, the missing tag, or MissingItemError. */
    function GetSequenceItem(tagId: TagId, itemId: nat): (r: Result<DataSet>)
      reads this, tags.Values
      ensures tagId !in tags ==> r == Err(MissingTag(tagId))
      ensures tagId in tags ==> r == tags[tagId].GetSequenceItem(itemId)
    {
      if tagId in tags then tags[tagId].GetSequenceItem(itemId) else Err(MissingTag(tagId))
    }

    /**
     * Sets sequence item `itemId` of tag `tagId`, creating the tag with VR SQ
     * when it is missing; the tag becomes a sequence. An id past the end of
     * the items is missing and changes nothing.
     */
    method SetSequenceItem(tagId: TagId, itemId: nat, item: DataSet) returns (o: Outcome)
      requires Valid()
      modifies this, Stored(tagId)
      ensures Valid() && frames == old(frames)
      ensures o == Pass <==> WithItem(old(StateOrNew(tagId, SQ)).items, itemId, item).Ok?
      ensures o == Pass ==> tagId in tags && tags == old(tags)[tagId := tags[tagId]]
      ensures o == Pass && tagId !in old(tags) ==> fresh(tags[tagId])
      ensures o == Pass ==> (tags[tagId].State() ==
                old(StateOrNew(tagId, SQ)).(vr := SQ, items := WithItem(old(StateOrNew(tagId, SQ)).items, itemId, item).value))
      ensures o == Pass ==> GetSequenceItem(tagId, itemId) == Ok(item)
      ensures o != Pass ==> o == Fail(MissingItemError) && tags == old(tags) && unchanged(Stored(tagId))
    {
      if WithItem(StateOrNew(tagId, SQ).items, itemId, item).Err? {
        return Fail(MissingItemError);
      }
      var t := GetTagCreate(tagId, SQ);
      o := t.SetSequenceItem(itemId, item);
    }

    /** The VR of tag `tagId`, or the missing tag. */
    function GetDataType(tagId: TagId): (r: Result<VR>)
      reads this, tags.Values
      ensures r.Ok? <==> tagId in tags
      ensures r.Ok? ==> r.value == tags[tagId].vr
      ensures r.Err? ==> r == Err(MissingTag(tagId))
    {
      if tagId in tags then Ok(tags[tagId].GetDataType()) else Err(MissingTag(tagId))
    }

    /** Frame `frameNumber`, or DataSetImageDoesntExistError. */
    function GetImage(frameNumber: nat): (r: Result<Image>)
      reads this
      ensures r.Ok? <==> frameNumber < |frames|
      ensures r.Ok? ==> r.value == frames[frameNumber]
      ensures r.Err? ==> r.error == DataSetImageDoesntExistError
    {
      if frameNumber < |frames| then Ok(frames[frameNumber]) else Err(DataSetImageDoesntExistError)
    }

    /**
     * Stores `image` as frame `frameNumber`. Frames must come in order
     * 0, 1, 2, ... (else DataSetWrongFrameError) and all share the format of
     * frame 0 (else DataSetDifferentFormatError).
     */
    method SetImage(frameNumber: nat, image: Image) returns (o: Outcome)
      modifies this`frames
      ensures o == Pass <==> frameNumber == old(|frames|) && (old(frames) == [] || image.format == old(frames[0].format))
      ensures frameNumber != old(|frames|) ==> o == Fail(DataSetWrongFrameError)
      ensures frameNumber == old(|frames|) && o != Pass ==> o == Fail(DataSetDifferentFormatError)
      ensures o == Pass ==> frames == old(frames) + [image] && GetImage(frameNumber) == Ok(image)
      ensures o != Pass ==> frames == old(frames)
    {
      if frameNumber != |frames| {
        return Fail(DataSetWrongFrameError);
      }
      if frames != [] && image.format != frames[0].format {
        return Fail(DataSetDifferentFormatError);
      }
      frames := frames + [image];
      o := Pass;
    }
  }

  /**
   * A tag's content after `e` is written as the only element of its buffer 0:
   * for a multi-valued string VR, the values its text holds between separators.
   */
  function WithFirstElement(state: TagState, e: Element): (r: TagState)
    ensures r.vr == state.vr && r.items == state.items
    ensures 0 in r.buffers && r.buffers[0] == Committed(state.vr, [e])
    ensures !IsMultiValuedStringVR(state.vr) ==> r.buffers[0] == [e]
    ensures IsMultiValuedStringVR(state.vr) ==> r.buffers[0] == Split(ToText(e))
    ensures forall id :: id in state.buffers && id != 0 ==> id in r.buffers && r.buffers[id] == state.buffers[id]
    ensures r.buffers.Keys == state.buffers.Keys + {0}
  {
    state.(buffers := state.buffers[0 := Committed(state.vr, [e])])
  }

  /** Storing a buffer adds its id to the ids of a tag's buffers. */
  lemma KeysAfterStore(buffers: map<nat, seq<Element>>, id: nat, elements: seq<Element>)
    ensures buffers[id := elements].Keys == buffers.Keys + {id}
    ensures |buffers[id := elements].Keys| == |buffers.Keys| + (if id in buffers then 0 else 1)
  {
    if id in buffers {
      assert buffers.Keys + {id} == buffers.Keys;
    }
  }
}
