/**
 * The DICOMDIR record tree (DICOM PS3.3 Annex F, Basic Directory).
 *
 * A DicomDir hands out directory records. Each record owns a data set that is
 * inserted as an item of the Directory Record Sequence (0004,1220) of the
 * DicomDir's own data set, and links to its next sibling and its first child.
 * The links live in the records; they reach the managed data set only when
 * UpdateDataSet writes the layout of the tree.
 */
module DicomDirs {
  import opened Errors
  import opened Tags
  import DataSets

  /** Directory Record Sequence (0004,1220). */
  const RecordsTag := TagId(0x0004, 0x1220)
  /** Directory Record Type (0004,1430). */
  const RecordTypeTag := TagId(0x0004, 0x1430)

  /** The record types of directoryRecordType_t. */
  datatype DirectoryRecordType =
    | Patient | Study | Series | Image | Overlay | ModalityLut | VoiLut | Curve | Topic | Visit
    | Results | Interpretation | StudyComponent | StoredPrint | RtDose | RtStructureSet | RtPlan
    | RtTreatRecord | Presentation | Waveform | SrDocument | KeyObjectDoc | Spectroscopy | RawData
    | Registration | Fiducial | Mrdr

  /** The Directory Record Type string of each record type (DICOM PS3.3 section F.5). */
  function TypeString(t: DirectoryRecordType): string
  {
    match t
    case Patient => "PATIENT"
    case Study => "STUDY"
    case Series => "SERIES"
    case Image => "IMAGE"
    case Overlay => "OVERLAY"
    case ModalityLut => "MODALITY LUT"
    case VoiLut => "VOI LUT"
    case Curve => "CURVE"
    case Topic => "TOPIC"
    case Visit => "VISIT"
    case Results => "RESULTS"
    case Interpretation => "INTERPRETATION"
    case StudyComponent => "STUDY COMPONENT"
    case StoredPrint => "STORED PRINT"
    case RtDose => "RT DOSE"
    case RtStructureSet => "RT STRUCTURE SET"
    case RtPlan => "RT PLAN"
    case RtTreatRecord => "RT TREAT RECORD"
    case Presentation => "PRESENTATION"
    case Waveform => "WAVEFORM"
    case SrDocument => "SR DOCUMENT"
    case KeyObjectDoc => "KEY OBJECT DOC"
    case Spectroscopy => "SPECTROSCOPY"
    case RawData => "RAW DATA"
    case Registration => "REGISTRATION"
    case Fiducial => "FIDUCIAL"
    case Mrdr => "MRDR"
  }

  /** Every record type, in the order of directoryRecordType_t. */
  const AllTypes := [Patient, Study, Series, Image, Overlay, ModalityLut, VoiLut, Curve, Topic, Visit,
                     Results, Interpretation, StudyComponent, StoredPrint, RtDose, RtStructureSet, RtPlan,
                     RtTreatRecord, Presentation, Waveform, SrDocument, KeyObjectDoc, Spectroscopy, RawData,
                     Registration, Fiducial, Mrdr]

  /** The first of `candidates` whose type string is `s`, if any. */
  function FindType(candidates: seq<DirectoryRecordType>, s: string): (r: Option<DirectoryRecordType>)
    ensures r.Some? ==> TypeString(r.value) == s && r.value in candidates
  {
    if candidates == [] then None
    else if TypeString(candidates[0]) == s then Some(candidates[0])
    else FindType(candidates[1..], s)
  }

  /** The record type a Directory Record Type string names, if any. */
  function TypeFromString(s: string): (r: Option<DirectoryRecordType>)
    ensures r.Some? ==> TypeString(r.value) == s
  {
    FindType(AllTypes, s)
  }

  /** No two record types share a type string. */
  lemma TypeStringInjective(a: DirectoryRecordType, b: DirectoryRecordType)
    ensures TypeString(a) == TypeString(b) ==> a == b
  {
  }

  lemma {:induction false} FindTypeFinds(candidates: seq<DirectoryRecordType>, t: DirectoryRecordType)
    requires t in candidates
    ensures FindType(candidates, TypeString(t)) == Some(t)
  {
    TypeStringInjective(candidates[0], t);
    if candidates[0] != t {
      FindTypeFinds(candidates[1..], t);
    }
  }

  /** A type string is a single value of the multi-valued VR CS. */
  lemma TypeStringHasNoSeparator(t: DirectoryRecordType)
    ensures Separator !in TypeString(t)
  {
    match t
    case Patient => {}
    case Study => {}
    case Series => {}
    case Image => {}
    case Overlay => {}
    case ModalityLut => {}
    case VoiLut => {}
    case Curve => {}
    case Topic => {}
    case Visit => {}
    case Results => {}
    case Interpretation => {}
    case StudyComponent => {}
    case StoredPrint => {}
    case RtDose => {}
    case RtStructureSet => {}
    case RtPlan => {}
    case RtTreatRecord => {}
    case Presentation => {}
    case Waveform => {}
    case SrDocument => {}
    case KeyObjectDoc => {}
    case Spectroscopy => {}
    case RawData => {}
    case Registration => {}
    case Fiducial => {}
    case Mrdr => {}
  }

  /** Reading back the string of a record type gives the type. */
  lemma TypeStringRoundTrip(t: DirectoryRecordType)
    ensures TypeFromString(TypeString(t)) == Some(t)
  {
    FindTypeFinds(AllTypes, t);
  }

  /** One directory record. */
  class DicomDirEntry {
    const recordType: DirectoryRecordType
    const entryDataSet: DataSets.DataSet
    var next: DicomDirEntry?
    var firstChild: DicomDirEntry?
    var fileParts: seq<string>

    /** A record without links and without a referenced file. */
    constructor (recordType: DirectoryRecordType, entryDataSet: DataSets.DataSet)
      ensures this.recordType == recordType && this.entryDataSet == entryDataSet
      ensures next == null && firstChild == null && fileParts == []
    {
      this.recordType := recordType;
      this.entryDataSet := entryDataSet;
      next := null;
      firstChild := null;
      fileParts := [];
    }

    function GetEntryDataSet(): DataSets.DataSet { entryDataSet }

    /** The next sibling, or null for the last record of its level. */
    function GetNextEntry(): DicomDirEntry?
      reads this
    {
      next
    }

    /** The first child, or null for a record without children. */
    function GetFirstChildEntry(): DicomDirEntry?
      reads this
    {
      firstChild
    }

    method SetNextEntry(nextEntry: DicomDirEntry)
      modifies this
      ensures GetNextEntry() == nextEntry
      ensures firstChild == old(firstChild) && fileParts == old(fileParts)
    {
      next := nextEntry;
    }

    method SetFirstChildEntry(firstChildEntry: DicomDirEntry)
      modifies this
      ensures GetFirstChildEntry() == firstChildEntry
      ensures next == old(next) && fileParts == old(fileParts)
    {
      firstChild := firstChildEntry;
    }

    /** The folders leading to the referenced file, followed by the file name. */
    function GetFileParts(): seq<string>
      reads this
    {
      fileParts
    }

    method SetFileParts(parts: seq<string>)
      modifies this
      ensures GetFileParts() == parts
      ensures next == old(next) && firstChild == old(firstChild)
    {
      fileParts := parts;
    }

    function GetType(): DirectoryRecordType { recordType }

    /** The Directory Record Type string, which names the record's type. */
    function GetTypeString(): (s: string)
      ensures TypeFromString(s) == Some(GetType())
    {
      TypeStringRoundTrip(recordType);
      TypeString(recordType)
    }
  }

  /**
   * The records of `universe` reachable from `stack`, in depth-first
   * pre-order: a record is followed by its children and then by its later
   * siblings. Records already `visited` are not listed again, so a link that
   * loops back stops the walk, and so does a link out of `universe`.
   */
  ghost function Order(stack: seq<DicomDirEntry?>, visited: set<DicomDirEntry>,
                       universe: set<DicomDirEntry>): seq<DicomDirEntry>
    reads universe
    requires visited <= universe
    decreases |universe - visited|, |stack|
  {
    if stack == [] then []
    else
      var top := stack[0];
      if top == null || top in visited || top !in universe then Order(stack[1..], visited, universe)
      else
        assert universe - visited == (universe - (visited + {top})) + {top};
        [top] + Order([top.firstChild, top.next] + stack[1..], visited + {top}, universe)
  }

  /** The walk lists each record at most once, and only records of `universe` not yet visited. */
  lemma {:induction false} OrderIsFresh(stack: seq<DicomDirEntry?>, visited: set<DicomDirEntry>,
                                        universe: set<DicomDirEntry>)
    requires visited <= universe
    ensures forall x :: x in Order(stack, visited, universe) ==> x in universe && x !in visited
    ensures Distinct(Order(stack, visited, universe))
    decreases |universe - visited|, |stack|
  {
    if stack != [] {
      var top := stack[0];
      if top == null || top in visited || top !in universe {
        OrderIsFresh(stack[1..], visited, universe);
      } else {
        assert universe - visited == (universe - (visited + {top})) + {top};
        var rest := Order([top.firstChild, top.next] + stack[1..], visited + {top}, universe);
        OrderIsFresh([top.firstChild, top.next] + stack[1..], visited + {top}, universe);
        assert Order(stack, visited, universe) == [top] + rest;
        forall i, j | 0 <= i < j < |[top] + rest|
          ensures ([top] + rest)[i] != ([top] + rest)[j]
        {
          if i == 0 {
            assert ([top] + rest)[j] == rest[j - 1];
          } else {
            assert ([top] + rest)[i] == rest[i - 1] && ([top] + rest)[j] == rest[j - 1];
          }
        }
      }
    }
  }

  /** One step of the walk past a record that is null, visited or outside `universe`. */
  lemma OrderSkip(stack: seq<DicomDirEntry?>, visited: set<DicomDirEntry>, universe: set<DicomDirEntry>)
    requires visited <= universe
    requires stack != [] && (stack[0] == null || stack[0] in visited || stack[0] !in universe)
    ensures Order(stack, visited, universe) == Order(stack[1..], visited, universe)
  {
  }

  /** One step of the walk that lists a new record and goes on with its child, then its sibling. */
  lemma OrderVisit(stack: seq<DicomDirEntry?>, visited: set<DicomDirEntry>, universe: set<DicomDirEntry>)
    requires visited <= universe
    requires stack != [] && stack[0] != null && stack[0] !in visited && stack[0] in universe
    ensures Order(stack, visited, universe) ==
              [stack[0]] + Order([stack[0].firstChild, stack[0].next] + stack[1..], visited + {stack[0]}, universe)
  {
  }

  predicate Distinct<T(==)>(s: seq<T>)
  {
    forall i, j :: 0 <= i < j < |s| ==> s[i] != s[j]
  }

  ghost function Elements(s: seq<DicomDirEntry>): set<DicomDirEntry>
  {
    set e | e in s
  }

  /**
   * Walks the records of `records` reachable from `start` with an explicit
   * stack, in the order Order describes, and returns them as a list and as
   * a set.
   */
  method Walk(start: DicomDirEntry?, records: seq<DicomDirEntry>) returns (walked: seq<DicomDirEntry>,
                                                                          visited: set<DicomDirEntry>)
    ensures walked == Order([start], {}, Elements(records))
    ensures forall x :: x in visited <==> x in walked
  {
    ghost var universe := Elements(records);
    var stack: seq<DicomDirEntry?> := [start];
    visited := {};
    walked := [];
    while stack != []
      invariant visited <= universe
      invariant walked + Order(stack, visited, universe) == Order([start], {}, universe)
      invariant forall x :: x in visited <==> x in walked
      decreases |universe - visited|, |stack|
    {
      var top: DicomDirEntry? := stack[0];
      if top == null || top in visited || top !in records {
        OrderSkip(stack, visited, universe);
        stack := stack[1..];
      } else {
        var entry: DicomDirEntry := top;
        assert universe - visited == (universe - (visited + {entry})) + {entry};
        OrderVisit(stack, visited, universe);
        var rest: seq<DicomDirEntry?> := [entry.firstChild, entry.next] + stack[1..];
        assert (walked + [entry]) + Order(rest, visited + {entry}, universe) ==
               walked + ([entry] + Order(rest, visited + {entry}, universe));
        walked := walked + [entry];
        visited := visited + {entry};
        stack := rest;
      }
    }
  }

  /** Appends `item` to the Directory Record Sequence of `dir`, creating the sequence when missing. */
  method AppendRecord(dir: DataSets.DataSet, item: DataSets.DataSet)
    requires dir.Valid()
    modifies dir, dir.Stored(RecordsTag)
    ensures dir.Valid() && dir.frames == old(dir.frames)
    ensures RecordsTag in dir.tags && dir.tags == old(dir.tags)[RecordsTag := dir.tags[RecordsTag]]
    ensures RecordsTag !in old(dir.tags) ==> fresh(dir.tags[RecordsTag])
    ensures (dir.tags[RecordsTag].State() ==
              old(dir.StateOrNew(RecordsTag, SQ)).(vr := SQ, items := old(dir.StateOrNew(RecordsTag, SQ).items) + [item]))
  {
    var recordsTag := dir.GetTagCreate(RecordsTag, SQ);
    recordsTag.AppendSequenceItem(item);
  }

  /**
   * A new record of type `recordType`, without links and file parts, whose
   * own new data set holds the type string of the record.
   */
  method NewEntry(recordType: DirectoryRecordType) returns (e: DicomDirEntry)
    ensures fresh(e) && fresh(e.entryDataSet) && e.entryDataSet.Valid() && e.entryDataSet.frames == []
    ensures forall t :: t in e.entryDataSet.tags.Values ==> fresh(t)
    ensures e.GetType() == recordType && e.GetNextEntry() == null && e.GetFirstChildEntry() == null
    ensures e.GetFileParts() == []
    ensures e.entryDataSet.GetString(RecordTypeTag, 0) == Ok(TypeString(recordType))
  {
    var d := new DataSets.DataSet();
    TypeStringHasNoSeparator(recordType);
    var o := d.SetString(RecordTypeTag, TypeString(recordType), CS);
    e := new DicomDirEntry(recordType, d);
  }

  /** The data sets of `entries`, in the same order. */
  function EntryDataSets(entries: seq<DicomDirEntry>): (r: seq<DataSets.DataSet>)
    ensures |r| == |entries|
    ensures forall k :: 0 <= k < |entries| ==> r[k] == entries[k].entryDataSet
  {
    if entries == [] then [] else [entries[0].entryDataSet] + EntryDataSets(entries[1..])
  }

  lemma DistinctAppend<T>(s: seq<T>, x: T)
    requires Distinct(s) && x !in s
    ensures Distinct(s + [x])
  {
  }

  lemma EntryDataSetsAppend(entries: seq<DicomDirEntry>, e: DicomDirEntry)
    ensures EntryDataSets(entries + [e]) == EntryDataSets(entries) + [e.entryDataSet]
  {
  }

  /**
   * What the managed data set records about the tree: the position of the
   * first root record and, per record, the positions of its next sibling and
   * its first child, each 1 + the record's index among the items of the
   * Directory Record Sequence and 0 for no record.
   */
  datatype Layout = Layout(root: nat, next: seq<nat>, child: seq<nat>)

  /** A DICOMDIR: the managed data set, the records handed out and the first root record. */
  class DicomDir {
    const dataSet: DataSets.DataSet
    var root: DicomDirEntry?
    var records: seq<DicomDirEntry>
    var layout: Layout

    /**
     * The records are distinct and, in order, own the items of the Directory
     * Record Sequence, so that 1 + a record's index is its item's position.
     */
    ghost predicate Valid()
      reads this`records, dataSet, dataSet.tags.Values
    {
      dataSet.Valid() && Distinct(records) && RecordItems() == EntryDataSets(records)
    }

    /** The items of the Directory Record Sequence of the managed data set. */
    function RecordItems(): seq<DataSets.DataSet>
      reads dataSet, dataSet.tags.Values
    {
      dataSet.StateOrNew(RecordsTag, SQ).items
    }

    /** An empty DICOMDIR: no records and no root. */
    constructor ()
      ensures Valid() && fresh(dataSet) && dataSet.tags == map[]
      ensures GetFirstRootEntry() == null && records == [] && layout == Layout(0, [], [])
    {
      dataSet := new DataSets.DataSet();
      root := null;
      records := [];
      layout := Layout(0, [], []);
    }

    /**
     * A new record of type `recordType` whose data set holds the type string
     * and is appended as an item of the Directory Record Sequence (created as
     * an SQ tag when missing). The layout does not change.
     */
    method GetNewEntry(recordType: DirectoryRecordType) returns (e: DicomDirEntry)
      requires Valid()
      modifies this, dataSet, dataSet.Stored(RecordsTag)
      ensures Valid() && root == old(root) && layout == old(layout)
      ensures fresh(e) && fresh(e.entryDataSet) && records == old(records) + [e]
      ensures e.GetType() == recordType && e.GetNextEntry() == null && e.GetFirstChildEntry() == null
      ensures e.GetFileParts() == []
      ensures e.entryDataSet.GetString(RecordTypeTag, 0) == Ok(TypeString(recordType))
      ensures RecordsTag in dataSet.tags
      ensures (dataSet.tags[RecordsTag].State() ==
                old(dataSet.StateOrNew(RecordsTag, SQ)).(vr := SQ, items := old(dataSet.StateOrNew(RecordsTag, SQ).items) + [e.entryDataSet]))
      ensures dataSet.tags == old(dataSet.tags)[RecordsTag := dataSet.tags[RecordsTag]]
    {
      e := NewEntry(recordType);
      ghost var typeString := e.entryDataSet.GetString(RecordTypeTag, 0);
      ghost var recordTags := e.entryDataSet.tags.Values;
      label created:
      AddRecord(e);
      assert unchanged@created(recordTags);
      assert e.entryDataSet.GetString(RecordTypeTag, 0) == typeString;
    }

    /** Appends a new record and its data set, as GetNewEntry does. */
    method AddRecord(e: DicomDirEntry)
      requires Valid() && e !in records && e.entryDataSet != dataSet
      modifies this, dataSet, dataSet.Stored(RecordsTag)
      ensures Valid() && root == old(root) && layout == old(layout) && records == old(records) + [e]
      ensures RecordsTag in dataSet.tags
      ensures (dataSet.tags[RecordsTag].State() ==
                old(dataSet.StateOrNew(RecordsTag, SQ)).(vr := SQ, items := old(dataSet.StateOrNew(RecordsTag, SQ).items) + [e.entryDataSet]))
      ensures dataSet.tags == old(dataSet.tags)[RecordsTag := dataSet.tags[RecordsTag]]
      ensures unchanged(e, e.entryDataSet)
    {
      ghost var items := RecordItems();
      AppendRecord(dataSet, e.entryDataSet);
      assert RecordItems() == items + [e.entryDataSet];
      EntryDataSetsAppend(records, e);
      DistinctAppend(records, e);
      records := records + [e];
    }

    /** The first root record, or null when there is none. */
    function GetFirstRootEntry(): DicomDirEntry?
      reads this
    {
      root
    }

    /** Sets the first root record; the managed data set sees it only after UpdateDataSet. */
    method SetFirstRootEntry(firstEntryRecord: DicomDirEntry)
      modifies this
      ensures GetFirstRootEntry() == firstEntryRecord
      ensures records == old(records) && layout == old(layout)
    {
      root := firstEntryRecord;
    }

    /** 1 + the index of `e` among the records, or 0 for null and for a record of another DICOMDIR. */
    function Position(e: DicomDirEntry?): (p: nat)
      reads this`records
      ensures p == 0 <==> e == null || e !in records
      ensures p > 0 ==> p <= |records| && records[p - 1] == e
    {
      if e != null && e in records then IndexIn(records, e) + 1 else 0
    }

    /** A nonzero position of the layout names the item that holds the record's data set. */
    lemma PositionLocatesItem(e: DicomDirEntry?)
      requires Valid()
      ensures Position(e) > 0 ==> Position(e) <= |RecordItems()| && RecordItems()[Position(e) - 1] == e.entryDataSet
    {
    }

    /** The records reachable from the first root record, in pre-order. */
    ghost function Reachable(): seq<DicomDirEntry>
      reads this`root, this`records, records
    {
      Order([root], {}, Elements(records))
    }

    /**
     * The positions of the next sibling and first child of every record in
     * `visited`, and 0 for every other record.
     */
    method Links(ghost walked: seq<DicomDirEntry>, visited: set<DicomDirEntry>) returns (next: seq<nat>, child: seq<nat>)
      requires walked == Reachable()
      requires forall x :: x in visited <==> x in walked
      ensures |next| == |records| && |child| == |records|
      ensures forall i :: 0 <= i < |records| ==>
                next[i] == (if records[i] in Reachable() then Position(records[i].next) else 0)
      ensures forall i :: 0 <= i < |records| ==>
                child[i] == (if records[i] in Reachable() then Position(records[i].firstChild) else 0)
    {
      next := [];
      child := [];
      var i := 0;
      while i < |records|
        invariant 0 <= i <= |records| && |next| == i && |child| == i
        invariant forall k :: 0 <= k < i ==>
                    next[k] == (if records[k] in Reachable() then Position(records[k].next) else 0)
        invariant forall k :: 0 <= k < i ==>
                    child[k] == (if records[k] in Reachable() then Position(records[k].firstChild) else 0)
      {
        if records[i] in visited {
          next := next + [Position(records[i].next)];
          child := child + [Position(records[i].firstChild)];
        } else {
          next := next + [0];
          child := child + [0];
        }
        i := i + 1;
      }
    }

    /**
     * Writes the tree into the layout: the position of the root and, for every
     * record reachable from it, the positions of its next sibling and first
     * child; records that cannot be reached get no links. Returns the managed
     * data set.
     */
    method UpdateDataSet() returns (d: DataSets.DataSet)
      requires Valid()
      modifies this`layout
      ensures Valid() && d == dataSet
      ensures layout.root == Position(root)
      ensures |layout.next| == |records| && |layout.child| == |records|
      ensures forall i :: 0 <= i < |records| ==>
                layout.next[i] == (if records[i] in Reachable() then Position(records[i].next) else 0)
      ensures forall i :: 0 <= i < |records| ==>
                layout.child[i] == (if records[i] in Reachable() then Position(records[i].firstChild) else 0)
    {
      var walked, visited := Walk(root, records);
      var next, child := Links(walked, visited);
      layout := Layout(Position(root), next, child);
      d := dataSet;
    }
  }
}
