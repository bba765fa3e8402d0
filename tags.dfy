/**
 * Values stored in a DICOM data set: tag identifiers and their order, value
 * representations (VR, DICOM PS3.5 Table 6.2-1), the elements a tag buffer
 * holds, and the conversions the data handlers perform when a value is
 * written into or read out of a buffer.
 */
module Tags {
  import opened Errors

  /** A tag identifier: the group and the element number inside the group. */
  datatype TagId = TagId(group: uint16, tag: uint16)

  /** The order of DICOM PS3.5 section 7.1: by group, then by element number. */
  predicate Less(a: TagId, b: TagId)
  {
    a.group < b.group || (a.group == b.group && a.tag < b.tag)
  }

  /** Strictly ascending, hence also free of duplicates. */
  predicate Ascending(ids: seq<TagId>)
  {
    forall i, j :: 0 <= i < j < |ids| ==> Less(ids[i], ids[j])
  }

  /** `Less` is a strict total order on tag identifiers. */
  lemma LessIsStrictTotalOrder(a: TagId, b: TagId, c: TagId)
    ensures !Less(a, a)
    ensures Less(a, b) && Less(b, c) ==> Less(a, c)
    ensures a != b ==> Less(a, b) || Less(b, a)
    ensures !(Less(a, b) && Less(b, a))
  {
  }

  /** Every non-empty finite set of tag identifiers has a least member. */
  lemma {:induction false} LeastExists(s: set<TagId>)
    requires s != {}
    ensures exists m :: m in s && forall x :: x in s ==> !Less(x, m)
  {
    var a :| a in s;
    var rest := s - {a};
    if rest == {} {
      forall x | x in s ensures !Less(x, a) {
        assert x in rest || x == a;
      }
    } else {
      LeastExists(rest);
      var m :| m in rest && forall x :: x in rest ==> !Less(x, m);
      if Less(a, m) {
        forall x | x in s ensures !Less(x, a) {
          if x != a {
            LessIsStrictTotalOrder(x, a, m);
          }
        }
      } else {
        assert forall x :: x in s ==> !Less(x, m);
      }
    }
  }

  /** Value representations of DICOM PS3.5 Table 6.2-1. */
  datatype VR =
    | AE | AS | AT | CS | DA | DS | DT | FD | FL | IS | LO | LT | OB | OD | OF | OL
    | OW | PN | SH | SL | SQ | SS | ST | TM | UC | UI | UL | UN | UR | US | UT

  /** The VRs whose buffers hold character strings. */
  predicate IsStringVR(vr: VR)
  {
    vr in {AE, AS, CS, DA, DS, DT, IS, LO, LT, PN, SH, ST, TM, UC, UI, UR, UT}
  }

  /**
   * The string VRs that may hold several values separated by a backslash
   * (DICOM PS3.5 section 6.4); LT, ST, UT and UR hold one value, in which a
   * backslash is an ordinary character.
   */
  predicate IsMultiValuedStringVR(vr: VR)
  {
    IsStringVR(vr) && vr !in {LT, ST, UT, UR}
  }

  /** The separator between the values of a multi-valued string buffer. */
  const Separator: char := '\\'

  /** The VRs whose buffers hold fixed-width binary numbers. */
  predicate IsBinaryVR(vr: VR)
  {
    vr != SQ && !IsStringVR(vr)
  }

  /** The width in bytes of one element of a binary VR. */
  function ElementWidth(vr: VR): nat
    requires IsBinaryVR(vr)
  {
    match vr
    case OB | UN => 1
    case SS | US | OW => 2
    case SL | UL | OL | AT | FL | OF => 4
    case FD | OD => 8
  }

  /**
   * The integers an element of a binary VR can hold: the range of the
   * stored integer type, and for the floating point VRs the integers up to
   * 2^24 (32-bit) or 2^53 (64-bit) in magnitude, below which every integer
   * has an exact float.
   */
  predicate InRange(vr: VR, n: int)
    requires IsBinaryVR(vr)
  {
    match vr
    case OB | UN => 0 <= n < 0x100
    case SS => -0x8000 <= n < 0x8000
    case US | OW => 0 <= n < 0x1_0000
    case SL => IsInt32(n)
    case UL | OL | AT => IsUint32(n)
    case FL | OF => -0x100_0000 <= n <= 0x100_0000
    case FD | OD => -0x20_0000_0000_0000 <= n <= 0x20_0000_0000_0000
  }

  /** One element of a tag buffer: a binary number or a string. */
  datatype Element = Number(n: int) | Text(s: string)

  /** The element is a legal value of the VR. */
  predicate Fits(vr: VR, e: Element)
  {
    match e
    case Number(n) => IsBinaryVR(vr) && InRange(vr, n)
    case Text(_) => IsStringVR(vr)
  }

  /** The value a buffer of the VR gets for every new element when it grows. */
  function Blank(vr: VR): Element
  {
    if IsStringVR(vr) then Text("") else Number(0)
  }

  /** A new element fits every VR that holds elements at all. */
  lemma BlankFits(vr: VR)
    requires vr != SQ
    ensures Fits(vr, Blank(vr))
  {
  }

  // ---- decimal text -------------------------------------------------------

  predicate IsDigit(c: char) { '0' <= c <= '9' }

  predicate AllDigits(s: string) { forall i :: 0 <= i < |s| ==> IsDigit(s[i]) }

  function DigitChar(d: nat): char
    requires d < 10
  {
    (('0' as int) + d) as char
  }

  function DigitValue(c: char): nat
    requires IsDigit(c)
  {
    (c as int) - ('0' as int)
  }

  /** The decimal digits of `n`, most significant first, without leading zeros. */
  function NatToDecimal(n: nat): string
    decreases n
  {
    if n < 10 then [DigitChar(n)] else NatToDecimal(n / 10) + [DigitChar(n % 10)]
  }

  /** The value of a non-empty string of decimal digits. */
  function DigitsValue(s: string): nat
    requires s != [] && AllDigits(s)
    decreases |s|
  {
    if |s| == 1 then DigitValue(s[0])
    else DigitsValue(s[..|s| - 1]) * 10 + DigitValue(s[|s| - 1])
  }

  /** The decimal text of an integer, with a leading '-' when it is negative. */
  function IntToDecimal(n: int): string
  {
    if n < 0 then "-" + NatToDecimal(-n) else NatToDecimal(n)
  }

  /** Reads an optionally negative decimal integer, or fails with a conversion error. */
  function ParseDecimal(s: string): (r: Result<int>)
    ensures r.Err? ==> r.error == DataHandlerConversionError
  {
    if |s| > 1 && s[0] == '-' && AllDigits(s[1..]) then Ok(-(DigitsValue(s[1..]) as int))
    else if s != [] && AllDigits(s) then Ok(DigitsValue(s))
    else Err(DataHandlerConversionError)
  }

  lemma {:induction false} NatToDecimalDigits(n: nat)
    ensures NatToDecimal(n) != [] && AllDigits(NatToDecimal(n))
    ensures DigitsValue(NatToDecimal(n)) == n
    decreases n
  {
    if n >= 10 {
      NatToDecimalDigits(n / 10);
      var s := NatToDecimal(n);
      assert s[..|s| - 1] == NatToDecimal(n / 10);
    }
  }

  /** Reading back the decimal text of any integer gives that integer. */
  lemma DecimalRoundTrip(n: int)
    ensures ParseDecimal(IntToDecimal(n)) == Ok(n)
  {
    if n < 0 {
      NatToDecimalDigits(-n);
      assert IntToDecimal(n)[1..] == NatToDecimal(-n);
    } else {
      NatToDecimalDigits(n);
    }
  }

  // ---- conversions performed by the data handlers -------------------------

  /**
   * The element a writing handler stores for an integer written into a
   * buffer of VR `vr`: its decimal text for a string VR, the number itself
   * for a binary VR that can hold it, and a conversion error otherwise.
   */
  function FromInteger(vr: VR, n: int): (r: Result<Element>)
    ensures r.Ok? ==> Fits(vr, r.value)
    ensures r.Err? ==> r.error == DataHandlerConversionError
    ensures IsStringVR(vr) ==> r.Ok?
  {
    if IsStringVR(vr) then Ok(Text(IntToDecimal(n)))
    else if IsBinaryVR(vr) && InRange(vr, n) then Ok(Number(n))
    else Err(DataHandlerConversionError)
  }

  /**
   * The element a writing handler stores for a string: the string itself for
   * a string VR; for a binary VR the number the string spells, when it spells
   * one the VR can hold; a conversion error otherwise.
   */
  function FromString(vr: VR, s: string): (r: Result<Element>)
    ensures r.Ok? ==> Fits(vr, r.value)
    ensures r.Err? ==> r.error == DataHandlerConversionError
  {
    if IsStringVR(vr) then Ok(Text(s))
    else if IsBinaryVR(vr) && ParseDecimal(s).Ok? && InRange(vr, ParseDecimal(s).value) then Ok(Number(ParseDecimal(s).value))
    else Err(DataHandlerConversionError)
  }

  /** The integer an element holds or spells, or a conversion error. */
  function ToInteger(e: Element): Result<int>
  {
    match e
    case Number(n) => Ok(n)
    case Text(s) => ParseDecimal(s)
  }

  /** An element read as a signed 32-bit integer. */
  function ToSignedLong(e: Element): (r: Result<int32>)
    ensures r.Ok? <==> ToInteger(e).Ok? && IsInt32(ToInteger(e).value)
    ensures r.Ok? ==> r.value == ToInteger(e).value
    ensures r.Err? ==> r.error == DataHandlerConversionError
  {
    match ToInteger(e)
    case Ok(n) => if IsInt32(n) then Ok(n) else Err(DataHandlerConversionError)
    case Err(_) => Err(DataHandlerConversionError)
  }

  /** An element read as an unsigned 32-bit integer. */
  function ToUnsignedLong(e: Element): (r: Result<uint32>)
    ensures r.Ok? <==> ToInteger(e).Ok? && IsUint32(ToInteger(e).value)
    ensures r.Ok? ==> r.value == ToInteger(e).value
    ensures r.Err? ==> r.error == DataHandlerConversionError
  {
    match ToInteger(e)
    case Ok(n) => if IsUint32(n) then Ok(n) else Err(DataHandlerConversionError)
    case Err(_) => Err(DataHandlerConversionError)
  }

  /** An element read as a string: a number is given in decimal. */
  function ToText(e: Element): string
  {
    match e
    case Number(n) => IntToDecimal(n)
    case Text(s) => s
  }

  /** A signed 32-bit value that a buffer accepts is stored as written and read back unchanged. */
  lemma SignedLongRoundTrip(vr: VR, v: int32)
    requires FromInteger(vr, v).Ok?
    ensures Committed(vr, [FromInteger(vr, v).value]) == [FromInteger(vr, v).value]
    ensures ToSignedLong(FromInteger(vr, v).value) == Ok(v)
  {
    IntegerCommitsAsWritten(vr, v);
    if IsStringVR(vr) {
      DecimalRoundTrip(v);
    }
  }

  /** An unsigned 32-bit value that a buffer accepts is stored as written and read back unchanged. */
  lemma UnsignedLongRoundTrip(vr: VR, v: uint32)
    requires FromInteger(vr, v).Ok?
    ensures Committed(vr, [FromInteger(vr, v).value]) == [FromInteger(vr, v).value]
    ensures ToUnsignedLong(FromInteger(vr, v).value) == Ok(v)
  {
    IntegerCommitsAsWritten(vr, v);
    if IsStringVR(vr) {
      DecimalRoundTrip(v);
    }
  }

  /**
   * What a buffer holds after a string is written as its only element: the
   * string itself for a single-valued string VR or a string without
   * separators; for a multi-valued string VR the values the separators
   * delimit, which join back to the string; for a binary VR the number, whose
   * text is the canonical decimal form of the string.
   */
  lemma StringRoundTrip(vr: VR, s: string)
    requires FromString(vr, s).Ok?
    ensures IsStringVR(vr) && (!IsMultiValuedStringVR(vr) || Separator !in s) ==>
              Committed(vr, [FromString(vr, s).value]) == [Text(s)]
    ensures IsMultiValuedStringVR(vr) ==>
              Committed(vr, [FromString(vr, s).value]) == Split(s) && Join(Split(s)) == s
    ensures IsBinaryVR(vr) ==>
              ParseDecimal(s).Ok? && Committed(vr, [FromString(vr, s).value]) == [Number(ParseDecimal(s).value)] &&
              ToText(FromString(vr, s).value) == IntToDecimal(ParseDecimal(s).value)
  {
    if IsMultiValuedStringVR(vr) {
      assert Join([Text(s)]) == s;
      JoinSplit(s);
    }
  }

  /** Writing the decimal text of an integer stores the same element as writing the integer. */
  lemma {:induction false} DecimalTextAsInteger(vr: VR, n: int)
    ensures FromString(vr, IntToDecimal(n)) == FromInteger(vr, n)
  {
    DecimalRoundTrip(n);
  }

  // ---- string buffers ----------------------------------------------------

  /** The position of the first occurrence of `e` in `s`. */
  function IndexIn<T(==)>(s: seq<T>, e: T): (i: nat)
    requires e in s
    ensures i < |s| && s[i] == e
    ensures forall k :: 0 <= k < i ==> s[k] != e
  {
    if s[0] == e then 0 else 1 + IndexIn(s[1..], e)
  }

  /** The text of a string buffer: its strings joined with the separator. */
  function Join(elements: seq<Element>): string
    decreases |elements|
  {
    if elements == [] then ""
    else if |elements| == 1 then ToText(elements[0])
    else ToText(elements[0]) + [Separator] + Join(elements[1..])
  }

  /** The strings a reader finds in the text of a multi-valued string buffer. */
  function Split(s: string): (r: seq<Element>)
    ensures |r| >= 1
    decreases |s|
  {
    if Separator !in s then [Text(s)]
    else
      var i := IndexIn(s, Separator);
      [Text(s[..i])] + Split(s[i + 1..])
  }

  /**
   * The elements a buffer holds once a writing handler has stored `elements`
   * into it. A multi-valued string buffer is stored as one text and read
   * back split at each separator, so a separator inside a written string
   * starts a new element.
   */
  function Committed(vr: VR, elements: seq<Element>): seq<Element>
  {
    if IsMultiValuedStringVR(vr) && elements != [] then Split(Join(elements)) else elements
  }

  /** Joining a first element before non-empty others puts one separator between them. */
  lemma JoinCons(first: Element, rest: seq<Element>)
    requires rest != []
    ensures Join([first] + rest) == ToText(first) + [Separator] + Join(rest)
  {
    assert ([first] + rest)[1..] == rest;
  }

  /** Joining the strings read from a text gives that text back. */
  lemma {:induction false} JoinSplit(s: string)
    ensures Join(Split(s)) == s
    decreases |s|
  {
    if Separator in s {
      var i := IndexIn(s, Separator);
      SplitAtFirst(s, i);
      var rest := Split(s[i + 1..]);
      JoinSplit(s[i + 1..]);
      JoinCons(Text(s[..i]), rest);
      assert s == s[..i] + [Separator] + s[i + 1..];
    }
  }

  /** A text splits first at its first separator. */
  lemma SplitAtFirst(s: string, i: nat)
    requires i < |s| && s[i] == Separator
    requires forall k :: 0 <= k < i ==> s[k] != Separator
    ensures Split(s) == [Text(s[..i])] + Split(s[i + 1..])
  {
    assert IndexIn(s, Separator) == i;
  }

  /** Strings free of the separator are read back as the very strings written. */
  lemma {:induction false} SplitJoin(elements: seq<Element>)
    requires elements != []
    requires forall k :: 0 <= k < |elements| ==> elements[k].Text? && Separator !in elements[k].s
    ensures Split(Join(elements)) == elements
    decreases |elements|
  {
    if |elements| > 1 {
      var first := elements[0].s;
      var tail := Join(elements[1..]);
      var j := Join(elements);
      assert elements == [elements[0]] + elements[1..];
      JoinCons(elements[0], elements[1..]);
      assert j == first + [Separator] + tail;
      assert j[..|first|] == first && j[|first| + 1..] == tail;
      SplitAtFirst(j, |first|);
      SplitJoin(elements[1..]);
      assert Split(j) == [elements[0]] + elements[1..];
    }
  }

  /** Storing elements that hold no separator keeps them as they are. */
  lemma CommitKeepsSeparatorFree(vr: VR, elements: seq<Element>)
    requires IsMultiValuedStringVR(vr) ==>
               forall k :: 0 <= k < |elements| ==> elements[k].Text? && Separator !in elements[k].s
    ensures Committed(vr, elements) == elements
  {
    if IsMultiValuedStringVR(vr) && elements != [] {
      SplitJoin(elements);
    }
  }

  /** Decimal text never holds the separator. */
  lemma DecimalHasNoSeparator(n: int)
    ensures Separator !in IntToDecimal(n)
  {
    var d := if n < 0 then -n else n;
    NatToDecimalDigits(d);
    var digits := NatToDecimal(d);
    assert forall k :: 0 <= k < |digits| ==> digits[k] != Separator;
    if n < 0 {
      assert IntToDecimal(n) == "-" + digits;
      assert forall k :: 0 <= k < |IntToDecimal(n)| ==> IntToDecimal(n)[k] != Separator by {
        forall k | 0 <= k < |IntToDecimal(n)| ensures IntToDecimal(n)[k] != Separator {
          if k > 0 {
            assert IntToDecimal(n)[k] == digits[k - 1];
          }
        }
      }
    }
  }

  /** An integer a buffer accepts is stored as exactly the element written. */
  lemma IntegerCommitsAsWritten(vr: VR, n: int)
    requires FromInteger(vr, n).Ok?
    ensures Committed(vr, [FromInteger(vr, n).value]) == [FromInteger(vr, n).value]
  {
    DecimalHasNoSeparator(n);
    CommitKeepsSeparatorFree(vr, [FromInteger(vr, n).value]);
  }

  // ---- buffer sizes -------------------------------------------------------

  /** Appending a string to a string buffer adds its length plus one separator to a non-empty buffer. */
  lemma {:induction false} JoinLengthAppend(elements: seq<Element>, e: Element)
    ensures |Join(elements + [e])| == |Join(elements)| + |ToText(e)| + (if elements == [] then 0 else 1)
    decreases |elements|
  {
    if elements != [] {
      assert (elements + [e])[0] == elements[0];
      assert (elements + [e])[1..] == elements[1..] + [e];
      if |elements| > 1 {
        JoinLengthAppend(elements[1..], e);
      }
    }
  }

  /** The size in bytes of a buffer of VR `vr` holding `elements`. */
  function BufferSize(vr: VR, elements: seq<Element>): nat
  {
    if IsBinaryVR(vr) then |elements| * ElementWidth(vr)
    else if IsStringVR(vr) then |Join(elements)|
    else 0
  }
}
