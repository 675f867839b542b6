/**
 * The base class of every resolved property value (Property.java).
 *
 * The base class keeps one piece of state, the value as the author wrote it
 * ("specified value"), and answers every typed accessor with "absent": null
 * for object-valued accessors and 0 for the int/char ones.  Subclasses
 * override the accessors; they are not part of this model.
 */
module Properties {
  import opened Wrappers

  /** Opaque stand-ins for the datatypes the typed accessors would return. */
  datatype Datum = Datum(token: nat)
  type Length = Datum
  type ColorTypeProperty = Datum
  type CondLengthProperty = Datum
  type LengthRangeProperty = Datum
  type LengthPairProperty = Datum
  type SpaceProperty = Datum
  type KeepProperty = Datum
  type Number = Datum
  type Numeric = Datum

  class Property {
    /** The original specified value; null until set. */
    var specVal: Option<string>

    /** A fresh property has no specified value. */
    constructor ()
      ensures GetSpecifiedValue() == None
    {
      specVal := None;
    }

    /** Records the specified value; nothing else observable changes. */
    method SetSpecifiedValue(specVal: Option<string>)
      modifies this
      ensures GetSpecifiedValue() == specVal
      ensures Accessors() == Absent
    {
      this.specVal := specVal;
    }

    function GetSpecifiedValue(): Option<string>
      reads this
    {
      specVal
    }

    // The typed accessors of the base class: all report "absent".

    function GetLength(): (r: Option<Length>)
      ensures r.None?
    { None }

    function GetColorType(): (r: Option<ColorTypeProperty>)
      ensures r.None?
    { None }

    function GetCondLength(): (r: Option<CondLengthProperty>)
      ensures r.None?
    { None }

    function GetLengthRange(): (r: Option<LengthRangeProperty>)
      ensures r.None?
    { None }

    function GetLengthPair(): (r: Option<LengthPairProperty>)
      ensures r.None?
    { None }

    function GetSpace(): (r: Option<SpaceProperty>)
      ensures r.None?
    { None }

    function GetKeep(): (r: Option<KeepProperty>)
      ensures r.None?
    { None }

    function GetEnum(): (r: int)
      ensures r == 0
    { 0 }

    function GetCharacter(): (r: char)
      ensures r == 0 as char
    { 0 as char }

    function GetList(): (r: Option<seq<Property>>)
      ensures r.None?
    { None }

    function GetNumber(): (r: Option<Number>)
      ensures r.None?
    { None }

    function GetNumeric(): (r: Option<Numeric>)
      ensures r.None?
    { None }

    function GetNCname(): (r: Option<string>)
      ensures r.None?
    { None }

    function GetObject(): (r: Option<object>)
      ensures r.None?
    { None }

    function GetString(): (r: Option<string>)
      ensures r.None?
    { None }

    /** Everything the typed accessors report, gathered in one value. */
    function Accessors(): AccessorView
    {
      AccessorView(GetLength(), GetColorType(), GetCondLength(), GetLengthRange(),
                   GetLengthPair(), GetSpace(), GetKeep(), GetEnum(), GetCharacter(),
                   GetList(), GetNumber(), GetNumeric(), GetNCname(), GetObject(), GetString())
    }
  }

  /** What the typed accessors of one property report. */
  datatype AccessorView = AccessorView(
    length: Option<Length>, colorType: Option<ColorTypeProperty>,
    condLength: Option<CondLengthProperty>, lengthRange: Option<LengthRangeProperty>,
    lengthPair: Option<LengthPairProperty>, space: Option<SpaceProperty>,
    keep: Option<KeepProperty>, enumValue: int, character: char,
    list: Option<seq<Property>>, number: Option<Number>, numeric: Option<Numeric>,
    ncname: Option<string>, obj: Option<object>, stringValue: Option<string>)

  /** The view every base-class property presents: nothing is set. */
  const Absent := AccessorView(None, None, None, None, None, None, None, 0, 0 as char,
                               None, None, None, None, None, None)

  /** Every base-class property reports the absent view, whatever its specified value. */
  lemma BaseAccessorsAbsent(p: Property)
    ensures p.Accessors() == Absent
  {
  }

  /** A client: the specified value reads back, and the accessors stay absent. */
  method SpecifiedValueRoundTrip(s: string) returns (p: Property)
    ensures fresh(p)
    ensures p.GetSpecifiedValue() == Some(s) && p.Accessors() == Absent
  {
    p := new Property();
    p.SetSpecifiedValue(Some(s));
  }
}
