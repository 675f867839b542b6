/**
 * PropertyMaker: the per-property resolver object.  Its setters and
 * useGeneric configure it in place, addShorthand fills a fixed array of
 * shorthand slots, and findProperty / get / make resolve a property on a
 * property list, caching the default value unless it is context dependent.
 * Each resolving method is proved equal to the pure cascade of cascade.dfy.
 */
module Makers {
  import opened Wrappers
  import opened Properties
  import opened Cascade

  /** What `make(propertyList, value, fo)` does with a default value string (not part of this model). */
  type ValueMaker = (PropertyList, Option<string>) -> Result<Property, Error>

  /** The percent base handed out for percentage values (LengthBase; its fo is not modelled). */
  datatype PercentBase = LengthBase(pl: PropertyList, baseType: int)

  /** The number of shorthand slots addShorthand allocates. */
  const SHORTHAND_SLOTS := 3

  /** addShorthand's slot update: the first null slot takes the maker; with no null slot nothing changes. */
  function FillFirstEmpty(s: seq<PropertyMaker?>, x: PropertyMaker?): seq<PropertyMaker?>
  {
    if s == [] then []
    else if s[0] == null then [x] + s[1..]
    else [s[0]] + FillFirstEmpty(s[1..], x)
  }

  /** Slots are filled from the front: no registered maker follows an empty slot. */
  ghost predicate Packed(s: seq<PropertyMaker?>)
  {
    forall i, j :: 0 <= i < j < |s| && s[i] == null ==> s[j] == null
  }

  /** The maker lands in the first empty slot; every other slot keeps its maker. */
  lemma {:induction false} FillFirstEmptyAt(s: seq<PropertyMaker?>, x: PropertyMaker?, k: nat)
    requires k < |s| && s[k] == null
    requires forall j :: 0 <= j < k ==> s[j] != null
    ensures FillFirstEmpty(s, x) == s[k := x]
    decreases k
  {
    if k > 0 {
      FillFirstEmptyAt(s[1..], x, k - 1);
      assert [s[0]] + s[1..][k - 1 := x] == s[k := x];
    }
  }

  /** With every slot taken, a further registration is silently dropped. */
  lemma {:induction false} FillFirstEmptyFull(s: seq<PropertyMaker?>, x: PropertyMaker?)
    requires forall j :: 0 <= j < |s| ==> s[j] != null
    ensures FillFirstEmpty(s, x) == s
    decreases |s|
  {
    if s != [] {
      FillFirstEmptyFull(s[1..], x);
    }
  }

  /** Registering a maker keeps the slots packed, so getShorthand sees every registered maker. */
  lemma FillKeepsPacked(s: seq<PropertyMaker?>, x: PropertyMaker)
    requires Packed(s)
    ensures Packed(FillFirstEmpty(s, x))
  {
    if k :| 0 <= k < |s| && s[k] == null && forall j :: 0 <= j < k ==> s[j] != null {
      FillFirstEmptyAt(s, x, k);
    } else {
      forall j | 0 <= j < |s|
        ensures s[j] != null
      {
        if s[j] == null {
          var k := FirstNull(s, j);
        }
      }
      FillFirstEmptyFull(s, x);
    }
  }

  /** Some index holds the first null at or before a known null. */
  lemma {:induction false} FirstNull(s: seq<PropertyMaker?>, j: nat) returns (k: nat)
    requires j < |s| && s[j] == null
    ensures k <= j && s[k] == null && forall i :: 0 <= i < k ==> s[i] != null
    decreases j
  {
    if exists i :: 0 <= i < j && s[i] == null {
      var i :| 0 <= i < j && s[i] == null;
      k := FirstNull(s, i);
    } else {
      k := j;
    }
  }

  /** Three registrations fill the three slots in order; a fourth is dropped. */
  lemma FourthRegistrationDropped(a: PropertyMaker, b: PropertyMaker, c: PropertyMaker, d: PropertyMaker)
    ensures FillFirstEmpty(FillFirstEmpty(FillFirstEmpty([null, null, null], a), b), c) == [a, b, c]
    ensures FillFirstEmpty([a, b, c], d) == [a, b, c]
  {
    FillFirstEmptyAt([null, null, null], a, 0);
    FillFirstEmptyAt([a, null, null], b, 1);
    FillFirstEmptyAt([a, b, null], c, 2);
    FillFirstEmptyFull([a, b, c], d);
  }

  /** With every slot empty (as after useGeneric) no shorthand is ever found. */
  lemma AllEmptyFindsNothing(slots: seq<Slot>, id: PropId, pl: PropertyList)
    requires forall i :: 0 <= i < |slots| ==> slots[i] == Empty
    ensures ShorthandValue(slots, id, pl) == Ok(None)
  {
  }

  /** How one slot of the array looks to the cascade. */
  ghost function SlotOf(m: PropertyMaker?): Slot
    reads m
  {
    if m == null then Empty else Registered(m.propId, m.datatypeParser)
  }

  class PropertyMaker {
    const propId: PropId
    var inherited: bool
    var enums: Option<map<string, Property>>
    var keywords: Option<map<string, string>>
    var defaultValue: Option<string>
    var contextDep: bool
    var setByShorthand: bool
    var percentBase: int
    var shorthands: array?<PropertyMaker?>
    var datatypeParser: Option<ShorthandParser>
    var defaultProperty: Option<Property>
    var corresponding: Option<CorrespondingMaker>

    constructor (propId: PropId)
      ensures this.propId == propId && inherited && enums.None? && keywords.None?
      ensures defaultValue.None? && !contextDep && !setByShorthand && percentBase == -1
      ensures shorthands == null && datatypeParser.None? && defaultProperty.None? && corresponding.None?
    {
      this.propId := propId;
      inherited := true;
      enums, keywords := None, None;
      defaultValue := None;
      contextDep, setByShorthand := false, false;
      percentBase := -1;
      shorthands := null;
      datatypeParser := None;
      defaultProperty := None;
      corresponding := None;
    }

    /** The makers registered in the shorthand slots. */
    ghost function ShorthandMakers(): set<PropertyMaker>
      reads this, shorthands
    {
      if shorthands == null then {}
      else set i | 0 <= i < shorthands.Length && shorthands[i] != null :: shorthands[i]
    }

    /** The shorthand slots as the cascade sees them. */
    ghost function Slots(): seq<Slot>
      reads this, shorthands, ShorthandMakers()
    {
      if shorthands == null then []
      else
        var makers := shorthands[..];
        var objects := set j | 0 <= j < |makers| && makers[j] != null :: makers[j];
        seq(|makers|, i requires 0 <= i < |makers| reads objects => SlotOf(makers[i]))
    }

    /** The snapshot of this maker that findProperty works on. */
    ghost function View(): MakerView
      reads this, shorthands, ShorthandMakers()
    {
      MakerView(propId, inherited, corresponding, Slots())
    }

    function GetPropId(): PropId
    {
      propId
    }

    function IsInherited(): bool
      reads this
    {
      inherited
    }

    method SetInherited(inherited: bool)
      modifies this`inherited
      ensures IsInherited() == inherited
    {
      this.inherited := inherited;
    }

    /** Adds a keyword equivalent; later lookups of it answer the new value, others are unaffected. */
    method AddKeyword(keyword: string, value: string)
      modifies this`keywords
      ensures CheckValueKeywords(keyword) == value
      ensures forall k :: k != keyword ==> CheckValueKeywords(k) == old(CheckValueKeywords(k))
    {
      if keywords.None? {
        keywords := Some(map[]);
      }
      keywords := Some(keywords.value[keyword := value]);
    }

    /** Adds an enum constant; later lookups of it answer the new property, others are unaffected. */
    method AddEnum(constant: string, value: Property)
      modifies this`enums
      ensures CheckEnumValues(constant) == Some(value)
      ensures forall k :: k != constant ==> CheckEnumValues(k) == old(CheckEnumValues(k))
    {
      if enums.None? {
        enums := Some(map[]);
      }
      enums := Some(enums.value[constant := value]);
    }

    /**
     * Registers a shorthand maker: the slot array (three slots) is allocated
     * on first use and the maker goes into the first empty slot; when all
     * slots are taken the registration is silently dropped.
     */
    method AddShorthand(shorthand: PropertyMaker)
      modifies this`shorthands, shorthands
      ensures shorthands != null
      ensures old(shorthands) == null ==>
                fresh(shorthands) && shorthands[..] == FillFirstEmpty([null, null, null], shorthand)
      ensures old(shorthands) != null ==>
                shorthands == old(shorthands) && shorthands[..] == FillFirstEmpty(old(shorthands[..]), shorthand)
    {
      if shorthands == null {
        shorthands := new PropertyMaker?[SHORTHAND_SLOTS](_ => null);
      }
      ghost var before := shorthands[..];
      var i := 0;
      while i < shorthands.Length
        invariant 0 <= i <= shorthands.Length
        invariant shorthands[..] == before
        invariant forall j :: 0 <= j < i ==> before[j] != null
      {
        if shorthands[i] == null {
          FillFirstEmptyAt(before, shorthand, i);
          shorthands[i] := shorthand;
          return;
        }
        i := i + 1;
      }
      FillFirstEmptyFull(before, shorthand);
    }

    method SetDatatypeParser(parser: Option<ShorthandParser>)
      modifies this`datatypeParser
      ensures datatypeParser == parser
    {
      datatypeParser := parser;
    }

    method SetDefault(defaultValue: Option<string>)
      modifies this`defaultValue
      ensures this.defaultValue == defaultValue
    {
      this.defaultValue := defaultValue;
    }

    /** The two-argument setDefault: also says whether the default must not be cached. */
    method SetDefaultContextDep(defaultValue: Option<string>, contextDep: bool)
      modifies this`defaultValue, this`contextDep
      ensures this.defaultValue == defaultValue && this.contextDep == contextDep
    {
      this.defaultValue := defaultValue;
      this.contextDep := contextDep;
    }

    method SetPercentBase(percentBase: int)
      modifies this`percentBase
      ensures this.percentBase == percentBase
    {
      this.percentBase := percentBase;
    }

    method SetByShorthand(setByShorthand: bool)
      modifies this`setByShorthand
      ensures this.setByShorthand == setByShorthand
    {
      this.setByShorthand := setByShorthand;
    }

    method SetCorresponding(corresponding: Option<CorrespondingMaker>)
      modifies this`corresponding
      ensures this.corresponding == corresponding
    {
      this.corresponding := corresponding;
    }

    /** No percent base when none was configured (-1); otherwise a LengthBase of that kind. */
    function GetPercentBase(pl: PropertyList): (r: Option<PercentBase>)
      reads this
      ensures r.None? <==> percentBase == -1
      ensures r.Some? ==> r.value == LengthBase(pl, percentBase)
    {
      if percentBase == -1 then None else Some(LengthBase(pl, percentBase))
    }

    /** The enum property registered for `value`; null when there is no enum table or no entry. */
    function CheckEnumValues(value: string): (r: Option<Property>)
      reads this
      ensures enums.None? ==> r.None?
      ensures enums.Some? ==> (r.Some? <==> value in enums.value)
      ensures r.Some? ==> r.value == enums.value[value]
    {
      match enums
      case None => None
      case Some(table) => if value in table then Some(table[value]) else None
    }

    /** The parseable equivalent registered for a keyword, or the keyword itself. */
    function CheckValueKeywords(keyword: string): (r: string)
      reads this
      ensures keywords.Some? && keyword in keywords.value ==> r == keywords.value[keyword]
      ensures !(keywords.Some? && keyword in keywords.value) ==> r == keyword
    {
      if keywords.Some? && keyword in keywords.value then keywords.value[keyword] else keyword
    }

    /** PropertyMaker.compute: delegates to the corresponding maker when one is set. */
    function Compute(pl: PropertyList): (r: Lookup)
      reads this
      ensures r == ComputeValue(corresponding, pl)
    {
      if corresponding.Some? then corresponding.value.compute(pl) else Ok(None)
    }

    /** getShorthand: the loop over the slot array. */
    method GetShorthand(pl: PropertyList) returns (r: Lookup)
      ensures r == ShorthandValue(Slots(), propId, pl)
    {
      if shorthands == null {
        return Ok(None);
      }
      var n := shorthands.Length;
      var i := 0;
      while i < n && shorthands[i] != null
        invariant 0 <= i <= n
        invariant ShorthandValue(Slots(), propId, pl) == ShorthandValue(Slots()[i..], propId, pl)
      {
        var shorthand := shorthands[i];
        assert Slots()[i..][1..] == Slots()[i + 1..];
        if shorthand.propId in pl.explicit {
          var listprop := pl.explicit[shorthand.propId];
          match shorthand.datatypeParser {
            case None =>
              return Err(NullPointer);
            case Some(parser) =>
              var p := parser.getValueForProperty(propId, listprop, pl);
              if p.Some? {
                return Ok(p);
              }
          }
        }
        i := i + 1;
      }
      assert i < n ==> Slots()[i] == Empty;
      assert i == n ==> Slots()[i..] == [];
      r := Ok(None);
    }

    /** findProperty: the cascade, recursing on the parent list for inheritance. */
    method FindProperty(pl: PropertyList, tryInherit: bool) returns (r: Lookup)
      ensures r == Find(View(), pl, tryInherit)
      decreases pl
    {
      ghost var m := View();
      if corresponding.Some? && corresponding.value.isCorrespondingForced(pl) {
        r := corresponding.value.compute(pl);
      } else {
        r := if propId in pl.explicit then Ok(Some(pl.explicit[propId])) else Ok(None);
        if r == Ok(None) {
          r := Compute(pl);
        }
        if r == Ok(None) {
          r := GetShorthand(pl);
          assert Slots() == m.shorthands;
        }
        if r == Ok(None) && tryInherit {
          if pl.parent.Some? && IsInherited() {
            r := FindProperty(pl.parent.value, true);
          }
        }
      }
      assert Slots() == m.shorthands;
    }

    /**
     * make(propertyList): the cached default when there is one; otherwise the
     * default built from the default value string, cached unless the
     * property is context dependent.  A failure is not cached.
     */
    method Make(pl: PropertyList, makeValue: ValueMaker) returns (r: Result<Property, Error>)
      modifies this`defaultProperty
      ensures old(defaultProperty).Some? ==>
                r == Ok(old(defaultProperty).value) && defaultProperty == old(defaultProperty)
      ensures old(defaultProperty).None? ==> r == makeValue(pl, defaultValue)
      ensures old(defaultProperty).None? ==>
                defaultProperty == if r.Ok? && !contextDep then Some(r.value) else None
    {
      if defaultProperty.Some? {
        return Ok(defaultProperty.value);
      }
      r := makeValue(pl, defaultValue);
      if r.Ok? && !contextDep {
        defaultProperty := Some(r.value);
      }
    }

    /**
     * get: the cascade; when it gives null and a default is wanted, the
     * default from make.  Only a FOPException while building the default is
     * caught, leaving the answer null; a NullPointerException from make, and
     * any failure of the cascade itself, propagate.
     */
    method Get(subpropId: int, pl: PropertyList, tryInherit: bool, tryDefault: bool, makeValue: ValueMaker)
      returns (r: Lookup)
      modifies this`defaultProperty
      ensures var found := old(Find(View(), pl, tryInherit));
              found != Ok(None) || !tryDefault ==> r == found && defaultProperty == old(defaultProperty)
      ensures var found := old(Find(View(), pl, tryInherit));
              found == Ok(None) && tryDefault && old(defaultProperty).Some? ==>
                r == Ok(old(defaultProperty)) && defaultProperty == old(defaultProperty)
      ensures var found := old(Find(View(), pl, tryInherit));
              var made := makeValue(pl, defaultValue);
              found == Ok(None) && tryDefault && old(defaultProperty).None? ==>
                r == (if made.Ok? then Ok(Some(made.value))
                      else if made.error == FOPException then Ok(None)
                      else Err(made.error)) &&
                defaultProperty == (if made.Ok? && !contextDep then Some(made.value) else None)
    {
      ghost var m := View();
      r := FindProperty(pl, tryInherit);
      assert Slots() == m.shorthands;
      assert View() == m;
      if r == Ok(None) && tryDefault {
        var made := Make(pl, makeValue);
        if made.Ok? {
          r := Ok(Some(made.value));
        } else if made.error != FOPException {
          r := Err(made.error);
        }
      }
    }

    /**
     * useGeneric: copies contextDep, inherited, defaultValue and percentBase,
     * and takes copies of the enum and keyword tables.  The shorthand copy
     * passes System.arraycopy its source and destination swapped: the new
     * array (all null) is copied over the generic maker's array, which is
     * read again after the assignment.  Both makers end up with shorthand
     * arrays whose every slot is empty; for m.useGeneric(m) the new array is
     * copied onto itself and the array m held before is left as it was.
     */
    method UseGeneric(generic: PropertyMaker)
      modifies this`contextDep, this`inherited, this`defaultValue, this`percentBase
      modifies this`shorthands, this`enums, this`keywords, generic.shorthands
      ensures contextDep == old(generic.contextDep) && inherited == old(generic.inherited)
      ensures defaultValue == old(generic.defaultValue) && percentBase == old(generic.percentBase)
      ensures enums == if old(generic.enums).Some? then old(generic.enums) else old(enums)
      ensures keywords == if old(generic.keywords).Some? then old(generic.keywords) else old(keywords)
      ensures old(generic.shorthands) == null ==> shorthands == old(shorthands)
      ensures old(generic.shorthands) != null ==>
                shorthands != null && fresh(shorthands) && shorthands.Length == old(generic.shorthands.Length) &&
                forall i :: 0 <= i < shorthands.Length ==> shorthands[i] == null
      ensures old(generic.shorthands) != null && generic != this ==>
                generic.shorthands == old(generic.shorthands) &&
                forall i :: 0 <= i < generic.shorthands.Length ==> generic.shorthands[i] == null
      ensures old(shorthands) != null && generic == this ==> old(shorthands)[..] == old(shorthands[..])
    {
      var genericShorthands := generic.shorthands;
      var genericEnums, genericKeywords := generic.enums, generic.keywords;
      contextDep := generic.contextDep;
      inherited := generic.inherited;
      defaultValue := generic.defaultValue;
      percentBase := generic.percentBase;
      if genericShorthands != null {
        var copy := new PropertyMaker?[genericShorthands.Length](_ => null);
        shorthands := copy;
        ArrayCopy(copy, 0, generic.shorthands, 0, copy.Length);
      }
      if genericEnums.Some? {
        enums := genericEnums;
      }
      if genericKeywords.Some? {
        keywords := genericKeywords;
      }
    }
  }

  /** System.arraycopy: copies `length` elements as if through a temporary array. */
  method ArrayCopy(src: array<PropertyMaker?>, srcPos: nat, dest: array<PropertyMaker?>, destPos: nat, length: nat)
    requires srcPos + length <= src.Length && destPos + length <= dest.Length
    modifies dest
    ensures forall i :: 0 <= i < dest.Length && !(destPos <= i < destPos + length) ==> dest[i] == old(dest[i])
    ensures forall i :: destPos <= i < destPos + length ==> dest[i] == old(src[srcPos + (i - destPos)])
  {
    var tmp := src[srcPos..srcPos + length];
    var i := 0;
    while i < length
      invariant 0 <= i <= length
      invariant forall j :: 0 <= j < dest.Length && !(destPos <= j < destPos + i) ==> dest[j] == old(dest[j])
      invariant forall j :: destPos <= j < destPos + i ==> dest[j] == tmp[j - destPos]
    {
      dest[destPos + i] := tmp[i];
      i := i + 1;
    }
  }

  /**
   * A client of make: once a context-independent default has been built,
   * the same object is handed out for any later property list.
   */
  method DefaultIsShared(maker: PropertyMaker, pl1: PropertyList, pl2: PropertyList, makeValue: ValueMaker)
    returns (first: Result<Property, Error>, second: Result<Property, Error>)
    requires !maker.contextDep && maker.defaultProperty.None?
    modifies maker`defaultProperty
    ensures first == makeValue(pl1, maker.defaultValue)
    ensures first.Ok? ==> second == first
  {
    first := maker.Make(pl1, makeValue);
    second := maker.Make(pl2, makeValue);
  }
}
