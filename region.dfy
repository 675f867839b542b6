/**
 * Pagination regions (Region.java): the region-name defaulting and
 * validation and the parent check done when a region's attributes are
 * handled, the reserved names, and the region class codes.
 */
module Regions {
  import opened Wrappers

  /** The region classes; each concrete region subclass is one of them. */
  datatype RegionClass = Before | Start | Body | End | After

  /** The region class keys BEFORE, START, END, AFTER and BODY. */
  function ClassKey(c: RegionClass): string
  {
    match c
    case Before => "before"
    case Start => "start"
    case Body => "body"
    case End => "end"
    case After => "after"
  }

  /** The integer region codes, matching those of the area tree's region references. */
  function ClassCode(c: RegionClass): (r: int)
    ensures 0 <= r <= 4
  {
    match c
    case Before => 0
    case Start => 1
    case Body => 2
    case End => 3
    case After => 4
  }

  /** BEFORE..AFTER have the distinct codes 0..4, in the order before, start, body, end, after. */
  lemma CodesDistinct(c1: RegionClass, c2: RegionClass)
    ensures ClassCode(c1) == ClassCode(c2) <==> c1 == c2
    ensures ClassKey(c1) == ClassKey(c2) <==> c1 == c2
  {
  }

  lemma EveryCodeUsed(n: int)
    requires 0 <= n <= 4
    ensures exists c :: ClassCode(c) == n
  {
    var c := if n == 0 then Before else if n == 1 then Start else if n == 2 then Body else if n == 3 then End else After;
    assert ClassCode(c) == n;
  }

  const RESERVED_NAMES: set<string> := {
    "xsl-region-before", "xsl-region-start", "xsl-region-end", "xsl-region-after",
    "xsl-before-float-separator", "xsl-footnote-separator"
  }

  /** isReserved: one of the six reserved names. */
  predicate IsReserved(name: string)
    ensures IsReserved(name) <==> name in RESERVED_NAMES
  {
    name == "xsl-region-before"
    || name == "xsl-region-start"
    || name == "xsl-region-end"
    || name == "xsl-region-after"
    || name == "xsl-before-float-separator"
    || name == "xsl-footnote-separator"
  }

  /** The body region's default name is not among the reserved names. */
  lemma BodyNameNotReserved()
    ensures !IsReserved("xsl-region-body")
  {
  }

  /** The region name a region ends up with: the specified one, or the default when absent or empty. */
  function ChosenName(specified: Option<string>, defaultName: string): string
  {
    if specified.None? || specified.value == "" then defaultName else specified.value
  }

  /** Whether a region may carry this name: not reserved, or its own default name. */
  predicate NamePermitted(name: string, defaultName: string)
  {
    !IsReserved(name) || name == defaultName
  }

  lemma AbsentOrEmptyGivesDefault(defaultName: string)
    ensures ChosenName(None, defaultName) == defaultName
    ensures ChosenName(Some(""), defaultName) == defaultName
    ensures NamePermitted(defaultName, defaultName)
  {
  }

  /** A non-empty name is kept verbatim, and refused exactly when it is reserved and not the default. */
  lemma ExplicitName(name: string, defaultName: string)
    requires name != ""
    ensures ChosenName(Some(name), defaultName) == name
    ensures !NamePermitted(name, defaultName) <==> name in RESERVED_NAMES && name != defaultName
  {
  }

  /** The page master a region belongs to; only its identity matters here. */
  datatype SimplePageMaster = SimplePageMaster(masterName: string)

  /** A region's parent node: a simple-page-master or any other formatting object. */
  datatype Parent = PageMasterParent(master: SimplePageMaster) | OtherParent(elementName: string)

  /** The two FOPExceptions handleAttrs can raise. */
  datatype Error = NameNotPermitted(regionName: string) | NotChildOfPageMaster(parentName: string)

  class Region {
    /** The subclass's getDefaultRegionName (xsl-region-before, xsl-region-start, ...). */
    const defaultRegionName: string
    var regionName: Option<string>
    var layoutMaster: Option<SimplePageMaster>
    var overflow: int
    var wm: int

    constructor (defaultRegionName: string)
      ensures this.defaultRegionName == defaultRegionName
      ensures regionName == None && layoutMaster == None && overflow == 0 && wm == 0
    {
      this.defaultRegionName := defaultRegionName;
      regionName := None;
      layoutMaster := None;
      overflow := 0;
      wm := 0;
    }

    function GetRegionName(): Option<string>
      reads this
    {
      regionName
    }

    /**
     * handleAttrs: choose and check the region name (the name is stored even
     * when it is then refused), then require a simple-page-master parent,
     * then read writing-mode and overflow.
     */
    method HandleAttrs(specifiedName: Option<string>, parent: Parent, writingMode: int, overflowEnum: int)
      returns (r: Result<(), Error>)
      modifies this
      ensures regionName == Some(ChosenName(specifiedName, defaultRegionName))
      ensures !NamePermitted(ChosenName(specifiedName, defaultRegionName), defaultRegionName) ==>
        r == Err(NameNotPermitted(ChosenName(specifiedName, defaultRegionName)))
      ensures NamePermitted(ChosenName(specifiedName, defaultRegionName), defaultRegionName) && parent.OtherParent? ==>
        r == Err(NotChildOfPageMaster(parent.elementName))
      ensures NamePermitted(ChosenName(specifiedName, defaultRegionName), defaultRegionName) && parent.PageMasterParent? ==>
        r.Ok? && layoutMaster == Some(parent.master) && wm == writingMode && overflow == overflowEnum
      ensures r.Err? ==> layoutMaster == old(layoutMaster) && wm == old(wm) && overflow == old(overflow)
    {
      if specifiedName.None? {
        regionName := Some(defaultRegionName);
      } else if specifiedName.value == "" {
        regionName := Some(defaultRegionName);
      } else {
        regionName := specifiedName;
        if IsReserved(specifiedName.value) && specifiedName.value != defaultRegionName {
          return Err(NameNotPermitted(specifiedName.value));
        }
      }
      if parent.PageMasterParent? {
        layoutMaster := Some(parent.master);
      } else {
        return Err(NotChildOfPageMaster(parent.elementName));
      }
      wm := writingMode;
      overflow := overflowEnum;
      return Ok(());
    }
  }
}
