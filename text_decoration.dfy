/**
 * Text-decoration accumulation (CommonTextDecoration.java), following
 * sections 5.5.6 and 7.16.4 of XSL 1.0: the parent's decoration is computed
 * first, then the node's text-decoration keywords are applied on top of it,
 * left to right, to a 4-bit mask and three colour slots.
 */
module TextDecoration {
  import opened Wrappers

  const UNDERLINE: bv32 := 1
  const OVERLINE: bv32 := 2
  const LINE_THROUGH: bv32 := 4
  const BLINK: bv32 := 8

  /** A colour value (ColorType); only where it is stored matters here. */
  datatype Color = Color(token: nat)

  /** The enum values a text-decoration list may hold; any other enum is illegal. */
  datatype Keyword =
    | NoDecoration | Underline | NoUnderline | Overline | NoOverline
    | LineThrough | NoLineThrough | Blink | NoBlink | Illegal(enumValue: int)

  /** What calcTextDecoration reads of a property list: its text-decoration list, its color, its parent. */
  datatype DecoratedNode = DecoratedNode(textDecoration: seq<Keyword>, color: Color, parent: Option<DecoratedNode>)

  datatype Error = PropertyException

  /** The state of one CommonTextDecoration object. */
  datatype Decoration = Decoration(mask: bv32, underColor: Option<Color>, overColor: Option<Color>, throughColor: Option<Color>)
  {
    predicate HasUnderline() { mask & UNDERLINE != 0 }
    predicate HasOverline() { mask & OVERLINE != 0 }
    predicate HasLineThrough() { mask & LINE_THROUGH != 0 }
    predicate IsBlinking() { mask & BLINK != 0 }
  }

  /** A newly created CommonTextDecoration. */
  const Initial := Decoration(0, None, None, None)

  /** The keywords that are neither `none` (which ends the list) nor illegal. */
  predicate Plain(k: Keyword)
  {
    !k.NoDecoration? && !k.Illegal?
  }

  /** The keywords that create a decoration when there is none yet. */
  predicate Creates(k: Keyword)
  {
    k.Underline? || k.Overline? || k.LineThrough? || k.Blink?
  }

  /** The decoration a creating keyword starts from: the current one, or a new one. */
  function Base(deco: Option<Decoration>): Decoration
  {
    if deco.Some? then deco.value else Initial
  }

  /** underline, overline, line-through, blink: set the flag (and store the colour, except for blink). */
  function Marked(d: Decoration, color: Color, k: Keyword): Decoration
    requires Creates(k)
  {
    match k
    case Underline => d.(mask := d.mask | UNDERLINE, underColor := Some(color))
    case Overline => d.(mask := d.mask | OVERLINE, overColor := Some(color))
    case LineThrough => d.(mask := d.mask | LINE_THROUGH, throughColor := Some(color))
    case Blink => d.(mask := d.mask | BLINK)
  }

  /** no-underline, no-overline, no-line-through, no-blink: keep the other flags (and store the colour, except for no-blink). */
  function Unmarked(d: Decoration, color: Color, k: Keyword): Decoration
    requires Plain(k) && !Creates(k)
  {
    match k
    case NoUnderline => d.(mask := d.mask & (OVERLINE | LINE_THROUGH | BLINK), underColor := Some(color))
    case NoOverline => d.(mask := d.mask & (UNDERLINE | LINE_THROUGH | BLINK), overColor := Some(color))
    case NoLineThrough => d.(mask := d.mask & (UNDERLINE | OVERLINE | BLINK), throughColor := Some(color))
    case NoBlink => d.(mask := d.mask & (UNDERLINE | OVERLINE | LINE_THROUGH))
  }

  /** The effect of one plain keyword; a `no-...` keyword does nothing while there is no decoration. */
  function Step(deco: Option<Decoration>, color: Color, k: Keyword): Option<Decoration>
    requires Plain(k)
  {
    if Creates(k) then Some(Marked(Base(deco), color, k))
    else if deco.None? then None
    else Some(Unmarked(deco.value, color, k))
  }

  /** The keyword loop of calcTextDecoration: `none` resets and returns at once, an illegal value throws. */
  function Apply(deco: Option<Decoration>, color: Color, ks: seq<Keyword>): Result<Option<Decoration>, Error>
    decreases |ks|
  {
    if ks == [] then Ok(deco)
    else match ks[0]
      case NoDecoration => Ok(if deco.Some? then Some(deco.value.(mask := 0)) else None)
      case Illegal(_) => Err(PropertyException)
      case _ => Apply(Step(deco, color, ks[0]), color, ks[1..])
  }

  /** calcTextDecoration: the parent chain first, then this node's keywords. */
  function Calc(node: DecoratedNode): Result<Option<Decoration>, Error>
    decreases node
  {
    var inherited := if node.parent.Some? then Calc(node.parent.value) else Ok(None);
    if inherited.Err? then inherited
    else Apply(inherited.value, node.color, node.textDecoration)
  }

  class CommonTextDecoration {
    var decoration: bv32
    var underColor: Option<Color>
    var overColor: Option<Color>
    var throughColor: Option<Color>

    constructor ()
      ensures Value() == Initial
    {
      decoration := 0;
      underColor, overColor, throughColor := None, None, None;
    }

    function Value(): Decoration
      reads this
    {
      Decoration(decoration, underColor, overColor, throughColor)
    }

    predicate HasUnderline() reads this { Value().HasUnderline() }
    predicate HasOverline() reads this { Value().HasOverline() }
    predicate HasLineThrough() reads this { Value().HasLineThrough() }
    predicate IsBlinking() reads this { Value().IsBlinking() }

    function GetUnderlineColor(): Option<Color> reads this { underColor }
    function GetOverlineColor(): Option<Color> reads this { overColor }
    function GetLineThroughColor(): Option<Color> reads this { throughColor }

    /** createFromPropertyList: null when only default values would result. */
    static method CreateFromPropertyList(node: DecoratedNode) returns (r: Result<CommonTextDecoration?, Error>)
      ensures r.Err? <==> Calc(node).Err?
      ensures r.Ok? ==> (r.value == null <==> Calc(node) == Ok(None))
      ensures r.Ok? && r.value != null ==> fresh(r.value) && Calc(node) == Ok(Some(r.value.Value()))
    {
      r := CalcTextDecoration(node);
    }

    /**
     * calcTextDecoration: recurse on the parent, then update the decoration
     * object in place for each keyword of this node.
     */
    static method CalcTextDecoration(node: DecoratedNode) returns (r: Result<CommonTextDecoration?, Error>)
      ensures r.Err? <==> Calc(node).Err?
      ensures r.Ok? ==> (r.value == null <==> Calc(node) == Ok(None))
      ensures r.Ok? && r.value != null ==> fresh(r.value) && Calc(node) == Ok(Some(r.value.Value()))
      decreases node
    {
      var deco: CommonTextDecoration? := null;
      if node.parent.Some? {
        r := CalcTextDecoration(node.parent.value);
        if r.Err? {
          return;
        }
        deco := r.value;
      }
      var list := node.textDecoration;
      var color := node.color;
      var i := 0;
      while i < |list|
        invariant 0 <= i <= |list|
        invariant deco != null ==> fresh(deco)
        invariant Calc(node) == Apply(ValueOf(deco), color, list[i..])
      {
        var k := list[i];
        assert list[i..][1..] == list[i + 1..];
        if k.NoDecoration? {
          if deco != null {
            deco.decoration := 0;
          }
          return Ok(deco);
        } else if k.Illegal? {
          return Err(PropertyException);
        }
        deco := ApplyKeyword(deco, color, k);
        i := i + 1;
      }
      return Ok(deco);
    }

    /** One branch of the keyword loop of calcTextDecoration, on the object in place. */
    static method ApplyKeyword(deco: CommonTextDecoration?, color: Color, k: Keyword) returns (d: CommonTextDecoration?)
      requires Plain(k)
      modifies deco
      ensures ValueOf(d) == Step(old(ValueOf(deco)), color, k)
      ensures d != null ==> d == deco || (deco == null && fresh(d))
    {
      d := deco;
      if Creates(k) {
        if d == null {
          d := new CommonTextDecoration();
        }
        d.Mark(color, k);
      } else if d != null {
        d.Unmark(color, k);
      }
    }

    /** The setting branches of the keyword loop. */
    method Mark(color: Color, k: Keyword)
      requires Creates(k)
      modifies this
      ensures Value() == Marked(old(Value()), color, k)
    {
      match k {
        case Underline =>
          decoration := decoration | UNDERLINE;
          underColor := Some(color);
        case Overline =>
          decoration := decoration | OVERLINE;
          overColor := Some(color);
        case LineThrough =>
          decoration := decoration | LINE_THROUGH;
          throughColor := Some(color);
        case Blink =>
          decoration := decoration | BLINK;
      }
    }

    /** The clearing branches of the keyword loop. */
    method Unmark(color: Color, k: Keyword)
      requires Plain(k) && !Creates(k)
      modifies this
      ensures Value() == Unmarked(old(Value()), color, k)
    {
      match k {
        case NoUnderline =>
          decoration := decoration & (OVERLINE | LINE_THROUGH | BLINK);
          underColor := Some(color);
        case NoOverline =>
          decoration := decoration & (UNDERLINE | LINE_THROUGH | BLINK);
          overColor := Some(color);
        case NoLineThrough =>
          decoration := decoration & (UNDERLINE | OVERLINE | BLINK);
          throughColor := Some(color);
        case NoBlink =>
          decoration := decoration & (UNDERLINE | OVERLINE | LINE_THROUGH);
      }
    }
  }

  /** The decoration an object reference stands for (null: none). */
  ghost function ValueOf(deco: CommonTextDecoration?): Option<Decoration>
    reads deco
  {
    if deco == null then None else Some(deco.Value())
  }

  /** Only the four defined flag bits are ever set. */
  predicate WellFormed(o: Option<Decoration>)
  {
    o.None? || o.value.mask <= 15
  }

  lemma StepKeepsFlags(o: Option<Decoration>, c: Color, k: Keyword)
    requires Plain(k) && WellFormed(o)
    ensures WellFormed(Step(o, c, k))
  {
  }

  lemma {:induction false} ApplyKeepsFlags(o: Option<Decoration>, c: Color, ks: seq<Keyword>)
    requires WellFormed(o)
    ensures Apply(o, c, ks).Ok? ==> WellFormed(Apply(o, c, ks).value)
    decreases |ks|
  {
    if ks != [] && Plain(ks[0]) {
      StepKeepsFlags(o, c, ks[0]);
      ApplyKeepsFlags(Step(o, c, ks[0]), c, ks[1..]);
    }
  }

  lemma {:induction false} CalcKeepsFlags(node: DecoratedNode)
    ensures Calc(node).Ok? ==> WellFormed(Calc(node).value)
    decreases node
  {
    var inherited := if node.parent.Some? then Calc(node.parent.value) else Ok(None);
    if node.parent.Some? {
      CalcKeepsFlags(node.parent.value);
    }
    if inherited.Ok? {
      ApplyKeepsFlags(inherited.value, node.color, node.textDecoration);
    }
  }

  /** With only the defined bits set, the four flag tests determine the mask. */
  lemma FlagTestsDetermineMask(d1: Decoration, d2: Decoration)
    requires d1.mask <= 15 && d2.mask <= 15
    requires d1.HasUnderline() == d2.HasUnderline() && d1.HasOverline() == d2.HasOverline()
    requires d1.HasLineThrough() == d2.HasLineThrough() && d1.IsBlinking() == d2.IsBlinking()
    ensures d1.mask == d2.mask
  {
  }

  /** No `none` among the first i keywords. */
  predicate NoneFreePrefix(ks: seq<Keyword>, i: int)
    requires 0 <= i <= |ks|
  {
    forall j :: 0 <= j < i ==> !ks[j].NoDecoration?
  }

  /** An illegal keyword is reached before the list is cut short by `none`. */
  predicate IllegalReached(ks: seq<Keyword>)
  {
    exists i :: 0 <= i < |ks| && ks[i].Illegal? && NoneFreePrefix(ks, i)
  }

  /** The keyword loop throws exactly when it reaches an illegal value. */
  lemma {:induction false} ApplyFailsIff(o: Option<Decoration>, c: Color, ks: seq<Keyword>)
    ensures Apply(o, c, ks).Err? <==> IllegalReached(ks)
    decreases |ks|
  {
    if ks == [] {
    } else if ks[0].NoDecoration? {
      assert !IllegalReached(ks) by {
        forall i | 0 <= i < |ks| && ks[i].Illegal?
          ensures !NoneFreePrefix(ks, i)
        {
          assert 0 < i;
        }
      }
    } else if ks[0].Illegal? {
      assert ks[0].Illegal? && NoneFreePrefix(ks, 0);
    } else {
      var rest := ks[1..];
      ApplyFailsIff(Step(o, c, ks[0]), c, rest);
      if IllegalReached(rest) {
        var i :| 0 <= i < |rest| && rest[i].Illegal? && NoneFreePrefix(rest, i);
        assert ks[i + 1] == rest[i];
        assert NoneFreePrefix(ks, i + 1) by {
          forall j | 0 <= j < i + 1
            ensures !ks[j].NoDecoration?
          {
            if j > 0 {
              assert ks[j] == rest[j - 1];
            }
          }
        }
      }
      if IllegalReached(ks) {
        var i :| 0 <= i < |ks| && ks[i].Illegal? && NoneFreePrefix(ks, i);
        assert i > 0;
        assert rest[i - 1] == ks[i];
        assert NoneFreePrefix(rest, i - 1) by {
          forall j | 0 <= j < i - 1
            ensures !rest[j].NoDecoration?
          {
            assert rest[j] == ks[j + 1];
          }
        }
      }
    }
  }

  /** Some property list on the parent chain, or the node itself, reaches an illegal value. */
  predicate FailsOnChain(node: DecoratedNode)
    decreases node
  {
    IllegalReached(node.textDecoration) || (node.parent.Some? && FailsOnChain(node.parent.value))
  }

  /** createFromPropertyList throws exactly when some list on the chain reaches an illegal value. */
  lemma {:induction false} CalcFailsIff(node: DecoratedNode)
    ensures Calc(node).Err? <==> FailsOnChain(node)
    decreases node
  {
    var inherited := if node.parent.Some? then Calc(node.parent.value) else Ok(None);
    if node.parent.Some? {
      CalcFailsIff(node.parent.value);
    }
    if inherited.Ok? {
      ApplyFailsIff(inherited.value, node.color, node.textDecoration);
    }
  }

  /** Without a creating keyword, a list never brings a decoration into existence. */
  lemma {:induction false} NothingCreated(c: Color, ks: seq<Keyword>)
    requires forall i :: 0 <= i < |ks| ==> !Creates(ks[i])
    ensures Apply(None, c, ks).Ok? ==> Apply(None, c, ks).value.None?
    decreases |ks|
  {
    if ks != [] && Plain(ks[0]) {
      NothingCreated(c, ks[1..]);
    }
  }

  /** A creating keyword is processed: one comes before the list is cut short by `none`. */
  predicate CreatingKeywordReached(ks: seq<Keyword>)
  {
    exists i :: 0 <= i < |ks| && Creates(ks[i]) && NoneFreePrefix(ks, i)
  }

  /** A list that does not start with `none` reaches a creating keyword at its head or in its tail. */
  lemma CreatingKeywordReachedCons(ks: seq<Keyword>)
    requires ks != [] && !ks[0].NoDecoration?
    ensures CreatingKeywordReached(ks) <==> Creates(ks[0]) || CreatingKeywordReached(ks[1..])
  {
    var rest := ks[1..];
    if Creates(ks[0]) {
      assert NoneFreePrefix(ks, 0);
    }
    if CreatingKeywordReached(rest) {
      var i :| 0 <= i < |rest| && Creates(rest[i]) && NoneFreePrefix(rest, i);
      assert ks[i + 1] == rest[i];
      assert NoneFreePrefix(ks, i + 1) by {
        forall j | 0 <= j < i + 1
          ensures !ks[j].NoDecoration?
        {
          if j > 0 {
            assert ks[j] == rest[j - 1];
          }
        }
      }
    }
    if CreatingKeywordReached(ks) && !Creates(ks[0]) {
      var i :| 0 <= i < |ks| && Creates(ks[i]) && NoneFreePrefix(ks, i);
      assert i > 0;
      assert rest[i - 1] == ks[i];
      assert NoneFreePrefix(rest, i - 1) by {
        forall j | 0 <= j < i - 1
          ensures !rest[j].NoDecoration?
        {
          assert rest[j] == ks[j + 1];
        }
      }
    }
  }

  /**
   * The keyword loop ends with no decoration exactly when it started with
   * none and processed no creating keyword.
   */
  lemma {:induction false} ApplyNullIff(o: Option<Decoration>, c: Color, ks: seq<Keyword>)
    ensures Apply(o, c, ks).Ok? ==>
              (Apply(o, c, ks).value.None? <==> o.None? && !CreatingKeywordReached(ks))
    decreases |ks|
  {
    if ks == [] {
    } else if ks[0].NoDecoration? {
      assert !CreatingKeywordReached(ks) by {
        forall i | 0 <= i < |ks| && Creates(ks[i])
          ensures !NoneFreePrefix(ks, i)
        {
          assert 0 < i;
        }
      }
    } else if Plain(ks[0]) {
      CreatingKeywordReachedCons(ks);
      ApplyNullIff(Step(o, c, ks[0]), c, ks[1..]);
    }
  }

  /** Some property list on the chain, or the node itself, processes a creating keyword. */
  predicate CreatedOnChain(node: DecoratedNode)
    decreases node
  {
    CreatingKeywordReached(node.textDecoration) || (node.parent.Some? && CreatedOnChain(node.parent.value))
  }

  /**
   * createFromPropertyList gives null exactly when no list on the chain
   * processes underline, overline, line-through or blink before its `none`.
   */
  lemma {:induction false} CalcNullIff(node: DecoratedNode)
    ensures Calc(node).Ok? ==> (Calc(node).value.None? <==> !CreatedOnChain(node))
    decreases node
  {
    var inherited := if node.parent.Some? then Calc(node.parent.value) else Ok(None);
    if node.parent.Some? {
      CalcNullIff(node.parent.value);
    }
    if inherited.Ok? {
      ApplyNullIff(inherited.value, node.color, node.textDecoration);
    }
  }

  /** Once a decoration exists, no keyword makes it null again. */
  lemma {:induction false} DecorationPersists(d: Decoration, c: Color, ks: seq<Keyword>)
    ensures Apply(Some(d), c, ks).Ok? ==> Apply(Some(d), c, ks).value.Some?
    decreases |ks|
  {
    if ks != [] && Plain(ks[0]) {
      DecorationPersists(Step(Some(d), c, ks[0]).value, c, ks[1..]);
    }
  }

  /** `none` first in a node's list clears every inherited flag. */
  lemma NoneClearsInherited(node: DecoratedNode)
    requires |node.textDecoration| > 0 && node.textDecoration[0] == NoDecoration
    requires node.parent.Some? ==> Calc(node.parent.value).Ok?
    ensures Calc(node).Ok?
    ensures Calc(node).value.Some? ==>
      var d := Calc(node).value.value;
      !d.HasUnderline() && !d.HasOverline() && !d.HasLineThrough() && !d.IsBlinking()
  {
  }

  predicate IsFlag(bit: bv32)
  {
    bit == UNDERLINE || bit == OVERLINE || bit == LINE_THROUGH || bit == BLINK
  }

  /** Whether keyword k sets (true) or clears (false) the flag bit, if it touches it at all. */
  function Setting(k: Keyword, bit: bv32): Option<bool>
  {
    match k
    case Underline => if bit == UNDERLINE then Some(true) else None
    case NoUnderline => if bit == UNDERLINE then Some(false) else None
    case Overline => if bit == OVERLINE then Some(true) else None
    case NoOverline => if bit == OVERLINE then Some(false) else None
    case LineThrough => if bit == LINE_THROUGH then Some(true) else None
    case NoLineThrough => if bit == LINE_THROUGH then Some(false) else None
    case Blink => if bit == BLINK then Some(true) else None
    case NoBlink => if bit == BLINK then Some(false) else None
    case _ => None
  }

  /** The setting of the last keyword in ks that touches the bit, or initial if none does. */
  function LastSetting(ks: seq<Keyword>, bit: bv32, initial: bool): bool
    decreases |ks|
  {
    if ks == [] then initial
    else match Setting(ks[|ks| - 1], bit)
      case Some(b) => b
      case None => LastSetting(ks[..|ks| - 1], bit, initial)
  }

  predicate Flag(o: Option<Decoration>, bit: bv32)
  {
    o.Some? && o.value.mask & bit != 0
  }

  /** A keyword touches only its own flag. */
  lemma StepSetting(o: Option<Decoration>, c: Color, k: Keyword, bit: bv32)
    requires Plain(k) && IsFlag(bit)
    ensures Flag(Step(o, c, k), bit) == (if Setting(k, bit).Some? then Setting(k, bit).value else Flag(o, bit))
  {
  }

  lemma {:induction false} ApplySnoc(o: Option<Decoration>, c: Color, ks: seq<Keyword>, k: Keyword)
    requires forall i :: 0 <= i < |ks| ==> Plain(ks[i])
    requires Plain(k)
    ensures Apply(o, c, ks).Ok?
    ensures Apply(o, c, ks + [k]) == Ok(Step(Apply(o, c, ks).value, c, k))
    decreases |ks|
  {
    if ks == [] {
      assert [k][1..] == [];
    } else {
      assert (ks + [k])[1..] == ks[1..] + [k];
      ApplySnoc(Step(o, c, ks[0]), c, ks[1..], k);
    }
  }

  /** In a list without `none` or illegal values, the last keyword that touches a flag decides it. */
  lemma {:induction false} LastSettingWins(o: Option<Decoration>, c: Color, ks: seq<Keyword>, bit: bv32)
    requires forall i :: 0 <= i < |ks| ==> Plain(ks[i])
    requires IsFlag(bit)
    ensures Apply(o, c, ks).Ok?
    ensures Flag(Apply(o, c, ks).value, bit) == LastSetting(ks, bit, Flag(o, bit))
    decreases |ks|
  {
    if ks != [] {
      var n := |ks|;
      var front := ks[..n - 1];
      assert ks == front + [ks[n - 1]];
      ApplySnoc(o, c, front, ks[n - 1]);
      LastSettingWins(o, c, front, bit);
      StepSetting(Apply(o, c, front).value, c, ks[n - 1], bit);
    }
  }
}
