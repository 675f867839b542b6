/**
 * The property-resolution cascade of PropertyMaker.findProperty, as a pure
 * function of a snapshot of the maker and of a property list.
 *
 * For a property on a node the cascade tries, in order:
 *   1. a forced corresponding value (section 5.3 of XSL 1.0): when the
 *      corresponding maker says the other side is authoritative, its computed
 *      value is the answer, whatever else is set;
 *   2. the explicit value on the node;
 *   3. the computed value (which delegates to the corresponding maker);
 *   4. the first non-empty shorthand expansion, in registration order;
 *   5. the value inherited from the parent list, only when inheritance is
 *      requested, a parent exists and the property is inheritable.
 * Defaults (step 6) are built by PropertyMaker.get, in property_maker.dfy.
 */
module Cascade {
  import opened Wrappers
  import opened Properties

  /** Property identifiers (the int constants of FOPropertyMapping). */
  type PropId = int

  /**
   * A node's property list: the explicitly specified values and the parent
   * node's list (none at the root).  As a datatype the parent chain is finite,
   * so every upward walk terminates.
   */
  datatype PropertyList = PropertyList(explicit: map<PropId, Property>, parent: Option<PropertyList>)

  /** FOPException, and the NullPointerException of a shorthand without a parser. */
  datatype Error = FOPException | NullPointer

  /** A step of the cascade: a value, null (no value), or an exception. */
  type Lookup = Result<Option<Property>, Error>

  /** The corresponding maker (not part of this model): a forced predicate and a compute function. */
  datatype CorrespondingMaker = CorrespondingMaker(
    isCorrespondingForced: PropertyList -> bool,
    compute: PropertyList -> Lookup)

  /** The shorthand parser (not part of this model): a partial function, None for null. */
  datatype ShorthandParser = ShorthandParser(
    getValueForProperty: (PropId, Property, PropertyList) -> Option<Property>)

  /** One slot of a maker's shorthand array: empty (null) or a registered shorthand maker. */
  datatype Slot = Empty | Registered(propId: PropId, parser: Option<ShorthandParser>)

  /** What findProperty reads of a maker. */
  datatype MakerView = MakerView(
    propId: PropId, inherited: bool,
    corresponding: Option<CorrespondingMaker>, shorthands: seq<Slot>)

  function ExplicitValue(pl: PropertyList, id: PropId): Option<Property>
  {
    if id in pl.explicit then Some(pl.explicit[id]) else None
  }

  /** PropertyMaker.compute: the corresponding maker's value, or null without one. */
  function ComputeValue(corresponding: Option<CorrespondingMaker>, pl: PropertyList): Lookup
  {
    match corresponding
    case None => Ok(None)
    case Some(c) => c.compute(pl)
  }

  /**
   * PropertyMaker.getShorthand: visit the slots in order, stop at the first
   * empty one, skip shorthands with no explicit value on this list, and
   * answer the first non-null parser result.
   */
  function ShorthandValue(slots: seq<Slot>, id: PropId, pl: PropertyList): Lookup
    decreases |slots|
  {
    if slots == [] || slots[0].Empty? then Ok(None)
    else if slots[0].propId !in pl.explicit then ShorthandValue(slots[1..], id, pl)
    else match slots[0].parser
      case None => Err(NullPointer)
      case Some(parser) =>
        var p := parser.getValueForProperty(id, pl.explicit[slots[0].propId], pl);
        if p.Some? then Ok(p) else ShorthandValue(slots[1..], id, pl)
  }

  predicate IsForced(m: MakerView, pl: PropertyList)
  {
    m.corresponding.Some? && m.corresponding.value.isCorrespondingForced(pl)
  }

  /** Steps 2 to 4 on one list: explicit, then computed, then shorthand. */
  function OwnValue(m: MakerView, pl: PropertyList): Lookup
  {
    var explicit := ExplicitValue(pl, m.propId);
    if explicit.Some? then Ok(explicit)
    else
      var computed := ComputeValue(m.corresponding, pl);
      if computed != Ok(None) then computed
      else ShorthandValue(m.shorthands, m.propId, pl)
  }

  /** PropertyMaker.findProperty. */
  function Find(m: MakerView, pl: PropertyList, tryInherit: bool): Lookup
    decreases pl
  {
    if IsForced(m, pl) then m.corresponding.value.compute(pl)
    else
      var own := OwnValue(m, pl);
      if own != Ok(None) then own
      else if tryInherit && pl.parent.Some? && m.inherited then Find(m, pl.parent.value, true)
      else Ok(None)
  }

  // ---------------------------------------------------------------------
  // An independent view of inheritance: the chain of ancestor lists.

  /** The list itself, then its parent, grandparent, ... up to the root. */
  function Chain(pl: PropertyList): (c: seq<PropertyList>)
    ensures |c| >= 1 && c[0] == pl
    decreases pl
  {
    match pl.parent
    case None => [pl]
    case Some(p) => [pl] + Chain(p)
  }

  /** A list on which the cascade stops without looking further up. */
  predicate Resolves(m: MakerView, pl: PropertyList)
  {
    IsForced(m, pl) || OwnValue(m, pl) != Ok(None)
  }

  /** What a list on which the cascade stops contributes. */
  function LocalValue(m: MakerView, pl: PropertyList): Lookup
  {
    if IsForced(m, pl) then m.corresponding.value.compute(pl) else OwnValue(m, pl)
  }

  /** A forced corresponding value wins over explicit, shorthand and inherited values. */
  lemma ForcedCorrespondingWins(m: MakerView, pl: PropertyList, tryInherit: bool)
    requires m.corresponding.Some? && m.corresponding.value.isCorrespondingForced(pl)
    ensures Find(m, pl, tryInherit) == m.corresponding.value.compute(pl)
  {
  }

  /** Unless forced, an explicit value always wins. */
  lemma ExplicitWins(m: MakerView, pl: PropertyList, tryInherit: bool)
    requires !IsForced(m, pl) && m.propId in pl.explicit
    ensures Find(m, pl, tryInherit) == Ok(Some(pl.explicit[m.propId]))
  {
  }

  /**
   * With no explicit value, compute comes next, and it delegates to the
   * corresponding maker even when that maker does not force its value.
   */
  lemma ComputeBeforeShorthand(m: MakerView, pl: PropertyList, tryInherit: bool)
    requires !IsForced(m, pl) && m.propId !in pl.explicit
    requires m.corresponding.Some? && m.corresponding.value.compute(pl) != Ok(None)
    ensures Find(m, pl, tryInherit) == m.corresponding.value.compute(pl)
  {
  }

  /** With nothing explicit or computed, the shorthands are consulted before the parent. */
  lemma ShorthandBeforeParent(m: MakerView, pl: PropertyList, tryInherit: bool)
    requires !IsForced(m, pl) && m.propId !in pl.explicit
    requires ComputeValue(m.corresponding, pl) == Ok(None)
    requires ShorthandValue(m.shorthands, m.propId, pl) != Ok(None)
    ensures Find(m, pl, tryInherit) == ShorthandValue(m.shorthands, m.propId, pl)
  {
  }

  /**
   * The parent is consulted only when inheritance is requested, a parent
   * exists and the property is inheritable; the recursive call always
   * requests inheritance.
   */
  lemma InheritOnlyWhenAllowed(m: MakerView, pl: PropertyList, tryInherit: bool)
    requires !Resolves(m, pl)
    ensures Find(m, pl, tryInherit) ==
      if tryInherit && pl.parent.Some? && m.inherited then Find(m, pl.parent.value, true) else Ok(None)
  {
  }

  /** At the root the inheritance flag makes no difference: nothing lies beyond it. */
  lemma RootNeverInherits(m: MakerView, pl: PropertyList)
    requires pl.parent.None?
    ensures Find(m, pl, true) == Find(m, pl, false)
  {
  }

  /** A non-inheritable property never looks at the parent. */
  lemma NonInheritedIgnoresParent(m: MakerView, pl: PropertyList)
    requires !m.inherited
    ensures Find(m, pl, true) == Find(m, pl, false)
  {
  }

  /**
   * Inheritance takes the value of the nearest list in the ancestor chain on
   * which the cascade stops.
   */
  lemma {:induction false} InheritsFromNearest(m: MakerView, pl: PropertyList, k: nat)
    requires m.inherited
    requires k < |Chain(pl)| && Resolves(m, Chain(pl)[k])
    requires forall j :: 0 <= j < k ==> !Resolves(m, Chain(pl)[j])
    ensures Find(m, pl, true) == LocalValue(m, Chain(pl)[k])
    decreases k
  {
    if k > 0 {
      var p := pl.parent.value;
      assert Chain(pl) == [pl] + Chain(p);
      assert !Resolves(m, Chain(pl)[0]);
      forall j | 0 <= j < k - 1
        ensures !Resolves(m, Chain(p)[j])
      {
        assert Chain(p)[j] == Chain(pl)[j + 1];
      }
      InheritsFromNearest(m, p, k - 1);
    }
  }

  /** When no list of the chain resolves, the cascade yields null (and never an error). */
  lemma {:induction false} NothingInChain(m: MakerView, pl: PropertyList, tryInherit: bool)
    requires forall j :: 0 <= j < |Chain(pl)| ==> !Resolves(m, Chain(pl)[j])
    ensures Find(m, pl, tryInherit) == Ok(None)
    decreases pl
  {
    assert !Resolves(m, Chain(pl)[0]);
    if pl.parent.Some? {
      var p := pl.parent.value;
      assert Chain(pl) == [pl] + Chain(p);
      forall j | 0 <= j < |Chain(p)|
        ensures !Resolves(m, Chain(p)[j])
      {
        assert Chain(p)[j] == Chain(pl)[j + 1];
      }
      NothingInChain(m, p, true);
    }
  }

  /** Every answer with inheritance comes from some list of the ancestor chain. */
  lemma {:induction false} AnswerComesFromChain(m: MakerView, pl: PropertyList, tryInherit: bool)
    requires Find(m, pl, tryInherit) != Ok(None)
    ensures exists k :: 0 <= k < |Chain(pl)| && Resolves(m, Chain(pl)[k])
                        && Find(m, pl, tryInherit) == LocalValue(m, Chain(pl)[k])
    decreases pl
  {
    if Resolves(m, pl) {
      assert Chain(pl)[0] == pl;
    } else {
      var p := pl.parent.value;
      AnswerComesFromChain(m, p, true);
      var k :| 0 <= k < |Chain(p)| && Resolves(m, Chain(p)[k])
               && Find(m, p, true) == LocalValue(m, Chain(p)[k]);
      assert Chain(pl) == [pl] + Chain(p);
      assert Chain(pl)[k + 1] == Chain(p)[k];
    }
  }

  /**
   * An explicit value beats a shorthand that gives a value on the same list
   * and a parent that gives one to inherit.
   */
  lemma ExplicitBeatsShorthandAndParent(m: MakerView, pl: PropertyList, v: Property)
    requires !IsForced(m, pl) && m.inherited
    requires m.propId in pl.explicit && pl.explicit[m.propId] == v
    requires ShorthandValue(m.shorthands, m.propId, pl).Ok? && ShorthandValue(m.shorthands, m.propId, pl).value.Some?
    requires pl.parent.Some? && Find(m, pl.parent.value, true) != Ok(None)
    ensures Find(m, pl, true) == Ok(Some(v))
  {
    ExplicitWins(m, pl, true);
  }

  // ---------------------------------------------------------------------
  // The shorthand search.

  /** A slot the search passes over: a registered shorthand that gives no value here. */
  predicate Misses(s: Slot, id: PropId, pl: PropertyList)
  {
    s.Registered? &&
    (s.propId !in pl.explicit ||
     (s.parser.Some? && s.parser.value.getValueForProperty(id, pl.explicit[s.propId], pl).None?))
  }

  /** A slot whose shorthand is set on this list and whose parser gives `v`. */
  predicate Hits(s: Slot, id: PropId, pl: PropertyList, v: Property)
  {
    s.Registered? && s.propId in pl.explicit && s.parser.Some? &&
    s.parser.value.getValueForProperty(id, pl.explicit[s.propId], pl) == Some(v)
  }

  /** The first slot that gives a value, after slots that all miss, is the answer. */
  lemma {:induction false} ShorthandFirstHit(slots: seq<Slot>, id: PropId, pl: PropertyList, k: nat, v: Property)
    requires k < |slots| && Hits(slots[k], id, pl, v)
    requires forall j :: 0 <= j < k ==> Misses(slots[j], id, pl)
    ensures ShorthandValue(slots, id, pl) == Ok(Some(v))
    decreases k
  {
    if k > 0 {
      assert Misses(slots[0], id, pl);
      ShorthandFirstHit(slots[1..], id, pl, k - 1, v);
    }
  }

  /** Conversely, a shorthand answer always comes from such a first hit. */
  lemma {:induction false} ShorthandAnswerIsFirstHit(slots: seq<Slot>, id: PropId, pl: PropertyList, v: Property)
    requires ShorthandValue(slots, id, pl) == Ok(Some(v))
    ensures exists k :: 0 <= k < |slots| && Hits(slots[k], id, pl, v)
                        && forall j :: 0 <= j < k ==> Misses(slots[j], id, pl)
    decreases |slots|
  {
    if Hits(slots[0], id, pl, v) {
    } else {
      ShorthandAnswerIsFirstHit(slots[1..], id, pl, v);
      var k :| 0 <= k < |slots[1..]| && Hits(slots[1..][k], id, pl, v)
               && forall j :: 0 <= j < k ==> Misses(slots[1..][j], id, pl);
      assert Hits(slots[k + 1], id, pl, v);
      forall j | 0 <= j < k + 1
        ensures Misses(slots[j], id, pl)
      {
        if j > 0 { assert slots[j] == slots[1..][j - 1]; }
      }
    }
  }

  /** The search never looks past the first empty slot. */
  lemma {:induction false} ShorthandStopsAtEmpty(pre: seq<Slot>, a: seq<Slot>, b: seq<Slot>, id: PropId, pl: PropertyList)
    ensures ShorthandValue(pre + [Empty] + a, id, pl) == ShorthandValue(pre + [Empty] + b, id, pl)
    decreases |pre|
  {
    if pre != [] {
      assert (pre + [Empty] + a)[1..] == pre[1..] + [Empty] + a;
      assert (pre + [Empty] + b)[1..] == pre[1..] + [Empty] + b;
      ShorthandStopsAtEmpty(pre[1..], a, b, id, pl);
    }
  }

  /** A registered shorthand set on this list but without a parser ends the search with a NullPointerException. */
  lemma {:induction false} ShorthandMissingParser(slots: seq<Slot>, id: PropId, pl: PropertyList, k: nat)
    requires k < |slots| && slots[k].Registered? && slots[k].propId in pl.explicit && slots[k].parser.None?
    requires forall j :: 0 <= j < k ==> Misses(slots[j], id, pl)
    ensures ShorthandValue(slots, id, pl) == Err(NullPointer)
    decreases k
  {
    if k > 0 {
      assert Misses(slots[0], id, pl);
      ShorthandMissingParser(slots[1..], id, pl, k - 1);
    }
  }
}
