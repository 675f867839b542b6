/**
 * The page selection of the print renderer (PrintRenderer.java): its
 * start/end/mode/copies settings, how they are read from system properties
 * and renderer options, which pages are invalid, and the back-to-front
 * removal of those pages before the document is printed.
 */
module Printing {
  import opened Wrappers

  const INT_MIN: int := -0x8000_0000
  const INT_MAX: int := 0x7FFF_FFFF

  /** A Java int. */
  type Int32 = x: int | INT_MIN <= x <= INT_MAX

  /** Which pages are printed. */
  datatype PagesMode = All | Even | Odd

  /** IllegalArgumentException, and NumberFormatException from Integer.parseInt. */
  datatype Error = IllegalArgument | NumberFormat

  /*
   * Integer.parseInt on ASCII text: an optional sign, then one or more
   * decimal digits, the value within the int range.
   */

  predicate IsDigit(c: char)
  {
    '0' <= c <= '9'
  }

  predicate AllDigits(s: string)
  {
    forall i :: 0 <= i < |s| ==> IsDigit(s[i])
  }

  /** The value of a string of decimal digits, most significant first. */
  function DigitsValue(s: string): nat
    requires AllDigits(s)
    decreases |s|
  {
    if s == [] then 0
    else DigitsValue(s[..|s| - 1]) * 10 + (s[|s| - 1] as int - '0' as int)
  }

  /**
   * Integer.parseInt of the Java 1.4 library: an optional leading minus, then
   * at least one digit; a leading plus is refused (it is accepted only from
   * Java 7 on).
   */
  function ParseInt(s: string): (r: Result<Int32, Error>)
    ensures r.Ok? ==> |s| > 0 && (s[0] == '-' || IsDigit(s[0]))
    ensures r.Ok? && s[0] == '-' ==> r.value <= 0
    ensures r.Ok? && s[0] != '-' ==> r.value >= 0
  {
    if |s| == 0 then Err(NumberFormat)
    else
      var digits := if s[0] == '-' then s[1..] else s;
      if |digits| == 0 || !AllDigits(digits) then Err(NumberFormat)
      else
        var v: int := if s[0] == '-' then -(DigitsValue(digits) as int) else DigitsValue(digits);
        if INT_MIN <= v <= INT_MAX then Ok(v) else Err(NumberFormat)
  }

  /** The decimal digits of n, with no leading zero. */
  function Decimal(n: nat): (s: string)
    ensures |s| > 0 && AllDigits(s)
    decreases n
  {
    if n < 10 then [('0' as int + n) as char]
    else Decimal(n / 10) + [('0' as int + n % 10) as char]
  }

  /** Integer.toString. */
  function FormatInt(n: int): string
  {
    if n < 0 then "-" + Decimal(-n) else Decimal(n)
  }

  lemma {:induction false} DecimalValue(n: nat)
    ensures DigitsValue(Decimal(n)) == n
    decreases n
  {
    if n >= 10 {
      var s := Decimal(n);
      assert s[..|s| - 1] == Decimal(n / 10);
      DecimalValue(n / 10);
    }
  }

  /** Every int read back from its decimal text is itself. */
  lemma ParseFormatRoundTrip(n: Int32)
    ensures ParseInt(FormatInt(n)) == Ok(n)
  {
    var m: int := n;
    var text := FormatInt(n);
    if m < 0 {
      var d := Decimal(-m);
      assert text == "-" + d;
      assert text[0] == '-' && text[1..] == d;
      DecimalValue(-m);
      assert -(DigitsValue(d) as int) == m;
    } else {
      var d := Decimal(m);
      assert text == d;
      assert IsDigit(text[0]);
      DecimalValue(m);
    }
  }

  lemma ParseIntRejects()
    ensures ParseInt("") == Err(NumberFormat)
    ensures ParseInt("-") == Err(NumberFormat)
    ensures ParseInt("+") == Err(NumberFormat)
  {
    assert !AllDigits("-"[1..]) || |"-"[1..]| == 0;
  }

  /** A leading plus is a number-format error, whatever follows it. */
  lemma PlusSignRejected(digits: string)
    ensures ParseInt("+" + digits) == Err(NumberFormat)
  {
    var s := "+" + digits;
    assert s[0] == '+' && !IsDigit(s[0]);
  }

  /** A renderer option value, by its Java type. */
  datatype OptionValue =
    | IntegerValue(i: Int32)
    | StringValue(s: string)
    | ModeValue(mode: PagesMode)
    | PrinterJobValue(job: PrinterJob)
    | OtherValue

  /** A java.awt.print.PrinterJob; only its identity matters here. */
  datatype PrinterJob = PrinterJob(jobId: nat)

  /** getPositiveInteger: an Integer must be at least 1; a String is parsed without that check. */
  function GetPositiveInteger(o: OptionValue): (r: Result<Int32, Error>)
    ensures o.IntegerValue? ==> (r.Ok? <==> o.i >= 1)
    ensures o.IntegerValue? && r.Ok? ==> r.value == o.i
    ensures o.IntegerValue? && r.Err? ==> r.error == IllegalArgument
    ensures o.StringValue? ==> r == ParseInt(o.s)
    ensures !o.IntegerValue? && !o.StringValue? ==> r == Err(IllegalArgument)
  {
    match o
    case IntegerValue(i) => if i < 1 then Err(IllegalArgument) else Ok(i)
    case StringValue(s) => ParseInt(s)
    case _ => Err(IllegalArgument)
  }

  /** The String path accepts zero and negative numbers. */
  lemma StringNotCheckedForPositive()
    ensures GetPositiveInteger(StringValue("-5")) == Ok(-5)
    ensures GetPositiveInteger(StringValue("0")) == Ok(0)
    ensures GetPositiveInteger(IntegerValue(0)) == Err(IllegalArgument)
  {
    assert "-5"[1..] == "5";
    assert DigitsValue("5") == 5;
    assert DigitsValue("0") == 0;
  }

  /** getIntProperty: the parsed property, or the default when it is unset or does not parse. */
  function IntProperty(value: Option<string>, def: Int32): (r: Int32)
    ensures value.None? ==> r == def
    ensures value.Some? && ParseInt(value.value).Ok? ==> r == ParseInt(value.value).value
    ensures value.Some? && ParseInt(value.value).Err? ==> r == def
  {
    if value.None? then def
    else match ParseInt(value.value)
      case Ok(v) => v
      case Err(_) => def
  }

  function LowerAscii(c: char): char
  {
    if 'A' <= c <= 'Z' then (c as int + 32) as char else c
  }

  /** Boolean.valueOf: "true" in any letter case. */
  predicate BooleanValueOf(s: string)
  {
    |s| == 4 && LowerAscii(s[0]) == 't' && LowerAscii(s[1]) == 'r' && LowerAscii(s[2]) == 'u' && LowerAscii(s[3]) == 'e'
  }

  /** The system properties the renderer reads when it is created. */
  datatype SystemProperties = SystemProperties(copies: Option<string>, start: Option<string>, end: Option<string>, even: Option<string>)

  /** The renderer's settings, as one value. */
  datatype Settings = Settings(startNumber: Int32, endNumber: Int32, mode: PagesMode, copies: Int32, printerJob: Option<PrinterJob>)

  /** The settings after setUserAgent, and whether it threw; the settings hold the updates made before the throw. */
  datatype Outcome = Outcome(settings: Settings, result: Result<(), Error>)

  const PRINTER_JOB := "printerjob"
  const PAGES_MODE := "even-odd"
  const START_PAGE := "start-page"
  const END_PAGE := "end-page"
  const COPIES := "copies"

  /** The mode option: a PagesMode, or a name looked up by PagesMode.byName (None when it throws). */
  function ModeOption(options: map<string, OptionValue>, byName: string -> Option<PagesMode>): Result<Option<PagesMode>, Error>
  {
    if PAGES_MODE !in options then Ok(None)
    else match options[PAGES_MODE]
      case ModeValue(m) => Ok(Some(m))
      case StringValue(s) => if byName(s).Some? then Ok(byName(s)) else Err(IllegalArgument)
      case _ => Err(IllegalArgument)
  }

  /** An optional positive-integer option. */
  function PositiveOption(options: map<string, OptionValue>, key: string): Result<Option<Int32>, Error>
  {
    if key !in options then Ok(None)
    else match GetPositiveInteger(options[key])
      case Ok(v) => Ok(Some(v))
      case Err(e) => Err(e)
  }

  /** The end-page clamp: it compares endNumber with itself, so it never changes anything. */
  function ClampEnd(startNumber: Int32, endNumber: Int32): (r: Int32)
    ensures r == endNumber
  {
    if endNumber >= 0 && endNumber < endNumber then startNumber else endNumber
  }

  /** setUserAgent on the settings: options in the order printer job, mode, start, end, copies. */
  function ApplyRendererOptions(st: Settings, options: map<string, OptionValue>,
                                byName: string -> Option<PagesMode>, defaultJob: PrinterJob): Outcome
  {
    if PRINTER_JOB in options && !options[PRINTER_JOB].PrinterJobValue? then Outcome(st, Err(IllegalArgument))
    else
      var st1 := if PRINTER_JOB in options then st.(printerJob := Some(options[PRINTER_JOB].job)) else st;
      var m := ModeOption(options, byName);
      if m.Err? then Outcome(st1, Err(m.error))
      else
        var st2 := if m.value.Some? then st1.(mode := m.value.value) else st1;
        var s := PositiveOption(options, START_PAGE);
        if s.Err? then Outcome(st2, Err(s.error))
        else
          var st3 := if s.value.Some? then st2.(startNumber := s.value.value) else st2;
          var e := PositiveOption(options, END_PAGE);
          if e.Err? then Outcome(st3, Err(e.error))
          else
            var st4 := if e.value.Some? then st3.(endNumber := e.value.value) else st3;
            var st5 := st4.(endNumber := ClampEnd(st4.startNumber, st4.endNumber));
            var c := PositiveOption(options, COPIES);
            if c.Err? then Outcome(st5, Err(c.error))
            else
              var st6 := if c.value.Some? then st5.(copies := c.value.value) else st5;
              Outcome(if st6.printerJob.None? then st6.(printerJob := Some(defaultJob)) else st6, Ok(()))
  }

  /** Without options, setUserAgent only supplies the default printer job when none is set. */
  lemma NoOptionsKeepSettings(st: Settings, byName: string -> Option<PagesMode>, defaultJob: PrinterJob)
    ensures ApplyRendererOptions(st, map[], byName, defaultJob).result.Ok?
    ensures ApplyRendererOptions(st, map[], byName, defaultJob).settings
      == st.(printerJob := if st.printerJob.None? then Some(defaultJob) else st.printerJob)
  {
  }

  /** A start page given as text is stored even when it is not positive; as an Integer it is refused. */
  lemma StartPageChecks(st: Settings, byName: string -> Option<PagesMode>, defaultJob: PrinterJob)
    ensures ApplyRendererOptions(st, map[START_PAGE := StringValue("-5")], byName, defaultJob).settings.startNumber == -5
    ensures ApplyRendererOptions(st, map[START_PAGE := IntegerValue(0)], byName, defaultJob) == Outcome(st, Err(IllegalArgument))
  {
    StringNotCheckedForPositive();
  }

  /** An end page before the start page is kept as it is: the clamp never fires. */
  lemma EndBeforeStartKept(st: Settings, start: Int32, end: Int32, byName: string -> Option<PagesMode>, defaultJob: PrinterJob)
    requires 1 <= end < start
    ensures var o := ApplyRendererOptions(st, map[START_PAGE := IntegerValue(start), END_PAGE := IntegerValue(end)], byName, defaultJob);
      o.result.Ok? && o.settings.startNumber == start && o.settings.endNumber == end
  {
  }

  /** An illegal copies option fails after start and end have been stored. */
  lemma FailureKeepsEarlierUpdates(st: Settings, start: Int32, byName: string -> Option<PagesMode>, defaultJob: PrinterJob)
    requires start >= 1
    ensures var o := ApplyRendererOptions(st, map[START_PAGE := IntegerValue(start), COPIES := OtherValue], byName, defaultJob);
      o.result == Err(IllegalArgument) && o.settings == st.(startNumber := start)
  {
  }

  /** Whether page i (1-based) is printed. */
  predicate IsValidPage(i: int, startNumber: int, endNumber: int, mode: PagesMode)
  {
    if i < startNumber || i > endNumber then false
    else if mode != All then
      if mode == Even && i % 2 != 0 then false
      else if mode == Odd && i % 2 == 0 then false
      else true
    else true
  }

  /** In ALL mode only the range [start, end] matters. */
  lemma AllModeIsRange(i: int, startNumber: int, endNumber: int)
    ensures IsValidPage(i, startNumber, endNumber, All) <==> startNumber <= i <= endNumber
  {
  }

  /** The invalid pages among 1..max, ascending. */
  function InvalidPages(max: int, startNumber: int, endNumber: int, mode: PagesMode): seq<int>
    decreases max
  {
    if max <= 0 then []
    else
      var front := InvalidPages(max - 1, startNumber, endNumber, mode);
      if IsValidPage(max, startNumber, endNumber, mode) then front else front + [max]
  }

  lemma {:induction false} InvalidPagesMembers(max: int, startNumber: int, endNumber: int, mode: PagesMode)
    ensures forall p :: p in InvalidPages(max, startNumber, endNumber, mode) <==>
      1 <= p <= max && !IsValidPage(p, startNumber, endNumber, mode)
    decreases max
  {
    if max > 0 {
      InvalidPagesMembers(max - 1, startNumber, endNumber, mode);
    }
  }

  predicate StrictlyAscending(v: seq<int>)
  {
    forall j, k :: 0 <= j < k < |v| ==> v[j] < v[k]
  }

  lemma {:induction false} InvalidPagesAscending(max: int, startNumber: int, endNumber: int, mode: PagesMode)
    ensures StrictlyAscending(InvalidPages(max, startNumber, endNumber, mode))
    ensures forall j :: 0 <= j < |InvalidPages(max, startNumber, endNumber, mode)| ==>
      InvalidPages(max, startNumber, endNumber, mode)[j] <= max
    decreases max
  {
    if max > 0 {
      InvalidPagesAscending(max - 1, startNumber, endNumber, mode);
      var front := InvalidPages(max - 1, startNumber, endNumber, mode);
      var v := InvalidPages(max, startNumber, endNumber, mode);
      if !IsValidPage(max, startNumber, endNumber, mode) {
        assert v == front + [max];
        forall j, k | 0 <= j < k < |v|
          ensures v[j] < v[k]
        {
          assert v[j] == front[j];
          if k < |v| - 1 {
            assert v[k] == front[k];
          }
        }
      }
    }
  }

  /** The pages of s whose 1-based number, counting the first as base + 1, is valid, in order. */
  function Kept<T>(s: seq<T>, base: int, startNumber: int, endNumber: int, mode: PagesMode): seq<T>
    decreases |s|
  {
    if s == [] then []
    else
      var rest := Kept(s[1..], base + 1, startNumber, endNumber, mode);
      if IsValidPage(base + 1, startNumber, endNumber, mode) then [s[0]] + rest else rest
  }

  /** The pages that are printed, in document order. */
  function ValidPages<T>(s: seq<T>, startNumber: int, endNumber: int, mode: PagesMode): seq<T>
  {
    Kept(s, 0, startNumber, endNumber, mode)
  }

  function Clip(x: int, n: nat): nat
  {
    if x < 0 then 0 else if x > n then n else x
  }

  lemma {:induction false} KeptAllFrom(s: seq<int>, base: int, startNumber: int, endNumber: int)
    requires startNumber <= base + 1
    ensures Kept(s, base, startNumber, endNumber, All) == s[..Clip(endNumber - base, |s|)]
    decreases |s|
  {
    if s != [] {
      KeptAllFrom(s[1..], base + 1, startNumber, endNumber);
    }
  }

  /** In ALL mode the printed pages are the slice from start to end. */
  lemma {:induction false} KeptAllRange(s: seq<int>, base: int, startNumber: int, endNumber: int)
    requires base + 1 <= startNumber <= endNumber + 1 <= base + |s| + 1
    ensures Kept(s, base, startNumber, endNumber, All) == s[startNumber - 1 - base..endNumber - base]
    decreases |s|
  {
    if base + 1 == startNumber {
      KeptAllFrom(s, base, startNumber, endNumber);
    } else {
      KeptAllRange(s[1..], base + 1, startNumber, endNumber);
    }
  }

  /** s without the entries at the (base-relative) positions in drop. */
  function Without<T>(s: seq<T>, drop: set<int>, base: int): seq<T>
    decreases |s|
  {
    if s == [] then []
    else (if base in drop then [] else [s[0]]) + Without(s[1..], drop, base + 1)
  }

  lemma {:induction false} WithoutNothing<T>(s: seq<T>, base: int)
    ensures Without(s, {}, base) == s
    decreases |s|
  {
    if s != [] {
      WithoutNothing(s[1..], base + 1);
    }
  }

  lemma {:induction false} WithoutIgnoresBelow<T>(s: seq<T>, drop: set<int>, base: int, x: int)
    requires x < base
    ensures Without(s, drop + {x}, base) == Without(s, drop, base)
    decreases |s|
  {
    if s != [] {
      WithoutIgnoresBelow(s[1..], drop, base + 1, x);
    }
  }

  /** Removing position p first-to-last keeps every earlier position: one more removal below all others. */
  lemma {:induction false} DropOneMore<T>(s: seq<T>, drop: set<int>, base: int, p: int)
    requires 0 <= p < |s|
    requires forall d :: d in drop ==> d > base + p
    ensures p < |Without(s, drop, base)|
    ensures Without(s, drop, base)[..p] + Without(s, drop, base)[p + 1..] == Without(s, drop + {base + p}, base)
    decreases p
  {
    var w := Without(s, drop, base);
    assert w == [s[0]] + Without(s[1..], drop, base + 1);
    if p == 0 {
      WithoutIgnoresBelow(s[1..], drop, base + 1, base);
    } else {
      DropOneMore(s[1..], drop, base + 1, p - 1);
      var rest := Without(s[1..], drop, base + 1);
      assert w[..p] + w[p + 1..] == [s[0]] + (rest[..p - 1] + rest[p..]);
    }
  }

  lemma {:induction false} WithoutInvalidIsKept<T>(s: seq<T>, drop: set<int>, base: int, startNumber: int, endNumber: int, mode: PagesMode)
    requires forall k :: base <= k < base + |s| ==> (k in drop <==> !IsValidPage(k + 1, startNumber, endNumber, mode))
    ensures Without(s, drop, base) == Kept(s, base, startNumber, endNumber, mode)
    decreases |s|
  {
    if s != [] {
      WithoutInvalidIsKept(s[1..], drop, base + 1, startNumber, endNumber, mode);
    }
  }

  /** The list positions of the pages numbers[j] for j > i. */
  function Removed(numbers: seq<int>, i: int): set<int>
  {
    set j | i < j < |numbers| && 0 <= j :: numbers[j] - 1
  }

  /** Processing numbers back to front, each position removed lies below all those removed before it. */
  lemma RemovalStep(numbers: seq<int>, i: int)
    requires StrictlyAscending(numbers) && 0 <= i < |numbers|
    ensures forall d :: d in Removed(numbers, i) ==> d > numbers[i] - 1
    ensures Removed(numbers, i - 1) == Removed(numbers, i) + {numbers[i] - 1}
  {
  }

  /** The positions removed are exactly those of the invalid pages. */
  lemma RemovedAreInvalid(numbers: seq<int>, n: int, startNumber: int, endNumber: int, mode: PagesMode)
    requires forall p :: p in numbers <==> 1 <= p <= n && !IsValidPage(p, startNumber, endNumber, mode)
    ensures forall k :: 0 <= k < n ==> (k in Removed(numbers, -1) <==> !IsValidPage(k + 1, startNumber, endNumber, mode))
  {
    forall k | 0 <= k < n
      ensures k in Removed(numbers, -1) <==> !IsValidPage(k + 1, startNumber, endNumber, mode)
    {
      if k in Removed(numbers, -1) {
        var j :| 0 <= j < |numbers| && numbers[j] - 1 == k;
        assert numbers[j] in numbers;
      }
      if k + 1 in numbers {
        var j :| 0 <= j < |numbers| && numbers[j] == k + 1;
        assert numbers[j] - 1 == k;
      }
    }
  }

  /** A page of the document; only its identity matters here. */
  datatype PageViewport = PageViewport(pageId: nat)

  class PrintRenderer {
    var startNumber: Int32
    var endNumber: Int32
    var mode: PagesMode
    var copies: Int32
    var printerJob: Option<PrinterJob>
    /** The rendered pages, page i at position i - 1; getNumberOfPages is its length. */
    var pageViewportList: seq<PageViewport>

    /** The field initializers (start 0, end -1, ALL, one copy), then the system properties. */
    constructor (props: SystemProperties)
      ensures copies == IntProperty(props.copies, 1)
      ensures startNumber == IntProperty(props.start, 1)
      ensures endNumber == IntProperty(props.end, -1)
      ensures mode == (if props.even.None? then All else if BooleanValueOf(props.even.value) then Even else Odd)
      ensures printerJob == None && pageViewportList == []
    {
      startNumber := 0;
      endNumber := -1;
      mode := All;
      copies := 1;
      printerJob := None;
      pageViewportList := [];
      new;
      SetupFromSystemProperties(props);
    }

    method SetupFromSystemProperties(props: SystemProperties)
      modifies this`copies, this`startNumber, this`endNumber, this`mode
      ensures copies == IntProperty(props.copies, 1)
      ensures startNumber == IntProperty(props.start, 1)
      ensures endNumber == IntProperty(props.end, -1)
      ensures mode == (if props.even.None? then old(mode) else if BooleanValueOf(props.even.value) then Even else Odd)
    {
      copies := IntProperty(props.copies, 1);
      startNumber := IntProperty(props.start, 1);
      endNumber := IntProperty(props.end, -1);
      if props.even.Some? {
        mode := if BooleanValueOf(props.even.value) then Even else Odd;
      }
    }

    function CurrentSettings(): Settings
      reads this
    {
      Settings(startNumber, endNumber, mode, copies, printerJob)
    }

    function GetEndNumber(): Int32 reads this { endNumber }
    function GetStartPage(): Int32 reads this { startNumber }

    method SetEndPage(end: Int32)
      modifies this`endNumber
      ensures endNumber == end
    {
      endNumber := end;
    }

    method SetStartPage(start: Int32)
      modifies this`startNumber
      ensures startNumber == start
    {
      startNumber := start;
    }

    /** setUserAgent: apply the renderer options, then make sure there is a printer job. */
    method SetUserAgent(options: map<string, OptionValue>, byName: string -> Option<PagesMode>, defaultJob: PrinterJob)
      returns (r: Result<(), Error>)
      modifies this`printerJob, this`mode, this`startNumber, this`endNumber, this`copies
      ensures Outcome(CurrentSettings(), r) == ApplyRendererOptions(old(CurrentSettings()), options, byName, defaultJob)
    {
      if PRINTER_JOB in options {
        var printerJobO := options[PRINTER_JOB];
        if !printerJobO.PrinterJobValue? {
          return Err(IllegalArgument);
        }
        printerJob := Some(printerJobO.job);
      }
      if PAGES_MODE in options {
        var o := options[PAGES_MODE];
        if o.ModeValue? {
          mode := o.mode;
        } else if o.StringValue? {
          var m := byName(o.s);
          if m.None? {
            return Err(IllegalArgument);
          }
          mode := m.value;
        } else {
          return Err(IllegalArgument);
        }
      }
      if START_PAGE in options {
        var v := GetPositiveInteger(options[START_PAGE]);
        if v.Err? {
          return Err(v.error);
        }
        startNumber := v.value;
      }
      if END_PAGE in options {
        var v := GetPositiveInteger(options[END_PAGE]);
        if v.Err? {
          return Err(v.error);
        }
        endNumber := v.value;
      }
      endNumber := ClampEnd(startNumber, endNumber);
      if COPIES in options {
        var v := GetPositiveInteger(options[COPIES]);
        if v.Err? {
          return Err(v.error);
        }
        copies := v.value;
      }
      if printerJob.None? {
        printerJob := Some(defaultJob);
      }
      return Ok(());
    }

    /** getInvalidPageNumbers: the pages 1..getNumberOfPages() that are not to be printed. */
    method GetInvalidPageNumbers() returns (vec: seq<int>)
      ensures vec == InvalidPages(|pageViewportList|, startNumber, endNumber, mode)
      ensures StrictlyAscending(vec)
      ensures forall p :: p in vec <==> 1 <= p <= |pageViewportList| && !IsValidPage(p, startNumber, endNumber, mode)
    {
      vec := [];
      var max := |pageViewportList|;
      var i := 1;
      while i <= max
        invariant 1 <= i <= max + 1
        invariant vec == InvalidPages(i - 1, startNumber, endNumber, mode)
      {
        var isValid := true;
        if i < startNumber || i > endNumber {
          isValid := false;
        } else if mode != All {
          if mode == Even && i % 2 != 0 {
            isValid := false;
          } else if mode == Odd && i % 2 == 0 {
            isValid := false;
          }
        }
        if !isValid {
          vec := vec + [i];
        }
        i := i + 1;
      }
      InvalidPagesAscending(max, startNumber, endNumber, mode);
      InvalidPagesMembers(max, startNumber, endNumber, mode);
    }

    /** The removal loop of stopRenderer: remove the given pages, the last first, at position page - 1. */
    method RemovePages(numbers: seq<int>)
      requires StrictlyAscending(numbers)
      requires forall p :: p in numbers ==> 1 <= p <= |pageViewportList|
      modifies this`pageViewportList
      ensures pageViewportList == Without(old(pageViewportList), Removed(numbers, -1), 0)
    {
      ghost var orig := pageViewportList;
      var i := |numbers| - 1;
      assert Removed(numbers, i) == {};
      WithoutNothing(orig, 0);
      while i > -1
        invariant -1 <= i < |numbers|
        invariant pageViewportList == Without(orig, Removed(numbers, i), 0)
      {
        var page := numbers[i];
        assert numbers[i] in numbers;
        RemovalStep(numbers, i);
        DropOneMore(orig, Removed(numbers, i), 0, page - 1);
        pageViewportList := pageViewportList[..page - 1] + pageViewportList[page..];
        i := i - 1;
      }
    }

    /**
     * stopRenderer: default the end page to the page count, remove the
     * invalid pages back to front, hand the rest to the printer job, then
     * clear the list.
     */
    method StopRenderer() returns (printed: seq<PageViewport>)
      requires |pageViewportList| <= INT_MAX
      modifies this`endNumber, this`pageViewportList
      ensures endNumber == (if old(endNumber) == -1 then |old(pageViewportList)| else old(endNumber))
      ensures printed == ValidPages(old(pageViewportList), startNumber, endNumber, mode)
      ensures pageViewportList == []
    {
      if endNumber == -1 {
        endNumber := |pageViewportList|;
      }
      var numbers := GetInvalidPageNumbers();
      ghost var orig := pageViewportList;
      RemovePages(numbers);
      RemovedAreInvalid(numbers, |orig|, startNumber, endNumber, mode);
      WithoutInvalidIsKept(orig, Removed(numbers, -1), 0, startNumber, endNumber, mode);
      printed := pageViewportList;
      pageViewportList := [];
    }
  }
}
