# Property resolution and page selection in FOP, modelled in Dafny

This project models the core of a version of Apache FOP, an XSL-FO formatter,
and proves properties of the model:

- **Property values** (`Property.java`): the base class of every resolved value.
  It keeps the specified value as written, and every typed accessor reports null or 0.
- **The property cascade** (`PropertyMaker.java`). `findProperty` resolves a
  property on a node's property list in this order:
  - a forced corresponding value;
  - the explicit value;
  - the computed value;
  - the first shorthand that yields a value;
  - the value inherited from the parent list.

  `get` adds the default, which `make` caches unless it is context dependent.
  The setters, `addShorthand` and `useGeneric` configure a maker in place.
- **Text decoration** (`CommonTextDecoration.java`). The decoration of the
  parent chain is computed first. Then the node's text-decoration keywords
  update a 4-bit mask and three colour slots (sections 5.5.6 and 7.16.4 of
  XSL 1.0).
- **RTF borders** (`BorderAttributesConverter.java`): FO border-style keywords
  are mapped to RTF control words.
- **Regions** (`Region.java`): the region-name default and reserved names,
  the parent check, and the region codes.
- **Print page selection** (`PrintRenderer.java`):
  - the start, end, mode and copies settings, from system properties and renderer options;
  - the invalid pages;
  - the back-to-front removal of those pages before printing.

Each Java file is one module: `Properties`, `Makers` (with the pure cascade in
`Cascade`), `TextDecoration`, `BorderAttributes`, `Regions` and `Printing`.
`Wrappers` holds `Option` and `Result`.

The modelling follows these rules:

- Objects whose fields the code updates are classes: `Property`,
  `PropertyMaker`, `CommonTextDecoration`, `Region` and `PrintRenderer`.
- Each method is proved equal to a pure specification function.
- The properties the code promises are lemmas about those functions.
- Java `null` results are `Option`.
- Exceptions are `Result` errors.
- Collaborators outside the core are parameters or arrow-typed fields:
  - the corresponding maker;
  - the shorthand parser;
  - `make(propertyList, value, fo)`;
  - `PagesMode.byName`;
  - the system properties;
  - the default printer job.

Where the general description of the cascade differs from the code, the model
follows the code:

- The computed value comes before the shorthands. Computing delegates to the
  corresponding maker even when that maker does not force its value.
- An exhausted cascade gives null, not an error.
- `get` turns a `FOPException` while building the default into null. A `NullPointerException` from `make` still propagates.
- The default is cached in the maker, not in the property list.
- Property values are mutable: `setSpecifiedValue` updates them in place.

The model reproduces these quirks of the code as written:

- `useGeneric` passes its arguments to `System.arraycopy` in swapped order.
  This leaves both the new and the generic shorthand arrays all null.
- The end-page clamp compares `endNumber` with itself, so it never fires.
- `getPositiveInteger` does not check a String value for positivity.
- `isReserved` leaves out `xsl-region-body`, which XSL 1.0 also reserves.

## Model

| member | source | states |
|---|---|---|
| Properties.Property.constructor | src/java/org/apache/fop/fo/properties/Property.java:30-36 | a new property has no specified value (null) |
| Properties.Property.SetSpecifiedValue | src/java/org/apache/fop/fo/properties/Property.java:42-44 | the specified value reads back as given; the typed accessors still report absent |
| Properties.Property.GetLength | src/java/org/apache/fop/fo/properties/Property.java:63-65 | the base class has no length: null |
| Properties.Property.GetColorType | src/java/org/apache/fop/fo/properties/Property.java:71-73 | the base class has no colour: null |
| Properties.Property.GetCondLength | src/java/org/apache/fop/fo/properties/Property.java:79-81 | the base class has no conditional length: null |
| Properties.Property.GetLengthRange | src/java/org/apache/fop/fo/properties/Property.java:87-89 | the base class has no length range: null |
| Properties.Property.GetLengthPair | src/java/org/apache/fop/fo/properties/Property.java:95-97 | the base class has no length pair: null |
| Properties.Property.GetSpace | src/java/org/apache/fop/fo/properties/Property.java:103-105 | the base class has no space: null |
| Properties.Property.GetKeep | src/java/org/apache/fop/fo/properties/Property.java:111-113 | the base class has no keep: null |
| Properties.Property.GetEnum | src/java/org/apache/fop/fo/properties/Property.java:119-121 | the base class enum value is 0 |
| Properties.Property.GetCharacter | src/java/org/apache/fop/fo/properties/Property.java:127-129 | the base class character is NUL (0) |
| Properties.Property.GetList | src/java/org/apache/fop/fo/properties/Property.java:135-137 | the base class has no list: null |
| Properties.Property.GetNumber | src/java/org/apache/fop/fo/properties/Property.java:143-145 | the base class has no number: null |
| Properties.Property.GetNumeric | src/java/org/apache/fop/fo/properties/Property.java:151-153 | the base class has no numeric: null |
| Properties.Property.GetNCname | src/java/org/apache/fop/fo/properties/Property.java:159-161 | the base class has no NCName: null |
| Properties.Property.GetObject | src/java/org/apache/fop/fo/properties/Property.java:167-169 | the base class has no object: null |
| Properties.Property.GetString | src/java/org/apache/fop/fo/properties/Property.java:175-177 | the base class has no string: null |
| Properties.BaseAccessorsAbsent | src/java/org/apache/fop/fo/properties/Property.java:63-177 | every base-class property reports null or 0 from every typed accessor, whatever its specified value |
| Properties.SpecifiedValueRoundTrip | src/java/org/apache/fop/fo/properties/Property.java:42-52 | setting and then reading the specified value gives it back, and leaves the accessors absent |
| Cascade.Chain | src/java/org/apache/fop/fo/properties/PropertyMaker.java:244-251 | the ancestor chain starts at the list itself and is never empty |
| Cascade.ForcedCorrespondingWins | src/java/org/apache/fop/fo/properties/PropertyMaker.java:237-238 | a forced corresponding value is the answer, whatever is set explicitly, by shorthand or on the parent |
| Cascade.ExplicitWins | src/java/org/apache/fop/fo/properties/PropertyMaker.java:240 | unless forced, the explicit value on the list is the answer |
| Cascade.ComputeBeforeShorthand | src/java/org/apache/fop/fo/properties/PropertyMaker.java:241-243 | with no explicit value, a non-null computed value (delegated to the corresponding maker even when it is not forced) wins over shorthands and the parent |
| Cascade.ShorthandBeforeParent | src/java/org/apache/fop/fo/properties/PropertyMaker.java:244-246 | with nothing explicit or computed, a shorthand value wins over the parent |
| Cascade.InheritOnlyWhenAllowed | src/java/org/apache/fop/fo/properties/PropertyMaker.java:247-252 | if the list itself gives nothing, the parent is asked exactly when inheritance is requested, a parent exists and the property is inheritable, and the recursive call always requests inheritance; otherwise the answer is null |
| Cascade.RootNeverInherits | src/java/org/apache/fop/fo/properties/PropertyMaker.java:249-251 | at the root the inheritance flag makes no difference |
| Cascade.NonInheritedIgnoresParent | src/java/org/apache/fop/fo/properties/PropertyMaker.java:249-251 | a non-inheritable property never looks at the parent |
| Cascade.InheritsFromNearest | src/java/org/apache/fop/fo/properties/PropertyMaker.java:231-256 | with inheritance the answer is the local value of the nearest list in the ancestor chain on which the cascade stops |
| Cascade.NothingInChain | src/java/org/apache/fop/fo/properties/PropertyMaker.java:231-256 | when no list of the chain gives anything, the answer is null and never an exception |
| Cascade.AnswerComesFromChain | src/java/org/apache/fop/fo/properties/PropertyMaker.java:231-256 | every non-null answer (or exception) is the local value of some list of the ancestor chain |
| Cascade.ExplicitBeatsShorthandAndParent | src/java/org/apache/fop/fo/properties/PropertyMaker.java:231-256 | an explicit value is the answer even when a shorthand on the same list gives a value and the parent gives one to inherit |
| Cascade.ShorthandFirstHit | src/java/org/apache/fop/fo/properties/PropertyMaker.java:580-590 | the first shorthand slot that gives a value, after slots that all give nothing, is the answer |
| Cascade.ShorthandAnswerIsFirstHit | src/java/org/apache/fop/fo/properties/PropertyMaker.java:580-590 | conversely, every shorthand answer comes from such a first hit |
| Cascade.ShorthandStopsAtEmpty | src/java/org/apache/fop/fo/properties/PropertyMaker.java:580 | the search never looks past the first empty slot |
| Cascade.ShorthandMissingParser | src/java/org/apache/fop/fo/properties/PropertyMaker.java:584-586 | a shorthand set on the list whose maker has no parser ends the search with a NullPointerException |
| Makers.FillFirstEmptyAt | src/java/org/apache/fop/fo/properties/PropertyMaker.java:151-156 | addShorthand puts the maker in the first empty slot and leaves every other slot alone |
| Makers.FillFirstEmptyFull | src/java/org/apache/fop/fo/properties/PropertyMaker.java:151-156 | with every slot taken a further registration is silently dropped |
| Makers.FillKeepsPacked | src/java/org/apache/fop/fo/properties/PropertyMaker.java:147-157 | registration keeps the slots filled from the front, so getShorthand, which stops at the first empty slot, sees every registered maker |
| Makers.FirstNull | src/java/org/apache/fop/fo/properties/PropertyMaker.java:151-156 | a null slot has a first null slot at or before it |
| Makers.FourthRegistrationDropped | src/java/org/apache/fop/fo/properties/PropertyMaker.java:147-157 | three registrations fill the three slots in order and a fourth is dropped |
| Makers.AllEmptyFindsNothing | src/java/org/apache/fop/fo/properties/PropertyMaker.java:574-593 | with every slot empty no shorthand value is ever found |
| Makers.PropertyMaker.constructor | src/java/org/apache/fop/fo/properties/PropertyMaker.java:41-68 | a new maker is inheritable, has percent base -1 and no tables, default, shorthands, parser or corresponding maker |
| Makers.PropertyMaker.SetInherited | src/java/org/apache/fop/fo/properties/PropertyMaker.java:95-97 | the maker becomes (non-)inheritable as asked; nothing else changes |
| Makers.PropertyMaker.AddKeyword | src/java/org/apache/fop/fo/properties/PropertyMaker.java:104-109 | the keyword now maps to the value and every other keyword lookup is unchanged |
| Makers.PropertyMaker.AddEnum | src/java/org/apache/fop/fo/properties/PropertyMaker.java:116-121 | the constant now maps to the property and every other enum lookup is unchanged |
| Makers.PropertyMaker.AddShorthand | src/java/org/apache/fop/fo/properties/PropertyMaker.java:147-157 | the slot array is three nulls when first needed, and the maker goes into its first null slot |
| Makers.PropertyMaker.SetDatatypeParser | src/java/org/apache/fop/fo/properties/PropertyMaker.java:163-165 | only the parser changes |
| Makers.PropertyMaker.SetDefault | src/java/org/apache/fop/fo/properties/PropertyMaker.java:171-173 | only the default value changes |
| Makers.PropertyMaker.SetDefaultContextDep | src/java/org/apache/fop/fo/properties/PropertyMaker.java:181-184 | only the default value and the context-dependence flag change |
| Makers.PropertyMaker.SetPercentBase | src/java/org/apache/fop/fo/properties/PropertyMaker.java:190-192 | only the percent base changes |
| Makers.PropertyMaker.SetByShorthand | src/java/org/apache/fop/fo/properties/PropertyMaker.java:201-203 | only the set-by-shorthand flag changes |
| Makers.PropertyMaker.SetCorresponding | src/java/org/apache/fop/fo/properties/PropertyMaker.java:210-212 | only the corresponding maker changes |
| Makers.PropertyMaker.GetPercentBase | src/java/org/apache/fop/fo/properties/PropertyMaker.java:303-307 | null exactly when the percent base is -1, else a length base of that type |
| Makers.PropertyMaker.CheckEnumValues | src/java/org/apache/fop/fo/properties/PropertyMaker.java:479-484 | the enum table entry for the value, null without a table or entry |
| Makers.PropertyMaker.CheckValueKeywords | src/java/org/apache/fop/fo/properties/PropertyMaker.java:497-505 | the substitution for a known keyword, the keyword itself otherwise |
| Makers.PropertyMaker.Compute | src/java/org/apache/fop/fo/properties/PropertyMaker.java:553-559 | the corresponding maker's computed value, or null without one |
| Makers.PropertyMaker.GetShorthand | src/java/org/apache/fop/fo/properties/PropertyMaker.java:574-593 | the loop over the slot array yields exactly the shorthand search of the cascade |
| Makers.PropertyMaker.FindProperty | src/java/org/apache/fop/fo/properties/PropertyMaker.java:231-256 | the recursive method yields exactly the cascade over the maker's current configuration |
| Makers.PropertyMaker.Make | src/java/org/apache/fop/fo/properties/PropertyMaker.java:356-365 | a cached default is returned as is; otherwise the default is built, and cached only when it was built and is not context dependent |
| Makers.PropertyMaker.Get | src/java/org/apache/fop/fo/properties/PropertyMaker.java:269-282 | the cascade's answer if non-null (a failure of the cascade propagates); else, when defaults are requested, the default, where a FOPException while building it gives null and a NullPointerException propagates; else null |
| Makers.PropertyMaker.UseGeneric | src/java/org/apache/fop/fo/properties/PropertyMaker.java:74-89 | flags, default value and percent base are copied, tables are copied when present, and, as written, the shorthand array becomes a fresh all-null array and the generic maker's own array is overwritten with nulls; for a maker given itself, the new array is copied onto itself and the array it held before is unchanged |
| Makers.ArrayCopy | src/java/org/apache/fop/fo/properties/PropertyMaker.java:81 | System.arraycopy: the destination range takes the source range; the rest of the destination is unchanged |
| Makers.DefaultIsShared | src/java/org/apache/fop/fo/properties/PropertyMaker.java:356-365 | for a context-independent maker, the second make returns the very default built by the first |
| TextDecoration.CommonTextDecoration.constructor | src/java/org/apache/fop/fo/properties/CommonTextDecoration.java:40-49 | a new decoration has no flags and no colours |
| TextDecoration.CommonTextDecoration.CreateFromPropertyList | src/java/org/apache/fop/fo/properties/CommonTextDecoration.java:57-60 | throws exactly when the calculation throws; null exactly when it yields no decoration; otherwise a fresh object holding the calculated decoration |
| TextDecoration.CommonTextDecoration.CalcTextDecoration | src/java/org/apache/fop/fo/properties/CommonTextDecoration.java:62-128 | the parent chain first, then this list's keywords updating the object in place, gives exactly the pure calculation |
| TextDecoration.CommonTextDecoration.ApplyKeyword | src/java/org/apache/fop/fo/properties/CommonTextDecoration.java:80-121 | one non-none, legal keyword: a setting keyword creates the object if needed; a clearing keyword does nothing without one |
| TextDecoration.CommonTextDecoration.Mark | src/java/org/apache/fop/fo/properties/CommonTextDecoration.java:81-118 | underline, overline, line-through, blink set their bit and (except blink) store the current colour in their slot |
| TextDecoration.CommonTextDecoration.Unmark | src/java/org/apache/fop/fo/properties/CommonTextDecoration.java:86-121 | the no- keywords keep the other three bits and (except no-blink) store the current colour in their own slot |
| TextDecoration.StepKeepsFlags | src/java/org/apache/fop/fo/properties/CommonTextDecoration.java:34-38 | one keyword sets no bit beyond the four flags |
| TextDecoration.ApplyKeepsFlags | src/java/org/apache/fop/fo/properties/CommonTextDecoration.java:71-126 | a keyword list sets no bit beyond the four flags |
| TextDecoration.CalcKeepsFlags | src/java/org/apache/fop/fo/properties/CommonTextDecoration.java:62-128 | the calculated mask only ever holds the four flag bits |
| TextDecoration.FlagTestsDetermineMask | src/java/org/apache/fop/fo/properties/CommonTextDecoration.java:131-148 | hasUnderline, hasOverline, hasLineThrough and isBlinking together determine the mask |
| TextDecoration.ApplyFailsIff | src/java/org/apache/fop/fo/properties/CommonTextDecoration.java:71-126 | a keyword list throws exactly when an illegal value comes before any none |
| TextDecoration.CalcFailsIff | src/java/org/apache/fop/fo/properties/CommonTextDecoration.java:62-128 | createFromPropertyList throws exactly when some list on the ancestor chain reaches an illegal value |
| TextDecoration.NothingCreated | src/java/org/apache/fop/fo/properties/CommonTextDecoration.java:86-121 | without a setting keyword a list never creates a decoration |
| TextDecoration.ApplyNullIff | src/java/org/apache/fop/fo/properties/CommonTextDecoration.java:71-126 | a keyword list that does not throw leaves no decoration exactly when there was none before and no underline, overline, line-through or blink comes before its first none |
| TextDecoration.CalcNullIff | src/java/org/apache/fop/fo/properties/CommonTextDecoration.java:57-128 | when the calculation does not throw, the result is null exactly when no list on the chain reaches a setting keyword before its none |
| TextDecoration.DecorationPersists | src/java/org/apache/fop/fo/properties/CommonTextDecoration.java:71-126 | once a decoration exists it is never replaced by null |
| TextDecoration.NoneClearsInherited | src/java/org/apache/fop/fo/properties/CommonTextDecoration.java:76-80 | none first in a list clears every inherited flag |
| TextDecoration.StepSetting | src/java/org/apache/fop/fo/properties/CommonTextDecoration.java:80-121 | each keyword touches only its own flag |
| TextDecoration.ApplySnoc | src/java/org/apache/fop/fo/properties/CommonTextDecoration.java:71-126 | without none or illegal values, one more keyword is one more step |
| TextDecoration.LastSettingWins | src/java/org/apache/fop/fo/properties/CommonTextDecoration.java:71-126 | without none or illegal values, the last keyword touching a flag decides it, else its inherited setting stands |
| BorderAttributes.ConvertAttributeToRtf | src/java/org/apache/fop/render/rtf/rtflib/rtfdoc/BorderAttributesConverter.java:111-147 | null exactly for the strings outside the sixteen recognised FO keywords |
| BorderAttributes.SolidIsThin | src/java/org/apache/fop/render/rtf/rtflib/rtfdoc/BorderAttributesConverter.java:114-115 | thin and solid both give brdrs |
| BorderAttributes.ThickAndHairline | src/java/org/apache/fop/render/rtf/rtflib/rtfdoc/BorderAttributesConverter.java:116-127 | thick gives brdrth and hairline brdrhair |
| BorderAttributes.BordersDistinct | src/java/org/apache/fop/render/rtf/rtflib/rtfdoc/BorderAttributesConverter.java:92-103 | the BORDERS table lists 28 distinct control words |
| BorderAttributes.ResultInBorders | src/java/org/apache/fop/render/rtf/rtflib/rtfdoc/BorderAttributesConverter.java:92-147 | every control word returned is listed in BORDERS |
| BorderAttributes.NeverAuxiliaryWords | src/java/org/apache/fop/render/rtf/rtflib/rtfdoc/BorderAttributesConverter.java:111-147 | no input gives brdrcf, brsp, brdrw or brdrdashsm |
| BorderAttributes.RoundTrip | src/java/org/apache/fop/render/rtf/rtflib/rtfdoc/BorderAttributesConverter.java:114-143 | every recognised keyword but solid is recovered from its control word |
| BorderAttributes.DistinctKeywordsDistinctWords | src/java/org/apache/fop/render/rtf/rtflib/rtfdoc/BorderAttributesConverter.java:114-143 | apart from thin and solid, distinct recognised keywords give distinct control words |
| Regions.ClassCode | src/java/org/apache/fop/fo/pagination/Region.java:47-56 | every region code lies in 0..4 |
| Regions.CodesDistinct | src/java/org/apache/fop/fo/pagination/Region.java:35-56 | the five region classes have distinct codes and distinct class keys |
| Regions.EveryCodeUsed | src/java/org/apache/fop/fo/pagination/Region.java:47-56 | each of 0..4 is the code of some region class |
| Regions.IsReserved | src/java/org/apache/fop/fo/pagination/Region.java:161-168 | true for exactly the six reserved names |
| Regions.BodyNameNotReserved | src/java/org/apache/fop/fo/pagination/Region.java:161-168 | xsl-region-body is not among the reserved names |
| Regions.AbsentOrEmptyGivesDefault | src/java/org/apache/fop/fo/pagination/Region.java:80-83 | an absent or empty region-name becomes the default name, which is always permitted |
| Regions.ExplicitName | src/java/org/apache/fop/fo/pagination/Region.java:84-92 | a non-empty name is kept verbatim and refused exactly when it is reserved and not the default |
| Regions.Region.constructor | src/java/org/apache/fop/fo/pagination/Region.java:58-71 | a new region has no name and no page master |
| Regions.Region.HandleAttrs | src/java/org/apache/fop/fo/pagination/Region.java:76-107 | the name is chosen and stored even when then refused; a refused name throws first; otherwise a parent other than a simple-page-master throws; only on success are page master, writing mode and overflow set |
| Printing.ParseInt | src/java/org/apache/fop/render/print/PrintRenderer.java:189 | Integer.parseInt of Java 1.4: a result needs non-empty text starting with a minus or a digit; a leading minus gives a value at most 0, anything else a value at least 0 |
| Printing.Decimal | src/java/org/apache/fop/render/print/PrintRenderer.java:189 | the decimal text of a number is non-empty and all digits |
| Printing.DecimalValue | src/java/org/apache/fop/render/print/PrintRenderer.java:189 | the digits of a number read back as that number |
| Printing.ParseFormatRoundTrip | src/java/org/apache/fop/render/print/PrintRenderer.java:189 | every int read back from its decimal text is itself |
| Printing.ParseIntRejects | src/java/org/apache/fop/render/print/PrintRenderer.java:189 | the empty string and a lone sign are number-format errors |
| Printing.PlusSignRejected | src/java/org/apache/fop/render/print/PrintRenderer.java:189 | a leading plus is a number-format error, as it is for Integer.parseInt before Java 7 |
| Printing.GetPositiveInteger | src/java/org/apache/fop/render/print/PrintRenderer.java:180-194 | an Integer is accepted exactly when at least 1 and then returned; a String is parsed; anything else is an illegal argument |
| Printing.StringNotCheckedForPositive | src/java/org/apache/fop/render/print/PrintRenderer.java:188-189 | the String path accepts -5 and 0, while the Integer 0 is refused |
| Printing.IntProperty | src/java/org/apache/fop/render/print/PrintRenderer.java:252-263 | getIntProperty: the parsed property, or the default when unset or unparsable |
| Printing.ClampEnd | src/java/org/apache/fop/render/print/PrintRenderer.java:170-172 | the clamp compares endNumber with itself and never changes it |
| Printing.NoOptionsKeepSettings | src/java/org/apache/fop/render/print/PrintRenderer.java:133-178 | without options only a missing printer job is supplied |
| Printing.StartPageChecks | src/java/org/apache/fop/render/print/PrintRenderer.java:162-165 | a start page given as the text -5 is stored, as the Integer 0 it is refused before anything changes |
| Printing.EndBeforeStartKept | src/java/org/apache/fop/render/print/PrintRenderer.java:166-172 | an end page before the start page is kept: the clamp never fires |
| Printing.FailureKeepsEarlierUpdates | src/java/org/apache/fop/render/print/PrintRenderer.java:162-176 | an illegal copies option throws after the start page has been stored |
| Printing.AllModeIsRange | src/java/org/apache/fop/render/print/PrintRenderer.java:271-273 | in ALL mode only the range start..end decides |
| Printing.InvalidPagesMembers | src/java/org/apache/fop/render/print/PrintRenderer.java:265-286 | the invalid pages are exactly the pages 1..max outside start..end or of the wrong parity |
| Printing.InvalidPagesAscending | src/java/org/apache/fop/render/print/PrintRenderer.java:265-286 | the invalid pages are strictly ascending and at most max |
| Printing.KeptAllFrom | src/java/org/apache/fop/render/print/PrintRenderer.java:228-240 | in ALL mode, from the start page on, the kept pages are a prefix up to the end page |
| Printing.KeptAllRange | src/java/org/apache/fop/render/print/PrintRenderer.java:228-240 | in ALL mode the printed pages are exactly the slice from start to end |
| Printing.WithoutNothing | src/java/org/apache/fop/render/print/PrintRenderer.java:236-240 | removing no positions leaves the list as is |
| Printing.WithoutIgnoresBelow | src/java/org/apache/fop/render/print/PrintRenderer.java:236-240 | positions before the list start are irrelevant to the removal |
| Printing.DropOneMore | src/java/org/apache/fop/render/print/PrintRenderer.java:237-240 | removing one position below all positions already removed is List.remove at that index |
| Printing.WithoutInvalidIsKept | src/java/org/apache/fop/render/print/PrintRenderer.java:236-240 | removing exactly the invalid positions leaves the valid pages in order |
| Printing.RemovalStep | src/java/org/apache/fop/render/print/PrintRenderer.java:237-239 | going back to front, each removed position lies below all those removed before |
| Printing.RemovedAreInvalid | src/java/org/apache/fop/render/print/PrintRenderer.java:236-239 | the positions removed are exactly those of the invalid pages |
| Printing.PrintRenderer.constructor | src/java/org/apache/fop/render/print/PrintRenderer.java:76-130 | setupFromSystemProperties overrides the field initializers: copies, start and end are read from the system properties, defaulting to 1, 1 and -1; the mode stays ALL unless even is set; there is no printer job and no page yet |
| Printing.PrintRenderer.SetupFromSystemProperties | src/java/org/apache/fop/render/print/PrintRenderer.java:120-130 | copies, start and end come from the system properties with defaults 1, 1 and -1; even selects EVEN or ODD, else the mode is unchanged |
| Printing.PrintRenderer.SetEndPage | src/java/org/apache/fop/render/print/PrintRenderer.java:210-212 | only the end page changes |
| Printing.PrintRenderer.SetStartPage | src/java/org/apache/fop/render/print/PrintRenderer.java:223-225 | only the start page changes |
| Printing.PrintRenderer.SetUserAgent | src/java/org/apache/fop/render/print/PrintRenderer.java:133-178 | the new settings and outcome are those of applying the options in source order, keeping the updates made before a throw |
| Printing.PrintRenderer.GetInvalidPageNumbers | src/java/org/apache/fop/render/print/PrintRenderer.java:265-286 | strictly ascending, and holding exactly the pages 1..page count that are not to be printed |
| Printing.PrintRenderer.RemovePages | src/java/org/apache/fop/render/print/PrintRenderer.java:237-240 | removing the given ascending pages back to front at index page-1 removes exactly those positions |
| Printing.PrintRenderer.StopRenderer | src/java/org/apache/fop/render/print/PrintRenderer.java:228-250 | an unset end page becomes the page count; the pages printed are the valid pages in document order; the list is then cleared |

## Left out

- `PropertyMaker.make(propertyList, value, fo)` is left out. It covers parsing, keyword substitution, enum lookup and conversion. It appears only as the `makeValue` parameter.
- `convertShorthandProperty`, `convertProperty` and `convertPropertyDatatype` are left out. They depend on the expression parser, which is not part of this model.
- `getSubprop`, `setSubprop`, `make(baseProp, subpropId, ...)`, `addSubpropMaker`, `getSubpropMaker` and `makeNewProperty` are left out. They belong to compound makers; the base class answers null or the base property.
- `PropertyMaker.clone` is left out: it is a shallow Java clone.
- `getPropId`, `isInherited`, `getRegionName`, `getEndNumber`, `getStartPage`, the colour getters and the `Has...` tests are field reads. Their meaning is stated in the rows of the members that set those fields.
- `Property.toString` is left out. It dereferences `getObject()`, which is null in the base class, so it throws.
- `getExplicit` and `getExplicitBaseProp` of the property list are one map here. Compound-value merging is not part of this model.
- `Makers.PropertyMaker.GetShorthand`: the parser is called with the requesting maker's property id and the list only. The maker argument is not modelled.
- `Makers.PropertyMaker.GetShorthand`: a non-list explicit value would make the `ListProperty` cast fail. It is not modelled; values are opaque.
- `LengthBase` keeps only the property list and the base type. The formatting object is not modelled.
- `Properties.Property.GetColorType` and the other accessors return opaque tokens. Subclasses override them and are not part of this model.
- `TextDecoration.CommonTextDecoration.CalcTextDecoration`: the keyword list and colour of each property list are inputs. A missing text-decoration property would throw `NullPointerException`; that is not modelled. Colours are opaque tokens.
- `BorderAttributes.ConvertAttributeToRtf`: a null input string would throw `NullPointerException`; that is not modelled.
- `Regions.Region.HandleAttrs`:
  - `super.handleAttrs` is not modelled.
  - A region-name property whose string is null would throw; that is not modelled.
  - Writing mode and overflow are inputs.
- `getViewportRectangle`, `getDefaultRegionName`, `getRegionClass` and `getSiblingRegion` are left out. They are abstract or delegate to the page master. The default name is a constructor argument.
- `Printing.ParseInt` models `Integer.parseInt` of Java 1.4 on ASCII digits with an optional leading `-`. A leading `+` is refused, as it is before Java 7. Unicode digits are not modelled.
- `Printing.PrintRenderer.SetUserAgent`:
  - The printer job, its dialog and `setPageable` are left out.
  - `initializePrinterJob` only supplies the given default job when none is set. Job name, copies and the print dialog are AWT calls.
- `PagesMode.byName` is a parameter.
- `Printing.PrintRenderer.StopRenderer`:
  - `super.stopRenderer()` is left out.
  - `printerJob.print()` and its `IOException` are left out. The pages it would print are the method's result.
  - `getNumberOfPages` (in Java2DRenderer, not part of this model) is the length of the page list.
  - The page count must fit an int.
- `getPageFormat`, `getPrintable` and all AWT printing are left out. They are floating-point and platform calls.
- `CTMHelper`, `MultiCase` and `GraphicsConfiguration` are not part of this model.
