/**
 * Mapping of XSL-FO border-style keywords to RTF border control words
 * (BorderAttributesConverter.java).
 */
module BorderAttributes {
  import opened Wrappers

  const BORDER_SINGLE_THICKNESS := "brdrs"
  const BORDER_DOUBLE_THICKNESS := "brdrth"
  const BORDER_SHADOWED := "brdrsh"
  const BORDER_DOUBLE := "brdrdb"
  const BORDER_DOTTED := "brdrdot"
  const BORDER_DASH := "brdrdash"
  const BORDER_HAIRLINE := "brdrhair"
  const BORDER_DASH_SMALL := "brdrdashsm"
  const BORDER_DOT_DASH := "brdrdashd"
  const BORDER_DOT_DOT_DASH := "brdrdashdd"
  const BORDER_TRIPLE := "brdrtriple"
  const BORDER_THINK_THIN_SMALL := "brdrtnthsg"
  const BORDER_THIN_THICK_SMALL := "brdrthtnsg"
  const BORDER_THIN_THICK_THIN_SMALL := "brdrthtnthsg"
  const BORDER_THINK_THIN_MEDIUM := "brdrtnthmg"
  const BORDER_THIN_THICK_MEDIUM := "brdrthtnmg"
  const BORDER_THIN_THICK_THIN_MEDIUM := "brdrthtnthmg"
  const BORDER_THINK_THIN_LARGE := "brdrtnthlg"
  const BORDER_THIN_THICK_LARGE := "brdrthtnlg"
  const BORDER_THIN_THICK_THIN_LARGE := "brdrthtnthlg"
  const BORDER_WAVY := "brdrwavy"
  const BORDER_WAVY_DOUBLE := "brdrwavydb"
  const BORDER_STRIPED := "brdrdashdotstr"
  const BORDER_EMBOSS := "brdremboss"
  const BORDER_ENGRAVE := "brdrengrave"
  const BORDER_COLOR := "brdrcf"
  const BORDER_SPACE := "brsp"
  const BORDER_WIDTH := "brdrw"

  /** All border attribute control words, in declaration order. */
  const BORDERS: seq<string> := [
    BORDER_SINGLE_THICKNESS, BORDER_DOUBLE_THICKNESS, BORDER_SHADOWED,
    BORDER_DOUBLE, BORDER_DOTTED, BORDER_DASH,
    BORDER_HAIRLINE, BORDER_DASH_SMALL, BORDER_DOT_DASH,
    BORDER_DOT_DOT_DASH, BORDER_TRIPLE, BORDER_THINK_THIN_SMALL,
    BORDER_THIN_THICK_SMALL, BORDER_THIN_THICK_THIN_SMALL, BORDER_THINK_THIN_MEDIUM,
    BORDER_THIN_THICK_MEDIUM, BORDER_THIN_THICK_THIN_MEDIUM, BORDER_THINK_THIN_LARGE,
    BORDER_THIN_THICK_LARGE, BORDER_THIN_THICK_THIN_LARGE, BORDER_WAVY,
    BORDER_WAVY_DOUBLE, BORDER_STRIPED, BORDER_EMBOSS,
    BORDER_ENGRAVE, BORDER_COLOR, BORDER_SPACE,
    BORDER_WIDTH
  ]

  /** The FO border-style values the converter recognises. */
  const RECOGNISED: set<string> := {
    "thin", "solid", "thick", "shadowed", "double", "dotted", "dash", "hairline",
    "dot-dash", "dot-dot-dash", "triple", "wavy", "wavy-double", "striped", "emboss", "engrave"
  }

  /** convertAttributetoRtf: FO keyword to RTF control word; null (None) for anything else. */
  function ConvertAttributeToRtf(value: string): (r: Option<string>)
    ensures r.None? <==> value !in RECOGNISED
  {
    if value == "thin" || value == "solid" then Some(BORDER_SINGLE_THICKNESS)
    else if value == "thick" then Some(BORDER_DOUBLE_THICKNESS)
    else if value == "shadowed" then Some(BORDER_SHADOWED)
    else if value == "double" then Some(BORDER_DOUBLE)
    else if value == "dotted" then Some(BORDER_DOTTED)
    else if value == "dash" then Some(BORDER_DASH)
    else if value == "hairline" then Some(BORDER_HAIRLINE)
    else if value == "dot-dash" then Some(BORDER_DOT_DASH)
    else if value == "dot-dot-dash" then Some(BORDER_DOT_DOT_DASH)
    else if value == "triple" then Some(BORDER_TRIPLE)
    else if value == "wavy" then Some(BORDER_WAVY)
    else if value == "wavy-double" then Some(BORDER_WAVY_DOUBLE)
    else if value == "striped" then Some(BORDER_STRIPED)
    else if value == "emboss" then Some(BORDER_EMBOSS)
    else if value == "engrave" then Some(BORDER_ENGRAVE)
    else None
  }

  /** "solid" is read like "thin": both give the single-thickness border. */
  lemma SolidIsThin()
    ensures ConvertAttributeToRtf("thin") == ConvertAttributeToRtf("solid") == Some("brdrs")
  {
  }

  lemma ThickAndHairline()
    ensures ConvertAttributeToRtf("thick") == Some("brdrth")
    ensures ConvertAttributeToRtf("hairline") == Some("brdrhair")
  {
  }

  /** The BORDERS table lists 28 distinct control words. */
  lemma BordersDistinct()
    ensures |BORDERS| == 28
    ensures forall i, j :: 0 <= i < j < |BORDERS| ==> BORDERS[i] != BORDERS[j]
  {
  }

  /** Every control word the converter returns is listed in BORDERS. */
  lemma ResultInBorders(value: string)
    ensures ConvertAttributeToRtf(value).Some? ==> ConvertAttributeToRtf(value).value in BORDERS
  {
  }

  /** The colour, spacing, width and small-dash words are never produced. */
  lemma NeverAuxiliaryWords(value: string)
    ensures ConvertAttributeToRtf(value) !in {Some(BORDER_COLOR), Some(BORDER_SPACE), Some(BORDER_WIDTH), Some(BORDER_DASH_SMALL)}
  {
  }

  /** The keyword each produced control word comes from, "thin" standing for "solid" too. */
  function RtfToAttribute(word: string): Option<string>
  {
    if word == BORDER_SINGLE_THICKNESS then Some("thin")
    else if word == BORDER_DOUBLE_THICKNESS then Some("thick")
    else if word == BORDER_SHADOWED then Some("shadowed")
    else if word == BORDER_DOUBLE then Some("double")
    else if word == BORDER_DOTTED then Some("dotted")
    else if word == BORDER_DASH then Some("dash")
    else if word == BORDER_HAIRLINE then Some("hairline")
    else if word == BORDER_DOT_DASH then Some("dot-dash")
    else if word == BORDER_DOT_DOT_DASH then Some("dot-dot-dash")
    else if word == BORDER_TRIPLE then Some("triple")
    else if word == BORDER_WAVY then Some("wavy")
    else if word == BORDER_WAVY_DOUBLE then Some("wavy-double")
    else if word == BORDER_STRIPED then Some("striped")
    else if word == BORDER_EMBOSS then Some("emboss")
    else if word == BORDER_ENGRAVE then Some("engrave")
    else None
  }

  /** The conversion is undone by RtfToAttribute on every recognised keyword but "solid". */
  lemma RoundTrip(value: string)
    requires value in RECOGNISED && value != "solid"
    ensures RtfToAttribute(ConvertAttributeToRtf(value).value) == Some(value)
  {
  }

  /** Apart from thin and solid, distinct recognised keywords give distinct control words. */
  lemma DistinctKeywordsDistinctWords(a: string, b: string)
    requires a in RECOGNISED && a != b
    requires !(a in {"thin", "solid"} && b in {"thin", "solid"})
    ensures ConvertAttributeToRtf(a) != ConvertAttributeToRtf(b)
  {
    if ConvertAttributeToRtf(a) == ConvertAttributeToRtf(b) {
      assert b in RECOGNISED;
      if a == "solid" {
        RoundTrip(b);
        RoundTrip("thin");
      } else if b == "solid" {
        RoundTrip(a);
        RoundTrip("thin");
      } else {
        RoundTrip(a);
        RoundTrip(b);
      }
    }
  }
}
