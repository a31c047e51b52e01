/**
 * The front end of a formula: its root atom and how it is laid out, the
 * text-to-formula helpers getAsText and getPartialTeXFormula, the decoding
 * of a font type mask, and the builder that turns a formula into an icon.
 * Boxes, environments and icons are records of what they were built from;
 * no metric is computed.
 */
module TeXFormula {
  import opened Atoms
  import opened Parser
  import opened LineSplit

  /* The font type bits of TeXFont. */
  const SERIF: bv32 := 0
  const SANSSERIF: bv32 := 1
  const BOLD: bv32 := 2
  const ITALIC: bv32 := 4
  const ROMAN: bv32 := 8
  const TYPEWRITER: bv32 := 16

  /** The style flags of a TeXFont. */
  datatype FontFlags = FontFlags(roman: bool, ss: bool, tt: bool, it: bool, bold: bool)

  /**
   * The flags a font type mask gives, starting from the flags a fresh font
   * has: a type that is exactly SERIF clears sans-serif, each bit sets its
   * own flag, and a flag whose bit is absent keeps its default.
   */
  function FlagsOfType(fontType: bv32, defaults: FontFlags): FontFlags
  {
    FontFlags(
      roman := defaults.roman || fontType & ROMAN != 0,
      ss := (defaults.ss && fontType != SERIF) || fontType & SANSSERIF != 0,
      tt := defaults.tt || fontType & TYPEWRITER != 0,
      it := defaults.it || fontType & ITALIC != 0,
      bold := defaults.bold || fontType & BOLD != 0)
  }

  class TeXFont {
    const size: real
    var roman: bool
    var ss: bool
    var tt: bool
    var it: bool
    var bold: bool

    function Flags(): FontFlags
      reads this
    {
      FontFlags(roman, ss, tt, it, bold)
    }

    /** `new TeXFont(size)`: a font of that size with the default flags. */
    constructor (size: real, defaults: FontFlags)
      ensures this.size == size && Flags() == defaults
    {
      this.size := size;
      roman, ss, tt, it, bold := defaults.roman, defaults.ss, defaults.tt, defaults.it, defaults.bold;
    }

    method SetRoman(b: bool)
      modifies this
      ensures Flags() == old(Flags()).(roman := b)
    {
      roman := b;
    }

    method SetSs(b: bool)
      modifies this
      ensures Flags() == old(Flags()).(ss := b)
    {
      ss := b;
    }

    method SetTt(b: bool)
      modifies this
      ensures Flags() == old(Flags()).(tt := b)
    {
      tt := b;
    }

    method SetIt(b: bool)
      modifies this
      ensures Flags() == old(Flags()).(it := b)
    {
      it := b;
    }

    method SetBold(b: bool)
      modifies this
      ensures Flags() == old(Flags()).(bold := b)
    {
      bold := b;
    }
  }

  datatype Unit = NoUnit | Unit(name: string)

  datatype TextStyle = NoTextStyle | TextStyle(name: string)

  /** A TeXEnvironment: what it was created with, and the inter-line setting when one was given. */
  datatype Env = Env(
    style: int,
    font: FontFlags,
    size: real,
    textStyle: TextStyle,
    width: Option<(Unit, real)>,
    interline: Option<(Unit, real)>)

  /** A box, as the record of what it was laid out from. */
  datatype Box =
    | EmptyStrut                                         // StrutBox.getEmpty()
    | Laid(atom: Atom, env: Env)                         // the atom's createBox(env)
    | Broken(inner: Box, width: Width, interline: Interline)  // BreakFormula.split
    | HBox(inner: Box, width: Width, align: Option<Align>)    // new HorizontalBox(b, w, align)

  /** A width, kept opaque: a box's own width, or the text width of an environment. */
  datatype Width = WidthOf(box: Box) | TextWidth(env: Env)

  /** An inter-line spacing: its value in its unit, converted in an environment. */
  datatype Interline = Interline(spacing: real, unit: Unit, env: Env)

  /** A TeXIcon; a foreground of None leaves the icon's own default. */
  datatype TeXIcon = TeXIcon(box: Box, size: real, trueValues: bool, foreground: Option<Color>, isColored: bool)

  class TeXFormula {
    var parser: TeXParser
    var root: Option<Atom>
    var textStyle: TextStyle
    var isColored: bool
    const grammar: Grammar
    const fontDefaults: FontFlags

    ghost predicate Valid()
      reads this, parser
    {
      parser.Valid() && parser.grammar == grammar
    }

    /** `new TeXFormula()`: no root, and a parser over the empty text. */
    constructor (grammar: Grammar, fontDefaults: FontFlags)
      ensures Valid() && fresh(parser)
      ensures root == None && textStyle == NoTextStyle && !isColored
      ensures parser.State() == ParserState([], [], [], [], Some(""), EmptyAtom) && !parser.partial
      ensures this.grammar == grammar && this.fontDefaults == fontDefaults
    {
      parser := new TeXParser(false, "", grammar);
      root, textStyle, isColored := None, NoTextStyle, false;
      this.grammar, this.fontDefaults := grammar, fontDefaults;
    }

    /**
     * `createBox(env)`: a formula without root lays out as the empty strut,
     * otherwise as its root. `Laid(a, env)` stands for whatever box the
     * root's own layout gives; for the empty atom that is an empty strut
     * as well, which this model does not identify with `EmptyStrut`.
     */
    function CreateBox(env: Env): (b: Box)
      reads this
      ensures root.None? ==> b == EmptyStrut
      ensures root.Some? ==> b.Laid? && b.atom == root.value && b.env == env
    {
      if root.None? then EmptyStrut else Laid(root.value, env)
    }

    /** Whether laying the formula out marks its environment as coloured. */
    predicate Colored()
      reads this
    {
      root.Some? && UsesColor(root.value)
    }

    /**
     * `setLaTeX(ltx)`: the parser is always reset to the new text; the text
     * is parsed, and becomes the root, only when it is present and not
     * empty. A parse error leaves the root as it was.
     */
    method SetLaTeX(ltx: Option<string>) returns (r: Outcome<Error>)
      requires Valid()
      modifies this, parser
      ensures Valid() && parser == old(parser)
      ensures parser.partial == old(parser.partial)
      ensures parser.State() == old(parser.State()).(input := ltx, tree := if ltx.Some? && |ltx.value| > 0 then grammar(ltx.value, parser.partial).tree else EmptyAtom)
      ensures textStyle == old(textStyle) && isColored == old(isColored)
      ensures ltx.None? || |ltx.value| == 0 ==> r == Pass && root == old(root)
      ensures ltx.Some? && |ltx.value| > 0 ==>
                var run := grammar(ltx.value, parser.partial);
                && (run.error.None? ==> r == Pass && root == Some(run.tree))
                && (run.error.Some? ==> r == Fail(run.error.value) && root == old(root))
    {
      parser.Reset(ltx);
      r := Pass;
      if ltx.Some? && |ltx.value| != 0 {
        r := parser.Parse();
        if r.Pass? {
          root := Some(parser.Get());
        }
      }
    }

    /**
     * `createFont(size, type)`: a fresh font of that size whose flags are
     * set one at a time from the type mask.
     */
    method CreateFont(size: real, fontType: bv32) returns (f: TeXFont)
      ensures fresh(f) && f.size == size
      ensures f.Flags() == FlagsOfType(fontType, fontDefaults)
    {
      f := new TeXFont(size, fontDefaults);
      if fontType == SERIF {
        f.SetSs(false);
      }
      if fontType & ROMAN != 0 {
        f.SetRoman(true);
      }
      if fontType & TYPEWRITER != 0 {
        f.SetTt(true);
      }
      if fontType & SANSSERIF != 0 {
        f.SetSs(true);
      }
      if fontType & ITALIC != 0 {
        f.SetIt(true);
      }
      if fontType & BOLD != 0 {
        f.SetBold(true);
      }
    }
  }

  /** A type of exactly SERIF turns sans-serif off and leaves every other flag as it was. */
  lemma SerifClearsSansSerif(defaults: FontFlags)
    ensures FlagsOfType(SERIF, defaults) == defaults.(ss := false)
  {
  }

  /** Each bit of the mask sets its flag whatever the other bits are, and no bit clears a flag. */
  lemma TypeBitsSetFlags(fontType: bv32, defaults: FontFlags)
    ensures var f := FlagsOfType(fontType, defaults);
      && (fontType & ROMAN != 0 ==> f.roman)
      && (fontType & TYPEWRITER != 0 ==> f.tt)
      && (fontType & SANSSERIF != 0 ==> f.ss)
      && (fontType & ITALIC != 0 ==> f.it)
      && (fontType & BOLD != 0 ==> f.bold)
      && (defaults.roman ==> f.roman) && (defaults.tt ==> f.tt)
      && (defaults.it ==> f.it) && (defaults.bold ==> f.bold)
      && (defaults.ss && fontType != SERIF ==> f.ss)
      && (fontType & ROMAN == 0 ==> f.roman == defaults.roman)
      && (fontType & TYPEWRITER == 0 ==> f.tt == defaults.tt)
      && (fontType & ITALIC == 0 ==> f.it == defaults.it)
      && (fontType & BOLD == 0 ==> f.bold == defaults.bold)
      && (fontType & SANSSERIF == 0 && fontType != SERIF ==> f.ss == defaults.ss)
  {
  }

  // ---------------------------------------------------------------------
  // getAsText

  /** The cell getAsText adds for a line after the first: the line, parsed alone, roman and aligned. */
  function LineCell(grammar: Grammar, line: string, alignment: Align): Atom
  {
    AlignedAtom(RomanAtom(grammar(line, false).tree), alignment)
  }

  /** Parsing the line alone (not partially) succeeds. */
  predicate LineParses(grammar: Grammar, line: string)
  {
    grammar(line, false).error.None?
  }

  /**
   * The cells getAsText adds for the lines after the first: each line's
   * cell followed by a row separator. The first line that does not parse
   * stops it with its error.
   */
  function LaterCells(grammar: Grammar, lines: seq<string>, alignment: Align): Result<seq<Atom>, Error>
    decreases |lines|
  {
    if |lines| == 0 then Ok([])
    else
      match LaterCells(grammar, lines[..|lines| - 1], alignment)
      case Err(e) => Err(e)
      case Ok(cells) =>
        var line := lines[|lines| - 1];
        if !LineParses(grammar, line) then Err(grammar(line, false).error.value)
        else Ok(cells + [LineCell(grammar, line, alignment), RowSep])
  }

  /**
   * The root `getAsText(text, alignment)` gives, or the error it raises:
   * the empty atom for a missing or empty text; otherwise the lines of the
   * text in a checked table of kind ARRAY, under a multline atom. A text
   * that splits into no line at all fails on its first line.
   */
  function AsText(grammar: Grammar, text: Option<string>, alignment: Align): Result<Atom, Error>
  {
    if text.None? || |text.value| == 0 then Ok(EmptyAtom)
    else
      var lines := JavaSplit(text.value);
      if |lines| == 0 then Err(IndexOutOfBounds)
      else
        var first := grammar(lines[0], false);
        if first.error.Some? then Err(first.error.value)
        else
          match LaterCells(grammar, lines[1..], alignment)
          case Err(e) => Err(e)
          case Ok(cells) => Ok(MultlineAtom(ArrayOfAtoms(ARRAY_KIND, [RomanAtom(first.tree)] + cells, false, true)))
  }

  /** One more line that parses adds its cell and a row separator. */
  lemma LaterCellsAppend(grammar: Grammar, lines: seq<string>, line: string, alignment: Align)
    requires LaterCells(grammar, lines, alignment).Ok? && LineParses(grammar, line)
    ensures LaterCells(grammar, lines + [line], alignment)
            == Ok(LaterCells(grammar, lines, alignment).value + [LineCell(grammar, line, alignment), RowSep])
  {
    assert (lines + [line])[..|lines|] == lines;
  }

  /** One more line that does not parse raises its error. */
  lemma LaterCellsAppendFailing(grammar: Grammar, lines: seq<string>, line: string, alignment: Align)
    requires LaterCells(grammar, lines, alignment).Ok? && !LineParses(grammar, line)
    ensures LaterCells(grammar, lines + [line], alignment) == Err(grammar(line, false).error.value)
  {
    assert (lines + [line])[..|lines|] == lines;
  }

  /** The loop's step: line i parses, so the first i + 1 lines add its cell and a row separator. */
  lemma LaterCellsStep(grammar: Grammar, lines: seq<string>, i: nat, alignment: Align)
    requires i < |lines| && LaterCells(grammar, lines[..i], alignment).Ok? && LineParses(grammar, lines[i])
    ensures LaterCells(grammar, lines[..i + 1], alignment)
            == Ok(LaterCells(grammar, lines[..i], alignment).value + [LineCell(grammar, lines[i], alignment), RowSep])
  {
    assert lines[..i + 1] == lines[..i] + [lines[i]];
    LaterCellsAppend(grammar, lines[..i], lines[i], alignment);
  }

  /** The loop's exit on failure: line i fails after the lines before it parsed, so all the lines fail with its error. */
  lemma LaterCellsStopAt(grammar: Grammar, lines: seq<string>, i: nat, alignment: Align)
    requires i < |lines| && LaterCells(grammar, lines[..i], alignment).Ok? && !LineParses(grammar, lines[i])
    ensures LaterCells(grammar, lines, alignment) == Err(grammar(lines[i], false).error.value)
  {
    assert lines[..i + 1] == lines[..i] + [lines[i]];
    LaterCellsAppendFailing(grammar, lines[..i], lines[i], alignment);
    LaterCellsErrorSticks(grammar, lines[..i + 1], lines[i + 1..], alignment);
    assert lines[..i + 1] + lines[i + 1..] == lines;
  }

  /** Once a line fails, the lines after it change nothing: the first error is the one raised. */
  lemma {:induction false} LaterCellsErrorSticks(grammar: Grammar, lines: seq<string>, more: seq<string>, alignment: Align)
    requires LaterCells(grammar, lines, alignment).Err?
    ensures LaterCells(grammar, lines + more, alignment) == LaterCells(grammar, lines, alignment)
    decreases |more|
  {
    if |more| > 0 {
      var shorter := lines + more[..|more| - 1];
      LaterCellsErrorSticks(grammar, lines, more[..|more| - 1], alignment);
      assert (lines + more)[..|lines + more| - 1] == shorter;
    } else {
      assert lines + more == lines;
    }
  }

  /** The later cells exist exactly when every line parses. */
  lemma {:induction false} LaterCellsOkIffAllParse(grammar: Grammar, lines: seq<string>, alignment: Align)
    ensures LaterCells(grammar, lines, alignment).Ok? <==> forall k :: 0 <= k < |lines| ==> LineParses(grammar, lines[k])
    decreases |lines|
  {
    if |lines| > 0 {
      var n := |lines| - 1;
      var init := lines[..n];
      LaterCellsOkIffAllParse(grammar, init, alignment);
      assert forall k :: 0 <= k < n ==> init[k] == lines[k];
      assert lines == init + [lines[n]];
    }
  }

  /** The later cells are two per line: the line's cell, then a row separator. */
  lemma {:induction false} LaterCellsLayout(grammar: Grammar, lines: seq<string>, alignment: Align)
    requires LaterCells(grammar, lines, alignment).Ok?
    ensures var cells := LaterCells(grammar, lines, alignment).value;
      && |cells| == 2 * |lines|
      && forall k :: 0 <= k < |lines| ==> cells[2 * k] == LineCell(grammar, lines[k], alignment) && cells[2 * k + 1] == RowSep
    decreases |lines|
  {
    if |lines| > 0 {
      var n := |lines| - 1;
      var init := lines[..n];
      LaterCellsLayout(grammar, init, alignment);
      var before := LaterCells(grammar, init, alignment).value;
      var cells := LaterCells(grammar, lines, alignment).value;
      assert cells == before + [LineCell(grammar, lines[n], alignment), RowSep];
      forall k | 0 <= k < |lines|
        ensures cells[2 * k] == LineCell(grammar, lines[k], alignment) && cells[2 * k + 1] == RowSep
      {
        if k < n {
          assert init[k] == lines[k];
          assert cells[2 * k] == before[2 * k] && cells[2 * k + 1] == before[2 * k + 1];
        }
      }
    }
  }

  /** A failure is the error of the first line that does not parse. */
  lemma {:induction false} LaterCellsFirstError(grammar: Grammar, lines: seq<string>, alignment: Align)
    requires LaterCells(grammar, lines, alignment).Err?
    ensures exists k :: 0 <= k < |lines| && (forall j :: 0 <= j < k ==> LineParses(grammar, lines[j]))
                        && grammar(lines[k], false).error == Some(LaterCells(grammar, lines, alignment).error)
    decreases |lines|
  {
    var n := |lines| - 1;
    var init := lines[..n];
    assert lines == init + [lines[n]];
    assert forall k :: 0 <= k < n ==> init[k] == lines[k];
    if LaterCells(grammar, init, alignment).Err? {
      LaterCellsFirstError(grammar, init, alignment);
      var k :| 0 <= k < |init| && (forall j :: 0 <= j < k ==> LineParses(grammar, init[j]))
               && grammar(init[k], false).error == Some(LaterCells(grammar, init, alignment).error);
      assert lines[k] == init[k];
    } else {
      LaterCellsOkIffAllParse(grammar, init, alignment);
      assert forall j :: 0 <= j < n ==> LineParses(grammar, lines[j]);
    }
  }

  /** A text present and not empty that holds only line breaks fails on its missing first line. */
  lemma OnlyBreaksFails(grammar: Grammar, text: string, alignment: Align)
    requires |text| > 0 && OnlyBreaks(text)
    ensures AsText(grammar, Some(text), alignment) == Err(IndexOutOfBounds)
  {
    SplitEmptyIffOnlyBreaks(text);
  }

  /** A first line that parses and later lines that give cells: the root getAsText builds from them. */
  lemma AsTextOfLines(grammar: Grammar, text: string, alignment: Align)
    requires |text| > 0 && |JavaSplit(text)| > 0 && LineParses(grammar, JavaSplit(text)[0])
    requires LaterCells(grammar, JavaSplit(text)[1..], alignment).Ok?
    ensures var lines := JavaSplit(text);
      AsText(grammar, Some(text), alignment)
        == Ok(MultlineAtom(ArrayOfAtoms(ARRAY_KIND, [RomanAtom(grammar(lines[0], false).tree)] + LaterCells(grammar, lines[1..], alignment).value, false, true)))
  {
  }

  /**
   * When every line parses, the table holds the first line as a roman
   * atom, then for each later line its cell and a row separator, and its
   * dimensions were checked.
   */
  lemma AsTextLines(grammar: Grammar, text: string, alignment: Align)
    requires |text| > 0 && |JavaSplit(text)| > 0
    requires forall k :: 0 <= k < |JavaSplit(text)| ==> LineParses(grammar, JavaSplit(text)[k])
    ensures var lines := JavaSplit(text);
      var r := AsText(grammar, Some(text), alignment);
      && r.Ok? && r.value.MultlineAtom?
      && var t := r.value.table;
      && t.kind == ARRAY_KIND && t.checked && !t.closed
      && |t.cells| == 2 * |lines| - 1
      && t.cells[0] == RomanAtom(grammar(lines[0], false).tree)
      && forall k :: 1 <= k < |lines| ==> t.cells[2 * k - 1] == LineCell(grammar, lines[k], alignment) && t.cells[2 * k] == RowSep
  {
    var lines := JavaSplit(text);
    TableOfLines(grammar, lines, alignment);
    AsTextOfLines(grammar, text, alignment);
  }

  /** The cells of the table for lines that all parse: the first line roman, then each later line's cell and a row separator. */
  lemma TableOfLines(grammar: Grammar, lines: seq<string>, alignment: Align)
    requires |lines| > 0 && forall k :: 0 <= k < |lines| ==> LineParses(grammar, lines[k])
    ensures LaterCells(grammar, lines[1..], alignment).Ok?
    ensures var all := [RomanAtom(grammar(lines[0], false).tree)] + LaterCells(grammar, lines[1..], alignment).value;
      && |all| == 2 * |lines| - 1
      && forall k :: 1 <= k < |lines| ==> all[2 * k - 1] == LineCell(grammar, lines[k], alignment) && all[2 * k] == RowSep
  {
    var later := lines[1..];
    assert forall k :: 0 <= k < |later| ==> later[k] == lines[k + 1];
    LaterCellsOkIffAllParse(grammar, later, alignment);
    LaterCellsLayout(grammar, later, alignment);
    var cells := LaterCells(grammar, later, alignment).value;
    var all := [RomanAtom(grammar(lines[0], false).tree)] + cells;
    forall k | 1 <= k < |lines|
      ensures all[2 * k - 1] == LineCell(grammar, lines[k], alignment) && all[2 * k] == RowSep
    {
      assert all[2 * k - 1] == cells[2 * (k - 1)];
      assert all[2 * k] == cells[2 * (k - 1) + 1];
    }
  }

  /**
   * `getAsText(text, alignment)`: a fresh formula whose root is built line
   * by line; a line that does not parse raises its error.
   */
  method GetAsText(text: Option<string>, alignment: Align, grammar: Grammar, fontDefaults: FontFlags)
    returns (r: Result<TeXFormula, Error>)
    ensures text.None? || text == Some("") ==> r.Ok? && r.value.root == Some(EmptyAtom)
    ensures r.Ok? ==>
              && fresh(r.value) && r.value.Valid() && fresh(r.value.parser)
              && r.value.grammar == grammar && r.value.fontDefaults == fontDefaults
              && r.value.textStyle == NoTextStyle && !r.value.isColored
              && !r.value.parser.partial && r.value.parser.State() == ParserState([], [], [], [], Some(""), EmptyAtom)
    ensures match AsText(grammar, text, alignment)
            case Ok(a) => r.Ok? && r.value.root == Some(a) && r.value.Valid()
            case Err(e) => r == Err(e)
  {
    var formula := new TeXFormula(grammar, fontDefaults);
    if text.None? || |text.value| == 0 {
      formula.root := Some(EmptyAtom);
      return Ok(formula);
    }
    var lines := JavaSplit(text.value);
    if |lines| == 0 {
      return Err(IndexOutOfBounds);
    }
    var atoms := NewArray(ARRAY_KIND);
    var parser := new TeXParser(false, lines[0], grammar);
    var parsed := parser.Parse();
    if parsed.Fail? {
      return Err(parsed.error);
    }
    atoms := AddItem(atoms, RomanAtom(parser.Get()));
    assert atoms.cells == [RomanAtom(grammar(lines[0], false).tree)];
    var added := AddLaterLines(parser, lines[1..], alignment, atoms);
    if added.Err? {
      return Err(added.error);
    }
    var cells := LaterCells(grammar, lines[1..], alignment).value;
    assert added.value == ArrayOfAtoms(ARRAY_KIND, [RomanAtom(grammar(lines[0], false).tree)] + cells, false, false);
    atoms := added.value.(checked := true);
    formula.root := Some(MultlineAtom(atoms));
    r := Ok(formula);
  }

  /**
   * The loop of getAsText: each later line is parsed in turn, and its cell
   * and a row separator are added to the table; a line that does not parse
   * stops it with its error.
   */
  method AddLaterLines(parser: TeXParser, lines: seq<string>, alignment: Align, atoms: ArrayOfAtoms)
    returns (r: Result<ArrayOfAtoms, Error>)
    requires parser.Valid() && !parser.partial
    modifies parser
    ensures parser.Valid()
    ensures match LaterCells(parser.grammar, lines, alignment)
            case Ok(cells) => r == Ok(atoms.(cells := atoms.cells + cells))
            case Err(e) => r == Err(e)
  {
    var table := atoms;
    var i := 0;
    while i < |lines|
      invariant 0 <= i <= |lines|
      invariant parser.Valid() && !parser.partial
      invariant LaterCells(parser.grammar, lines[..i], alignment).Ok?
      invariant table == atoms.(cells := atoms.cells + LaterCells(parser.grammar, lines[..i], alignment).value)
    {
      parser.Reset(Some(lines[i]));
      var parsed := parser.Parse();
      if parsed.Fail? {
        LaterCellsStopAt(parser.grammar, lines, i, alignment);
        return Err(parsed.error);
      }
      LaterCellsStep(parser.grammar, lines, i, alignment);
      ghost var done := LaterCells(parser.grammar, lines[..i], alignment).value;
      ghost var cell := LineCell(parser.grammar, lines[i], alignment);
      assert parser.Get() == parser.grammar(lines[i], false).tree;
      table := AddItem(table, AlignedAtom(RomanAtom(parser.Get()), alignment));
      table := AddItem(table, RowSep);
      assert table.cells == atoms.cells + (done + [cell, RowSep]);
      i := i + 1;
    }
    assert lines[..i] == lines;
    r := Ok(table);
  }

  /**
   * `getPartialTeXFormula(formula)`: a fresh formula whose root is the
   * empty atom for a missing text, and otherwise whatever tree a partial
   * parse of the text built, whether or not the parse failed.
   */
  method GetPartialTeXFormula(text: Option<string>, grammar: Grammar, fontDefaults: FontFlags) returns (f: TeXFormula)
    ensures f.Valid() && fresh(f) && fresh(f.parser) && f.grammar == grammar
    ensures f.fontDefaults == fontDefaults && f.textStyle == NoTextStyle && !f.isColored
    ensures text.None? ==>
              && f.root == Some(EmptyAtom) && !f.parser.partial
              && f.parser.State() == ParserState([], [], [], [], Some(""), EmptyAtom)
    ensures text.Some? ==>
              && f.root == Some(grammar(text.value, true).tree) && f.parser.partial
              && f.parser.State() == ParserState([], [], [], [], Some(text.value), grammar(text.value, true).tree)
  {
    f := new TeXFormula(grammar, fontDefaults);
    if text.None? {
      f.root := Some(EmptyAtom);
      return;
    }
    var parser := new TeXParser(true, text.value, grammar);
    var _ := parser.Parse();
    f.parser := parser;
    f.root := Some(parser.Get());
  }

  // ---------------------------------------------------------------------
  // TeXIconBuilder

  /** The builder's fields, as one value. */
  datatype Settings = Settings(
    style: Option<int>,
    size: Option<real>,
    fontType: Option<bv32>,
    fgcolor: Option<Color>,
    trueValues: bool,
    widthUnit: Unit,
    textWidth: Option<real>,
    align: Option<Align>,
    isMaxWidth: bool,
    interLineUnit: Unit,
    interLineSpacing: Option<real>)

  const NO_WIDTH_FOR_MAX_WIDTH := "Cannot set 'isMaxWidth' without having specified a width!"
  const NO_WIDTH_FOR_INTERLINE := "Cannot set inter line spacing without having specified a width!"
  const NO_STYLE := "A style is required. Use setStyle()"
  const NO_SIZE := "A size is required. Use setStyle()"

  /** A TeXIconBuilder of a formula. */
  class TeXIconBuilder {
    const formula: TeXFormula
    var style: Option<int>
    var size: Option<real>
    var fontType: Option<bv32>
    var fgcolor: Option<Color>
    var trueValues: bool
    var widthUnit: Unit
    var textWidth: Option<real>
    var align: Option<Align>
    var isMaxWidth: bool
    var interLineUnit: Unit
    var interLineSpacing: Option<real>

    function Current(): Settings
      reads this
    {
      Settings(style, size, fontType, fgcolor, trueValues, widthUnit, textWidth, align, isMaxWidth, interLineUnit, interLineSpacing)
    }

    /** A unit, once set, comes with its value. */
    ghost predicate Valid()
      reads this
    {
      && (widthUnit != NoUnit ==> textWidth.Some?)
      && (interLineUnit != NoUnit ==> interLineSpacing.Some?)
    }

    /** `new TeXIconBuilder()`: nothing set, no width, no inter-line spacing, no true values. */
    constructor (formula: TeXFormula)
      ensures Valid() && this.formula == formula
      ensures Current() == Settings(None, None, None, None, false, NoUnit, None, None, false, NoUnit, None)
    {
      this.formula := formula;
      style, size, fontType, fgcolor := None, None, None, None;
      trueValues, widthUnit, textWidth, align := false, NoUnit, None, None;
      isMaxWidth, interLineUnit, interLineSpacing := false, NoUnit, None;
    }

    method SetStyle(style: int)
      requires Valid()
      modifies this
      ensures Valid() && Current() == old(Current()).(style := Some(style))
    {
      this.style := Some(style);
    }

    method SetSize(size: real)
      requires Valid()
      modifies this
      ensures Valid() && Current() == old(Current()).(size := Some(size))
    {
      this.size := Some(size);
    }

    method SetType(fontType: bv32)
      requires Valid()
      modifies this
      ensures Valid() && Current() == old(Current()).(fontType := Some(fontType))
    {
      this.fontType := Some(fontType);
    }

    /** `setFGColor(c)`; a null colour unsets it. */
    method SetFGColor(fgcolor: Option<Color>)
      requires Valid()
      modifies this
      ensures Valid() && Current() == old(Current()).(fgcolor := fgcolor)
    {
      this.fgcolor := fgcolor;
    }

    method SetTrueValues(trueValues: bool)
      requires Valid()
      modifies this
      ensures Valid() && Current() == old(Current()).(trueValues := trueValues)
    {
      this.trueValues := trueValues;
    }

    /** `setWidth(unit, width, align)`: sets all three and forces true values. */
    method SetWidth(widthUnit: Unit, textWidth: real, align: Align)
      requires Valid()
      modifies this
      ensures Valid()
      ensures Current() == old(Current()).(widthUnit := widthUnit, textWidth := Some(textWidth), align := Some(align), trueValues := true)
    {
      this.widthUnit, this.textWidth, this.align := widthUnit, Some(textWidth), Some(align);
      trueValues := true;
    }

    /**
     * `setIsMaxWidth(b)`: refused while no width unit is set; a maximum
     * width forces the left alignment.
     */
    method SetIsMaxWidth(isMaxWidth: bool) returns (r: Outcome<Error>)
      requires Valid()
      modifies this
      ensures Valid()
      ensures r.Fail? <==> old(widthUnit) == NoUnit
      ensures r.Fail? ==> r.error == IllegalState(NO_WIDTH_FOR_MAX_WIDTH) && Current() == old(Current())
      ensures r.Pass? ==>
                Current() == old(Current()).(isMaxWidth := isMaxWidth, align := if isMaxWidth then Some(Left) else old(align))
    {
      if widthUnit == NoUnit {
        return Fail(IllegalState(NO_WIDTH_FOR_MAX_WIDTH));
      }
      if isMaxWidth {
        align := Some(Left);
      }
      this.isMaxWidth := isMaxWidth;
      r := Pass;
    }

    /** `setInterLineSpacing(unit, spacing)`: refused while no width unit is set. */
    method SetInterLineSpacing(interLineUnit: Unit, interLineSpacing: real) returns (r: Outcome<Error>)
      requires Valid()
      modifies this
      ensures Valid()
      ensures r.Fail? <==> old(widthUnit) == NoUnit
      ensures r.Fail? ==> r.error == IllegalState(NO_WIDTH_FOR_INTERLINE) && Current() == old(Current())
      ensures r.Pass? ==>
                Current() == old(Current()).(interLineUnit := interLineUnit, interLineSpacing := Some(interLineSpacing))
    {
      if widthUnit == NoUnit {
        return Fail(IllegalState(NO_WIDTH_FOR_INTERLINE));
      }
      this.interLineUnit, this.interLineSpacing := interLineUnit, Some(interLineSpacing);
      r := Pass;
    }

    /** The flags of the font build lays out with: the defaults, or those the type mask gives. */
    function FontFlags(): FontFlags
      reads this, formula
    {
      if fontType.None? then formula.fontDefaults else FlagsOfType(fontType.value, formula.fontDefaults)
    }

    /** The environment build lays the formula out in. */
    function LayoutEnv(): Env
      requires Valid() && style.Some? && size.Some?
      reads this, formula
    {
      Env(style.value, FontFlags(), size.value, formula.textStyle,
          if widthUnit != NoUnit then Some((widthUnit, textWidth.value)) else None,
          if interLineUnit != NoUnit then Some((interLineUnit, interLineSpacing.value)) else None)
    }

    /**
     * `build()`: refused without a style or a size. The formula's box is
     * split into lines only when an inter-line spacing is set; when a width
     * is set the result is put in a horizontal box as wide as itself for a
     * maximum width, and as the text width otherwise. The foreground is the
     * one given, if any, and the icon is coloured when the layout was.
     */
    method Build() returns (r: Result<TeXIcon, Error>)
      requires Valid()
      ensures style.None? ==> r == Err(IllegalState(NO_STYLE))
      ensures style.Some? && size.None? ==> r == Err(IllegalState(NO_SIZE))
      ensures r.Ok? <==> style.Some? && size.Some?
      ensures r.Ok? ==>
                var env := LayoutEnv();
                var icon := r.value;
                && icon.size == size.value && icon.trueValues == trueValues
                && icon.foreground == fgcolor && icon.isColored == formula.Colored()
                && (widthUnit == NoUnit ==> icon.box == formula.CreateBox(env))
                && (widthUnit != NoUnit ==>
                      && icon.box.HBox? && icon.box.align == align
                      && icon.box.inner == (if interLineUnit == NoUnit then formula.CreateBox(env)
                                            else Broken(formula.CreateBox(env), TextWidth(env), Interline(interLineSpacing.value, interLineUnit, env)))
                      && icon.box.width == (if isMaxWidth then WidthOf(icon.box.inner) else TextWidth(env)))
    {
      if style.None? {
        return Err(IllegalState(NO_STYLE));
      }
      if size.None? {
        return Err(IllegalState(NO_SIZE));
      }
      var font: FontFlags := formula.fontDefaults;
      if fontType.Some? {
        var f := formula.CreateFont(size.value, fontType.value);
        font := f.Flags();
      }
      var width := if widthUnit != NoUnit then Some((widthUnit, textWidth.value)) else None;
      var te := Env(style.value, font, size.value, formula.textStyle, width, None);
      if interLineUnit != NoUnit {
        te := te.(interline := Some((interLineUnit, interLineSpacing.value)));
      }
      var box := formula.CreateBox(te);
      var icon: TeXIcon;
      if widthUnit != NoUnit {
        var hb: Box;
        if interLineUnit != NoUnit {
          var b := Broken(box, TextWidth(te), Interline(interLineSpacing.value, interLineUnit, te));
          hb := HBox(b, if isMaxWidth then WidthOf(b) else TextWidth(te), align);
        } else {
          hb := HBox(box, if isMaxWidth then WidthOf(box) else TextWidth(te), align);
        }
        icon := TeXIcon(hb, size.value, trueValues, None, false);
      } else {
        icon := TeXIcon(box, size.value, trueValues, None, false);
      }
      if fgcolor.Some? {
        icon := icon.(foreground := fgcolor);
      }
      icon := icon.(isColored := formula.Colored());
      r := Ok(icon);
    }
  }
}
