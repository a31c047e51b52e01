# JLaTeXMath parse-time and front-end core, modelled in Dafny

This project models three pieces of JLaTeXMath, the Java library that parses
LaTeX formulas and lays them out:

- **Environment matching** (`EnvArray.java`). `\begin{name}` pushes a Begin
  marker and a fresh table on the parser's stack of open consumers.
  `\end{name}` closes and pops both, checks their kinds and names, checks the
  table's dimensions, and adds a plain array atom or a fenced matrix to the
  consumer below.
- **The formula front end** (`TeXFormula.java`). It covers:
  - the root atom and its layout (`createBox`);
  - replacing the root from new text (`setLaTeX`);
  - the line-by-line `getAsText` and the error-tolerant `getPartialTeXFormula`;
  - decoding a font type mask (`createFont`);
  - the `TeXIconBuilder`, whose setters guard each other and whose `build`
    chooses the final box.
- **Command wrappers** (`PackagedCommand.java`, `CommandFColorBox.java`,
  `CommandColor.java`). A packaged command forwards every operation to the
  command it wraps. `\fcolorbox` and `\color` read their colour arguments
  from the parser and wrap their body in a frame or colour atom.

Modules:

- `Atoms`: shared values. These are the outcome and error types, colours,
  the atom tree and the `ArrayOfAtoms` table record.
- `Parser`: the `TeXParser` operations the modelled code calls. The parser
  is a class holding:
  - the consumer stack, a sequence of tagged variants;
  - an arena of tables, which consumers refer to by index, so that the Begin
    marker and the table on the stack share one table as the two Java
    references do;
  - the streams of pending colour and column-specification arguments.

  How a text parses is a function `grammar` fixed when the parser is made.
- `LineSplit`: Java's `String.split` with the pattern
  `\n|\\\\|\\cr`. It splits at the leftmost break, never overlaps two
  breaks, and drops trailing empty pieces. The empty text, where the
  pattern matches nowhere, gives the one empty piece.
- `EnvArray`, `TeXFormula`, `PackagedCommand`, `CommandFColorBox`,
  `CommandColor`: one per source file.

Each stateful operation is a method proved against a specification function
or a stated new state. Lemmas about those functions state the properties the
code promises.

## Model

All source paths are under `jlatexmath/src/main/java/org/scilab/forge/jlatexmath/`
and are written out in full below.

| member | source | states |
|---|---|---|
| EnvArray.Begin.Init | jlatexmath/src/main/java/org/scilab/forge/jlatexmath/EnvArray.java:116-124 | Begin's init leaves the parser in the state, and with the result, that `Begin.InitStep` gives for the old state. |
| EnvArray.BeginOptions | jlatexmath/src/main/java/org/scilab/forge/jlatexmath/EnvArray.java:116-119 | Options given at construction are used and no argument is read. Without them exactly one column specification is read, or init fails with a missing argument. |
| EnvArray.BeginPushesMarkerThenArray | jlatexmath/src/main/java/org/scilab/forge/jlatexmath/EnvArray.java:120-123 | Init answers false and pushes exactly two consumers: the Begin marker, then a fresh empty table of the Begin's kind, left on top. The option stream loses its first argument exactly when the Begin has no options of its own. The colour stream, the input and the tree are unchanged. |
| EnvArray.End.Init | jlatexmath/src/main/java/org/scilab/forge/jlatexmath/EnvArray.java:163-187 | End's init leaves the parser in the state, and with the result, that `End.InitStep` gives for the old state. |
| EnvArray.EndRejectsNonArray | jlatexmath/src/main/java/org/scilab/forge/jlatexmath/EnvArray.java:182-183 | A top consumer that is not a table fails with "Close something which is not a <name>", after being popped. |
| EnvArray.EndRejectsNonBegin | jlatexmath/src/main/java/org/scilab/forge/jlatexmath/EnvArray.java:179-180 | A table not sitting on a Begin fails with the same message, both consumers popped. |
| EnvArray.EndRejectsMismatch | jlatexmath/src/main/java/org/scilab/forge/jlatexmath/EnvArray.java:170-171 | A Begin of another name fails with "Close a <begin name> with a <end name>". |
| EnvArray.EndOnMatch | jlatexmath/src/main/java/org/scilab/forge/jlatexmath/EnvArray.java:173-178 | On a match, the Begin's table is checked first. Exactly one atom built over it is added to the consumer below the pair. |
| EnvArray.End.NewI | jlatexmath/src/main/java/org/scilab/forge/jlatexmath/EnvArray.java:196-198 | The plain array atom over the Begin's table and options. |
| EnvArray.End.NewFenced | jlatexmath/src/main/java/org/scilab/forge/jlatexmath/EnvArray.java:189-194 | A matrix over the table between the opening delimiter and the closing one. The closing delimiter defaults to the opening one. |
| EnvArray.EndProducesArrayOrFenced | jlatexmath/src/main/java/org/scilab/forge/jlatexmath/EnvArray.java:174-177 | Without an opening delimiter the result is the plain array atom; with one, the fenced matrix. |
| EnvArray.BeginEndPair | jlatexmath/src/main/java/org/scilab/forge/jlatexmath/EnvArray.java:116-187 | A Begin, any items added to its table, then the End of the same name: the stack is as before the Begin. The consumer on top has received the one atom over the closed, checked table. |
| EnvArray.SeparatorsAndColorMarkers | jlatexmath/src/main/java/org/scilab/forge/jlatexmath/EnvArray.java:52-94 | The two separators are distinct constants. A cell or row colour marker gives back the colour it was built with. |
| LineSplit.DropTrailingEmpty | jlatexmath/src/main/java/org/scilab/forge/jlatexmath/TeXFormula.java:193 | Split keeps a prefix of the pieces that does not end in an empty piece. Every piece dropped is empty. |
| LineSplit.PiecesAroundBreaks | jlatexmath/src/main/java/org/scilab/forge/jlatexmath/TeXFormula.java:193 | There is one piece more than breaks, and every break is a newline, `\\` or `\cr`. |
| LineSplit.SplitRejoins | jlatexmath/src/main/java/org/scilab/forge/jlatexmath/TeXFormula.java:193 | Putting the breaks back between the pieces gives the text again. |
| LineSplit.PiecesHoldNoBreak | jlatexmath/src/main/java/org/scilab/forge/jlatexmath/TeXFormula.java:193 | No piece contains a break at any position. |
| LineSplit.ScanTakesLeftmostBreak | jlatexmath/src/main/java/org/scilab/forge/jlatexmath/TeXFormula.java:193 | The scan cuts at the leftmost break. The first piece is the text up to the first position where a break starts, or the whole text when there is none, and then it is the only piece. The first break is the whole break found there. The remaining pieces and breaks are those of the text after it. |
| LineSplit.SplitEmptyIffOnlyBreaks | jlatexmath/src/main/java/org/scilab/forge/jlatexmath/TeXFormula.java:193 | Split yields no line exactly when the text is not empty and made of breaks alone. |
| LineSplit.NoBreakNoSplit | jlatexmath/src/main/java/org/scilab/forge/jlatexmath/TeXFormula.java:193 | A text without a break is one line, itself; for the empty text that is the one empty piece. |
| TeXFormula.TeXFormula.constructor | jlatexmath/src/main/java/org/scilab/forge/jlatexmath/TeXFormula.java:147-149 | A new formula has no root, no text style, is not coloured, and has a non-partial parser over the empty text. |
| TeXFormula.TeXFormula.CreateBox | jlatexmath/src/main/java/org/scilab/forge/jlatexmath/TeXFormula.java:270-276 | A formula without root lays out as the empty strut. Otherwise the box is its root laid out in the given environment. |
| TeXFormula.TeXFormula.SetLaTeX | jlatexmath/src/main/java/org/scilab/forge/jlatexmath/TeXFormula.java:244-250 | The parser is reset to the new text: its stack, tables and pending arguments are unchanged, and its tree is the parse of the text, or empty when there is no text to parse. Missing or empty text is not parsed: the result is success and the root is unchanged. Other text is parsed: on success the parse becomes the root; on a parse error the root is unchanged and that error is reported. |
| TeXFormula.TeXFormula.CreateFont | jlatexmath/src/main/java/org/scilab/forge/jlatexmath/TeXFormula.java:278-300 | Setting flags one at a time gives a fresh font of the size whose flags are `FlagsOfType` of the mask and the defaults. |
| TeXFormula.SerifClearsSansSerif | jlatexmath/src/main/java/org/scilab/forge/jlatexmath/TeXFormula.java:280-282 | A type of exactly SERIF clears sans-serif and keeps every other default. |
| TeXFormula.TypeBitsSetFlags | jlatexmath/src/main/java/org/scilab/forge/jlatexmath/TeXFormula.java:283-297 | Each of ROMAN, TYPEWRITER, SANSSERIF, ITALIC and BOLD sets its own flag. No bit clears a flag that was set. A flag whose bit is absent keeps its default, except that a type of exactly SERIF clears sans-serif. |
| TeXFormula.GetAsText | jlatexmath/src/main/java/org/scilab/forge/jlatexmath/TeXFormula.java:186-208 | Missing or empty text gives the empty atom as root. Otherwise the root, or the error, is what `AsText` gives. A formula returned is fresh, like `new TeXFormula()`: it has the given grammar and font defaults, no text style, is not coloured, and has a fresh non-partial parser over the empty text. |
| TeXFormula.AddLaterLines | jlatexmath/src/main/java/org/scilab/forge/jlatexmath/TeXFormula.java:198-203 | The loop adds exactly the cells `LaterCells` gives for the later lines, or stops with its error. |
| TeXFormula.LaterCellsErrorSticks | jlatexmath/src/main/java/org/scilab/forge/jlatexmath/TeXFormula.java:198-203 | Once a line fails, the lines after it change nothing. |
| TeXFormula.LaterCellsOkIffAllParse | jlatexmath/src/main/java/org/scilab/forge/jlatexmath/TeXFormula.java:198-203 | The later lines give cells exactly when every one of them parses. |
| TeXFormula.LaterCellsLayout | jlatexmath/src/main/java/org/scilab/forge/jlatexmath/TeXFormula.java:198-203 | Two cells per later line: the line as an aligned roman atom, then a row separator. |
| TeXFormula.LaterCellsFirstError | jlatexmath/src/main/java/org/scilab/forge/jlatexmath/TeXFormula.java:198-203 | The error raised is that of the first later line that does not parse. |
| TeXFormula.OnlyBreaksFails | jlatexmath/src/main/java/org/scilab/forge/jlatexmath/TeXFormula.java:193-195 | Non-empty text made only of breaks splits into no line, so reading its first line fails. |
| TeXFormula.AsTextLines | jlatexmath/src/main/java/org/scilab/forge/jlatexmath/TeXFormula.java:193-205 | When every line parses, the root is a multline atom over a checked table of kind ARRAY. The table holds the first line as a roman atom, then for each later line its aligned roman atom and a row separator: 2n-1 cells for n lines. |
| TeXFormula.GetPartialTeXFormula | jlatexmath/src/main/java/org/scilab/forge/jlatexmath/TeXFormula.java:214-229 | Missing text gives the empty atom as root and keeps the fresh non-partial parser over the empty text. Otherwise the formula keeps the fresh partial parser over the text: nothing on its stack or in its argument streams, and its tree is the partial parse of the text, whether or not the parse failed. That tree is the root. In both cases the formula is fresh, with the given font defaults, no text style, and not coloured. |
| TeXFormula.TeXIconBuilder.constructor | jlatexmath/src/main/java/org/scilab/forge/jlatexmath/TeXFormula.java:308-318 | A new builder has nothing set, no width or inter-line unit, and no true values. |
| TeXFormula.TeXIconBuilder.SetStyle | jlatexmath/src/main/java/org/scilab/forge/jlatexmath/TeXFormula.java:325-328 | Sets the style and nothing else. |
| TeXFormula.TeXIconBuilder.SetSize | jlatexmath/src/main/java/org/scilab/forge/jlatexmath/TeXFormula.java:335-338 | Sets the size and nothing else. |
| TeXFormula.TeXIconBuilder.SetType | jlatexmath/src/main/java/org/scilab/forge/jlatexmath/TeXFormula.java:345-348 | Sets the font type and nothing else. |
| TeXFormula.TeXIconBuilder.SetFGColor | jlatexmath/src/main/java/org/scilab/forge/jlatexmath/TeXFormula.java:355-358 | Sets the foreground, or unsets it for null, and nothing else. |
| TeXFormula.TeXIconBuilder.SetTrueValues | jlatexmath/src/main/java/org/scilab/forge/jlatexmath/TeXFormula.java:365-368 | Sets the true-values flag and nothing else. |
| TeXFormula.TeXIconBuilder.SetWidth | jlatexmath/src/main/java/org/scilab/forge/jlatexmath/TeXFormula.java:377-383 | Sets the width unit, width and alignment, and forces true values. |
| TeXFormula.TeXIconBuilder.SetIsMaxWidth | jlatexmath/src/main/java/org/scilab/forge/jlatexmath/TeXFormula.java:390-414 | Fails with "Cannot set 'isMaxWidth' without having specified a width!", changing nothing, exactly when no width unit is set. Otherwise sets the flag; a maximum width forces the left alignment. |
| TeXFormula.TeXIconBuilder.SetInterLineSpacing | jlatexmath/src/main/java/org/scilab/forge/jlatexmath/TeXFormula.java:422-429 | Fails with "Cannot set inter line spacing without having specified a width!", changing nothing, exactly when no width unit is set. Otherwise sets the unit and value. |
| TeXFormula.TeXIconBuilder.Build | jlatexmath/src/main/java/org/scilab/forge/jlatexmath/TeXFormula.java:436-475 | Fails with "A style is required. Use setStyle()" or "A size is required. Use setStyle()" when style or size is missing, succeeds otherwise. The icon has the size, true values, the foreground if one was given, and the formula's colouring. Lines are split only when an inter-line spacing is set. With a width the box is a horizontal box with the builder's alignment, as wide as its content for a maximum width and as the text width otherwise. |
| PackagedCommand.PackagedCommand.constructor | jlatexmath/src/main/java/org/scilab/forge/jlatexmath/PackagedCommand.java:53-56 | Stores the command and the package, both final. |
| PackagedCommand.PackagedCommand.GetPackage | jlatexmath/src/main/java/org/scilab/forge/jlatexmath/PackagedCommand.java:58-60 | The package given at construction. |
| PackagedCommand.PackagedCommand.Init | jlatexmath/src/main/java/org/scilab/forge/jlatexmath/PackagedCommand.java:62-65 | Returns what the wrapped command's init returns. The wrapped command receives that one call with the same parser. |
| PackagedCommand.PackagedCommand.Add | jlatexmath/src/main/java/org/scilab/forge/jlatexmath/PackagedCommand.java:67-70 | The wrapped command receives add with the same parser and atom, and nothing else happens. |
| PackagedCommand.PackagedCommand.Clone | jlatexmath/src/main/java/org/scilab/forge/jlatexmath/PackagedCommand.java:72-75 | A new wrapper with the same package around a copy of the wrapped command in the same state, never the original. |
| PackagedCommand.PackagedCommand.GetLastAtom | jlatexmath/src/main/java/org/scilab/forge/jlatexmath/PackagedCommand.java:77-80 | Exactly what the wrapped command's getLastAtom answers. |
| PackagedCommand.PackagedCommand.Close | jlatexmath/src/main/java/org/scilab/forge/jlatexmath/PackagedCommand.java:82-85 | Returns what the wrapped close returns, after forwarding the one call. |
| PackagedCommand.PackagedCommand.IsClosable | jlatexmath/src/main/java/org/scilab/forge/jlatexmath/PackagedCommand.java:87-90 | The wrapped command's answer. |
| PackagedCommand.PackagedCommand.Steal | jlatexmath/src/main/java/org/scilab/forge/jlatexmath/PackagedCommand.java:92-95 | Returns what the wrapped steal returns, after forwarding the one call. |
| PackagedCommand.PackagedCommand.IsArray | jlatexmath/src/main/java/org/scilab/forge/jlatexmath/PackagedCommand.java:97-100 | The wrapped command's answer. |
| PackagedCommand.PackagedCommand.IsAmpersandAllowed | jlatexmath/src/main/java/org/scilab/forge/jlatexmath/PackagedCommand.java:102-105 | The wrapped command's answer. |
| PackagedCommand.PackagedCommand.IsHandlingArg | jlatexmath/src/main/java/org/scilab/forge/jlatexmath/PackagedCommand.java:107-110 | The wrapped command's answer. |
| PackagedCommand.PackagedCommand.LBrace | jlatexmath/src/main/java/org/scilab/forge/jlatexmath/PackagedCommand.java:112-115 | Forwards lbrace with the same parser, and nothing else happens. |
| PackagedCommand.PackagedCommand.RBrace | jlatexmath/src/main/java/org/scilab/forge/jlatexmath/PackagedCommand.java:117-120 | Forwards rbrace with the same parser, and nothing else happens. |
| CommandFColorBox.CommandFColorBox.constructor | jlatexmath/src/main/java/org/scilab/forge/jlatexmath/commands/CommandFColorBox.java:14-16 | No colour is set yet. |
| CommandFColorBox.CommandFColorBox.WithColors | jlatexmath/src/main/java/org/scilab/forge/jlatexmath/commands/CommandFColorBox.java:18-21 | Stores the frame colour and the background as given. |
| CommandFColorBox.CommandFColorBox.Init | jlatexmath/src/main/java/org/scilab/forge/jlatexmath/commands/CommandFColorBox.java:23-28 | Reads the first colour argument into the frame, then the second into the background, and answers true. A missing argument stops it, keeping what was read before. |
| CommandFColorBox.CommandFColorBox.NewI | jlatexmath/src/main/java/org/scilab/forge/jlatexmath/commands/CommandFColorBox.java:30-33 | A frame box around the argument, with the background and the frame colour in that order. |
| CommandFColorBox.CommandFColorBox.Duplicate | jlatexmath/src/main/java/org/scilab/forge/jlatexmath/commands/CommandFColorBox.java:35-38 | A new command with the same frame and background. |
| CommandFColorBox.FColorBox | jlatexmath/src/main/java/org/scilab/forge/jlatexmath/commands/CommandFColorBox.java:23-33 | Start to finish: colours c1 then c2 give the answer true and a frame box with background c2 and frame c1. Fewer than two colours is a missing argument. |
| CommandFColorBox.DuplicateBuildsSame | jlatexmath/src/main/java/org/scilab/forge/jlatexmath/commands/CommandFColorBox.java:30-38 | A duplicate builds the same atom as its original. |
| CommandColor.CommandColor.constructor | jlatexmath/src/main/java/org/scilab/forge/jlatexmath/commands/CommandColor.java:13-15 | Neither size nor foreground is set until init runs. |
| CommandColor.CommandColor.WithColor | jlatexmath/src/main/java/org/scilab/forge/jlatexmath/commands/CommandColor.java:17-20 | Stores the size and the foreground as given. |
| CommandColor.CommandColor.Init | jlatexmath/src/main/java/org/scilab/forge/jlatexmath/commands/CommandColor.java:22-26 | Reads the foreground first, then runs the style command's init and returns exactly its answer, false. A missing colour stops it before the style command starts. |
| CommandColor.CommandColor.NewI | jlatexmath/src/main/java/org/scilab/forge/jlatexmath/commands/CommandColor.java:28-31 | A colour atom around the argument, with no background and the stored foreground; it marks the layout as coloured. |
| CommandColor.ColorCommand | jlatexmath/src/main/java/org/scilab/forge/jlatexmath/commands/CommandColor.java:22-31 | Start to finish: a colour c gives the style command's answer and a colour atom with foreground c. No colour is a missing argument. |

## Left out

- Image output (`createImage`, `createPNG`, `createGIF`, `createJPEG`, both `createBufferedImage`), `setDEBUG`, `registerFonts`, `setDPITarget` and `setDefaultDPI`. These are AWT drawing, file I/O, font registration and screen queries.
- The other `TeXFormula` constructors and `centerOnAxis`, `getAtom` and the `createTeXIcon` overloads. They parse eagerly or chain builder calls that are modelled individually.
- `web/CreateLibrary.java`: browser glue, outside this model.
- The inside of `TeXParser`: lexing, macro expansion and argument parsing. A text's parse is the `grammar` function; colour and column-specification arguments are pre-read streams. TeXParser.java is not part of this model.
- `ArrayOfAtoms.checkDimensions` only marks the table as checked. Its own errors about inconsistent rows or columns are not modelled. ArrayOfAtoms.java is not part of this model.
- `TeXParser.close()`: on a table it marks the table closed; on any other consumer it is a no-op. A Begin marker on top of the stack ignores atoms added to it.
- CommandColor.CommandColor.StyleInit: the style command's init is modelled as pushing the command as a fresh consumer and answering false. Stealing the preceding row into `size` is not modelled. CommandStyle.java is not part of this model.
- EnvArray.Begin: in Java a Begin object's options, table and column count are mutable fields that init assigns. The model records those assignments in the marker init pushes, and the Begin value itself never changes. So initialising the same Begin object twice, where the second init would start from the options the first one read, is not modelled.
- `ColSep.get()` and `RowSep.get()` return one shared instance each. Here they are nullary constructors, so object identity is not modelled, only equality.
- TeXFormula.TeXIconBuilder.Build: boxes, widths and the inter-line spacing are records of what they were built from. The float arithmetic `interLineSpacing * getFactor(unit, env)`, `BreakFormula.split` and `HorizontalBox` layout are not computed.
- TeXFormula.TeXFormula.CreateBox: `Laid(a, env)` records the atom and environment instead of computing a box. So the model does not identify the layout of an `EmptyAtom` root, which is an empty strut in the library, with `EmptyStrut`. The contract only promises the empty strut for a formula without root.
- TeXFormula.TeXFormula.Colored: whether layout marks the environment as coloured is taken to be "a colour atom occurs in the root". The per-atom `createBox` methods that set the flag are not part of this model.
- TeXFormula.TeXFormula.CreateFont: the flags of a freshly made `TeXFont` are the formula's `fontDefaults` parameter. TeXFont.java is not part of this model; its type constants are SERIF 0, SANSSERIF 1, BOLD 2, ITALIC 4, ROMAN 8, TYPEWRITER 16.
- PackagedCommand.Command: the wrapped command is a stand-in for any command. Its operations may change the parser they are given; nothing is promised about the parser except that it stays well formed. It records the calls it receives, answers `init`, `close`, `steal` and the `is…` queries from values fixed when it is made, and its clone copies that state.
- PackagedCommand.Command.GetLastAtom: the stand-in reports the last atom added to it. A real command may report something else, for example an atom it built from its argument; the wrapper's contracts do not depend on this choice.
- Errors thrown by the Java code become `Err`/`Fail` results. Text that splits into no line at all (for example `"\n"`) makes `getAsText` read past the end of the split result; that is modelled as `IndexOutOfBounds`.
- Colours are opaque values; no colour arithmetic.
