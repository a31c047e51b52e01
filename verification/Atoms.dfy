/**
 * Values shared by the parse-time and front-end model of JLaTeXMath:
 * outcomes and errors, colours, symbols, array options and the atom tree.
 * Atoms are immutable once built, so they are plain datatype values.
 */
module Atoms {

  datatype Option<+T> = None | Some(value: T)

  datatype Result<+T, +E> = Ok(value: T) | Err(error: E)

  datatype Outcome<+E> = Pass | Fail(error: E)

  /** The failures the modelled code raises or lets through. */
  datatype Error =
    | ParseException(message: string)   // a ParseException with its message
    | MissingArgument                   // the parser found no argument where one was required
    | EmptyStack                        // a pop from (or an add to) an empty consumer stack
    | IndexOutOfBounds                  // an array read past its end
    | IllegalState(message: string)     // an IllegalStateException with its message

  /** A colour, kept opaque: no colour arithmetic is modelled. */
  datatype Color = Color(rgba: nat)

  /** A delimiter symbol, as SymbolAtom.get returns it for a name. */
  datatype Symbol = Symbol(name: string)

  /** The column specification of an array environment, kept opaque. */
  datatype ArrayOptions = ArrayOptions(spec: string)

  datatype Align = Left | Center | Right

  /** The kind ArrayAtom.ARRAY that getAsText gives its table. */
  const ARRAY_KIND: int := 0

  /**
   * The abstract syntax tree. `RowAtom` stands for any tree the parser
   * builds; the other variants are the atoms the modelled code creates.
   * The boolean `flag` of ArrayAtom and SMatrixAtom is the constructor's
   * last argument, which the modelled code passes as a constant.
   */
  datatype Atom =
    | EmptyAtom
    | ColSep                       // EnvArray.ColSep: the one column separator
    | RowSep                       // EnvArray.RowSep: the one row separator
    | CellColor(color: Color)      // EnvArray.CellColor: background of one cell
    | RowColor(color: Color)       // EnvArray.RowColor: background of one row
    | RowAtom(children: seq<Atom>)
    | RomanAtom(body: Atom)
    | AlignedAtom(body: Atom, align: Align)
    | ArrayAtom(table: ArrayOfAtoms, options: ArrayOptions, flag: bool)
    | SMatrixAtom(table: ArrayOfAtoms, flag: bool)
    | FencedAtom(body: Atom, left: Symbol, right: Symbol)
    | MultlineAtom(table: ArrayOfAtoms)
    | ColorAtom(body: Atom, background: Option<Color>, foreground: Option<Color>)
    | FBoxAtom(body: Atom, background: Option<Color>, frame: Option<Color>)

  /**
   * A table under construction: the atoms added to it in order (cells and
   * ColSep/RowSep markers), whether it was closed by the parser and whether
   * its dimensions were checked.
   */
  datatype ArrayOfAtoms = ArrayOfAtoms(kind: int, cells: seq<Atom>, closed: bool, checked: bool)

  /** A fresh, empty table of the given kind (`new ArrayOfAtoms(type)`). */
  function NewArray(kind: int): ArrayOfAtoms
  {
    ArrayOfAtoms(kind, [], false, false)
  }

  /** The table after `add(a)`: one more item at its end. */
  function AddItem(arr: ArrayOfAtoms, a: Atom): ArrayOfAtoms
  {
    arr.(cells := arr.cells + [a])
  }

  /**
   * Whether laying the atom out marks the environment as coloured: some
   * colour atom occurs in the tree.
   */
  predicate UsesColor(a: Atom)
    decreases a
  {
    match a
    case ColorAtom(_, _, _) => true
    case RowAtom(cs) => exists i :: 0 <= i < |cs| && UsesColor(cs[i])
    case RomanAtom(b) => UsesColor(b)
    case AlignedAtom(b, _) => UsesColor(b)
    case FencedAtom(b, _, _) => UsesColor(b)
    case FBoxAtom(b, _, _) => UsesColor(b)
    case ArrayAtom(arr, _, _) => exists i :: 0 <= i < |arr.cells| && UsesColor(arr.cells[i])
    case SMatrixAtom(arr, _) => exists i :: 0 <= i < |arr.cells| && UsesColor(arr.cells[i])
    case MultlineAtom(arr) => exists i :: 0 <= i < |arr.cells| && UsesColor(arr.cells[i])
    case _ => false
  }
}
