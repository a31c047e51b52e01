/**
 * An abstract TeXParser: only the operations the modelled code calls.
 *
 * - The stack of open consumers is a sequence of tagged variants, its top
 *   at the end.
 * - Tables under construction live in an arena (`arrays`); a consumer that
 *   is a table, and the Begin marker that owns it, refer to it by index, so
 *   that both see the same table, as both Java references do.
 * - The arguments still to be read (colours, array column specifications)
 *   are streams consumed from the front.
 * - How a text parses is a function `grammar` given to the parser: for a
 *   text and the partial flag it yields the tree built and the error raised.
 */
module Parser {
  import opened Atoms

  datatype Consumer =
    | Group(atoms: seq<Atom>)      // a brace group, the formula's row, or another command collecting atoms
    | ArrayBuilder(ref: nat)       // an ArrayOfAtoms, by its index in the arena
    | BeginMarker(name: string, kind: int, options: ArrayOptions, ref: nat)  // an initialised EnvArray.Begin

  /** The outcome of parsing one text: the tree built so far, and the error, if any. */
  datatype ParseRun = ParseRun(tree: Atom, error: Option<Error>)

  type Grammar = (string, bool) -> ParseRun

  /** Everything about the parser that the modelled operations read or change. */
  datatype ParserState = ParserState(
    stack: seq<Consumer>,
    arrays: seq<ArrayOfAtoms>,
    colorArgs: seq<Color>,
    optionArgs: seq<ArrayOptions>,
    input: Option<string>,
    tree: Atom)

  predicate RefersWithin(c: Consumer, n: nat)
  {
    match c
    case Group(_) => true
    case ArrayBuilder(r) => r < n
    case BeginMarker(_, _, _, r) => r < n
  }

  /** Every table a consumer refers to exists. */
  predicate WellFormed(s: ParserState)
  {
    forall i :: 0 <= i < |s.stack| ==> RefersWithin(s.stack[i], |s.arrays|)
  }

  /** The state with `c` pushed on the consumer stack. */
  function Push(s: ParserState, c: Consumer): ParserState
  {
    s.(stack := s.stack + [c])
  }

  /** The effect of `close()`: the table on top, if any, is marked closed. */
  function CloseTop(s: ParserState): (r: ParserState)
    requires WellFormed(s)
    ensures WellFormed(r) && r.stack == s.stack && |r.arrays| == |s.arrays|
  {
    if |s.stack| > 0 && s.stack[|s.stack| - 1].ArrayBuilder? then
      var k := s.stack[|s.stack| - 1].ref;
      s.(arrays := s.arrays[k := s.arrays[k].(closed := true)])
    else s
  }

  /** The effect of `checkDimensions()` on table `k`. */
  function CheckArray(s: ParserState, k: nat): (r: ParserState)
    requires k < |s.arrays|
  {
    s.(arrays := s.arrays[k := s.arrays[k].(checked := true)])
  }

  /**
   * The effect of `addToConsumer(a)`: the consumer on top receives `a`. A
   * group appends it, a table appends it as its next item, and a Begin
   * marker, which collects nothing, leaves it.
   */
  function AddToTop(s: ParserState, a: Atom): (r: Result<ParserState, Error>)
    requires WellFormed(s)
    ensures r.Ok? <==> |s.stack| > 0
    ensures r.Err? ==> r.error == EmptyStack
    ensures r.Ok? ==> WellFormed(r.value) && |r.value.stack| == |s.stack| && |r.value.arrays| == |s.arrays|
  {
    if |s.stack| == 0 then Err(EmptyStack)
    else
      var n := |s.stack| - 1;
      match s.stack[n]
      case Group(atoms) => Ok(s.(stack := s.stack[n := Group(atoms + [a])]))
      case ArrayBuilder(k) => Ok(s.(arrays := s.arrays[k := AddItem(s.arrays[k], a)]))
      case BeginMarker(_, _, _, _) => Ok(s)
  }

  class TeXParser {
    var stack: seq<Consumer>
    var arrays: seq<ArrayOfAtoms>
    var colorArgs: seq<Color>
    var optionArgs: seq<ArrayOptions>
    var input: Option<string>
    var tree: Atom
    const partial: bool
    const grammar: Grammar

    function State(): ParserState
      reads this
    {
      ParserState(stack, arrays, colorArgs, optionArgs, input, tree)
    }

    ghost predicate Valid()
      reads this
    {
      WellFormed(State())
    }

    /** `new TeXParser(partial, text)`: nothing parsed yet, no consumer or argument pending. */
    constructor (partial: bool, text: string, grammar: Grammar)
      ensures Valid()
      ensures State() == ParserState([], [], [], [], Some(text), EmptyAtom)
      ensures this.partial == partial && this.grammar == grammar
    {
      stack, arrays, colorArgs, optionArgs := [], [], [], [];
      input, tree := Some(text), EmptyAtom;
      this.partial, this.grammar := partial, grammar;
    }

    /** A parser in the middle of a parse, with the given consumers and pending arguments. */
    constructor Resume(s: ParserState, grammar: Grammar)
      requires WellFormed(s)
      ensures Valid() && State() == s && !partial && this.grammar == grammar
    {
      stack, arrays, colorArgs, optionArgs := s.stack, s.arrays, s.colorArgs, s.optionArgs;
      input, tree := s.input, s.tree;
      partial, this.grammar := false, grammar;
    }

    /** `addConsumer(c)`. */
    method AddConsumer(c: Consumer)
      requires Valid() && RefersWithin(c, |arrays|)
      modifies this
      ensures Valid() && State() == Push(old(State()), c)
    {
      stack := stack + [c];
    }

    /** `pop()`: removes and returns the top consumer; an empty stack is an error. */
    method Pop() returns (r: Result<Consumer, Error>)
      requires Valid()
      modifies this
      ensures Valid()
      ensures r.Ok? <==> |old(stack)| > 0
      ensures r.Err? ==> r.error == EmptyStack && State() == old(State())
      ensures r.Ok? ==> r.value == old(stack)[|old(stack)| - 1] && RefersWithin(r.value, |arrays|)
      ensures r.Ok? ==> State() == old(State()).(stack := old(stack)[..|old(stack)| - 1])
    {
      if |stack| == 0 {
        return Err(EmptyStack);
      }
      r := Ok(stack[|stack| - 1]);
      stack := stack[..|stack| - 1];
    }

    /** `close()`: the consumer on top is told to finish. */
    method Close()
      requires Valid()
      modifies this
      ensures Valid() && State() == CloseTop(old(State()))
    {
      if |stack| > 0 && stack[|stack| - 1].ArrayBuilder? {
        var k := stack[|stack| - 1].ref;
        arrays := arrays[k := arrays[k].(closed := true)];
      }
    }

    /** `new ArrayOfAtoms(kind)`: a fresh table, returned by its arena index. */
    method NewArrayOfAtoms(kind: int) returns (k: nat)
      requires Valid()
      modifies this
      ensures Valid() && k == |old(arrays)|
      ensures State() == old(State()).(arrays := old(arrays) + [NewArray(kind)])
    {
      k := |arrays|;
      arrays := arrays + [NewArray(kind)];
    }

    /** `checkDimensions()` on table `k`. */
    method CheckDimensions(k: nat)
      requires Valid() && k < |arrays|
      modifies this
      ensures Valid() && State() == CheckArray(old(State()), k)
    {
      arrays := arrays[k := arrays[k].(checked := true)];
    }

    /** `addToConsumer(a)`. */
    method AddToConsumer(a: Atom) returns (r: Outcome<Error>)
      requires Valid()
      modifies this
      ensures Valid()
      ensures match AddToTop(old(State()), a)
              case Ok(s) => r == Pass && State() == s
              case Err(e) => r == Fail(e) && State() == old(State())
    {
      if |stack| == 0 {
        return Fail(EmptyStack);
      }
      var n := |stack| - 1;
      match stack[n] {
        case Group(atoms) => stack := stack[n := Group(atoms + [a])];
        case ArrayBuilder(k) => arrays := arrays[k := AddItem(arrays[k], a)];
        case BeginMarker(_, _, _, _) =>
      }
      r := Pass;
    }

    /** `getArrayOptions()`: the next column specification. */
    method GetArrayOptions() returns (r: Result<ArrayOptions, Error>)
      requires Valid()
      modifies this
      ensures Valid()
      ensures |old(optionArgs)| == 0 ==> r == Err(MissingArgument) && State() == old(State())
      ensures |old(optionArgs)| > 0 ==>
                r == Ok(old(optionArgs)[0]) && State() == old(State()).(optionArgs := old(optionArgs)[1..])
    {
      if |optionArgs| == 0 {
        return Err(MissingArgument);
      }
      r := Ok(optionArgs[0]);
      optionArgs := optionArgs[1..];
    }

    /** `getArgAsColor()`, and `CommandDefinecolor.getColor`: the next colour argument. */
    method GetArgAsColor() returns (r: Result<Color, Error>)
      requires Valid()
      modifies this
      ensures Valid()
      ensures |old(colorArgs)| == 0 ==> r == Err(MissingArgument) && State() == old(State())
      ensures |old(colorArgs)| > 0 ==>
                r == Ok(old(colorArgs)[0]) && State() == old(State()).(colorArgs := old(colorArgs)[1..])
    {
      if |colorArgs| == 0 {
        return Err(MissingArgument);
      }
      r := Ok(colorArgs[0]);
      colorArgs := colorArgs[1..];
    }

    /** `reset(text)`: a new text to parse; the tree built so far is dropped. */
    method Reset(text: Option<string>)
      requires Valid()
      modifies this
      ensures Valid() && State() == old(State()).(input := text, tree := EmptyAtom)
    {
      input, tree := text, EmptyAtom;
    }

    /** `parse()`: builds the tree of the current text; reports the error raised, if any. */
    method Parse() returns (r: Outcome<Error>)
      requires Valid() && input.Some?
      modifies this
      ensures Valid()
      ensures State() == old(State()).(tree := grammar(old(input).value, partial).tree)
      ensures r == match grammar(old(input).value, partial).error
                   case None => Pass
                   case Some(e) => Fail(e)
    {
      var run := grammar(input.value, partial);
      tree := run.tree;
      r := if run.error.Some? then Fail(run.error.value) else Pass;
    }

    /** `get()`: the tree built. */
    function Get(): Atom
      reads this
    {
      tree
    }
  }
}
