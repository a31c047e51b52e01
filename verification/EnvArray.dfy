/**
 * Matching of environment begin and end commands (`\begin{name}` …
 * `\end{name}`) over the parser's stack of open consumers.
 *
 * Begin and End are datatype values. End's fields are final. Begin's
 * options, table and column count are not: its init assigns the options
 * and the table. The model records those assignments in the BeginMarker
 * that init pushes, which stands for the Begin object as the stack holds
 * it. A Begin value itself never changes, so initialising the same Begin
 * object a second time, which would start from the options read the first
 * time, is not modelled.
 * Each init is a method on the parser proved against a function giving its
 * result and the parser's new state (`InitStep`); the lemmas after the
 * datatypes state what those functions promise.
 *
 * ColSep, RowSep, CellColor and RowColor are variants of Atoms.Atom.
 */
module EnvArray {
  import opened Atoms
  import opened Parser

  /** What an init leaves behind: its result and the parser's new state. */
  datatype Step = Step(result: Result<bool, Error>, state: ParserState)

  /** The state with its top consumer removed. */
  function DropTop(s: ParserState): (r: ParserState)
    requires |s.stack| > 0
  {
    s.(stack := s.stack[..|s.stack| - 1])
  }

  datatype Begin = Begin(name: string, kind: int, opt: Option<ArrayOptions>) {

    /** The options the initialised Begin carries, when it can be initialised. */
    function ChosenOptions(s: ParserState): ArrayOptions
      requires opt.Some? || |s.optionArgs| > 0
    {
      if opt.Some? then opt.value else s.optionArgs[0]
    }

    function InitStep(s: ParserState): (st: Step)
      requires WellFormed(s)
      ensures WellFormed(st.state)
    {
      if opt.None? && |s.optionArgs| == 0 then Step(Err(MissingArgument), s)
      else
        var s1 := if opt.Some? then s else s.(optionArgs := s.optionArgs[1..]);
        var k := |s1.arrays|;
        var s2 := s1.(arrays := s1.arrays + [NewArray(kind)]);
        Step(Ok(false), Push(Push(s2, BeginMarker(name, kind, ChosenOptions(s), k)), ArrayBuilder(k)))
    }

    /** `Begin.init(tp)`. */
    method Init(tp: TeXParser) returns (r: Result<bool, Error>)
      requires tp.Valid()
      modifies tp
      ensures tp.Valid()
      ensures Step(r, tp.State()) == InitStep(old(tp.State()))
    {
      var options: ArrayOptions;
      if opt.Some? {
        options := opt.value;
      } else {
        var got := tp.GetArrayOptions();
        if got.Err? {
          return Err(got.error);
        }
        options := got.value;
      }
      var k := tp.NewArrayOfAtoms(kind);
      tp.AddConsumer(BeginMarker(name, kind, options, k));
      tp.AddConsumer(ArrayBuilder(k));
      r := Ok(false);
    }
  }

  datatype End = End(name: string, op: Option<string>, cl: Option<string>) {

    function NotA(): Error
    {
      ParseException("Close something which is not a " + name)
    }

    function Mismatch(begun: string): Error
    {
      ParseException("Close a " + begun + " with a " + name)
    }

    /** `newI`: the plain array atom over the Begin's table and options. */
    function NewI(table: ArrayOfAtoms, options: ArrayOptions): (a: Atom)
      ensures a.ArrayAtom? && a.table == table && a.options == options
    {
      ArrayAtom(table, options, true)
    }

    /**
     * `newFenced`: the table as a matrix between two delimiters; the
     * closing delimiter is the opening one unless another was given.
     */
    function NewFenced(table: ArrayOfAtoms): (a: Atom)
      requires op.Some?
      ensures a.FencedAtom? && a.body == SMatrixAtom(table, false)
      ensures a.left == Symbol(op.value)
      ensures cl.None? ==> a.right == a.left
      ensures cl.Some? ==> a.right == Symbol(cl.value)
    {
      var left := Symbol(op.value);
      var right := if cl.None? then left else Symbol(cl.value);
      FencedAtom(SMatrixAtom(table, false), left, right)
    }

    /** The atom a matching End adds: plain without an opening delimiter, fenced with one. */
    function Produce(table: ArrayOfAtoms, options: ArrayOptions): Atom
    {
      if op.None? then NewI(table, options) else NewFenced(table)
    }

    function InitStep(s: ParserState): (st: Step)
      requires WellFormed(s)
      ensures WellFormed(st.state)
    {
      var s1 := CloseTop(s);
      if |s1.stack| == 0 then Step(Err(EmptyStack), s1)
      else
        var ac := s1.stack[|s1.stack| - 1];
        var s2 := DropTop(s1);
        if !ac.ArrayBuilder? then Step(Err(NotA()), s2)
        else if |s2.stack| == 0 then Step(Err(EmptyStack), s2)
        else
          var c := s2.stack[|s2.stack| - 1];
          var s3 := DropTop(s2);
          if !c.BeginMarker? then Step(Err(NotA()), s3)
          else if name != c.name then Step(Err(Mismatch(c.name)), s3)
          else
            var s4 := CheckArray(s3, c.ref);
            match AddToTop(s4, Produce(s4.arrays[c.ref], c.options))
            case Err(e) => Step(Err(e), s4)
            case Ok(s5) => Step(Ok(false), s5)
    }

    /** `End.init(tp)`. */
    method Init(tp: TeXParser) returns (r: Result<bool, Error>)
      requires tp.Valid()
      modifies tp
      ensures tp.Valid()
      ensures Step(r, tp.State()) == InitStep(old(tp.State()))
    {
      tp.Close();
      var ac := tp.Pop();
      if ac.Err? {
        return Err(ac.error);
      }
      if !ac.value.ArrayBuilder? {
        return Err(NotA());
      }
      var c := tp.Pop();
      if c.Err? {
        return Err(c.error);
      }
      if !c.value.BeginMarker? {
        return Err(NotA());
      }
      var beg := c.value;
      if name != beg.name {
        return Err(Mismatch(beg.name));
      }
      tp.CheckDimensions(beg.ref);
      var added := tp.AddToConsumer(Produce(tp.arrays[beg.ref], beg.options));
      if added.Fail? {
        return Err(added.error);
      }
      r := Ok(false);
    }
  }

  /**
   * Begin uses the options it was built with and reads none from the
   * parser; without options it reads exactly one column specification,
   * and fails when there is none.
   */
  lemma BeginOptions(b: Begin, s: ParserState)
    requires WellFormed(s)
    ensures b.opt.Some? ==> b.InitStep(s).state.optionArgs == s.optionArgs
    ensures b.opt.Some? ==> b.InitStep(s).state.stack[|s.stack|].options == b.opt.value
    ensures b.opt.None? && |s.optionArgs| > 0 ==>
              && b.InitStep(s).state.optionArgs == s.optionArgs[1..]
              && b.InitStep(s).state.stack[|s.stack|].options == s.optionArgs[0]
    ensures b.opt.None? && |s.optionArgs| == 0 ==> b.InitStep(s) == Step(Err(MissingArgument), s)
  {
  }

  /**
   * A Begin that can be initialised answers false and pushes exactly two
   * consumers, itself then a fresh empty table of its kind, which is left
   * on top; nothing else on the stack or in the arena changes. The
   * option stream loses its first argument exactly when the Begin had no
   * options of its own; the colour stream, input and tree are unchanged.
   */
  lemma BeginPushesMarkerThenArray(b: Begin, s: ParserState)
    requires WellFormed(s) && (b.opt.Some? || |s.optionArgs| > 0)
    ensures var st := b.InitStep(s);
            var k := |s.arrays|;
            && st.result == Ok(false)
            && st.state.stack == s.stack + [BeginMarker(b.name, b.kind, b.ChosenOptions(s), k), ArrayBuilder(k)]
            && st.state.arrays == s.arrays + [NewArray(b.kind)]
            && st.state.colorArgs == s.colorArgs && st.state.input == s.input && st.state.tree == s.tree
            && st.state.optionArgs == (if b.opt.Some? then s.optionArgs else s.optionArgs[1..])
  {
  }

  /** End rejects a top consumer that is not a table, after popping it. */
  lemma EndRejectsNonArray(e: End, s: ParserState)
    requires WellFormed(s) && |s.stack| > 0 && !s.stack[|s.stack| - 1].ArrayBuilder?
    ensures e.InitStep(s) == Step(Err(ParseException("Close something which is not a " + e.name)), DropTop(s))
  {
  }

  /** End rejects a table that does not sit on a Begin, after popping both. */
  lemma EndRejectsNonBegin(e: End, s: ParserState)
    requires WellFormed(s) && |s.stack| > 1
    requires s.stack[|s.stack| - 1].ArrayBuilder? && !s.stack[|s.stack| - 2].BeginMarker?
    ensures e.InitStep(s).result == Err(ParseException("Close something which is not a " + e.name))
    ensures e.InitStep(s).state.stack == s.stack[..|s.stack| - 2]
  {
  }

  /** End rejects a Begin of another name, naming both. */
  lemma EndRejectsMismatch(e: End, s: ParserState)
    requires WellFormed(s) && |s.stack| > 1
    requires s.stack[|s.stack| - 1].ArrayBuilder? && s.stack[|s.stack| - 2].BeginMarker?
    requires s.stack[|s.stack| - 2].name != e.name
    ensures e.InitStep(s).result == Err(ParseException("Close a " + s.stack[|s.stack| - 2].name + " with a " + e.name))
    ensures e.InitStep(s).state.stack == s.stack[..|s.stack| - 2]
  {
  }

  /**
   * On a matching Begin, End checks the Begin's table and then adds exactly
   * one atom, built over that checked table, to the consumer below the
   * pair; it fails only when no consumer is left there.
   */
  lemma EndOnMatch(e: End, s: ParserState)
    requires WellFormed(s) && |s.stack| > 1
    requires s.stack[|s.stack| - 1].ArrayBuilder? && s.stack[|s.stack| - 2].BeginMarker?
    requires s.stack[|s.stack| - 2].name == e.name
    ensures var beg := s.stack[|s.stack| - 2];
            var popped := CheckArray(DropTop(DropTop(CloseTop(s))), beg.ref);
            var atom := e.Produce(popped.arrays[beg.ref], beg.options);
            && popped.arrays[beg.ref].checked
            && popped.stack == s.stack[..|s.stack| - 2]
            && (|s.stack| == 2 ==> e.InitStep(s) == Step(Err(EmptyStack), popped))
            && (|s.stack| > 2 ==> e.InitStep(s) == Step(Ok(false), AddToTop(popped, atom).value))
  {
  }

  /**
   * The atom a matching End adds: without an opening delimiter the plain
   * array atom over the table and the Begin's options; with one, a fenced
   * matrix whose closing delimiter defaults to the opening one.
   */
  lemma EndProducesArrayOrFenced(e: End, table: ArrayOfAtoms, options: ArrayOptions)
    ensures e.op.None? ==> e.Produce(table, options) == ArrayAtom(table, options, true)
    ensures e.op.Some? ==>
              e.Produce(table, options) ==
              FencedAtom(SMatrixAtom(table, false), Symbol(e.op.value),
                         Symbol(if e.cl.Some? then e.cl.value else e.op.value))
  {
  }

  /**
   * A Begin followed, after any items were added to its table, by the End
   * of the same name leaves the stack as it was before the Begin, except
   * that the consumer then on top receives the one atom built over the
   * closed and checked table.
   */
  lemma BeginEndPair(b: Begin, e: End, s: ParserState, items: seq<Atom>)
    requires WellFormed(s) && |s.stack| > 0
    requires b.opt.Some? || |s.optionArgs| > 0
    requires b.name == e.name
    ensures var s1 := b.InitStep(s).state;
            var k := |s.arrays|;
            var filled := s1.(arrays := s1.arrays[k := ArrayOfAtoms(b.kind, items, false, false)]);
            var done := ArrayOfAtoms(b.kind, items, true, true);
            var atom := e.Produce(done, b.ChosenOptions(s));
            var before := s1.(stack := s.stack, arrays := s.arrays + [done]);
            && WellFormed(filled) && WellFormed(before)
            && e.InitStep(filled) == Step(Ok(false), AddToTop(before, atom).value)
  {
    var s1 := b.InitStep(s).state;
    var k := |s.arrays|;
    var filled := s1.(arrays := s1.arrays[k := ArrayOfAtoms(b.kind, items, false, false)]);
    BeginPushesMarkerThenArray(b, s);
    assert WellFormed(filled) by {
      forall i | 0 <= i < |filled.stack|
        ensures RefersWithin(filled.stack[i], |filled.arrays|)
      {
        assert RefersWithin(s1.stack[i], |s1.arrays|);
      }
    }
    EndOnMatch(e, filled);
    var done := ArrayOfAtoms(b.kind, items, true, true);
    var popped := CheckArray(DropTop(DropTop(CloseTop(filled))), k);
    assert popped.stack == s.stack;
    assert popped.arrays == s.arrays + [done];
  }

  /**
   * The marker atoms: the two separators are distinct constants, and a
   * cell or row colour marker gives back the colour it was built with.
   */
  lemma SeparatorsAndColorMarkers(c: Color, d: Color)
    ensures ColSep != RowSep
    ensures CellColor(c).color == c && RowColor(c).color == c
    ensures CellColor(c) != RowColor(d)
    ensures CellColor(c) == CellColor(d) <==> c == d
  {
  }
}
