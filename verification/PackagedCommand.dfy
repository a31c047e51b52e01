/**
 * A command bound to the package that defines it. The wrapper keeps the
 * command and the package in final fields and hands every operation to
 * the command.
 *
 * The wrapped command is a stand-in: `Command` records the calls it
 * receives, answers most queries from values fixed when it was made, and
 * reports the last atom added to it as its last atom. Its operations may
 * change the parser they are given, as real commands do; nothing is
 * promised about the parser beyond its staying well formed. The wrapper
 * relies on none of that: every wrapper contract is stated in terms of
 * what the wrapped command answers or receives.
 */
module PackagedCommand {
  import opened Atoms
  import opened Parser

  /** A package of commands, kept opaque. */
  datatype JLMPackage = JLMPackage(name: string)

  /** An operation a command received, with its arguments. */
  datatype Call =
    | InitCall(tp: TeXParser)
    | AddCall(tp: TeXParser, atom: Atom)
    | CloseCall(tp: TeXParser)
    | StealCall(tp: TeXParser)
    | LBraceCall(tp: TeXParser)
    | RBraceCall(tp: TeXParser)

  /** The atoms added to a command, in the order they were added. */
  function Added(calls: seq<Call>): seq<Atom>
  {
    if |calls| == 0 then []
    else
      var last := calls[|calls| - 1];
      Added(calls[..|calls| - 1]) + (if last.AddCall? then [last.atom] else [])
  }

  /** A stand-in command: the calls it received, and fixed answers. */
  class Command {
    var calls: seq<Call>
    const closable: bool
    const isArray: bool
    const ampersandAllowed: bool
    const handlingArg: bool
    const initAnswer: bool
    const closeAnswer: bool
    const stolen: Atom

    constructor (closable: bool, isArray: bool, ampersandAllowed: bool, handlingArg: bool,
                 initAnswer: bool, closeAnswer: bool, stolen: Atom)
      ensures calls == []
      ensures this.closable == closable && this.isArray == isArray
      ensures this.ampersandAllowed == ampersandAllowed && this.handlingArg == handlingArg
      ensures this.initAnswer == initAnswer && this.closeAnswer == closeAnswer && this.stolen == stolen
    {
      calls := [];
      this.closable, this.isArray, this.ampersandAllowed, this.handlingArg := closable, isArray, ampersandAllowed, handlingArg;
      this.initAnswer, this.closeAnswer, this.stolen := initAnswer, closeAnswer, stolen;
    }

    /** Same answers and the same calls received. */
    predicate SameAs(other: Command)
      reads this, other
    {
      && calls == other.calls
      && closable == other.closable && isArray == other.isArray
      && ampersandAllowed == other.ampersandAllowed && handlingArg == other.handlingArg
      && initAnswer == other.initAnswer && closeAnswer == other.closeAnswer && stolen == other.stolen
    }

    method Init(tp: TeXParser) returns (r: bool)
      requires tp.Valid()
      modifies this, tp
      ensures tp.Valid()
      ensures r == initAnswer && calls == old(calls) + [InitCall(tp)]
    {
      calls := calls + [InitCall(tp)];
      r := initAnswer;
    }

    method Add(tp: TeXParser, a: Atom)
      requires tp.Valid()
      modifies this, tp
      ensures tp.Valid()
      ensures calls == old(calls) + [AddCall(tp, a)]
    {
      calls := calls + [AddCall(tp, a)];
    }

    method Close(tp: TeXParser) returns (r: bool)
      requires tp.Valid()
      modifies this, tp
      ensures tp.Valid()
      ensures r == closeAnswer && calls == old(calls) + [CloseCall(tp)]
    {
      calls := calls + [CloseCall(tp)];
      r := closeAnswer;
    }

    method Steal(tp: TeXParser) returns (r: Atom)
      requires tp.Valid()
      modifies this, tp
      ensures tp.Valid()
      ensures r == stolen && calls == old(calls) + [StealCall(tp)]
    {
      calls := calls + [StealCall(tp)];
      r := stolen;
    }

    method LBrace(tp: TeXParser)
      requires tp.Valid()
      modifies this, tp
      ensures tp.Valid()
      ensures calls == old(calls) + [LBraceCall(tp)]
    {
      calls := calls + [LBraceCall(tp)];
    }

    method RBrace(tp: TeXParser)
      requires tp.Valid()
      modifies this, tp
      ensures tp.Valid()
      ensures calls == old(calls) + [RBraceCall(tp)]
    {
      calls := calls + [RBraceCall(tp)];
    }

    /** The stand-in's `getLastAtom()`: the last atom added, if any. */
    function GetLastAtom(): Option<Atom>
      reads this
    {
      var atoms := Added(calls);
      if |atoms| == 0 then None else Some(atoms[|atoms| - 1])
    }

    /** `clone()`: a new command in the same state. */
    method Clone() returns (c: Command)
      ensures fresh(c) && c.SameAs(this)
    {
      c := new Command(closable, isArray, ampersandAllowed, handlingArg, initAnswer, closeAnswer, stolen);
      c.calls := calls;
    }
  }

  /** A command with the package it belongs to. */
  class PackagedCommand {
    const com: Command
    const pack: JLMPackage

    /** `new PackagedCommand(com, pack)`. */
    constructor (com: Command, pack: JLMPackage)
      ensures this.com == com && this.pack == pack
    {
      this.com, this.pack := com, pack;
    }

    /** `getPackage()`: the package given at construction, which never changes. */
    function GetPackage(): (p: JLMPackage)
      ensures p == pack
    {
      pack
    }

    method Init(tp: TeXParser) returns (r: bool)
      requires tp.Valid()
      modifies com, tp
      ensures tp.Valid()
      ensures r == com.initAnswer && com.calls == old(com.calls) + [InitCall(tp)]
    {
      r := com.Init(tp);
    }

    method Add(tp: TeXParser, a: Atom)
      requires tp.Valid()
      modifies com, tp
      ensures tp.Valid()
      ensures com.calls == old(com.calls) + [AddCall(tp, a)]
    {
      com.Add(tp, a);
    }

    /** `clone()`: the same package around a copy of the wrapped command, never the command itself. */
    method Clone() returns (p: PackagedCommand)
      ensures fresh(p) && fresh(p.com)
      ensures p.pack == pack && p.com.SameAs(com) && p.com != com
    {
      var c := com.Clone();
      p := new PackagedCommand(c, pack);
    }

    function GetLastAtom(): (r: Option<Atom>)
      reads com
      ensures r == com.GetLastAtom()
    {
      com.GetLastAtom()
    }

    method Close(tp: TeXParser) returns (r: bool)
      requires tp.Valid()
      modifies com, tp
      ensures tp.Valid()
      ensures r == com.closeAnswer && com.calls == old(com.calls) + [CloseCall(tp)]
    {
      r := com.Close(tp);
    }

    function IsClosable(): (b: bool)
      ensures b == com.closable
    {
      com.closable
    }

    method Steal(tp: TeXParser) returns (r: Atom)
      requires tp.Valid()
      modifies com, tp
      ensures tp.Valid()
      ensures r == com.stolen && com.calls == old(com.calls) + [StealCall(tp)]
    {
      r := com.Steal(tp);
    }

    function IsArray(): (b: bool)
      ensures b == com.isArray
    {
      com.isArray
    }

    function IsAmpersandAllowed(): (b: bool)
      ensures b == com.ampersandAllowed
    {
      com.ampersandAllowed
    }

    function IsHandlingArg(): (b: bool)
      ensures b == com.handlingArg
    {
      com.handlingArg
    }

    method LBrace(tp: TeXParser)
      requires tp.Valid()
      modifies com, tp
      ensures tp.Valid()
      ensures com.calls == old(com.calls) + [LBraceCall(tp)]
    {
      com.LBrace(tp);
    }

    method RBrace(tp: TeXParser)
      requires tp.Valid()
      modifies com, tp
      ensures tp.Valid()
      ensures com.calls == old(com.calls) + [RBraceCall(tp)]
    {
      com.RBrace(tp);
    }
  }
}
