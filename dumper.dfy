/** The indented line builder (dumper.rb).
 *
 *  A `Dumper` gathers lines in a buffer.  A plain `dump` appends one line at
 *  the current indentation; a `dump` with a block writes `<line> do`, runs
 *  the block one step deeper, and writes `end` at the original indentation.
 *  Dafny has no blocks, so a block dump is the pair `Open` ... `Close` around
 *  the body.  `Stmt` describes what a sequence of such calls writes, and
 *  `Render` gives the lines it produces.
 */
module Dumper {
  import opened Options
  import opened Output
  import opened Sequences

  /** What a caller dumps: a single line, or a header with a nested body. */
  datatype Stmt = Line(text: string) | Block(header: string, body: seq<Stmt>)

  function Spaces(n: nat): (s: string)
    ensures |s| == n && forall i :: 0 <= i < n ==> s[i] == ' '
  {
    seq(n, _ => ' ')
  }

  /** One buffered line: the indentation, the text and a newline. */
  function Indented(indent: nat, text: string): string {
    Spaces(indent) + text + "\n"
  }

  /** The buffered lines one dump appends at the given indentation. */
  function RenderStmt(s: Stmt, indent: nat, step: nat): seq<string>
    decreases s, 1
  {
    match s
    case Line(t) => [Indented(indent, t)]
    case Block(h, body) =>
      [Indented(indent, h + " do")] + Render(body, indent + step, step) + [Indented(indent, "end")]
  }

  /** The buffered lines a sequence of dumps appends at the given indentation. */
  function Render(ss: seq<Stmt>, indent: nat, step: nat): seq<string>
    decreases ss, 0
  {
    if ss == [] then [] else RenderStmt(ss[0], indent, step) + Render(ss[1..], indent, step)
  }

  /** Rendering is compositional: dumping `a` then `b` appends the lines of `a`, then those of `b`. */
  lemma {:induction false} RenderAppend(a: seq<Stmt>, b: seq<Stmt>, indent: nat, step: nat)
    ensures Render(a + b, indent, step) == Render(a, indent, step) + Render(b, indent, step)
  {
    if a != [] {
      assert (a + b)[0] == a[0];
      assert (a + b)[1..] == a[1..] + b;
      RenderAppend(a[1..], b, indent, step);
      calc {
        Render(a + b, indent, step);
        RenderStmt(a[0], indent, step) + Render(a[1..] + b, indent, step);
        RenderStmt(a[0], indent, step) + (Render(a[1..], indent, step) + Render(b, indent, step));
      }
    } else {
      assert a + b == b;
    }
  }

  lemma RenderOne(s: Stmt, indent: nat, step: nat)
    ensures Render([s], indent, step) == RenderStmt(s, indent, step)
  {
    assert [s][1..] == [];
  }

  /** Appending the lines of statement `i` to the lines of the statements before it gives
   *  the lines of the statements up to `i`. */
  lemma RenderNext(start: seq<string>, before: seq<string>, after: seq<string>, ss: seq<Stmt>, i: nat, indent: nat, step: nat)
    requires i < |ss|
    requires before == start + Render(ss[..i], indent, step)
    requires after == before + RenderStmt(ss[i], indent, step)
    ensures after == start + Render(ss[..i + 1], indent, step)
  {
    RenderSnoc(ss, i, indent, step);
  }

  /** Rendering one more statement of a list appends that statement's lines. */
  lemma RenderSnoc(ss: seq<Stmt>, i: nat, indent: nat, step: nat)
    requires i < |ss|
    ensures Render(ss[..i + 1], indent, step) == Render(ss[..i], indent, step) + RenderStmt(ss[i], indent, step)
  {
    assert ss[..i + 1] == ss[..i] + [ss[i]];
    RenderAppend(ss[..i], [ss[i]], indent, step);
    RenderOne(ss[i], indent, step);
  }

  /** Appending the lines of `b` to the lines of `a` gives the lines of `a + b`. */
  lemma RenderedAfter(start: seq<string>, before: seq<string>, after: seq<string>,
                      a: seq<Stmt>, b: seq<Stmt>, whole: seq<Stmt>, indent: nat, step: nat)
    requires whole == a + b
    requires before == start + Render(a, indent, step)
    requires after == before + Render(b, indent, step)
    ensures after == start + Render(whole, indent, step)
  {
    RenderAppend(a, b, indent, step);
    Assoc(start, Render(a, indent, step), Render(b, indent, step));
  }

  /** A block dumped step by step, its header, its body and `end`, is the block rendered. */
  lemma BlockStepped(p: seq<string>, l1: seq<string>, l2: seq<string>, l3: seq<string>,
                     h: string, body: seq<Stmt>, indent: nat, step: nat)
    requires l1 == p + [Indented(indent, h + " do")]
    requires l2 == l1 + Render(body, indent + step, step)
    requires l3 == l2 + [Indented(indent, "end")]
    ensures l3 == p + RenderStmt(Block(h, body), indent, step)
  {
  }

  /** Every rendered line ends in a newline. */
  lemma {:induction false} RenderLinesEndInNewline(ss: seq<Stmt>, indent: nat, step: nat)
    ensures forall i :: 0 <= i < |Render(ss, indent, step)| ==>
      |Render(ss, indent, step)[i]| > 0 && Render(ss, indent, step)[i][|Render(ss, indent, step)[i]| - 1] == '\n'
    decreases ss
  {
    if ss != [] {
      if ss[0].Block? {
        RenderLinesEndInNewline(ss[0].body, indent + step, step);
      }
      RenderLinesEndInNewline(ss[1..], indent, step);
      var r := Render(ss, indent, step);
      forall i | 0 <= i < |r|
        ensures |r[i]| > 0 && r[i][|r[i]| - 1] == '\n'
      {
        var first := RenderStmt(ss[0], indent, step);
        if i >= |first| {
          assert r[i] == Render(ss[1..], indent, step)[i - |first|];
        } else if ss[0].Block? && 0 < i < |first| - 1 {
          assert r[i] == Render(ss[0].body, indent + step, step)[i - 1];
        }
      }
    }
  }

  /** Ruby's `Array#join` of string pieces. */
  function Concat(lines: seq<string>): string {
    if lines == [] then "" else lines[0] + Concat(lines[1..])
  }

  lemma {:induction false} ConcatAppend(a: seq<string>, b: seq<string>)
    ensures Concat(a + b) == Concat(a) + Concat(b)
  {
    if a != [] {
      assert (a + b)[0] == a[0];
      assert (a + b)[1..] == a[1..] + b;
      ConcatAppend(a[1..], b);
      assert Concat(a + b) == a[0] + (Concat(a[1..]) + Concat(b));
    } else {
      assert a + b == b;
    }
  }

  class Dumper {
    /** The buffer; a caller-supplied buffer is passed to the constructor. */
    var lines: seq<string>
    var indent: nat
    const step: nat

    /** Ruby's `Dumper.new( out = [], step = 2 )`. */
    constructor (buffer: seq<string> := [], step: nat := 2)
      ensures lines == buffer && indent == 0 && this.step == step
    {
      lines := buffer;
      indent := 0;
      this.step := step;
    }

    /** All output gathered so far (Ruby's `text` and `to_s`). */
    function Text(): string
      reads this
    {
      Concat(lines)
    }

    /** Plain `dump( line )` and `<< line`: one line at the current indentation. */
    method Dump(line: string)
      modifies this
      ensures lines == old(lines) + [Indented(indent, line)]
      ensures Text() == old(Text()) + Indented(indent, line)
      ensures indent == old(indent)
    {
      ConcatAppend(lines, [Indented(indent, line)]);
      assert Concat([Indented(indent, line)]) == Indented(indent, line) + Concat([]);
      lines := lines + [Indented(indent, line)];
    }

    /** Start of `dump( line ) do ... end`: writes the header and indents one step. */
    method Open(header: string)
      modifies this
      ensures lines == old(lines) + [Indented(old(indent), header + " do")]
      ensures Text() == old(Text()) + Indented(old(indent), header + " do")
      ensures indent == old(indent) + step
    {
      Dump(header + " do");
      indent := indent + step;
    }

    /** End of a block dump: back to the enclosing indentation, then `end`. */
    method Close()
      requires indent >= step
      modifies this
      ensures indent == old(indent) - step
      ensures lines == old(lines) + [Indented(indent, "end")]
      ensures Text() == old(Text()) + Indented(indent, "end")
    {
      indent := indent - step;
      Dump("end");
    }

    /** Dumps a whole statement tree through `Dump`, `Open` and `Close`. */
    method DumpAll(ss: seq<Stmt>)
      modifies this
      ensures lines == old(lines) + Render(ss, old(indent), step)
      ensures indent == old(indent)
      decreases ss
    {
      var i := 0;
      while i < |ss|
        invariant 0 <= i <= |ss| && indent == old(indent)
        invariant lines == old(lines) + Render(ss[..i], indent, step)
      {
        var s := ss[i];
        ghost var before := lines;
        match s {
          case Line(t) =>
            Dump(t);
          case Block(h, body) =>
            Open(h);
            ghost var headed := lines;
            DumpAll(body);
            ghost var inner := lines;
            Close();
            BlockStepped(before, headed, inner, lines, h, body, indent, step);
        }
        RenderNext(old(lines), before, lines, ss, i, indent, step);
        i := i + 1;
      }
      assert ss[..i] == ss;
    }
  }

  /** The nesting example of the source's own tests: two blocks inside a block. */
  function NestingTree(): seq<Stmt> {
    [Block("test", [Block("row", [Line("x"), Line("y")]), Block("foo", [Line("bar")])])]
  }

  lemma NestingRendered()
    ensures Render(NestingTree(), 0, 2) ==
      ["test do\n", "  row do\n", "    x\n", "    y\n", "  end\n", "  foo do\n", "    bar\n", "  end\n", "end\n"]
  {
    var inner := [Block("row", [Line("x"), Line("y")]), Block("foo", [Line("bar")])];
    NestingInnerRendered();
    RenderOne(Block("test", inner), 0, 2);
    assert Spaces(0) == "";
    assert "test" + " do" == "test do";
    assert Indented(0, "test do") == "test do\n" && Indented(0, "end") == "end\n";
  }

  lemma NestingInnerRendered()
    ensures Render([Block("row", [Line("x"), Line("y")]), Block("foo", [Line("bar")])], 2, 2) ==
      ["  row do\n", "    x\n", "    y\n", "  end\n", "  foo do\n", "    bar\n", "  end\n"]
  {
    var row, foo := [Line("x"), Line("y")], [Line("bar")];
    NestingLeavesRendered();
    var inner := [Block("row", row), Block("foo", foo)];
    assert inner[1..] == [Block("foo", foo)];
    RenderOne(Block("foo", foo), 2, 2);
    assert Spaces(2) == "  ";
    assert "row" + " do" == "row do" && "foo" + " do" == "foo do";
    assert Indented(2, "row do") == "  row do\n" && Indented(2, "foo do") == "  foo do\n";
    assert Indented(2, "end") == "  end\n";
  }

  lemma NestingLeavesRendered()
    ensures Render([Line("x"), Line("y")], 4, 2) == ["    x\n", "    y\n"]
    ensures Render([Line("bar")], 4, 2) == ["    bar\n"]
  {
    assert Spaces(4) == "    ";
    var row := [Line("x"), Line("y")];
    assert row[1..] == [Line("y")];
    RenderOne(Line("y"), 4, 2);
    RenderOne(Line("bar"), 4, 2);
    assert Indented(4, "x") == "    x\n" && Indented(4, "y") == "    y\n";
    assert Indented(4, "bar") == "    bar\n";
  }

  /** Dumps the nesting example; each line comes out as the source's tests expect. */
  method NestingExample() returns (lines: seq<string>)
    ensures lines ==
      ["test do\n", "  row do\n", "    x\n", "    y\n", "  end\n", "  foo do\n", "    bar\n", "  end\n", "end\n"]
  {
    var d := new Dumper([], 2);
    d.DumpAll(NestingTree());
    NestingRendered();
    lines := d.lines;
  }

  /** A buffer given to the dumper receives every line with its newline, after what it
   *  already held, and `text` joins them. */
  method CustomBufferExample(a: seq<string>) returns (lines: seq<string>, text: string)
    ensures lines == a + ["xyz\n", "abc\n"]
    ensures text == Concat(a) + "xyz\nabc\n"
  {
    assert Spaces(0) == "";
    assert Indented(0, "xyz") == "xyz\n";
    assert Indented(0, "abc") == "abc\n";
    var d := new Dumper(a);
    d.Dump("xyz");
    d.Dump("abc");
    lines, text := d.lines, d.Text();
  }

  /** `dump` interpolates what it is given, so a number or a symbol is written as its
   *  `to_s`. */
  method NonStringExample() returns (text: string)
    ensures text == "123\ntest\n"
  {
    ToSExamples();
    assert Spaces(0) == "";
    var d := new Dumper();
    assert d.Text() == "";
    d.Dump(ToS(Int(123)));
    d.Dump(ToS(Sym("test")));
    text := d.Text();
  }

  lemma ToSExamples()
    ensures ToS(Int(123)) == "123" && ToS(Sym("test")) == "test"
  {
    assert NatToString(12) == "12";
    assert NatToString(123) == NatToString(12) + "3" == "123";
  }
}
