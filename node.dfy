/** The syntax tree of the kangaroo front end and its text rendering
    (src/ast/node.rs).

    The source's open statement and expression kinds (trait objects) become
    closed datatypes: the only statement is a band, the only expression the
    empty placeholder. Rendering appends fixed pieces and the renderings of
    the children, in order, so every rendering is a concatenation whose
    layout the lemmas below pin down. */
module Node {
  import Parser

  /** A name: the token it was read from and its text. */
  datatype Identifier = Identifier(literal: Parser.Token, value: string)

  /** The only expression kind, a placeholder with no content. */
  datatype Expr = Placeholder

  /** The only statement kind, `# name (args) = value`. */
  datatype Stmt = Band(hashSign: Parser.Token, name: Identifier, args: seq<Identifier>, value: Expr)

  /** An ordered sequence of statements. */
  datatype Block = Block(stmts: seq<Stmt>)

  // ----- Concatenating the renderings of a sequence of children -----

  /** The pieces f(x) of the elements of `xs`, joined in order. */
  function Concat<T>(xs: seq<T>, f: T -> string): string
  {
    if xs == [] then "" else Concat(xs[..|xs| - 1], f) + f(xs[|xs| - 1])
  }

  /** The sum of the lengths of the pieces f(x). */
  function Width<T>(xs: seq<T>, f: T -> string): nat
  {
    if xs == [] then 0 else Width(xs[..|xs| - 1], f) + |f(xs[|xs| - 1])|
  }

  lemma {:induction false} ConcatLength<T>(xs: seq<T>, f: T -> string)
    ensures |Concat(xs, f)| == Width(xs, f)
  {
    if xs != [] {
      ConcatLength(xs[..|xs| - 1], f);
    }
  }

  /** Joining is compositional: the pieces of `xs + ys` are those of `xs`
      followed by those of `ys`. */
  lemma {:induction false} ConcatAppend<T>(xs: seq<T>, ys: seq<T>, f: T -> string)
    ensures Concat(xs + ys, f) == Concat(xs, f) + Concat(ys, f)
    ensures Width(xs + ys, f) == Width(xs, f) + Width(ys, f)
    decreases |ys|
  {
    if ys == [] {
      assert xs + ys == xs;
    } else {
      var ys' := ys[..|ys| - 1];
      assert (xs + ys)[..|xs + ys| - 1] == xs + ys';
      ConcatAppend(xs, ys', f);
    }
  }

  /** The piece of element i sits right after the pieces of the elements
      before it. */
  lemma ConcatAt<T>(xs: seq<T>, i: nat, f: T -> string)
    requires i < |xs|
    ensures Width(xs[..i], f) + |f(xs[i])| <= |Concat(xs, f)|
    ensures Concat(xs, f)[Width(xs[..i], f) .. Width(xs[..i], f) + |f(xs[i])|] == f(xs[i])
  {
    assert xs == xs[..i] + [xs[i]] + xs[i + 1..];
    ConcatAppend(xs[..i] + [xs[i]], xs[i + 1..], f);
    assert (xs[..i] + [xs[i]])[..i] == xs[..i];
    ConcatLength(xs[..i], f);
  }

  // ----- Rendering (the Display implementations) -----

  /** An identifier shows its text. */
  function RenderIdent(id: Identifier): (s: string)
    ensures s == id.value
  {
    id.value
  }

  /** The placeholder expression shows nothing. */
  function RenderExpr(e: Expr): (s: string)
    ensures s == ""
  {
    match e
    case Placeholder => ""
  }

  /** What the band's loop writes for one argument. */
  function ArgPiece(a: Identifier): string
  {
    " " + RenderIdent(a) + " "
  }

  function RenderArgs(args: seq<Identifier>): string
  {
    Concat(args, ArgPiece)
  }

  function RenderBand(b: Stmt): string
  {
    "( # " + RenderIdent(b.name) + " (" + RenderArgs(b.args) + ") = " + RenderExpr(b.value) + " )"
  }

  /** What the block's loop writes for one statement. */
  function StmtPiece(s: Stmt): string
  {
    RenderBand(s) + ", "
  }

  function RenderStmts(stmts: seq<Stmt>): string
  {
    Concat(stmts, StmtPiece)
  }

  function RenderBlock(b: Block): string
  {
    "start>( " + RenderStmts(b.stmts) + ") "
  }

  // ----- Operations -----

  /** `Block::new`: a block without statements; it shows as "start>( ) ". */
  function NewBlock(): (b: Block)
    ensures b.stmts == []
    ensures RenderBlock(b) == "start>( ) "
  {
    Block([])
  }

  /** `Display for Band`: the header, one piece per argument, the tail. */
  method FmtBand(b: Stmt) returns (s: string)
    ensures s == RenderBand(b)
  {
    s := "( # " + RenderIdent(b.name) + " (";
    for i := 0 to |b.args|
      invariant s == "( # " + RenderIdent(b.name) + " (" + RenderArgs(b.args[..i])
    {
      assert b.args[..i + 1][..i] == b.args[..i];
      s := s + " " + RenderIdent(b.args[i]) + " ";
    }
    assert b.args[..|b.args|] == b.args;
    s := s + ") = " + RenderExpr(b.value) + " )";
  }

  /** `Display for Block`: the prefix, each statement followed by ", ",
      then the suffix. */
  method FmtBlock(b: Block) returns (s: string)
    ensures s == RenderBlock(b)
  {
    s := "start>( ";
    for i := 0 to |b.stmts|
      invariant s == "start>( " + RenderStmts(b.stmts[..i])
    {
      assert b.stmts[..i + 1][..i] == b.stmts[..i];
      var band := FmtBand(b.stmts[i]);
      s := s + band + ", ";
    }
    assert b.stmts[..|b.stmts|] == b.stmts;
    s := s + ") ";
  }

  // ----- Properties of the renderings -----

  /** A band is laid out as "( # ", the name's text, " (", the arguments,
      and ") =  )": the identifier shows exactly its text and the placeholder
      value shows nothing. */
  lemma BandLayout(b: Stmt)
    ensures |RenderBand(b)| == 12 + |b.name.value| + Width(b.args, ArgPiece)
    ensures RenderBand(b)[..4] == "( # "
    ensures RenderBand(b)[4..4 + |b.name.value|] == b.name.value
    ensures RenderBand(b)[4 + |b.name.value| .. 6 + |b.name.value|] == " ("
    ensures RenderBand(b)[6 + |b.name.value| + Width(b.args, ArgPiece)..] == ") =  )"
  {
    ConcatLength(b.args, ArgPiece);
  }

  /** Argument i shows as " " + its text + " ", placed after the arguments
      before it. */
  lemma BandArgAt(b: Stmt, i: nat)
    requires i < |b.args|
    ensures var off := 6 + |b.name.value| + Width(b.args[..i], ArgPiece);
            off + |b.args[i].value| + 2 <= |RenderBand(b)| &&
            RenderBand(b)[off .. off + |b.args[i].value| + 2] == " " + b.args[i].value + " "
  {
    ConcatAt(b.args, i, ArgPiece);
    var head := "( # " + RenderIdent(b.name) + " (";
    var w := Width(b.args[..i], ArgPiece);
    var rest := ") = " + RenderExpr(b.value) + " )";
    assert RenderBand(b) == head + RenderArgs(b.args) + rest;
    assert (head + RenderArgs(b.args) + rest)[|head| + w .. |head| + w + |ArgPiece(b.args[i])|]
        == RenderArgs(b.args)[w .. w + |ArgPiece(b.args[i])|];
  }

  /** A band without arguments shows as "( # " + name + " () =  )". */
  lemma BandWithoutArgs(b: Stmt)
    requires b.args == []
    ensures RenderBand(b) == "( # " + b.name.value + " () =  )"
  {
    assert RenderArgs(b.args) == "";
  }

  /** The '#' token is not part of the rendering: the '#' shown is a fixed
      piece of text. */
  lemma BandIgnoresHashSign(b: Stmt, h: Parser.Token)
    ensures RenderBand(b.(hashSign := h)) == RenderBand(b)
  {
  }

  /** A block's rendering is 10 characters of frame plus, per statement,
      its rendering and 2 characters of separator. */
  lemma BlockLength(b: Block)
    ensures |RenderBlock(b)| == 10 + Width(b.stmts, StmtPiece)
  {
    ConcatLength(b.stmts, StmtPiece);
  }

  /** Appending a statement inserts its rendering and ", " just before the
      closing ") " of the block's rendering; nothing else changes. */
  lemma BlockAppend(b: Block, s: Stmt)
    ensures var r := RenderBlock(b);
            |r| >= 10 &&
            RenderBlock(Block(b.stmts + [s])) == r[..|r| - 2] + RenderBand(s) + ", " + ") "
  {
    ConcatAppend(b.stmts, [s], StmtPiece);
    assert Concat([s], StmtPiece) == StmtPiece(s) by {
      assert [s][..0] == [];
    }
    var head, body, band := "start>( ", RenderStmts(b.stmts), RenderBand(s);
    var r := head + body + ") ";
    assert r[..|r| - 2] == head + body;
    Regroup(head, body, band + ", ", ") ");
  }

  /** Regrouping a concatenation of four strings. */
  lemma Regroup(a: string, b: string, c: string, d: string)
    ensures a + (b + c) + d == a + b + c + d
  {
  }

  /** Statement i shows, followed by ", ", right after the statements
      before it, between the frame "start>( " and ") ". */
  lemma BlockStmtAt(b: Block, i: nat)
    requires i < |b.stmts|
    ensures var off := 8 + Width(b.stmts[..i], StmtPiece);
            var r := RenderBlock(b);
            off + |RenderBand(b.stmts[i])| + 2 <= |r| &&
            r[..8] == "start>( " &&
            r[off .. off + |RenderBand(b.stmts[i])| + 2] == RenderBand(b.stmts[i]) + ", " &&
            r[|r| - 2..] == ") "
  {
    ConcatAt(b.stmts, i, StmtPiece);
    var w := Width(b.stmts[..i], StmtPiece);
    var piece := StmtPiece(b.stmts[i]);
    var head := "start>( ";
    assert RenderBlock(b) == head + RenderStmts(b.stmts) + ") ";
    assert (head + RenderStmts(b.stmts) + ") ")[|head| + w .. |head| + w + |piece|]
        == RenderStmts(b.stmts)[w .. w + |piece|];
  }
}
