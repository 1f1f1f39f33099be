# kangaroo front end: scanner and syntax tree, in Dafny

This project models two pieces of the front end of kangaroo, a small
declaration language whose only construct is the band, `#name(args) = expr;`.

- `parser.dfy` (module `Parser`) models `src/compiler/parser.rs`. The byte
  cursor hands out one byte of the input line per call as a character. Once
  the input is used up it hands out the sentinel `'$'`, and it keeps doing so.
  `NextToken` wraps each character in an `UNDEFINED` token. `Parse` pulls
  tokens until it meets `UNDEFINED("$")` and returns every token it pulled.
  The iterator the source mutates is the class `ByteIter`. `Parse` is a loop
  over it, proved equal to `Scan`, a recursive function that mirrors the loop.
  `Scan` is in turn proved equal to `Expected`, a closed form: the tokens of
  the bytes before the first `'$'`, then `UNDEFINED("$")`. The lemmas derive
  the promised behaviour from that closed form. Empty input gives one token.
  Input without `'$'` gives one token per byte plus the final one. A literal
  `'$'` ends the scan as the end of input does, so later bytes have no effect
  on the output. `Parse` also reports how far its cursor got, and that is
  never past the first `'$'`: later bytes are never read.
- `node.dfy` (module `Node`) models `src/ast/node.rs`. A `Block` holds a
  sequence of statements. The only statement is a `Band`, with its `#` token,
  its name, its arguments and its value. The only expression is the empty
  `Placeholder`. The open statement and expression kinds of the source become
  these closed datatypes. Each `Display` implementation is a rendering
  function. The two that loop over children, for `Block` and `Band`, are also
  methods with loops (`FmtBlock`, `FmtBand`), proved equal to those functions.
  Both loops append one piece per child. A generic `Concat` gives their
  common shape, and its lemmas give the layout of every rendering: where each
  child's text sits, the total length, and how appending a statement changes
  the block's text.

The code differs from the language's broader design in several places, and
the model follows the code. The scanner recognises no identifiers, numbers
or punctuation: every character becomes an `UNDEFINED` token. End of input
also yields `UNDEFINED("$")`, not an `EOF` token. No band parser and no
parse errors exist in `parser.rs`, so none are modelled.

## Model

| member | source | states |
|---|---|---|
| `Parser.CharOf` | src/compiler/parser.rs:18 | A byte read as a character keeps its code point, and the result is `'$'` exactly when the byte is 0x24. |
| `Parser.ByteIter.Next` | src/compiler/parser.rs:18 | The iterator hands out the byte at its position and moves forward by one. At the end it returns nothing and stays put. |
| `Parser.NextChar` | src/compiler/parser.rs:17-19 | Yields the next byte as a character and advances the cursor by one. At the end it yields `'$'` and the cursor stays at the end, so every later call yields `'$'` again. |
| `Parser.NextToken` | src/compiler/parser.rs:21-24 | Always an `UNDEFINED` token whose text is exactly the one character `nextchar` produced, with the same cursor movement. |
| `Parser.ScanFrom` | src/compiler/parser.rs:28-38 | The loop emits at least one token and at most one per remaining byte plus one. The last token is `UNDEFINED("$")`. |
| `Parser.Parse` | src/compiler/parser.rs:26-39 | The scan loop terminates on every input. It returns exactly the tokens `Scan` describes, in the order it pulls them. Its cursor stops just past the first `'$'`, or at the end when there is none, so no byte after the first `'$'` is read. |
| `Parser.CursorStep` | src/compiler/parser.rs:28-35 | One loop turn before the first `'$'`: either the sentinel appears and the scan ends with `UNDEFINED("$")`, or a byte other than `'$'` is consumed and the cursor has still not passed the first `'$'`. |
| `Parser.FirstSentinel` | src/compiler/parser.rs:33-35 | Index of the first 0x24 byte, or the input length when there is none. |
| `Parser.ScanFromIsExpected` | src/compiler/parser.rs:26-38 | From any cursor position, the loop's output equals the closed form applied to the remaining bytes. |
| `Parser.ScanIsExpected` | src/compiler/parser.rs:26-38 | `parse`'s output is the tokens of the bytes before the first `'$'`, followed by `UNDEFINED("$")`. |
| `Parser.ScanShape` | src/compiler/parser.rs:21-38 | Every emitted token is `UNDEFINED` with a one-character text. Only the last one carries `"$"`. |
| `Parser.ScanOfEmpty` | src/compiler/parser.rs:17-35 | Empty input yields exactly one token, `UNDEFINED("$")`. |
| `Parser.ScanWithoutSentinel` | src/compiler/parser.rs:26-38 | Without a `'$'` byte, each byte yields its token in order, then one final `UNDEFINED("$")`, so there are len+1 tokens. |
| `Parser.ScanStopsAtSentinel` | src/compiler/parser.rs:33-35 | When the first `'$'` is at index k, exactly the tokens of bytes 0..k inclusive are emitted (k+1 tokens). |
| `Parser.ScanSentinelIsEnd` | src/compiler/parser.rs:17-35 | For any input, a `'$'` byte ends the scan as the end of input does: `scan(prefix + "$" + rest) == scan(prefix)`, whatever `prefix` and `rest` are. |
| `Node.RenderIdent` | src/ast/node.rs:72-77 | An identifier shows exactly its `value`, whatever its token. Its place in a band's text is pinned by `BandLayout` (the name) and `BandArgAt` (each argument). |
| `Node.RenderExpr` | src/ast/node.rs:81-86 | The placeholder expression shows as the empty string. This is why a band ends in `") =  )"` (`BandLayout`, `BandWithoutArgs`). |
| `Node.NewBlock` | src/ast/node.rs:20-24 | A new block has no statements and renders as `"start>( ) "`. |
| `Node.FmtBand` | src/ast/node.rs:47-56 | The band's loop over its arguments produces exactly the band's rendering. |
| `Node.FmtBlock` | src/ast/node.rs:28-35 | The block's loop over its statements produces exactly the block's rendering. |
| `Node.BandLayout` | src/ast/node.rs:47-86 | A band renders as `"( # "`, then the name's text (an identifier shows exactly its `value`), then `" ("`, then the arguments, then `") =  )"` (the placeholder shows nothing). Length is 12 + name length + argument width. |
| `Node.BandArgAt` | src/ast/node.rs:50-52 | Argument i renders as `" " + value + " "`, placed right after the arguments before it, so the arguments appear in order. |
| `Node.BandWithoutArgs` | src/ast/node.rs:47-56 | A band without arguments renders as `"( # " + name + " () =  )"`. |
| `Node.BandIgnoresHashSign` | src/ast/node.rs:40-48 | The rendering does not depend on the `#` token, because the `#` shown is fixed text. |
| `Node.BlockLength` | src/ast/node.rs:29-33 | A block's rendering has length 10 plus, summed over statements, the statement's rendering length + 2. |
| `Node.BlockAppend` | src/ast/node.rs:30-33 | Rendering `stmts + [s]` is the rendering of `stmts` with `render(s) + ", "` inserted just before the closing `") "`. |
| `Node.BlockStmtAt` | src/ast/node.rs:28-35 | The block renders as `"start>( "`, then statement i followed by `", "` right after the statements before it, then `") "`. |

## Left out

- `parse` prints each token with `println!` (src/compiler/parser.rs:30). The model returns the tokens in print order instead of doing console I/O. The `Debug` text of a token is not modelled.
- `Parse` takes the input line as a sequence of bytes. The UTF-8 encoding that `line.as_bytes()` performs on a `String` is not modelled.
- Formatter errors (`?` on `fmt::Result`) are not modelled: every write is taken to succeed. `FmtBand` and `FmtBlock` build and return a string instead of appending to a shared `Formatter`.
- The token kinds other than `UNDEFINED` are declared in `Token` but never produced, exactly as in the source.
- The interactive loop (src/circulate/repl.rs), the file driver (src/circulate/script.rs) and the argument dispatch (src/main.rs) are I/O glue. They are not modelled.
- src/compiler/producer.rs calls `toucher::scratch` before `parse`. The toucher module is not part of this model, so neither is producer.rs.
- The marker traits `SList`, `Stmt` and `Expr` (src/ast/node.rs:5-13) are replaced by the closed datatypes `Stmt` and `Expr`. Boxing and dynamic dispatch are not modelled.
