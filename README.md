# GoInspector rotation detector, modelled in Dafny

GoInspector walks the syntax tree of each Go source file and looks, inside
every block `{ ... }`, for three simple assignments that rotate three
variables without a temporary: `A = B; B = C; C = A`. For each such
rotation it prints the position of the first of the three assignments.

A simple assignment has one bare identifier on each side. The three
assignments need only be consecutive among the block's simple assignments.
Other statements between them are skipped, and so are assignments that are
not simple, such as `x = f()`. Blocks of fewer than four direct statements
are never scanned.

This project models that detector (`doc.go`) and proves what it reports:

- `goast.dfy` (module `GoAst`): the part of the Go syntax tree the
  detector looks at: expressions (bare identifiers or anything else),
  assignment statements with their operator token, blocks and other
  statements with the statements nested in them. Positions (`token.Pos`)
  are opaque integers.
- `doc.dfy` (module `Doc`): the detector itself.
  - `ConvNamePair` turns one assignment into an optional `NamePair`. A
    `None` is Go's nil pointer.
  - `NamePairs` is a class whose `arr` field is the slice that `Add`
    appends to.
  - `NamePairs.FindExchange` is the window loop.
  - `ParseBlockStmt` is the statement loop of one block.
  - `WalkStmt`, `WalkStmts` and `WalkExprs` are the visitor together with
    the pre-order walk it is driven by.
  - Printing is replaced by returning the reported positions as a
    sequence, in the order they would be printed.
  - The specification functions are `Facts`, `IsExchange`, `Windows`,
    `Exchanges` and `BlockFindings`. The methods are proved against them.
- `properties.dfy` (module `DocProperties`): lemmas about those
  functions.
  - The matcher reports exactly the matching windows, in increasing
    order, with no early exit.
  - Facts are the in-order filter of a block's statements.
  - Worked cases: the rotation is found even with other statements
    interleaved; the statement-count gate; a non-rotation; an overlapping
    pair of windows.
  - A walk reports what scanning each block on its own reports.
- `wrappers.dfy` (module `Wrappers`): `Option`.

The detector has no early exit: it reports every matching window,
overlapping ones included (`doc.go:148-158`); see
`DocProperties.OverlappingWindowsReported`.

## Model

| member | source | states |
|---|---|---|
| `Doc.ConvNamePair` | doc.go:101-128 | a fact exists exactly when there is one left-hand side and one right-hand side and both are bare identifiers; its `left`/`right` are their names and its position is the left identifier's position |
| `Doc.CannotConvertLeft` | doc.go:106-110 | the warning case (one left-hand side that is not an identifier) yields no fact; the warning does not change the result |
| `Doc.FactOf` | doc.go:84-89 | a direct statement of a block yields a fact exactly when it is an assignment statement with one left-hand side and one right-hand side that are both bare identifiers; the fact holds the two names and the left identifier's position |
| `DocProperties.OperatorIgnored` | doc.go:101-128 | the operator token is never consulted: `a := b` and `a += b` give the same fact as `a = b` |
| `DocProperties.CallSourceNoFact` | doc.go:120-125 | a single bare-identifier target assigned from a call or any other non-identifier expression never yields a fact; every other target shape is covered by the if-and-only-if of `ConvNamePair` |
| `Doc.NamePairs.constructor` | doc.go:81 | a fresh fact collection is empty |
| `Doc.NamePairs.Add` | doc.go:134-139 | a nil fact leaves the collection unchanged; any other fact is appended at the end and the earlier facts stay as they were |
| `Doc.NamePairs.FindExchange` | doc.go:141-159 | returns exactly `Exchanges(arr)`, the reports of a left-to-right pass over every 3-wide window; it reads `arr` and changes nothing |
| `Doc.MatchIndices` | doc.go:148-158 | the windows visited so far are reported in strictly increasing order, each below the number of windows visited, and there are at most as many reports as windows |
| `DocProperties.MatchIndicesExact` | doc.go:148-155 | window `i` among the first `n` is reported if and only if its three facts satisfy `first.Right == second.Left`, `second.Right == third.Left`, `third.Right == first.Left` |
| `DocProperties.ExchangesExact` | doc.go:141-158 | a window is reported if and only if it lies inside the facts and rotates three names; reports are in increasing window order; each report is the first fact's position; nothing is reported for fewer than 3 facts, and at most `total - 2` otherwise |
| `DocProperties.OverlappingWindowsReported` | doc.go:148-158 | no early exit: in `a = b; b = c; c = a; a = b` both overlapping windows are reported, in order |
| `Doc.ParseBlockStmt` | doc.go:75-93 | returns exactly `BlockFindings(list)`: nothing for fewer than 4 direct statements, otherwise the exchanges among the facts of the direct assignment statements in source order |
| `DocProperties.SmallBlockSilent` | doc.go:76-79 | a block of fewer than 4 direct statements reports nothing, whatever it holds: `a = b; b = c; c = a` alone is not reported, but the same three assignments followed by any statement without a fact are reported at the first one |
| `DocProperties.FactsAppend` | doc.go:83-90 | collecting facts distributes over concatenated statement lists |
| `DocProperties.FactsSplit` | doc.go:83-90 | the fact of each statement sits between the facts of the statements before it and those after it, so the facts are the in-order filter of the statements |
| `DocProperties.FactsOfSilent` | doc.go:84-89 | statements that are not convertible assignments contribute no fact |
| `DocProperties.FactsSilentAppend` | doc.go:84-89 | appending statements without a fact leaves the facts unchanged, so they do not break the adjacency of the facts around them |
| `DocProperties.RotationDetected` | doc.go:75-93 | `a = b; b = c; c = a` with any fact-less statements before, between and after, in a block of at least 4 statements, is reported once, at the first assignment's position |
| `DocProperties.NoCycleNoFinding` | doc.go:146-158 | `a = b; c = d; e = f` followed by a non-assignment reports nothing |
| `Doc.WalkStmt` | doc.go:62-73 | a block's own scan comes first in its walk, before anything its children report, and an assignment whose sides are all bare identifiers contributes nothing; that the walk scans every block exactly once, in pre-order, is proved by `DocProperties.WalkStmtIsFlat` |
| `Doc.WalkStmts` | doc.go:62-73 | statements are walked in list order: the first statement's findings come first; the full pre-order promise is proved by `DocProperties.WalkStmtsIsFlat` |
| `Doc.WalkExprs` | doc.go:62-73 | a list of expressions made only of bare identifiers reports nothing; only statements nested in other expressions (function literals) can report |
| `DocProperties.WalkStmtIsFlat` | doc.go:62-73 | walking a tree reports, in pre-order, exactly what scanning each of its blocks on its own reports; nested blocks are scanned too, and a node that is not a block only passes the walk on to its children |
| `DocProperties.WalkStmtsIsFlat` | doc.go:62-73 | the same for a list of statements visited one after another |
| `DocProperties.WalkExprsIsFlat` | doc.go:62-73 | the same for the expressions of an assignment, which can hold function literals |
| `DocProperties.SeparateBlocks` | doc.go:62-73 | N sibling blocks, where each block's own scan reports exactly one position and the walk of its statements reports nothing, yield exactly N reports, one per block, in order |

## Left out

- `scanSrcDir` (`doc.go:14-33`): directory traversal, file-name matching and the panic on error are file-system I/O.
- `ParseGoSrc` (`doc.go:35-56`): file reading, the Go parser and the global `curfset` are foreign library calls with global state. The model takes the parsed tree as input.
- Output: the `fmt.Printf` reports (`doc.go:156`), the warning (`doc.go:108`) and the turning of a `token.Pos` into a file/line/column through `curfset` are I/O. Reports are returned as sequences of opaque positions. The warning case is the predicate `CannotConvertLeft`.
- `ast.Walk`: the model walks a simplified tree of statements and expressions instead of the Go syntax tree. It has no declarations, files or type expressions. The blocks nested in a non-assignment statement, and the function literals in an expression, are listed as that node's nested statements in walk order.
- `WalkStmt`, `WalkStmts`, `WalkExprs`: modelled as functions over the tree, not as a class with a `Visit` method, because the Go visitor has no state. They use `BlockFindings`, which `ParseBlockStmt` is proved to compute.
- Go pointers to `NamePair` are modelled as values. Nothing in the detector depends on their identity.
- `TextFileIO.go` (`ReadLines`, `WriteLines`, `IoReader`, `ReadBinFile`): thin file I/O wrappers.
- `main.go`: argument check, usage message and file count are process I/O. `totalFiles` is not part of this model.
