/** Properties of the rotation detector: which windows are reported, how the
    facts of a block are collected, and what a walk over a tree reports. */
module DocProperties {
  import opened Wrappers
  import opened GoAst
  import opened Doc

  /** A window is reported exactly when it lies among the first `n` and
      rotates three names: no match is missed and nothing else is added. */
  lemma {:induction false} MatchIndicesExact(s: seq<NamePair>, n: nat)
    requires n <= WindowCount(s)
    ensures forall i: nat :: i in MatchIndices(s, n) <==> i < n && IsExchange(s[i], s[i + 1], s[i + 2])
  {
    if n > 0 {
      MatchIndicesExact(s, n - 1);
      var prev := MatchIndices(s, n - 1);
      var last := if IsExchange(s[n - 1], s[n], s[n + 1]) then [n - 1] else [];
      assert MatchIndices(s, n) == prev + last;
      forall i: nat
        ensures i in prev + last <==> i < n && IsExchange(s[i], s[i + 1], s[i + 2])
      {
        assert i in prev + last <==> i in prev || i in last;
      }
    } else {
      assert MatchIndices(s, n) == [];
    }
  }

  /** The positions of a concatenation of index lists are the positions of
      each list, one after the other. */
  lemma PositionsAppend(s: seq<NamePair>, a: seq<nat>, b: seq<nat>)
    requires forall k :: 0 <= k < |a| ==> a[k] < |s|
    requires forall k :: 0 <= k < |b| ==> b[k] < |s|
    ensures forall k :: 0 <= k < |a + b| ==> (a + b)[k] < |s|
    ensures Positions(s, a + b) == Positions(s, a) + Positions(s, b)
  {
  }

  /** The matcher reports, in increasing window order, the first position of
      every window `i` with `i + 2 < |s|` that rotates three names, and
      nothing else; so there are at most `|s| - 2` reports, and none at all
      for fewer than three facts. */
  lemma ExchangesExact(s: seq<NamePair>)
    ensures forall i: nat :: i in Windows(s) ==> i + 2 < |s| && IsExchange(s[i], s[i + 1], s[i + 2])
    ensures forall i: nat :: i + 2 < |s| && IsExchange(s[i], s[i + 1], s[i + 2]) ==> i in Windows(s)
    ensures forall j, k :: 0 <= j < k < |Windows(s)| ==> Windows(s)[j] < Windows(s)[k]
    ensures |Exchanges(s)| == |Windows(s)|
    ensures forall k :: 0 <= k < |Windows(s)| ==> Windows(s)[k] < |s| && Exchanges(s)[k] == s[Windows(s)[k]].nPos
    ensures |s| < 3 ==> Exchanges(s) == []
    ensures |s| >= 3 ==> |Exchanges(s)| <= |s| - 2
  {
    MatchIndicesExact(s, WindowCount(s));
  }

  /** The facts of a prefix do not depend on what follows it. */
  lemma {:induction false} FactsUpToPrefix(a: seq<Stmt>, b: seq<Stmt>, n: nat)
    requires n <= |a|
    ensures FactsUpTo(a + b, n) == FactsUpTo(a, n)
  {
    if n > 0 {
      FactsUpToPrefix(a, b, n - 1);
    }
  }

  lemma {:induction false} FactsUpToShift(a: seq<Stmt>, b: seq<Stmt>, k: nat)
    requires k <= |b|
    ensures FactsUpTo(a + b, |a| + k) == Facts(a) + FactsUpTo(b, k)
  {
    if k == 0 {
      FactsUpToPrefix(a, b, |a|);
    } else {
      FactsUpToShift(a, b, k - 1);
      var x := b[k - 1];
      assert (a + b)[|a| + k - 1] == x;
      assert FactsUpTo(a + b, |a| + k) == FactsUpTo(a + b, |a| + k - 1) + OptionToSeq(FactOf(x));
      assert FactsUpTo(b, k) == FactsUpTo(b, k - 1) + OptionToSeq(FactOf(x));
    }
  }

  /** Collecting facts is compositional over concatenated statement lists. */
  lemma FactsAppend(a: seq<Stmt>, b: seq<Stmt>)
    ensures Facts(a + b) == Facts(a) + Facts(b)
  {
    FactsUpToShift(a, b, |b|);
  }

  /** The fact of a statement sits between the facts of the statements
      before it and those after it: the facts are the in-order filter of
      the statements. */
  lemma FactsSplit(pre: seq<Stmt>, x: Stmt, post: seq<Stmt>)
    ensures Facts(pre + [x] + post) == Facts(pre) + OptionToSeq(FactOf(x)) + Facts(post)
  {
    FactsAppend(pre + [x], post);
    FactsSnoc(pre, x);
  }

  /** Appending one statement adds its fact, if any, at the end. */
  lemma FactsSnoc(l: seq<Stmt>, x: Stmt)
    ensures Facts(l + [x]) == Facts(l) + OptionToSeq(FactOf(x))
  {
    FactsUpToPrefix(l, [x], |l|);
  }

  /** Appending statements that yield no fact adds nothing. */
  lemma FactsSilentAppend(l: seq<Stmt>, xs: seq<Stmt>)
    requires forall k :: 0 <= k < |xs| ==> FactOf(xs[k]).None?
    ensures Facts(l + xs) == Facts(l)
  {
    FactsAppend(l, xs);
    FactsOfSilent(xs);
  }

  /** Statements without a fact contribute nothing. */
  lemma FactsOfSilent(xs: seq<Stmt>)
    requires forall k :: 0 <= k < |xs| ==> FactOf(xs[k]).None?
    ensures Facts(xs) == []
  {
    FactsUpToSilent(xs, |xs|);
  }

  lemma {:induction false} FactsUpToSilent(xs: seq<Stmt>, n: nat)
    requires n <= |xs|
    requires forall k :: 0 <= k < |xs| ==> FactOf(xs[k]).None?
    ensures FactsUpTo(xs, n) == []
  {
    if n > 0 {
      FactsUpToSilent(xs, n - 1);
    }
  }

  /** The operator token does not matter: `a := b` and `a += b` are
      converted just as `a = b` is. */
  lemma OperatorIgnored(a: AssignStmt, t: AssignTok)
    ensures ConvNamePair(a.(tok := t)) == ConvNamePair(a)
  {
  }

  /** A simple assignment `target <tok> source`. */
  function Simple(target: string, tpos: Pos, tok: AssignTok, source: string, spos: Pos): (r: Stmt)
  {
    Assign(AssignStmt([Ident(target, tpos)], tok, [Ident(source, spos)]))
  }

  /** `a = b; b = c; c = a` in a block of at least four statements, with any
      statements that yield no fact before, between and after them, is
      reported once, at the first assignment. */
  lemma RotationDetected(x0: seq<Stmt>, x1: seq<Stmt>, x2: seq<Stmt>, x3: seq<Stmt>,
                         a: string, b: string, c: string,
                         p1: Pos, p2: Pos, p3: Pos, q1: Pos, q2: Pos, q3: Pos,
                         t1: AssignTok, t2: AssignTok, t3: AssignTok)
    requires forall k :: 0 <= k < |x0| ==> FactOf(x0[k]).None?
    requires forall k :: 0 <= k < |x1| ==> FactOf(x1[k]).None?
    requires forall k :: 0 <= k < |x2| ==> FactOf(x2[k]).None?
    requires forall k :: 0 <= k < |x3| ==> FactOf(x3[k]).None?
    requires |x0| + |x1| + |x2| + |x3| >= 1
    ensures BlockFindings(x0 + [Simple(a, p1, t1, b, q1)] + x1 + [Simple(b, p2, t2, c, q2)]
                          + x2 + [Simple(c, p3, t3, a, q3)] + x3) == [p1]
  {
    var s1, s2, s3 := Simple(a, p1, t1, b, q1), Simple(b, p2, t2, c, q2), Simple(c, p3, t3, a, q3);
    var n1, n2, n3 := NamePair(p1, a, b), NamePair(p2, b, c), NamePair(p3, c, a);
    FactsOfInterleaved(x0, s1, x1, s2, x2, s3, x3, n1, n2, n3);
    ExchangesExact([n1, n2, n3]);
  }

  /** Statements without a fact followed by one with a fact add exactly
      that fact. */
  lemma FactsStep(l: seq<Stmt>, xs: seq<Stmt>, x: Stmt, n: NamePair)
    requires forall k :: 0 <= k < |xs| ==> FactOf(xs[k]).None?
    requires FactOf(x) == Some(n)
    ensures Facts(l + xs + [x]) == Facts(l) + [n]
  {
    FactsSnoc(l + xs, x);
    FactsSilentAppend(l, xs);
  }

  /** Three statements with facts, separated by statements without any,
      yield exactly those three facts. */
  lemma FactsOfInterleaved(x0: seq<Stmt>, s1: Stmt, x1: seq<Stmt>, s2: Stmt, x2: seq<Stmt>,
                           s3: Stmt, x3: seq<Stmt>, n1: NamePair, n2: NamePair, n3: NamePair)
    requires forall k :: 0 <= k < |x0| ==> FactOf(x0[k]).None?
    requires forall k :: 0 <= k < |x1| ==> FactOf(x1[k]).None?
    requires forall k :: 0 <= k < |x2| ==> FactOf(x2[k]).None?
    requires forall k :: 0 <= k < |x3| ==> FactOf(x3[k]).None?
    requires FactOf(s1) == Some(n1) && FactOf(s2) == Some(n2) && FactOf(s3) == Some(n3)
    ensures Facts(x0 + [s1] + x1 + [s2] + x2 + [s3] + x3) == [n1, n2, n3]
  {
    FactsOfSilent(x0);
    FactsSnoc(x0, s1);
    FactsStep(x0 + [s1], x1, s2, n2);
    FactsStep(x0 + [s1] + x1 + [s2], x2, s3, n3);
    FactsSilentAppend(x0 + [s1] + x1 + [s2] + x2 + [s3], x3);
  }

  /** The statement-count gate: a block of fewer than four statements
      reports nothing, so `a = b; b = c; c = a` alone is not reported,
      while the same three assignments followed by any statement without a
      fact are. */
  lemma SmallBlockSilent(l: seq<Stmt>, a: string, b: string, c: string,
                         p1: Pos, p2: Pos, p3: Pos, q: Pos, x: Stmt)
    requires |l| < 4
    requires FactOf(x).None?
    ensures BlockFindings(l) == []
    ensures BlockFindings([Simple(a, p1, PlainAssign, b, q), Simple(b, p2, PlainAssign, c, q),
                           Simple(c, p3, PlainAssign, a, q)]) == []
    ensures BlockFindings([Simple(a, p1, PlainAssign, b, q), Simple(b, p2, PlainAssign, c, q),
                           Simple(c, p3, PlainAssign, a, q), x]) == [p1]
  {
    var s1, s2, s3 := Simple(a, p1, PlainAssign, b, q), Simple(b, p2, PlainAssign, c, q),
                      Simple(c, p3, PlainAssign, a, q);
    RotationDetected([], [], [], [x], a, b, c, p1, p2, p3, q, q, q, PlainAssign, PlainAssign, PlainAssign);
    assert [] + [s1] + [] + [s2] + [] + [s3] + [x] == [s1, s2, s3, x];
  }

  /** `a = b; c = d; e = f` is not a rotation, whatever follows it. */
  lemma NoCycleNoFinding(p1: Pos, p2: Pos, p3: Pos, q1: Pos, q2: Pos, q3: Pos, x: Stmt)
    requires FactOf(x).None?
    ensures BlockFindings([Simple("a", p1, PlainAssign, "b", q1), Simple("c", p2, PlainAssign, "d", q2),
                           Simple("e", p3, PlainAssign, "f", q3), x]) == []
  {
    var l := [Simple("a", p1, PlainAssign, "b", q1), Simple("c", p2, PlainAssign, "d", q2),
              Simple("e", p3, PlainAssign, "f", q3), x];
    var f := [NamePair(p1, "a", "b"), NamePair(p2, "c", "d"), NamePair(p3, "e", "f")];
    FactsOfInterleaved([], l[0], [], l[1], [], l[2], [x], f[0], f[1], f[2]);
    assert [] + [l[0]] + [] + [l[1]] + [] + [l[2]] + [x] == l;
    ExchangesExact(f);
    assert !IsExchange(f[0], f[1], f[2]);
    assert 0 !in Windows(f);
  }

  /** There is no early exit: in `a = b; b = c; c = a; a = b` both windows
      rotate three names, and both are reported, in order. */
  lemma OverlappingWindowsReported(a: string, b: string, c: string,
                                   p1: Pos, p2: Pos, p3: Pos, p4: Pos, q: Pos)
    ensures BlockFindings([Simple(a, p1, PlainAssign, b, q), Simple(b, p2, PlainAssign, c, q),
                           Simple(c, p3, PlainAssign, a, q), Simple(a, p4, PlainAssign, b, q)]) == [p1, p2]
  {
    var l := [Simple(a, p1, PlainAssign, b, q), Simple(b, p2, PlainAssign, c, q),
              Simple(c, p3, PlainAssign, a, q), Simple(a, p4, PlainAssign, b, q)];
    var f := [NamePair(p1, a, b), NamePair(p2, b, c), NamePair(p3, c, a), NamePair(p4, a, b)];
    FactsOfFour(l, f);
    WindowsOfFour(f);
  }

  /** Four statements that each yield a fact yield those four facts. */
  lemma FactsOfFour(l: seq<Stmt>, f: seq<NamePair>)
    requires |l| == 4 && |f| == 4
    requires forall k :: 0 <= k < 4 ==> FactOf(l[k]) == Some(f[k])
    ensures Facts(l) == f
  {
    assert FactsUpTo(l, 1) == f[..1];
    assert FactsUpTo(l, 2) == f[..2];
    assert FactsUpTo(l, 3) == f[..3];
    assert FactsUpTo(l, 4) == f[..4];
  }

  /** From four facts whose two windows both rotate three names, both windows are reported. */
  lemma WindowsOfFour(f: seq<NamePair>)
    requires |f| == 4
    requires IsExchange(f[0], f[1], f[2]) && IsExchange(f[1], f[2], f[3])
    ensures Exchanges(f) == [f[0].nPos, f[1].nPos]
  {
    assert MatchIndices(f, 1) == [0];
    assert MatchIndices(f, 2) == [0, 1];
  }

  /** A single bare-identifier target assigned from a function call (or any
      other non-identifier expression, with whatever statements are nested
      in it) never yields a fact. */
  lemma CallSourceNoFact(target: string, tpos: Pos, tok: AssignTok, nested: seq<Stmt>)
    ensures ConvNamePair(AssignStmt([Ident(target, tpos)], tok, [NonIdent(nested)])).None?
  {
  }

  /** The findings of a list of block lists, block after block. */
  function FlatFindings(bl: seq<seq<Stmt>>): (r: seq<Pos>)
  {
    if bl == [] then [] else BlockFindings(bl[0]) + FlatFindings(bl[1..])
  }

  lemma {:induction false} FlatFindingsAppend(x: seq<seq<Stmt>>, y: seq<seq<Stmt>>)
    ensures FlatFindings(x + y) == FlatFindings(x) + FlatFindings(y)
    decreases |x|
  {
    if x == [] {
      assert x + y == y;
    } else {
      assert (x + y)[1..] == x[1..] + y;
      FlatFindingsAppend(x[1..], y);
    }
  }

  /** The statement lists of every block in a tree, in pre-order. */
  function BlocksOfStmt(s: Stmt): (r: seq<seq<Stmt>>)
    decreases s, 1
  {
    match s
    case Assign(a) => BlocksOfExprs(a.lhs) + BlocksOfExprs(a.rhs)
    case Block(list) => [list] + BlocksOfStmts(list)
    case Other(children) => BlocksOfStmts(children)
  }

  function BlocksOfStmts(l: seq<Stmt>): (r: seq<seq<Stmt>>)
    decreases l, 0
  {
    if l == [] then [] else BlocksOfStmt(l[0]) + BlocksOfStmts(l[1..])
  }

  function BlocksOfExprs(l: seq<Expr>): (r: seq<seq<Stmt>>)
    decreases l, 0
  {
    if l == [] then []
    else
      (match l[0]
       case Ident(_, _) => []
       case NonIdent(nested) => BlocksOfStmts(nested))
      + BlocksOfExprs(l[1..])
  }

  /** A walk reports, in pre-order, exactly what scanning each block of the
      tree on its own reports: every block is scanned, nested blocks
      included, and nothing else contributes. */
  lemma {:induction false} WalkStmtIsFlat(s: Stmt)
    ensures WalkStmt(s) == FlatFindings(BlocksOfStmt(s))
    decreases s, 1
  {
    match s
    case Assign(a) =>
      WalkExprsIsFlat(a.lhs);
      WalkExprsIsFlat(a.rhs);
      FlatFindingsAppend(BlocksOfExprs(a.lhs), BlocksOfExprs(a.rhs));
    case Block(list) =>
      WalkStmtsIsFlat(list);
      FlatFindingsAppend([list], BlocksOfStmts(list));
    case Other(children) =>
      WalkStmtsIsFlat(children);
  }

  lemma {:induction false} WalkStmtsIsFlat(l: seq<Stmt>)
    ensures WalkStmts(l) == FlatFindings(BlocksOfStmts(l))
    decreases l, 0
  {
    if l != [] {
      WalkStmtIsFlat(l[0]);
      WalkStmtsIsFlat(l[1..]);
      FlatFindingsAppend(BlocksOfStmt(l[0]), BlocksOfStmts(l[1..]));
    }
  }

  lemma {:induction false} WalkExprsIsFlat(l: seq<Expr>)
    ensures WalkExprs(l) == FlatFindings(BlocksOfExprs(l))
    decreases l, 0
  {
    if l != [] {
      if l[0].NonIdent? {
        WalkStmtsIsFlat(l[0].nested);
      }
      WalkExprsIsFlat(l[1..]);
      FlatFindingsAppend(if l[0].Ident? then [] else BlocksOfStmts(l[0].nested), BlocksOfExprs(l[1..]));
    }
  }

  /** N separate blocks, each holding one rotation and no nested finding,
      yield exactly N findings, one per block, in order. */
  lemma {:induction false} SeparateBlocks(l: seq<Stmt>)
    requires forall k :: 0 <= k < |l| ==> l[k].Block? && |BlockFindings(l[k].list)| == 1
    requires forall k :: 0 <= k < |l| ==> l[k].Block? && WalkStmts(l[k].list) == []
    ensures |WalkStmts(l)| == |l|
    ensures forall k :: 0 <= k < |l| ==> WalkStmts(l)[k] == BlockFindings(l[k].list)[0]
  {
    if l != [] {
      var tail := l[1..];
      SeparateBlocks(tail);
      var first := BlockFindings(l[0].list);
      assert WalkStmt(l[0]) == first + WalkStmts(l[0].list) == first;
      var rest := WalkStmts(tail);
      assert WalkStmts(l) == first + rest;
      forall k | 0 <= k < |l|
        ensures WalkStmts(l)[k] == BlockFindings(l[k].list)[0]
      {
        if k > 0 {
          assert tail[k - 1] == l[k];
        }
      }
    }
  }
}
