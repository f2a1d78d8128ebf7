/**
 * The rotation detector: it finds three consecutive simple assignments
 * `A = B; B = C; C = A` among the direct statements of one block and
 * reports the position of the first of them.
 */
module Doc {
  import opened Wrappers
  import opened GoAst

  /** One simple assignment `Left = Right`, at the position of `Left`. */
  datatype NamePair = NamePair(nPos: Pos, left: string, right: string)

  /** The fact of one assignment statement: present exactly when the
      statement has one target and one source and both are bare
      identifiers. The operator token is never looked at. */
  function ConvNamePair(a: AssignStmt): (r: Option<NamePair>)
    ensures r.Some? <==> |a.lhs| == 1 && a.lhs[0].Ident? && |a.rhs| == 1 && a.rhs[0].Ident?
    ensures r.Some? ==> r.value.left == a.lhs[0].name && r.value.right == a.rhs[0].name
    ensures r.Some? ==> r.value.nPos == a.lhs[0].namePos
  {
    if |a.lhs| != 1 then None  // complex left side
    else match a.lhs[0]
      case NonIdent(_) => None  // the left side is not a bare identifier
      case Ident(lname, lpos) =>
        if |a.rhs| != 1 then None  // complex right side
        else match a.rhs[0]
          case NonIdent(_) => None
          case Ident(rname, _) => Some(NamePair(lpos, lname, rname))
  }

  /** The case in which the detector prints a warning: one target that is
      not a bare identifier. The warning changes nothing about the result. */
  predicate CannotConvertLeft(a: AssignStmt)
    ensures CannotConvertLeft(a) ==> ConvNamePair(a).None?
  {
    |a.lhs| == 1 && a.lhs[0].NonIdent?
  }

  /** The fact a direct statement of a block contributes: only assignment
      statements are converted, every other statement yields nothing. */
  function FactOf(s: Stmt): (r: Option<NamePair>)
    ensures r.Some? <==> s.Assign? && |s.assign.lhs| == 1 && s.assign.lhs[0].Ident?
                             && |s.assign.rhs| == 1 && s.assign.rhs[0].Ident?
    ensures r.Some? ==> r.value == NamePair(s.assign.lhs[0].namePos, s.assign.lhs[0].name, s.assign.rhs[0].name)
  {
    match s
    case Assign(a) => ConvNamePair(a)
    case _ => None
  }

  /** The facts of the first `n` direct statements of a block, in source order. */
  function FactsUpTo(list: seq<Stmt>, n: nat): (r: seq<NamePair>)
    requires n <= |list|
    ensures |r| <= n
  {
    if n == 0 then []
    else FactsUpTo(list, n - 1) + OptionToSeq(FactOf(list[n - 1]))
  }

  /** The facts of a block's direct statements, in source order. */
  function Facts(list: seq<Stmt>): (r: seq<NamePair>)
    ensures |r| <= |list|
  {
    FactsUpTo(list, |list|)
  }

  /** Three consecutive facts rotate three names: `A = B; B = C; C = A`. */
  predicate IsExchange(first: NamePair, second: NamePair, third: NamePair)
  {
    first.right == second.left && second.right == third.left && third.right == first.left
  }

  /** The number of 3-wide windows the matcher looks at: the last window
      it counts fits inside `s`, and one more would not. */
  function WindowCount(s: seq<NamePair>): (n: nat)
    ensures n > 0 ==> (n - 1) + 2 < |s|
    ensures n + 2 >= |s|
  {
    if |s| < 3 then 0 else |s| - 2
  }

  /** The start indices of the matching windows among the first `n`, in
      the order the matcher visits them. */
  function MatchIndices(s: seq<NamePair>, n: nat): (r: seq<nat>)
    requires n <= WindowCount(s)
    ensures |r| <= n
    ensures forall k :: 0 <= k < |r| ==> r[k] < n
    ensures forall j, k :: 0 <= j < k < |r| ==> r[j] < r[k]
    decreases n
  {
    if n == 0 then []
    else MatchIndices(s, n - 1) + (if IsExchange(s[n - 1], s[n], s[n + 1]) then [n - 1] else [])
  }

  /** The positions of the facts at the given indices. */
  function Positions(s: seq<NamePair>, idx: seq<nat>): (r: seq<Pos>)
    requires forall k :: 0 <= k < |idx| ==> idx[k] < |s|
  {
    seq(|idx|, k requires 0 <= k < |idx| => s[idx[k]].nPos)
  }

  /** The start indices of all matching windows. */
  function Windows(s: seq<NamePair>): (r: seq<nat>)
  {
    MatchIndices(s, WindowCount(s))
  }

  /** What the matcher reports for a fact sequence: the position of the
      first fact of every matching window, in increasing window order. */
  function Exchanges(s: seq<NamePair>): (r: seq<Pos>)
  {
    Positions(s, Windows(s))
  }

  /** What scanning one block reports: nothing for a block of fewer than
      four direct statements, otherwise the exchanges among its facts. */
  function BlockFindings(list: seq<Stmt>): (r: seq<Pos>)
  {
    if |list| < 4 then [] else Exchanges(Facts(list))
  }

  /** The facts collected for one block. */
  class NamePairs {
    var arr: seq<NamePair>

    constructor ()
      ensures arr == []
    {
      arr := [];
    }

    /** Appends a fact; a nil fact is skipped. */
    method Add(np: Option<NamePair>)
      modifies this
      ensures np.None? ==> arr == old(arr)
      ensures np.Some? ==> arr == old(arr) + [np.value]
    {
      if np.None? {
        return;
      }
      arr := arr + [np.value];
    }

    /** Slides a 3-wide window over the facts and reports every window
      that rotates three names. The facts are only read. */
    method FindExchange() returns (found: seq<Pos>)
      ensures found == Exchanges(arr)
    {
      if |arr| < 3 {
        return [];
      }
      var total := |arr|;
      found := [];
      ghost var idx: seq<nat> := [];
      for i := 0 to total - 2
        invariant idx == MatchIndices(arr, i)
        invariant found == Positions(arr, idx)
      {
        var first, second, third := arr[i], arr[i + 1], arr[i + 2];
        if first.right == second.left && second.right == third.left && third.right == first.left {
          found := found + [first.nPos];
          idx := idx + [i];
        }
      }
    }
  }

  /** Scans the direct statements of one block: skips a block of fewer than
      four statements, collects the facts of its assignment statements in
      order and reports the exchanges among them. */
  method ParseBlockStmt(list: seq<Stmt>) returns (found: seq<Pos>)
    ensures |list| < 4 ==> found == []
    ensures found == BlockFindings(list)
  {
    if |list| < 4 {
      return [];
    }
    var nps := new NamePairs();
    for i := 0 to |list|
      invariant nps.arr == FactsUpTo(list, i)
    {
      match list[i]
      case Assign(a) =>
        var np := ConvNamePair(a);
        nps.Add(np);
      case _ =>
    }
    found := nps.FindExchange();
  }

  /** The findings of walking a statement tree in pre-order: every block
      is scanned, and its children are still visited afterwards. */
  function WalkStmt(s: Stmt): (r: seq<Pos>)
    ensures s.Block? ==> BlockFindings(s.list) <= r
    ensures (s.Assign? &&
             (forall k :: 0 <= k < |s.assign.lhs| ==> s.assign.lhs[k].Ident?) &&
             (forall k :: 0 <= k < |s.assign.rhs| ==> s.assign.rhs[k].Ident?)) ==> r == []
    decreases s, 1
  {
    match s
    case Assign(a) => WalkExprs(a.lhs) + WalkExprs(a.rhs)
    case Block(list) => BlockFindings(list) + WalkStmts(list)
    case Other(children) => WalkStmts(children)
  }

  /** The findings of walking a list of statements, one after the other. */
  function WalkStmts(l: seq<Stmt>): (r: seq<Pos>)
    ensures l != [] ==> WalkStmt(l[0]) <= r
    decreases l, 0
  {
    if l == [] then [] else WalkStmt(l[0]) + WalkStmts(l[1..])
  }

  /** The findings of walking a list of expressions, one after the other. */
  function WalkExprs(l: seq<Expr>): (r: seq<Pos>)
    ensures (forall k :: 0 <= k < |l| ==> l[k].Ident?) ==> r == []
    decreases l, 0
  {
    if l == [] then []
    else
      (match l[0]
       case Ident(_, _) => []
       case NonIdent(nested) => WalkStmts(nested))
      + WalkExprs(l[1..])
  }
}
