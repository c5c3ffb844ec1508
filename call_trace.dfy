/** The observable effect of a walk: the sequence of start and end functions
    the hook invokes. Each entry records the dispatch kind, the context object
    passed and whether the function was the visitor's own (`supplied`) or the
    hook's default (`() => !alreadyVisited` for start, a no-op for end). */
module CallTrace {
  import opened Wrappers
  import opened OpenApiTypes

  datatype Event =
    | Start(kind: DispatchKind, ctx: VisitorCallbackArgument, supplied: bool)
    | End(kind: DispatchKind, ctx: VisitorCallbackArgument, supplied: bool)

  /** A start whose end is still pending. */
  datatype Frame = Frame(kind: DispatchKind, ctx: VisitorCallbackArgument)

  /** Replays a trace against a stack of pending starts: a start pushes, an
      end must close the most recent pending start with the same kind and
      the same context object. */
  function Replay(s: seq<Event>, open: seq<Frame>): Option<seq<Frame>>
    decreases |s|
  {
    if s == [] then Some(open)
    else match s[0]
      case Start(k, c, _) => Replay(s[1..], open + [Frame(k, c)])
      case End(k, c, _) =>
        if |open| > 0 && open[|open| - 1] == Frame(k, c) then Replay(s[1..], open[..|open| - 1])
        else None
  }

  /** Every start is closed by an end with the same kind and context, properly nested. */
  predicate Balanced(s: seq<Event>) {
    Replay(s, []) == Some([])
  }

  /** Replaying a concatenation replays the parts one after the other. */
  lemma {:induction false} ReplayAppend(a: seq<Event>, b: seq<Event>, open: seq<Frame>)
    ensures Replay(a + b, open) == (if Replay(a, open).None? then None else Replay(b, Replay(a, open).value))
    decreases |a|
  {
    if a == [] {
      assert a + b == b;
    } else {
      assert (a + b)[0] == a[0];
      assert (a + b)[1..] == a[1..] + b;
      match a[0]
      case Start(k, c, _) =>
        ReplayAppend(a[1..], b, open + [Frame(k, c)]);
      case End(k, c, _) =>
        if |open| > 0 && open[|open| - 1] == Frame(k, c) {
          ReplayAppend(a[1..], b, open[..|open| - 1]);
        }
    }
  }

  /** Pending starts below the ones a trace touches are left alone. */
  lemma {:induction false} ReplayUnderStack(s: seq<Event>, base: seq<Frame>, open: seq<Frame>, open': seq<Frame>)
    requires Replay(s, open) == Some(open')
    ensures Replay(s, base + open) == Some(base + open')
    decreases |s|
  {
    if s != [] {
      match s[0]
      case Start(k, c, _) =>
        assert base + open + [Frame(k, c)] == base + (open + [Frame(k, c)]);
        ReplayUnderStack(s[1..], base, open + [Frame(k, c)], open');
      case End(k, c, _) =>
        assert (base + open)[..|base + open| - 1] == base + open[..|open| - 1];
        ReplayUnderStack(s[1..], base, open[..|open| - 1], open');
    }
  }

  /** Two balanced traces in a row are balanced. */
  lemma BalancedConcat(a: seq<Event>, b: seq<Event>)
    requires Balanced(a) && Balanced(b)
    ensures Balanced(a + b)
  {
    ReplayAppend(a, b, []);
  }

  /** A balanced trace between a start and the end with the same kind and
      context is balanced, whichever functions were supplied. */
  lemma BalancedBracket(k: DispatchKind, c: VisitorCallbackArgument, s: seq<Event>, s1: bool, s2: bool)
    requires Balanced(s)
    ensures Balanced([Start(k, c, s1)] + s + [End(k, c, s2)])
  {
    var t := [Start(k, c, s1)] + s + [End(k, c, s2)];
    var f := [Frame(k, c)];
    assert t[0] == Start(k, c, s1);
    assert t[1..] == s + [End(k, c, s2)];
    assert [] + f == f;
    assert Replay(t, []) == Replay(s + [End(k, c, s2)], f);
    ReplayUnderStack(s, f, [], []);
    assert f + [] == f;
    ReplayAppend(s, [End(k, c, s2)], f);
    assert Replay([End(k, c, s2)], f) == Replay([], []);
  }

  /** The calls the visitor itself sees: the invocations of its own
      functions, in the order they were made. */
  function VisibleCalls(s: seq<Event>): (r: seq<Event>)
    ensures |r| <= |s|
    ensures forall e :: e in r ==> e in s && e.supplied
    ensures forall e :: e in s && e.supplied ==> e in r
    decreases |s|
  {
    if s == [] then []
    else (if s[0].supplied then [s[0]] else []) + VisibleCalls(s[1..])
  }

  /** One call is seen exactly when it is the visitor's own. */
  lemma VisibleCallsOne(e: Event)
    ensures VisibleCalls([e]) == (if e.supplied then [e] else [])
  {
    assert [e][1..] == [];
  }

  /** Filtering keeps order and multiplicity: the calls of a concatenation
      are seen as the calls of the first part, then those of the second. */
  lemma {:induction false} VisibleCallsAppend(a: seq<Event>, b: seq<Event>)
    ensures VisibleCalls(a + b) == VisibleCalls(a) + VisibleCalls(b)
    decreases |a|
  {
    if a == [] {
      assert a + b == b;
    } else {
      var ab := a + b;
      assert ab[0] == a[0];
      assert ab[1..] == a[1..] + b;
      VisibleCallsAppend(a[1..], b);
      var h := if a[0].supplied then [a[0]] else [];
      calc {
        VisibleCalls(ab);
        h + VisibleCalls(a[1..] + b);
        h + (VisibleCalls(a[1..]) + VisibleCalls(b));
        (h + VisibleCalls(a[1..])) + VisibleCalls(b);
      }
    }
  }
}
