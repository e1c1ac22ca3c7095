/** Windows, filters and membership lists: what the reducers do to their slices. */
module Sequences {
  import opened Types

  // ---- fields that keep the last thing said ----

  /** The newest event that says anything, or -1. */
  function LastSaying<T>(events: seq<Event>, says: Event -> Option<T>): (i: int)
    ensures -1 <= i < |events|
    ensures i >= 0 ==> says(events[i]).Some?
    ensures forall j :: i < j < |events| ==> says(events[j]).None?
  {
    if events == [] then -1
    else if says(events[|events| - 1]).Some? then |events| - 1
    else LastSaying(events[..|events| - 1], says)
  }

  /** What it says, or silence. */
  function Latest<T>(events: seq<Event>, says: Event -> Option<T>, silence: T): T {
    var i := LastSaying(events, says);
    if i >= 0 then says(events[i]).value else silence
  }

  /** A payload field, when an event of the given kind carries it non-empty. */
  function Said(e: Event, kind: string, key: string): Option<string> {
    if e.kind == kind && GetStr(e.payload, key) != "" then Some(GetStr(e.payload, key)) else None
  }

  /** The time of an event of the given kind. */
  function TimeOf(e: Event, kind: string): Option<Time> { if e.kind == kind then Some(e.occurredAt) else None }

  function CountIf(events: seq<Event>, f: Event -> bool): nat {
    if events == [] then 0 else CountIf(events[..|events| - 1], f) + if f(events[|events| - 1]) then 1 else 0
  }

  // ---- bounded windows ----

  /** The newest n elements. */
  function Window<T>(s: seq<T>, n: nat): (w: seq<T>)
    ensures |w| <= n
  {
    if |s| > n then s[|s| - n..] else s
  }

  lemma WindowIsTail<T>(s: seq<T>, n: nat)
    ensures var w := Window(s, n);
      |w| == (if |s| < n then |s| else n) && s[|s| - |w|..] == w
  {
  }

  /** Appending and trimming as one goes equals trimming the whole list once. */
  lemma WindowSnoc<T>(s: seq<T>, x: T, n: nat)
    requires n > 0
    ensures Window(Window(s, n) + [x], n) == Window(s + [x], n)
  {
  }

  // ---- clamped counters ----

  function Sum(s: seq<int>): int {
    if s == [] then 0 else Sum(s[..|s| - 1]) + s[|s| - 1]
  }

  /** A counter moved by each signal and never allowed below zero. */
  function Reflect(s: seq<int>): nat {
    if s == [] then 0
    else if Reflect(s[..|s| - 1]) + s[|s| - 1] > 0 then Reflect(s[..|s| - 1]) + s[|s| - 1] else 0
  }

  lemma SumSnoc(s: seq<int>, x: int)
    ensures Sum(s + [x]) == Sum(s) + x
  {
    assert (s + [x])[..|s|] == s;
  }

  lemma ReflectSnoc(s: seq<int>, x: int)
    ensures Reflect(s + [x]) == if Reflect(s) + x > 0 then Reflect(s) + x else 0
  {
    assert (s + [x])[..|s|] == s;
  }

  /** The clamped counter is the greatest sum of any suffix, the empty suffix included. */
  lemma {:induction false} ReflectIsGreatestSuffix(s: seq<int>)
    ensures forall k :: 0 <= k <= |s| ==> Sum(s[k..]) <= Reflect(s)
    ensures exists k :: 0 <= k <= |s| && Sum(s[k..]) == Reflect(s)
  {
    assert s[|s|..] == [] && Sum(s[|s|..]) == 0;
    if s != [] {
      var front, x := s[..|s| - 1], s[|s| - 1];
      ReflectIsGreatestSuffix(front);
      forall k | 0 <= k < |s| ensures Sum(s[k..]) == Sum(front[k..]) + x {
        assert s[k..] == front[k..] + [x];
        SumSnoc(front[k..], x);
      }
      var k :| 0 <= k <= |front| && Sum(front[k..]) == Reflect(front);
      assert Sum(s[k..]) == Reflect(s) || Sum(s[|s|..]) == Reflect(s);
    }
  }

  // ---- filters ----

  /** The elements other than v, in order. */
  function Without<T(==)>(s: seq<T>, v: T): (r: seq<T>)
    ensures |r| <= |s|
  {
    if s == [] then []
    else Without(s[..|s| - 1], v) + (if s[|s| - 1] == v then [] else [s[|s| - 1]])
  }

  lemma {:induction false} WithoutMembers<T>(s: seq<T>, v: T)
    ensures forall x :: x in Without(s, v) <==> x in s && x != v
  {
    if s != [] {
      WithoutMembers(s[..|s| - 1], v);
      assert s == s[..|s| - 1] + [s[|s| - 1]];
    }
  }

  /** Nothing else goes: the others keep their order and are as many as before. */
  lemma {:induction false} WithoutKeepsOthers<T>(s: seq<T>, v: T)
    ensures Subseq(Without(s, v), s)
    ensures forall x :: x != v ==> multiset(Without(s, v))[x] == multiset(s)[x]
  {
    if s != [] {
      var front, last := s[..|s| - 1], s[|s| - 1];
      WithoutKeepsOthers(front, v);
      assert s == front + [last];
      if last == v {
        SubseqSkip(Without(front, v), front, last);
        assert Without(s, v) == Without(front, v);
      } else {
        SubseqTake(Without(front, v), front, last);
      }
    }
  }

  ghost predicate Distinct<T>(s: seq<T>) {
    forall i, j :: 0 <= i < j < |s| ==> s[i] != s[j]
  }

  lemma {:induction false} WithoutDistinct<T>(s: seq<T>, v: T)
    requires Distinct(s)
    ensures Distinct(Without(s, v))
  {
    if s != [] {
      var front, last := s[..|s| - 1], s[|s| - 1];
      WithoutDistinct(front, v);
      var r := Without(front, v);
      assert last !in r by {
        WithoutMembers(front, v);
        assert last !in front;
      }
    }
  }

  function AddedUnique<T(==)>(s: seq<T>, v: T): seq<T> {
    if v in s then s else s + [v]
  }

  // ---- subsequences ----

  /** a is b with some elements left out. */
  ghost predicate Subseq<T>(a: seq<T>, b: seq<T>) {
    a == [] || (b != []
      && ((a[|a| - 1] == b[|b| - 1] && Subseq(a[..|a| - 1], b[..|b| - 1])) || Subseq(a, b[..|b| - 1])))
  }

  lemma SubseqSkip<T>(a: seq<T>, b: seq<T>, x: T)
    requires Subseq(a, b)
    ensures Subseq(a, b + [x])
  {
    assert (b + [x])[..|b|] == b;
  }

  lemma SubseqTake<T>(a: seq<T>, b: seq<T>, x: T)
    requires Subseq(a, b)
    ensures Subseq(a + [x], b + [x])
  {
    assert (a + [x])[..|a|] == a && (b + [x])[..|b|] == b;
  }

  lemma {:induction false} SubseqMember<T>(a: seq<T>, b: seq<T>, x: T)
    requires Subseq(a, b) && x in a
    ensures x in b
  {
    if a[|a| - 1] == b[|b| - 1] && Subseq(a[..|a| - 1], b[..|b| - 1]) {
      if x != a[|a| - 1] {
        assert x in a[..|a| - 1];
        SubseqMember(a[..|a| - 1], b[..|b| - 1], x);
      }
    } else {
      SubseqMember(a, b[..|b| - 1], x);
    }
  }

  lemma {:induction false} SubseqFront<T>(a: seq<T>, b: seq<T>, c: seq<T>)
    requires Subseq(a + b, c)
    ensures Subseq(a, c)
    decreases |b| + |c|
  {
    if a != [] {
      var ab := a + b;
      if b == [] {
        assert ab == a;
      } else if ab[|ab| - 1] == c[|c| - 1] && Subseq(ab[..|ab| - 1], c[..|c| - 1]) {
        assert ab[..|ab| - 1] == a + b[..|b| - 1];
        SubseqFront(a, b[..|b| - 1], c[..|c| - 1]);
        assert c == c[..|c| - 1] + [c[|c| - 1]];
        SubseqSkip(a, c[..|c| - 1], c[|c| - 1]);
      } else {
        SubseqFront(a, b, c[..|c| - 1]);
        assert c == c[..|c| - 1] + [c[|c| - 1]];
        SubseqSkip(a, c[..|c| - 1], c[|c| - 1]);
      }
    }
  }

  lemma {:induction false} SubseqTrans<T>(a: seq<T>, b: seq<T>, c: seq<T>)
    requires Subseq(a, b) && Subseq(b, c)
    ensures Subseq(a, c)
    decreases |b| + |c|
  {
    if a != [] {
      var b', c' := b[..|b| - 1], c[..|c| - 1];
      assert c == c' + [c[|c| - 1]];
      if b[|b| - 1] == c[|c| - 1] && Subseq(b', c') {
        if a[|a| - 1] == b[|b| - 1] && Subseq(a[..|a| - 1], b') {
          SubseqTrans(a[..|a| - 1], b', c');
        } else {
          SubseqTrans(a, b', c');
        }
      } else {
        SubseqTrans(a, b, c');
      }
    }
  }

  lemma {:induction false} SubseqDrop<T>(a: seq<T>, b: seq<T>, n: nat)
    requires Subseq(a, b) && n <= |a|
    ensures Subseq(a[n..], b)
    decreases |a| + |b|
  {
    if n < |a| {
      var a', b' := a[..|a| - 1], b[..|b| - 1];
      assert a[n..][..|a| - n - 1] == a'[n..];
      if a[|a| - 1] == b[|b| - 1] && Subseq(a', b') {
        SubseqDrop(a', b', n);
      } else {
        SubseqDrop(a, b', n);
      }
    }
  }

  // ---- membership over a run ----

  datatype Change<+T> = Join(v: T) | Leave(v: T) | Nothing

  function Member<T(==)>(s: seq<T>, c: Change<T>): seq<T> {
    match c
    case Join(v) => AddedUnique(s, v)
    case Leave(v) => Without(s, v)
    case Nothing => s
  }

  function Members<T(==)>(run: seq<Change<T>>): seq<T> {
    if run == [] then [] else Member(Members(run[..|run| - 1]), run[|run| - 1])
  }

  lemma MembersSnoc<T>(run: seq<Change<T>>, c: Change<T>)
    ensures Members(run + [c]) == Member(Members(run), c)
  {
    assert (run + [c])[..|run|] == run;
  }

  /** v's latest join or leave in the run was a join. */
  ghost predicate LastJoined<T>(run: seq<Change<T>>, v: T) {
    exists i :: 0 <= i < |run| && run[i] == Join(v) && forall j :: i < j < |run| ==> run[j] != Leave(v)
  }

  lemma LastJoinedSnoc<T>(run: seq<Change<T>>, c: Change<T>, v: T)
    ensures LastJoined(run + [c], v) <==> c == Join(v) || (c != Leave(v) && LastJoined(run, v))
  {
    var all := run + [c];
    if LastJoined(all, v) && c != Join(v) {
      var i :| 0 <= i < |all| && all[i] == Join(v) && forall j :: i < j < |all| ==> all[j] != Leave(v);
      assert run[i] == Join(v) && all[|run|] == c;
      assert forall j :: i < j < |run| ==> run[j] == all[j];
    }
    if c == Join(v) {
      assert all[|run|] == Join(v);
    } else if c != Leave(v) && LastJoined(run, v) {
      var i :| 0 <= i < |run| && run[i] == Join(v) && forall j :: i < j < |run| ==> run[j] != Leave(v);
      assert all[i] == Join(v);
    }
  }

  /** The list holds exactly the values whose last change was a join, each once. */
  lemma {:induction false} MembersIff<T>(run: seq<Change<T>>)
    ensures Distinct(Members(run))
    ensures forall v :: v in Members(run) <==> LastJoined(run, v)
  {
    if run != [] {
      var before, c := run[..|run| - 1], run[|run| - 1];
      MembersIff(before);
      assert run == before + [c];
      forall v ensures v in Members(run) <==> LastJoined(run, v) {
        LastJoinedSnoc(before, c, v);
        if c.Leave? { WithoutMembers(Members(before), c.v); }
      }
      if c.Leave? { WithoutDistinct(Members(before), c.v); }
    }
  }

  // ---- the in-place forms ----

  /** addUnique: scan, and append only when the scan finds nothing. */
  method AddUnique<T(==)>(xs: seq<T>, v: T) returns (r: seq<T>)
    ensures r == AddedUnique(xs, v)
    ensures xs <= r && v in r && |r| == if v in xs then |xs| else |xs| + 1
  {
    for i := 0 to |xs|
      invariant v !in xs[..i]
    {
      if xs[i] == v { return xs; }
      assert xs[..i + 1] == xs[..i] + [xs[i]];
    }
    assert xs[..|xs|] == xs;
    return xs + [v];
  }

  /**
   removeString: out := xs[:0] shares xs's storage, so the kept elements are copied down over it.
   The first n cells of xs are the slice; k is the length of the result, and what lies beyond it is
   left as it was.
   */
  method RemoveInPlace<T(==)>(xs: array<T>, n: nat, v: T) returns (k: nat)
    requires n <= xs.Length
    modifies xs
    ensures k <= n && xs[..k] == Without(old(xs[..n]), v)
    ensures v !in xs[..k] && Subseq(xs[..k], old(xs[..n]))
    ensures xs[k..] == old(xs[k..])
  {
    k := 0;
    ghost var was := xs[..n];
    for i := 0 to n
      invariant k <= i
      invariant xs[..k] == Without(was[..i], v)
      invariant forall j :: k <= j < xs.Length ==> xs[j] == old(xs[..])[j]
    {
      var x := xs[i];
      assert x == was[i];
      assert was[..i + 1][..i] == was[..i];
      if x != v {
        xs[k] := x;
        k := k + 1;
      }
    }
    assert was[..n] == was;
    WithoutMembers(was, v);
    WithoutKeepsOthers(was, v);
  }
}
