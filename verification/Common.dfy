/** Shared value types and sequence facts used by every component model. */
module Common {

  datatype Option<+T> = None | Some(value: T)

  datatype Result<+T, +E> = Ok(value: T) | Err(error: E)

  /** The elements of `s` for which `p` holds, in order. */
  function Filter<T(!new)>(s: seq<T>, p: T -> bool): (r: seq<T>)
    ensures |r| <= |s|
    ensures forall x :: x in r <==> x in s && p(x)
  {
    if s == [] then []
    else if p(s[0]) then [s[0]] + Filter(s[1..], p)
    else Filter(s[1..], p)
  }

  lemma {:induction false} FilterConcat<T(!new)>(a: seq<T>, b: seq<T>, p: T -> bool)
    ensures Filter(a + b, p) == Filter(a, p) + Filter(b, p)
  {
    if a == [] {
      assert a + b == b;
    } else {
      assert (a + b)[1..] == a[1..] + b;
      FilterConcat(a[1..], b, p);
    }
  }

  lemma {:induction false} FilterNone<T(!new)>(s: seq<T>, p: T -> bool)
    requires forall x :: x in s ==> !p(x)
    ensures Filter(s, p) == []
  {
    if s != [] {
      FilterNone(s[1..], p);
    }
  }

  /** `at` names the positions of `s` where `p` holds, in order, and `r` the values there. */
  ghost predicate Selects<T(!new)>(s: seq<T>, p: T -> bool, r: seq<T>, at: seq<nat>) {
    Rising(at) && PicksFrom(s, r, at) && forall i :: 0 <= i < |s| ==> (p(s[i]) <==> i in at)
  }

  ghost predicate Rising(at: seq<nat>) { forall j, k :: 0 <= j < k < |at| ==> at[j] < at[k] }

  ghost predicate PicksFrom<T>(s: seq<T>, r: seq<T>, at: seq<nat>) {
    |at| == |r| && forall k :: 0 <= k < |at| ==> at[k] < |s| && r[k] == s[at[k]]
  }

  function Shifted(at: seq<nat>): (r: seq<nat>)
    ensures |r| == |at| && forall k :: 0 <= k < |at| ==> r[k] == at[k] + 1
    ensures forall i: nat :: i in r <==> i > 0 && i - 1 in at
  {
    var r := seq(|at|, k requires 0 <= k < |at| => at[k] + 1);
    assert forall i: nat :: i > 0 && i - 1 in at ==> i in r by {
      forall i: nat | i > 0 && i - 1 in at ensures i in r {
        var k :| 0 <= k < |at| && at[k] == i - 1;
        assert r[k] == i;
      }
    }
    r
  }

  /** Filtering keeps exactly the positions where the predicate holds, in their order. */
  lemma {:induction false} FilterSelects<T(!new)>(s: seq<T>, p: T -> bool) returns (at: seq<nat>)
    ensures Selects(s, p, Filter(s, p), at)
  {
    at := [];
    if s != [] {
      var rest := FilterSelects(s[1..], p);
      at := if p(s[0]) then [0] + Shifted(rest) else Shifted(rest);
      PicksShifted(s, Filter(s[1..], p), rest);
      SelectsShifted(s, p, rest);
    }
  }

  lemma PicksShifted<T>(s: seq<T>, r: seq<T>, rest: seq<nat>)
    requires s != [] && PicksFrom(s[1..], r, rest) && Rising(rest)
    ensures PicksFrom(s, r, Shifted(rest)) && PicksFrom(s, [s[0]] + r, [0] + Shifted(rest))
    ensures Rising(Shifted(rest)) && Rising([0] + Shifted(rest))
  {}

  lemma SelectsShifted<T>(s: seq<T>, p: T -> bool, rest: seq<nat>)
    requires s != [] && forall i :: 0 <= i < |s| - 1 ==> (p(s[1..][i]) <==> i in rest)
    ensures var at := if p(s[0]) then [0] + Shifted(rest) else Shifted(rest);
      forall i :: 0 <= i < |s| ==> (p(s[i]) <==> i in at)
  {
    var at := if p(s[0]) then [0] + Shifted(rest) else Shifted(rest);
    forall i | 0 <= i < |s| ensures p(s[i]) <==> i in at {
      if i > 0 { assert s[i] == s[1..][i - 1]; }
    }
  }

  lemma {:induction false} RisingSize(at: seq<nat>, positions: set<int>)
    requires Rising(at) && forall i :: i in positions <==> i in at
    ensures |positions| == |at|
    decreases |at|
  {
    if at == [] {
      assert forall i :: i in positions ==> i in at;
      assert positions == {};
    } else {
      var n := |at| - 1;
      var front := at[..n];
      assert at == front + [at[n]];
      assert at[n] !in front;
      RisingSize(front, positions - {at[n]});
    }
  }

  /** No value occurs twice. */
  predicate Distinct<T(==)>(s: seq<T>) {
    forall i, j | 0 <= i < j < |s| :: s[i] != s[j]
  }

  lemma DistinctCons<T>(x: T, s: seq<T>)
    requires Distinct(s) && x !in s
    ensures Distinct([x] + s)
  {
    var t := [x] + s;
    forall i, j | 0 <= i < j < |t| ensures t[i] != t[j] {
      assert t[j] == s[j - 1];
      if i > 0 { assert t[i] == s[i - 1]; }
    }
  }

  /** Concatenation of a list of lists. */
  function Flatten<T>(parts: seq<seq<T>>): (r: seq<T>) {
    if parts == [] then [] else parts[0] + Flatten(parts[1..])
  }

  lemma {:induction false} FlattenConcat<T>(a: seq<seq<T>>, b: seq<seq<T>>)
    ensures Flatten(a + b) == Flatten(a) + Flatten(b)
  {
    if a == [] {
      assert a + b == b;
    } else {
      assert (a + b)[1..] == a[1..] + b;
      FlattenConcat(a[1..], b);
    }
  }

  /** Python's whitespace characters. */
  predicate IsSpace(c: char) {
    var n := c as int;
    9 <= n <= 13 || 28 <= n <= 32 || n == 0x85 || n == 0xA0 || n == 0x1680 || 0x2000 <= n <= 0x200A
    || n == 0x2028 || n == 0x2029 || n == 0x202F || n == 0x205F || n == 0x3000
  }

  predicate Blank(text: string) { forall i :: 0 <= i < |text| ==> IsSpace(text[i]) }
}
