/** Sequence helpers shared by the models: selection, counting and duplicate freedom. */
module Collections {

  type Id = string

  datatype Option<+T> = None | Some(value: T) {
    /** The fall-back idiom: the value, or `default` when it is absent. */
    function GetOr(default: T): T {
      if Some? then value else default
    }
  }

  /** The elements of `s` that satisfy `p`, in order. */
  function Filter<T>(p: T -> bool, s: seq<T>): seq<T> {
    if s == [] then [] else Filter(p, s[..|s| - 1]) + (if p(s[|s| - 1]) then [s[|s| - 1]] else [])
  }

  /** How many positions of `s` hold an element that satisfies `p`. */
  function Tally<T>(p: T -> bool, s: seq<T>): nat {
    if s == [] then 0 else Tally(p, s[..|s| - 1]) + (if p(s[|s| - 1]) then 1 else 0)
  }

  function Is(x: Id): Id -> bool {
    (y: Id) => y == x
  }

  ghost predicate NoDuplicates<T>(s: seq<T>) {
    forall i, j :: 0 <= i < j < |s| ==> s[i] != s[j]
  }

  lemma {:induction false} FilterMembers<T>(p: T -> bool, s: seq<T>)
    ensures forall x :: x in Filter(p, s) ==> x in s && p(x)
    ensures forall x :: x in s && p(x) ==> x in Filter(p, s)
    ensures |Filter(p, s)| <= |s|
  {
    if s != [] {
      var init, last := s[..|s| - 1], s[|s| - 1];
      assert s == init + [last];
      FilterMembers(p, init);
    }
  }

  lemma FilterHolds<T>(p: T -> bool, s: seq<T>, x: T)
    ensures x in Filter(p, s) <==> x in s && p(x)
  {
  }

  lemma FilterSnoc<T>(p: T -> bool, s: seq<T>, x: T)
    ensures Filter(p, s + [x]) == Filter(p, s) + (if p(x) then [x] else [])
  {
  }

  lemma {:induction false} FilterConcat<T>(p: T -> bool, s: seq<T>, t: seq<T>)
    ensures Filter(p, s + t) == Filter(p, s) + Filter(p, t)
  {
    if t == [] {
      assert s + t == s;
    } else {
      var init, last := t[..|t| - 1], t[|t| - 1];
      assert s + t == (s + init) + [last] && t == init + [last];
      FilterSnoc(p, s + init, last);
      FilterConcat(p, s, init);
    }
  }

  lemma {:induction false} FilterCongruent<T>(p: T -> bool, q: T -> bool, s: seq<T>)
    requires forall x :: x in s ==> p(x) == q(x)
    ensures Filter(p, s) == Filter(q, s)
  {
    if s != [] {
      FilterCongruent(p, q, s[..|s| - 1]);
    }
  }

  /** Selecting twice is selecting by the conjunction `r` of both conditions. */
  lemma {:induction false} FilterTwice<T>(p: T -> bool, q: T -> bool, r: T -> bool, s: seq<T>)
    requires forall x :: x in s ==> r(x) == (p(x) && q(x))
    ensures Filter(p, Filter(q, s)) == Filter(r, s)
  {
    if s != [] {
      var init, last := s[..|s| - 1], s[|s| - 1];
      FilterTwice(p, q, r, init);
      assert Filter(r, s) == Filter(r, init) + (if r(last) then [last] else []);
      if q(last) {
        assert Filter(q, s) == Filter(q, init) + [last];
        FilterSnoc(p, Filter(q, init), last);
      } else {
        assert Filter(q, s) == Filter(q, init);
      }
    }
  }

  lemma {:induction false} FilterNoDuplicates<T>(p: T -> bool, s: seq<T>)
    requires NoDuplicates(s)
    ensures NoDuplicates(Filter(p, s))
  {
    if s != [] {
      var init, last := s[..|s| - 1], s[|s| - 1];
      FilterNoDuplicates(p, init);
      FilterMembers(p, init);
      assert last !in init;
    }
  }

  lemma {:induction false} FilterAll<T>(p: T -> bool, s: seq<T>)
    requires forall x :: x in s ==> p(x)
    ensures Filter(p, s) == s
  {
    if s != [] {
      var init, last := s[..|s| - 1], s[|s| - 1];
      assert s == init + [last];
      FilterAll(p, init);
      assert Filter(p, s) == Filter(p, init) + [last];
    }
  }

  lemma {:induction false} FilterNone<T>(p: T -> bool, s: seq<T>)
    requires forall x :: x in s ==> !p(x)
    ensures Filter(p, s) == []
  {
    if s != [] {
      FilterNone(p, s[..|s| - 1]);
    }
  }

  lemma TallySnoc<T>(p: T -> bool, s: seq<T>, x: T)
    ensures Tally(p, s + [x]) == Tally(p, s) + (if p(x) then 1 else 0)
  {
  }

  lemma {:induction false} TallyConcat<T>(p: T -> bool, s: seq<T>, t: seq<T>)
    ensures Tally(p, s + t) == Tally(p, s) + Tally(p, t)
  {
    if t == [] {
      assert s + t == s;
    } else {
      var init, last := t[..|t| - 1], t[|t| - 1];
      assert s + t == (s + init) + [last];
      TallySnoc(p, s + init, last);
      TallyConcat(p, s, init);
    }
  }

  lemma TallyHead<T>(p: T -> bool, s: seq<T>)
    requires s != []
    ensures Tally(p, s) == (if p(s[0]) then 1 else 0) + Tally(p, s[1..])
  {
    assert s == [s[0]] + s[1..];
    TallyConcat(p, [s[0]], s[1..]);
  }

  lemma {:induction false} TallyCongruent<T>(p: T -> bool, q: T -> bool, s: seq<T>)
    requires forall x :: x in s ==> p(x) == q(x)
    ensures Tally(p, s) == Tally(q, s)
  {
    if s != [] {
      TallyCongruent(p, q, s[..|s| - 1]);
    }
  }

  lemma {:induction false} TallyWeaker<T>(p: T -> bool, q: T -> bool, s: seq<T>)
    requires forall x :: x in s && p(x) ==> q(x)
    ensures Tally(p, s) <= Tally(q, s)
  {
    if s != [] {
      TallyWeaker(p, q, s[..|s| - 1]);
    }
  }

  lemma {:induction false} TallyPositive<T>(p: T -> bool, s: seq<T>, i: nat)
    requires i < |s| && p(s[i])
    ensures Tally(p, s) >= 1
  {
    if i < |s| - 1 {
      TallyPositive(p, s[..|s| - 1], i);
    }
  }

  lemma {:induction false} TallyZero<T>(p: T -> bool, s: seq<T>)
    ensures Tally(p, s) == 0 <==> forall x :: x in s ==> !p(x)
  {
    if s != [] {
      var init, last := s[..|s| - 1], s[|s| - 1];
      assert s == init + [last];
      TallyZero(p, init);
    }
  }

  /** Two satisfying positions count twice. */
  lemma TallyTwo<T>(p: T -> bool, s: seq<T>, i: nat, j: nat)
    requires i < j < |s| && p(s[i]) && p(s[j])
    ensures Tally(p, s) >= 2
  {
    assert s == s[..j] + s[j..];
    TallyConcat(p, s[..j], s[j..]);
    TallyPositive(p, s[..j], i);
    TallyPositive(p, s[j..], 0);
  }

  lemma {:induction false} TallyUpdate<T>(p: T -> bool, s: seq<T>, i: nat, x: T)
    requires i < |s|
    ensures Tally(p, s[i := x]) + (if p(s[i]) then 1 else 0) == Tally(p, s) + (if p(x) then 1 else 0)
  {
    assert s == s[..i] + [s[i]] + s[i + 1..];
    assert s[i := x] == s[..i] + [x] + s[i + 1..];
    TallyConcat(p, s[..i] + [s[i]], s[i + 1..]);
    TallyConcat(p, s[..i] + [x], s[i + 1..]);
    TallySnoc(p, s[..i], s[i]);
    TallySnoc(p, s[..i], x);
  }

  lemma {:induction false} TallyFilter<T>(p: T -> bool, q: T -> bool, s: seq<T>)
    ensures Tally(p, Filter(q, s)) <= Tally(p, s)
  {
    if s != [] {
      var init, last := s[..|s| - 1], s[|s| - 1];
      TallyFilter(p, q, init);
      if q(last) {
        assert Filter(q, s) == Filter(q, init) + [last];
        TallySnoc(p, Filter(q, init), last);
      } else {
        assert Filter(q, s) == Filter(q, init);
      }
    }
  }

  lemma {:induction false} OccursOnce(s: seq<Id>, x: Id)
    requires NoDuplicates(s)
    ensures Tally(Is(x), s) == if x in s then 1 else 0
    decreases |s|
  {
    if s != [] {
      var init, last := s[..|s| - 1], s[|s| - 1];
      assert s == init + [last] && last !in init;
      OccursOnce(init, x);
    }
  }

  /** A sequence cut around one position, as it is and with that position replaced. */
  lemma CutAround<T>(s: seq<T>, i: nat, x: T)
    requires i < |s|
    ensures s == s[..i] + [s[i]] + s[i + 1..] && s[i := x] == s[..i] + [x] + s[i + 1..]
  {
  }

  lemma {:induction false} TallyDrop<T>(p: T -> bool, s: seq<T>, i: nat)
    requires i < |s|
    ensures Tally(p, s[..i] + s[i + 1..]) + (if p(s[i]) then 1 else 0) == Tally(p, s)
  {
    CutAround(s, i, s[i]);
    TallyConcat(p, s[..i] + [s[i]], s[i + 1..]);
    TallySnoc(p, s[..i], s[i]);
    TallyConcat(p, s[..i], s[i + 1..]);
  }
}
