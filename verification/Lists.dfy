/** Pure counterparts of the linked lists: what each list operation does to the sequence of values. */
module Lists {
  datatype Option<+T> = None | Some(value: T)

  datatype Taken<T> = Taken(hit: Option<T>, rest: seq<T>)

  // The elements that satisfy p, in order.
  function Select<T>(s: seq<T>, p: T -> bool): seq<T> {
    if s == [] then [] else (if p(s[0]) then [s[0]] else []) + Select(s[1..], p)
  }

  // The elements that do not satisfy p, in order.
  function Drop<T>(s: seq<T>, p: T -> bool): seq<T> {
    if s == [] then [] else (if p(s[0]) then [] else [s[0]]) + Drop(s[1..], p)
  }

  // Removes the first element that satisfies p.
  function TakeFirst<T>(s: seq<T>, p: T -> bool): Taken<T> {
    if s == [] then Taken(None, [])
    else if p(s[0]) then Taken(Some(s[0]), s[1..])
    else var t := TakeFirst(s[1..], p); Taken(t.hit, [s[0]] + t.rest)
  }

  lemma {:induction false} SelectConcat<T>(a: seq<T>, b: seq<T>, p: T -> bool)
    ensures Select(a + b, p) == Select(a, p) + Select(b, p)
  {
    if a == [] {
      assert a + b == b;
    } else {
      var head := if p(a[0]) then [a[0]] else [];
      SelectConcat(a[1..], b, p);
      assert (a + b)[0] == a[0] && (a + b)[1..] == a[1..] + b;
      assert Select(a, p) == head + Select(a[1..], p);
      assert head + (Select(a[1..], p) + Select(b, p)) == (head + Select(a[1..], p)) + Select(b, p);
    }
  }

  lemma {:induction false} SelectAll<T>(s: seq<T>, p: T -> bool)
    requires forall x | x in s :: p(x)
    ensures Select(s, p) == s
  {
    if s != [] {
      SelectAll(s[1..], p);
    }
  }

  lemma {:induction false} SelectNone<T>(s: seq<T>, p: T -> bool)
    requires forall x | x in s :: !p(x)
    ensures Select(s, p) == []
  {
    if s != [] {
      SelectNone(s[1..], p);
    }
  }

  lemma {:induction false} SelectMembers<T>(s: seq<T>, p: T -> bool, x: T)
    ensures x in Select(s, p) <==> x in s && p(x)
  {
    if s != [] {
      SelectMembers(s[1..], p, x);
    }
  }

  lemma {:induction false} DropThenSelect<T(!new)>(s: seq<T>, gone: T -> bool, p: T -> bool)
    requires (forall x :: gone(x) ==> !p(x)) || (forall x :: p(x) ==> gone(x))
    ensures (forall x :: gone(x) ==> !p(x)) ==> Select(Drop(s, gone), p) == Select(s, p)
    ensures (forall x :: p(x) ==> gone(x)) ==> Select(Drop(s, gone), p) == []
  {
    if s != [] {
      DropThenSelect(s[1..], gone, p);
      SelectConcat(if gone(s[0]) then [] else [s[0]], Drop(s[1..], gone), p);
    }
  }

  // Taking the first match of m among the elements of p is taking it from the whole list.
  lemma {:induction false} TakeCommutesWithSelect<T(!new)>(s: seq<T>, m: T -> bool, p: T -> bool)
    requires forall x :: m(x) ==> p(x)
    ensures TakeFirst(Select(s, p), m) == Taken(TakeFirst(s, m).hit, Select(TakeFirst(s, m).rest, p))
  {
    if s != [] {
      TakeCommutesWithSelect(s[1..], m, p);
      if p(s[0]) {
        assert Select(s, p)[1..] == Select(s[1..], p);
        assert ([s[0]] + TakeFirst(s[1..], m).rest)[1..] == TakeFirst(s[1..], m).rest;
      } else {
        assert Select(s, p) == Select(s[1..], p);
        assert ([s[0]] + TakeFirst(s[1..], m).rest)[1..] == TakeFirst(s[1..], m).rest;
      }
    }
  }

  lemma {:induction false} TakeLeavesOthers<T(!new)>(s: seq<T>, m: T -> bool, p: T -> bool)
    requires forall x :: m(x) ==> !p(x)
    ensures Select(TakeFirst(s, m).rest, p) == Select(s, p)
  {
    if s != [] {
      TakeLeavesOthers(s[1..], m, p);
      SelectConcat([s[0]], TakeFirst(s[1..], m).rest, p);
    }
  }

  // A hit is the only thing that leaves, and what stays keeps its order around one position.
  lemma {:induction false} TakeSplits<T>(s: seq<T>, p: T -> bool) returns (i: nat)
    ensures i <= |s| && forall j | 0 <= j < i :: !p(s[j])
    ensures i < |s| ==> p(s[i]) && TakeFirst(s, p) == Taken(Some(s[i]), s[..i] + s[i + 1..])
    ensures i == |s| ==> TakeFirst(s, p) == Taken(None, s)
  {
    if s == [] || p(s[0]) {
      i := 0;
    } else {
      var k := TakeSplits(s[1..], p);
      i := k + 1;
      assert forall j | 1 <= j < i :: s[j] == s[1..][j - 1];
    }
  }
}
