/** Optional values, and the three sequence scans every query of the build
    model is built from: the first answer, the last answer, and the ordered
    concatenation of per-element contributions. */
module Seqs {

  /** A value or nothing; `None` stands for Java's `null`. */
  datatype Option<+T> = None | Some(value: T) {
    function GetOr(default: T): T
    {
      match this
      case Some(v) => v
      case None => default
    }
  }

  /** The answer of the first element, in sequence order, for which `pick` answers. */
  function FirstSome<E, T>(s: seq<E>, pick: E -> Option<T>): Option<T>
  {
    if s == [] then None
    else if pick(s[0]).Some? then pick(s[0])
    else FirstSome(s[1..], pick)
  }

  /** The answer of the last element, in sequence order, for which `pick` answers. */
  function LastSome<E, T>(s: seq<E>, pick: E -> Option<T>): Option<T>
  {
    if s == [] then None
    else if pick(s[|s| - 1]).Some? then pick(s[|s| - 1])
    else LastSome(s[..|s| - 1], pick)
  }

  /** The contributions `f` makes for each element, concatenated in sequence order. */
  function Flatten<E, U>(s: seq<E>, f: E -> seq<U>): seq<U>
  {
    if s == [] then [] else Flatten(s[..|s| - 1], f) + f(s[|s| - 1])
  }

  /** If element `i` is the first that answers, its answer is the result. */
  lemma {:induction false} FirstSomeAt<E, T>(s: seq<E>, pick: E -> Option<T>, i: nat)
    requires i < |s| && pick(s[i]).Some?
    requires forall j :: 0 <= j < i ==> pick(s[j]).None?
    ensures FirstSome(s, pick) == pick(s[i])
  {
    if i > 0 {
      assert pick(s[0]).None?;
      FirstSomeAt(s[1..], pick, i - 1);
    }
  }

  /** There is no answer exactly when no element answers. */
  lemma {:induction false} FirstSomeNone<E, T>(s: seq<E>, pick: E -> Option<T>)
    ensures FirstSome(s, pick).None? <==> forall i :: 0 <= i < |s| ==> pick(s[i]).None?
  {
    if s != [] {
      FirstSomeNone(s[1..], pick);
      assert forall i :: 1 <= i < |s| ==> s[i] == s[1..][i - 1];
    }
  }

  /** An answer always comes from some element, and no earlier one answers. */
  lemma {:induction false} FirstSomeWitness<E, T>(s: seq<E>, pick: E -> Option<T>) returns (i: nat)
    requires FirstSome(s, pick).Some?
    ensures i < |s| && pick(s[i]) == FirstSome(s, pick)
    ensures forall j :: 0 <= j < i ==> pick(s[j]).None?
  {
    if pick(s[0]).Some? {
      i := 0;
    } else {
      var k := FirstSomeWitness(s[1..], pick);
      i := k + 1;
      assert forall j :: 1 <= j < i ==> s[j] == s[1..][j - 1];
    }
  }

  /** An answer is the answer of one of the elements. */
  lemma FirstSomeFound<E, T>(s: seq<E>, pick: E -> Option<T>)
    ensures FirstSome(s, pick).Some? ==> exists i :: 0 <= i < |s| && pick(s[i]) == FirstSome(s, pick)
  {
    if FirstSome(s, pick).Some? {
      var i := FirstSomeWitness(s, pick);
    }
  }

  /** If element `i` is the last that answers, its answer is the result. */
  lemma {:induction false} LastSomeAt<E, T>(s: seq<E>, pick: E -> Option<T>, i: nat)
    requires i < |s| && pick(s[i]).Some?
    requires forall j :: i < j < |s| ==> pick(s[j]).None?
    ensures LastSome(s, pick) == pick(s[i])
  {
    if i < |s| - 1 {
      assert pick(s[|s| - 1]).None?;
      LastSomeAt(s[..|s| - 1], pick, i);
    }
  }

  /** There is no answer exactly when no element answers. */
  lemma {:induction false} LastSomeNone<E, T>(s: seq<E>, pick: E -> Option<T>)
    ensures LastSome(s, pick).None? <==> forall i :: 0 <= i < |s| ==> pick(s[i]).None?
  {
    if s != [] {
      LastSomeNone(s[..|s| - 1], pick);
    }
  }

  /** An answer always comes from some element, and no later one answers. */
  lemma {:induction false} LastSomeWitness<E, T>(s: seq<E>, pick: E -> Option<T>) returns (i: nat)
    requires LastSome(s, pick).Some?
    ensures i < |s| && pick(s[i]) == LastSome(s, pick)
    ensures forall j :: i < j < |s| ==> pick(s[j]).None?
  {
    if pick(s[|s| - 1]).Some? {
      i := |s| - 1;
    } else {
      i := LastSomeWitness(s[..|s| - 1], pick);
    }
  }

  /** A prefix one longer is the prefix with the next element appended. */
  lemma TakeOneMore<E>(s: seq<E>, i: nat)
    requires i < |s|
    ensures s[..i + 1] == s[..i] + [s[i]]
  {
  }

  /** Extending the scanned prefix by one element appends that element's contribution. */
  lemma FlattenSnoc<E, U>(s: seq<E>, x: E, f: E -> seq<U>)
    ensures Flatten(s + [x], f) == Flatten(s, f) + f(x)
  {
    assert (s + [x])[..|s|] == s;
  }

  /** Flattening distributes over concatenation: contributions keep their order. */
  lemma {:induction false} FlattenAppend<E, U>(a: seq<E>, b: seq<E>, f: E -> seq<U>)
    ensures Flatten(a + b, f) == Flatten(a, f) + Flatten(b, f)
  {
    if b == [] {
      assert a + b == a;
    } else {
      var b' := b[..|b| - 1];
      var x := b[|b| - 1];
      assert a + b == (a + b') + [x];
      assert b == b' + [x];
      FlattenAppend(a, b', f);
      FlattenSnoc(a + b', x, f);
      FlattenSnoc(b', x, f);
    }
  }

  /** Every contributed item comes from one element's contribution, and vice versa. */
  lemma {:induction false} FlattenMember<E, U>(s: seq<E>, f: E -> seq<U>, u: U)
    ensures u in Flatten(s, f) <==> exists i :: 0 <= i < |s| && u in f(s[i])
  {
    if s != [] {
      var s' := s[..|s| - 1];
      FlattenMember(s', f, u);
      assert forall i :: 0 <= i < |s'| ==> s'[i] == s[i];
    }
  }
}
