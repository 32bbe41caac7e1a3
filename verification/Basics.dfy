/** Small datatypes and sequence facts shared by the models.

    `Option` and `Result` stand for the sources' absent values and for their exceptions and
    error returns.  `Assoc`, `HeadTail` and `SliceTail` are facts about sequences that proofs
    call where they need them; `Map` applies a function to every element; the rest is about
    sequences without repetition, which have as many positions as elements, so that more
    positions than elements force a repetition. */
module Basics {

  datatype Option<+T> = None | Some(value: T)

  datatype Result<+T, +E> = Ok(value: T) | Err(error: E)

  lemma {:induction false} Assoc<T>(a: seq<T>, b: seq<T>, c: seq<T>)
    ensures a + b + c == a + (b + c)
  {
  }

  lemma {:induction false} HeadTail<T>(s: seq<T>)
    requires s != []
    ensures [s[0]] + s[1..] == s
  {
  }

  lemma {:induction false} SliceTail<T>(s: seq<T>, from: nat, to: nat)
    requires from < to <= |s|
    ensures s[from..to][0] == s[from] && s[from..to][1..] == s[from + 1..to]
  {
  }

  function Map<A, B>(f: A -> B, s: seq<A>): (r: seq<B>)
    ensures |r| == |s|
  {
    if s == [] then [] else [f(s[0])] + Map(f, s[1..])
  }

  lemma {:induction false} MapAt<A, B>(f: A -> B, s: seq<A>, i: nat)
    requires i < |s|
    ensures Map(f, s)[i] == f(s[i])
    decreases i
  {
    if i > 0 { MapAt(f, s[1..], i - 1); }
  }

  lemma {:induction false} MapSlice<A, B>(f: A -> B, s: seq<A>, from: nat, to: nat)
    requires from <= to <= |s|
    ensures Map(f, s[from..to]) == Map(f, s)[from..to]
  {
    forall i | 0 <= i < to - from ensures Map(f, s)[from..to][i] == Map(f, s[from..to])[i] {
      MapAt(f, s, from + i);
      MapAt(f, s[from..to], i);
    }
  }

  ghost predicate NoDup<T>(s: seq<T>) {
    forall i, j :: 0 <= i < j < |s| ==> s[i] != s[j]
  }

  /** A sequence without repetition has as many positions as elements. */
  lemma {:induction false} NoDupSize<T>(s: seq<T>)
    requires NoDup(s)
    ensures |set x | x in s| == |s|
  {
    if s != [] {
      var init := s[..|s| - 1];
      NoDupSize(init);
      assert s == init + [s[|s| - 1]];
      assert (set x | x in s) == (set x | x in init) + {s[|s| - 1]};
    }
  }

  /** Pigeonhole: more positions than elements forces a repetition. */
  lemma {:induction false} Pigeonhole<T>(s: seq<T>, pool: set<T>)
    requires forall x :: x in s ==> x in pool
    requires |s| > |pool|
    ensures exists i, j :: 0 <= i < j < |s| && s[i] == s[j]
  {
    if NoDup(s) {
      NoDupSize(s);
      SubsetSize((set x | x in s), pool);
    }
  }

  lemma {:induction false} SubsetSize<T>(a: set<T>, b: set<T>)
    requires a <= b
    ensures |a| <= |b|
  {
    if a != {} {
      var x :| x in a;
      SubsetSize(a - {x}, b - {x});
    }
  }
}
