/** Acquisition of several file locks by tag: deduplicated, in ascending order, each with a
    timeout, released in reverse on every exit. */
module TagLocks {
  import opened Basics
  import opened TextOrder

  type Tag = string
  type Pid = nat

  // ----- sorted(set(tags)) ------------------------------------------------------

  function Insert(tag: Tag, sorted: seq<Tag>): seq<Tag> {
    if sorted == [] then [tag]
    else if tag == sorted[0] then sorted
    else if StrLe(tag, sorted[0]) then [tag] + sorted
    else [sorted[0]] + Insert(tag, sorted[1..])
  }

  function SortedUnique(tags: seq<Tag>): seq<Tag> {
    if tags == [] then [] else Insert(tags[0], SortedUnique(tags[1..]))
  }

  ghost predicate Ascending(s: seq<Tag>) {
    forall i, j :: 0 <= i < j < |s| ==> StrLt(s[i], s[j])
  }

  lemma {:induction false} InsertAscends(tag: Tag, s: seq<Tag>)
    requires Ascending(s)
    ensures Ascending(Insert(tag, s))
    ensures forall x :: x in Insert(tag, s) <==> x == tag || x in s
  {
    if s != [] && tag != s[0] {
      StrLeTotal(tag, s[0]);
      var r := Insert(tag, s);
      if StrLe(tag, s[0]) {
        forall j | 0 < j < |s| ensures StrLt(tag, s[j]) {
          StrLtTransitive(tag, s[0], s[j]);
        }
      } else {
        InsertAscends(tag, s[1..]);
        forall j | 0 < j < |r| ensures StrLt(r[0], r[j]) {
          assert r[j] == Insert(tag, s[1..])[j - 1] && r[j] in Insert(tag, s[1..]);
        }
        forall x | x in r ensures x == tag || x in s {
          assert x == s[0] || x in Insert(tag, s[1..]);
        }
        assert s == [s[0]] + s[1..];
      }
    }
  }

  /** The same tags, strictly ascending, so each exactly once. */
  lemma {:induction false} SortedUniqueCorrect(tags: seq<Tag>)
    ensures Ascending(SortedUnique(tags))
    ensures forall x :: x in SortedUnique(tags) <==> x in tags
  {
    if tags != [] {
      SortedUniqueCorrect(tags[1..]);
      InsertAscends(tags[0], SortedUnique(tags[1..]));
      assert tags == [tags[0]] + tags[1..];
    }
  }

  // ----- one call against a lock directory --------------------------------------------

  datatype LockEvent = Locked(tag: Tag) | Unlocked(tag: Tag)

  class LockDir {
    var holder: map<Tag, Pid>
    var trace: seq<LockEvent>

    constructor ()
      ensures holder == map[] && trace == []
    {
      holder, trace := map[], [];
    }

    /** False stands for `filelock.Timeout`. */
    method Acquire(tag: Tag, me: Pid) returns (ok: bool)
      modifies this
      ensures ok <==> tag !in old(holder)
      ensures holder == if ok then old(holder)[tag := me] else old(holder)
      ensures trace == if ok then old(trace) + [Locked(tag)] else old(trace)
    {
      ok := tag !in holder;
      if ok { holder, trace := holder[tag := me], trace + [Locked(tag)]; }
    }

    method Release(tag: Tag)
      modifies this
      ensures holder == old(holder) - {tag} && trace == old(trace) + [Unlocked(tag)]
    {
      holder, trace := holder - {tag}, trace + [Unlocked(tag)];
    }
  }

  function HeldBy(tags: seq<Tag>, me: Pid): map<Tag, Pid> {
    map t | t in tags :: me
  }

  function InOrder(tags: seq<Tag>): seq<LockEvent> {
    seq(|tags|, i requires 0 <= i < |tags| => Locked(tags[i]))
  }

  function InReverse(tags: seq<Tag>): seq<LockEvent> {
    seq(|tags|, i requires 0 <= i < |tags| => Unlocked(tags[|tags| - 1 - i]))
  }

  lemma {:induction false} HoldOneMore(free: map<Tag, Pid>, held: seq<Tag>, tag: Tag, me: Pid)
    requires tag !in free && tag !in held
    ensures (free + HeldBy(held, me))[tag := me] == free + HeldBy(held + [tag], me)
    ensures free + HeldBy(held + [tag], me) - {tag} == free + HeldBy(held, me)
  {
  }

  lemma {:induction false} NextIsNew(s: seq<Tag>, i: nat)
    requires Ascending(s) && i < |s|
    ensures s[i] !in s[..i] && s[..i + 1] == s[..i] + [s[i]]
  {
    forall k | 0 <= k < i ensures StrLt(s[k], s[i]) {}
  }

  /** The acquiring loop: stops at the first tag that times out. */
  method AcquireInOrder(dir: LockDir, me: Pid, sorted: seq<Tag>) returns (acquired: seq<Tag>)
    requires Ascending(sorted)
    modifies dir
    ensures acquired <= sorted
    ensures dir.holder == old(dir.holder) + HeldBy(acquired, me)
    ensures dir.trace == old(dir.trace) + InOrder(acquired)
    ensures forall t :: t in acquired ==> t !in old(dir.holder)
    ensures |acquired| < |sorted| ==> sorted[|acquired|] in old(dir.holder)
  {
    acquired := [];
    var i := 0;
    while i < |sorted|
      invariant 0 <= i <= |sorted|
      invariant acquired == sorted[..i]
      invariant forall t :: t in acquired ==> t !in old(dir.holder)
      invariant dir.holder == old(dir.holder) + HeldBy(acquired, me)
      invariant dir.trace == old(dir.trace) + InOrder(acquired)
    {
      NextIsNew(sorted, i);
      var ok := dir.Acquire(sorted[i], me);
      if !ok { return; }
      HoldOneMore(old(dir.holder), acquired, sorted[i], me);
      assert InOrder(acquired + [sorted[i]]) == InOrder(acquired) + [Locked(sorted[i])];
      acquired := acquired + [sorted[i]];
      i := i + 1;
    }
  }

  lemma {:induction false} ReleaseStep(free: map<Tag, Pid>, acquired: seq<Tag>, k: nat, me: Pid, trace: seq<LockEvent>)
    requires Ascending(acquired) && k < |acquired| && acquired[k] !in free
    ensures free + HeldBy(acquired[..k + 1], me) - {acquired[k]} == free + HeldBy(acquired[..k], me)
    ensures trace + InReverse(acquired[k + 1..]) + [Unlocked(acquired[k])] == trace + InReverse(acquired[k..])
  {
    NextIsNew(acquired, k);
    HoldOneMore(free, acquired[..k], acquired[k], me);
    assert InReverse(acquired[k..]) == InReverse(acquired[k + 1..]) + [Unlocked(acquired[k])];
  }

  /** The `finally` loop. */
  method ReleaseReversed(dir: LockDir, me: Pid, acquired: seq<Tag>, ghost free: map<Tag, Pid>)
    requires Ascending(acquired) && forall t :: t in acquired ==> t !in free
    requires dir.holder == free + HeldBy(acquired, me)
    modifies dir
    ensures dir.holder == free
    ensures dir.trace == old(dir.trace) + InReverse(acquired)
  {
    var k := |acquired|;
    assert acquired[..k] == acquired;
    while k > 0
      invariant 0 <= k <= |acquired|
      invariant dir.holder == free + HeldBy(acquired[..k], me)
      invariant dir.trace == old(dir.trace) + InReverse(acquired[k..])
    {
      k := k - 1;
      ReleaseStep(free, acquired, k, me, old(dir.trace));
      dir.Release(acquired[k]);
    }
    assert acquired[0..] == acquired;
  }

  /** `acquired` and `inside` are the locks taken and the lock directory when the `finally`
      clause starts: at the end of the body, or at the first tag that timed out. */
  method ExclusiveResource(dir: LockDir, me: Pid, tags: seq<Tag>)
    returns (entered: bool, acquired: seq<Tag>, ghost inside: map<Tag, Pid>)
    modifies dir
    ensures dir.holder == old(dir.holder)
    ensures dir.trace == old(dir.trace) + InOrder(acquired) + InReverse(acquired)
    ensures entered <==> forall t :: t in tags ==> t !in old(dir.holder)
    ensures entered ==> forall t :: t in tags <==> t in acquired
    ensures acquired <= SortedUnique(tags) && Ascending(acquired)
    ensures inside == old(dir.holder) + HeldBy(acquired, me)
    ensures forall t :: t in acquired ==> t !in old(dir.holder)
    ensures !entered ==> |acquired| < |SortedUnique(tags)| && SortedUnique(tags)[|acquired|] in old(dir.holder)
  {
    var uniqueSorted := SortedUnique(tags);
    SortedUniqueCorrect(tags);
    acquired := AcquireInOrder(dir, me, uniqueSorted);
    entered := |acquired| == |uniqueSorted|;
    if !entered {
      assert uniqueSorted[|acquired|] in tags;
    }
    inside := dir.holder;
    ReleaseReversed(dir, me, acquired, old(dir.holder));
  }

  // ----- any number of processes, interleaved --------------------------------------------

  datatype Phase = Acquiring | Inside | Releasing | Done

  /** `got` of the sorted tags are held: those before position `got`. */
  datatype Proc = Proc(want: seq<Tag>, got: nat, phase: Phase)

  datatype State = State(holder: map<Tag, Pid>, procs: seq<Proc>)

  datatype Action =
    | Acquire(p: Pid)
    | Timeout(p: Pid)  // may strike whether or not the lock is free
    | Enter(p: Pid)
    | Leave(p: Pid)    // the body returns or raises
    | Release(p: Pid)
    | Finish(p: Pid)

  predicate Enabled(s: State, a: Action) {
    a.p < |s.procs| &&
    var q := s.procs[a.p];
    match a
    case Acquire(_) => q.phase.Acquiring? && q.got < |q.want| && q.want[q.got] !in s.holder
    case Timeout(_) => q.phase.Acquiring? && q.got < |q.want|
    case Enter(_) => q.phase.Acquiring? && q.got == |q.want|
    case Leave(_) => q.phase.Inside?
    case Release(_) => q.phase.Releasing? && 0 < q.got <= |q.want|
    case Finish(_) => q.phase.Releasing? && q.got == 0
  }

  function Step(s: State, a: Action): State
    requires Enabled(s, a)
  {
    var p, q := a.p, s.procs[a.p];
    match a
    case Acquire(_) => State(s.holder[q.want[q.got] := p], s.procs[p := q.(got := q.got + 1)])
    case Timeout(_) => s.(procs := s.procs[p := q.(phase := Releasing)])
    case Enter(_) => s.(procs := s.procs[p := q.(phase := Inside)])
    case Leave(_) => s.(procs := s.procs[p := q.(phase := Releasing)])
    case Release(_) => State(s.holder - {q.want[q.got - 1]}, s.procs[p := q.(got := q.got - 1)])
    case Finish(_) => s.(procs := s.procs[p := q.(phase := Done)])
  }

  ghost predicate Runs(s: State, actions: seq<Action>, t: State)
    decreases |actions|
  {
    if actions == [] then s == t
    else Enabled(s, actions[0]) && Runs(Step(s, actions[0]), actions[1..], t)
  }

  /** Every process calls once, with any tag list. */
  function Start(requests: seq<seq<Tag>>): State {
    State(map[], seq(|requests|, i requires 0 <= i < |requests| => Proc(SortedUnique(requests[i]), 0, Acquiring)))
  }

  ghost predicate ProcOk(q: Proc) {
    && Ascending(q.want) && q.got <= |q.want|
    && (q.phase.Done? ==> q.got == 0)
    && (q.phase.Inside? ==> q.got == |q.want|)
  }

  ghost predicate Holds(q: Proc, tag: Tag) {
    exists i :: 0 <= i < q.got && i < |q.want| && q.want[i] == tag
  }

  ghost predicate Inv(s: State) {
    && (forall p :: 0 <= p < |s.procs| ==> ProcOk(s.procs[p]))
    && (forall tag :: tag in s.holder ==> s.holder[tag] < |s.procs| && Holds(s.procs[s.holder[tag]], tag))
    && (forall p, tag :: 0 <= p < |s.procs| && Holds(s.procs[p], tag) ==> tag in s.holder && s.holder[tag] == p)
  }

  lemma {:induction false} StartInv(requests: seq<seq<Tag>>)
    ensures Inv(Start(requests))
  {
    forall i | 0 <= i < |requests| ensures ProcOk(Start(requests).procs[i]) {
      SortedUniqueCorrect(requests[i]);
    }
  }

  /** A step of `p` that keeps the lock table consistent with what `p` now holds. */
  lemma {:induction false} InvAfter(s: State, t: State, p: Pid)
    requires Inv(s) && p < |s.procs| == |t.procs| && t.procs == s.procs[p := t.procs[p]] && ProcOk(t.procs[p])
    requires forall tag :: (tag in t.holder && t.holder[tag] == p) <==> Holds(t.procs[p], tag)
    requires forall tag :: tag in t.holder && t.holder[tag] != p ==> tag in s.holder && t.holder[tag] == s.holder[tag]
    requires forall tag :: tag in s.holder && s.holder[tag] != p ==> tag in t.holder && t.holder[tag] == s.holder[tag]
    ensures Inv(t)
  {
  }

  lemma {:induction false} StepKeepsInv(s: State, a: Action)
    requires Inv(s) && Enabled(s, a)
    ensures Inv(Step(s, a))
  {
    var t := Step(s, a);
    assert ProcOk(s.procs[a.p]);
    HoldsAfter(s, a);
    InvAfter(s, t, a.p);
  }

  /** What the process of a step holds after it. */
  lemma {:induction false} HoldsAfter(s: State, a: Action)
    requires Enabled(s, a) && ProcOk(s.procs[a.p])
    ensures var q, q' := s.procs[a.p], Step(s, a).procs[a.p];
            forall tag :: Holds(q', tag) <==>
              if a.Acquire? && tag == q.want[q.got] then true
              else if a.Release? && tag == q.want[q.got - 1] then false
              else Holds(q, tag)
  {
    var q, q' := s.procs[a.p], Step(s, a).procs[a.p];
    if a.Acquire? || a.Release? {
      HoldsSplit(if a.Acquire? then q' else q);
    } else {
      forall tag ensures Holds(q', tag) <==> Holds(q, tag) {}
    }
  }

  /** One more acquired tag is a tag not held before. */
  lemma {:induction false} HoldsSplit(q: Proc)
    requires Ascending(q.want) && 0 < q.got <= |q.want|
    ensures var less := q.(got := q.got - 1);
            var tag := q.want[q.got - 1];
            !Holds(less, tag) && forall t :: Holds(q, t) <==> t == tag || Holds(less, t)
  {
    var less := q.(got := q.got - 1);
    var tag := q.want[q.got - 1];
    assert Holds(q, tag);
    forall t | Holds(less, t) ensures t != tag && Holds(q, t) {
      var i :| 0 <= i < less.got && less.want[i] == t;
      assert q.want[i] == t && StrLt(t, tag);
    }
    forall t | Holds(q, t) && t != tag ensures Holds(less, t) {
      var i :| 0 <= i < q.got && q.want[i] == t;
      assert less.want[i] == t;
    }
  }

  lemma {:induction false} RunKeepsInv(s: State, actions: seq<Action>, t: State)
    requires Inv(s) && Runs(s, actions, t)
    ensures Inv(t) && |t.procs| == |s.procs|
    decreases |actions|
  {
    if actions != [] {
      StepKeepsInv(s, actions[0]);
      RunKeepsInv(Step(s, actions[0]), actions[1..], t);
    }
  }

  /** No tag has two holders; the body runs with every requested tag held and nobody else
      inside with a common tag; a finished process holds nothing. */
  lemma {:induction false} MutualExclusion(requests: seq<seq<Tag>>, actions: seq<Action>, t: State)
    requires Runs(Start(requests), actions, t)
    ensures |t.procs| == |requests|
    ensures forall p, q, tag ::
              0 <= p < |t.procs| && 0 <= q < |t.procs| && Holds(t.procs[p], tag) && Holds(t.procs[q], tag) ==>
              p == q
    ensures forall p, tag :: 0 <= p < |t.procs| && t.procs[p].phase.Inside? && tag in requests[p] ==>
              Holds(t.procs[p], tag)
    ensures forall p, tag :: 0 <= p < |t.procs| && t.procs[p].phase.Done? ==>
              !Holds(t.procs[p], tag) && (tag in t.holder ==> t.holder[tag] != p)
    ensures forall p :: 0 <= p < |t.procs| ==> ProcOk(t.procs[p]) && t.procs[p].want == SortedUnique(requests[p])
  {
    StartInv(requests);
    RunKeepsInv(Start(requests), actions, t);
    WantIsFixed(Start(requests), actions, t);
    forall p, q, tag | 0 <= p < |t.procs| && 0 <= q < |t.procs| && Holds(t.procs[p], tag) && Holds(t.procs[q], tag)
      ensures p == q
    {
      assert t.holder[tag] == p;
    }
    forall p, tag | 0 <= p < |t.procs| && t.procs[p].phase.Inside? && tag in requests[p]
      ensures Holds(t.procs[p], tag)
    {
      SortedUniqueCorrect(requests[p]);
      assert ProcOk(t.procs[p]) && tag in t.procs[p].want;
    }
  }

  lemma {:induction false} WantIsFixed(s: State, actions: seq<Action>, t: State)
    requires Runs(s, actions, t)
    ensures |t.procs| == |s.procs| && forall p :: 0 <= p < |s.procs| ==> t.procs[p].want == s.procs[p].want
    decreases |actions|
  {
    if actions != [] {
      WantIsFixed(Step(s, actions[0]), actions[1..], t);
    }
  }

  // ----- deadlock freedom ------------------------------------------------------------------

  ghost predicate Unfinished(s: State, p: Pid) {
    p < |s.procs| && !s.procs[p].phase.Done?
  }

  /** Following "waits for a tag held by" climbs strictly ascending tags, so it ends at a
      process that can move. */
  lemma {:induction false} SomeoneCanMove(s: State, p: Pid) returns (a: Action)
    requires Inv(s) && Unfinished(s, p)
    ensures Enabled(s, a) && !a.Timeout?
    decreases if s.procs[p].got < |s.procs[p].want|
              then |Above(s.holder.Keys, s.procs[p].want[s.procs[p].got])| + 1 else 0
  {
    var q := s.procs[p];
    assert ProcOk(q);
    match q.phase
    case Inside => a := Leave(p);
    case Releasing => a := if q.got == 0 then Finish(p) else Release(p);
    case Acquiring =>
      if q.got == |q.want| {
        a := Enter(p);
      } else if q.want[q.got] !in s.holder {
        a := Acquire(p);
      } else {
        var tag := q.want[q.got];
        var p' := s.holder[tag];
        var q' := s.procs[p'];
        assert Holds(q', tag) && ProcOk(q');
        if q'.got < |q'.want| {
          var tag' := q'.want[q'.got];
          assert StrLt(tag, tag');
          AboveShrinks(s.holder.Keys, tag, tag');
          if tag' !in s.holder && q'.phase.Acquiring? {
            a := Acquire(p');
          } else if q'.phase.Acquiring? {
            assert tag' in Above(s.holder.Keys, tag) - Above(s.holder.Keys, tag');
            SubsetSize(Above(s.holder.Keys, tag'), Above(s.holder.Keys, tag) - {tag'});
            a := SomeoneCanMove(s, p');
          } else {
            a := Release(p');
          }
        } else {
          a := SomeoneCanMove(s, p');
        }
      }
  }

  function Above(tags: set<Tag>, bound: Tag): set<Tag> {
    set t | t in tags && StrLt(bound, t)
  }

  lemma {:induction false} AboveShrinks(tags: set<Tag>, low: Tag, high: Tag)
    requires StrLt(low, high)
    ensures Above(tags, high) <= Above(tags, low) - {high}
  {
    forall t | t in Above(tags, high) ensures StrLt(low, t) {
      StrLtTransitive(low, high, t);
    }
  }

  function Rank(q: Proc): nat {
    match q.phase
    case Done => 0
    case Releasing => 1 + q.got
    case Inside => 2 + |q.want| + q.got
    case Acquiring => 3 + |q.want| + |q.want| + (if q.got <= |q.want| then |q.want| - q.got else 0)
  }

  function Work(procs: seq<Proc>): nat {
    if procs == [] then 0 else Rank(procs[0]) + Work(procs[1..])
  }

  lemma {:induction false} WorkUpdate(procs: seq<Proc>, p: Pid, q: Proc)
    requires p < |procs|
    ensures Work(procs[p := q]) == Work(procs) - Rank(procs[p]) + Rank(q)
    decreases |procs|
  {
    if p > 0 {
      assert procs[p := q][1..] == procs[1..][p - 1 := q];
      WorkUpdate(procs[1..], p - 1, q);
    } else {
      assert procs[p := q][1..] == procs[1..];
    }
  }

  /** Every step, a timeout included, uses up work, so no run is longer than its initial work. */
  lemma {:induction false} RunsAreBounded(s: State, actions: seq<Action>, t: State)
    requires Inv(s) && Runs(s, actions, t)
    ensures |actions| + Work(t.procs) <= Work(s.procs)
    decreases |actions|
  {
    if actions != [] {
      StepUsesWork(s, actions[0]);
      StepKeepsInv(s, actions[0]);
      RunsAreBounded(Step(s, actions[0]), actions[1..], t);
    }
  }

  lemma {:induction false} StepUsesWork(s: State, a: Action)
    requires Inv(s) && Enabled(s, a)
    ensures Work(Step(s, a).procs) < Work(s.procs)
  {
    assert ProcOk(s.procs[a.p]);
    WorkUpdate(s.procs, a.p, Step(s, a).procs[a.p]);
  }

  ghost predicate NoTimeout(actions: seq<Action>) {
    forall a :: a in actions ==> !a.Timeout?
  }

  ghost predicate AllDone(s: State) {
    forall p :: 0 <= p < |s.procs| ==> s.procs[p].phase.Done?
  }

  lemma {:induction false} HolderIsActive(s: State, tag: Tag)
    requires Inv(s) && tag in s.holder
    ensures Unfinished(s, s.holder[tag])
  {
    assert Holds(s.procs[s.holder[tag]], tag) && ProcOk(s.procs[s.holder[tag]]);
  }

  /** From every reachable state everyone can finish without any timeout, and then every lock
      is free again. */
  lemma {:induction false} EveryoneCanFinish(s: State) returns (actions: seq<Action>, t: State)
    requires Inv(s)
    ensures Runs(s, actions, t) && AllDone(t) && t.holder == map[]
    ensures NoTimeout(actions)
    decreases Work(s.procs)
  {
    if AllDone(s) {
      actions, t := [], s;
      forall tag ensures tag !in s.holder {
        if tag in s.holder { HolderIsActive(s, tag); }
      }
    } else {
      var p :| 0 <= p < |s.procs| && !s.procs[p].phase.Done?;
      var a := SomeoneCanMove(s, p);
      StepKeepsInv(s, a);
      StepUsesWork(s, a);
      var rest;
      rest, t := EveryoneCanFinish(Step(s, a));
      actions := [a] + rest;
      assert actions[1..] == rest;
    }
  }

  lemma {:induction false} NoDeadlock(requests: seq<seq<Tag>>, actions: seq<Action>, t: State)
    requires Runs(Start(requests), actions, t)
    ensures |actions| <= Work(Start(requests).procs)
    ensures !AllDone(t) ==> exists a :: Enabled(t, a) && !a.Timeout?
    ensures exists more, u :: Runs(t, more, u) && AllDone(u) && u.holder == map[] && NoTimeout(more)
  {
    StartInv(requests);
    RunKeepsInv(Start(requests), actions, t);
    RunsAreBounded(Start(requests), actions, t);
    if !AllDone(t) {
      var p :| 0 <= p < |t.procs| && !t.procs[p].phase.Done?;
      var a := SomeoneCanMove(t, p);
    }
    var more, u := EveryoneCanFinish(t);
  }
}
