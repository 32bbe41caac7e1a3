/** Leader election over one shared Kubernetes Lease. */
module LeaderElection {
  import opened Basics

  // `try_acquire` is split where the source awaits: reading the clock, reading the Lease and
  // deciding, the API server processing the write, and the reply reaching the elector.  Any
  // number of electors interleave these steps.  A write that its elector gave up on stays on
  // the wire and may still be processed later.

  type Id = string

  datatype LeaseSpec = LeaseSpec(
    holder: Option<Id>,
    acquireTime: Option<int>,
    renewTime: Option<int>,
    duration: int,
    transitions: int)

  datatype Lease = Lease(spec: LeaseSpec, version: Option<nat>)

  // ----- decisions of one elector ---------------------------------------------

  predicate CanHold(lease: Lease, me: Id, now: int) {
    if lease.spec.holder == None || lease.spec.holder == Some(me) then true
    else if lease.spec.renewTime == None then true
    else now >= lease.spec.renewTime.value + lease.spec.duration
  }

  function NewLease(me: Id, duration: int, now: int): Lease {
    Lease(LeaseSpec(Some(me), Some(now), Some(now), duration, 0), None)
  }

  /** Renewal keeps `acquireTime` on a takeover too; only an absent one is filled in. */
  function RenewedLease(lease: Lease, me: Id, duration: int, now: int): Lease {
    lease.(spec := LeaseSpec(
      Some(me),
      if lease.spec.acquireTime == None then Some(now) else lease.spec.acquireTime,
      Some(now),
      duration,
      if lease.spec.holder != Some(me) then lease.spec.transitions + 1 else lease.spec.transitions))
  }

  /** The write an elector proposes after a read, or nothing when it must not write. */
  function Decide(seen: Option<Lease>, me: Id, duration: int, now: int): Option<Lease> {
    if seen == None then Some(NewLease(me, duration, now))
    else if !CanHold(seen.value, me, now) then None
    else if seen.value.version == None then None
    else Some(RenewedLease(seen.value, me, duration, now))
  }

  // ----- the API server -------------------------------------------------------

  /** The stored Lease, the next resource version and every Lease stored so far. */
  datatype Server = Server(stored: Option<Lease>, nextVersion: nat, log: seq<Lease>)

  /** A write without a version creates; one with a version replaces exactly that version. */
  predicate Accepts(server: Server, lease: Lease) {
    match lease.version
    case None => server.stored == None
    case Some(_) => server.stored.Some? && server.stored.value.version == lease.version
  }

  function Apply(server: Server, lease: Lease): Server {
    if !Accepts(server, lease) then server
    else
      var kept := lease.(version := Some(server.nextVersion));
      Server(Some(kept), server.nextVersion + 1, server.log + [kept])
  }

  function ApplyAll(server: Server, writes: seq<Lease>): Server
    decreases |writes|
  {
    if writes == [] then server else ApplyAll(Apply(server, writes[0]), writes[1..])
  }

  predicate VersionBelow(lease: Lease, bound: nat) {
    lease.version.Some? ==> lease.version.value < bound
  }

  ghost predicate ServerOk(server: Server) {
    && (server.stored.Some? ==> VersionBelow(server.stored.value, server.nextVersion))
    && (server.stored.Some? <==> server.log != [])
    && (server.stored.Some? ==> server.log[|server.log| - 1] == server.stored.value)
  }

  /** After other writes were processed, a proposal made on an old read is still accepted
      exactly when none of them was. */
  lemma {:induction false} ProposalSurvives(server: Server, writes: seq<Lease>, proposal: Lease)
    requires ServerOk(server)
    requires Accepts(server, proposal) && VersionBelow(proposal, server.nextVersion)
    ensures ServerOk(ApplyAll(server, writes))
    ensures server.stored.Some? ==> ApplyAll(server, writes).stored.Some?
    ensures ApplyAll(server, writes).nextVersion >= server.nextVersion
    ensures Accepts(ApplyAll(server, writes), proposal) <==> ApplyAll(server, writes) == server
  {
    if writes != [] {
      var next := Apply(server, writes[0]);
      if next == server {
        ProposalSurvives(server, writes[1..], proposal);
      } else {
        StaleStaysStale(next, writes[1..], proposal);
      }
    }
  }

  lemma {:induction false} StaleStaysStale(server: Server, writes: seq<Lease>, proposal: Lease)
    requires ServerOk(server) && server.stored.Some? && server.stored.value.version.Some?
    requires proposal.version.Some? ==> proposal.version.value < server.stored.value.version.value
    ensures ServerOk(ApplyAll(server, writes)) && ApplyAll(server, writes).stored.Some?
    ensures ApplyAll(server, writes).nextVersion >= server.nextVersion
    ensures !Accepts(ApplyAll(server, writes), proposal)
    decreases |writes|
  {
    if writes != [] {
      StaleStaysStale(Apply(server, writes[0]), writes[1..], proposal);
    }
  }

  // ----- one call, with the other electors' writes landing in the middle -------

  class LeaseApi {
    var server: Server

    constructor (server: Server)
      ensures this.server == server
    {
      this.server := server;
    }

    method GetLease() returns (lease: Option<Lease>)
      ensures lease == server.stored
    {
      lease := server.stored;
    }

    method ApplyLease(lease: Lease) returns (conflict: bool)
      modifies this
      ensures server == Apply(old(server), lease)
      ensures conflict <==> !Accepts(old(server), lease)
    {
      conflict := !Accepts(server, lease);
      server := Apply(server, lease);
    }

    method LandAll(writes: seq<Lease>)
      modifies this
      ensures server == ApplyAll(old(server), writes)
    {
      var i := 0;
      while i < |writes|
        invariant 0 <= i <= |writes|
        invariant ApplyAll(old(server), writes) == ApplyAll(server, writes[i..])
      {
        var _ := ApplyLease(writes[i]);
        i := i + 1;
      }
    }
  }

  datatype ElectionResult = ElectionResult(acquired: bool, lease: Lease)

  class KubernetesLeaderElector {
    const api: LeaseApi
    const identity: Id
    const duration: int

    constructor (api: LeaseApi, identity: Id, duration: int)
      ensures this.api == api && this.identity == identity && this.duration == duration
    {
      this.api, this.identity, this.duration := api, identity, duration;
    }

    /** `others` are the writes the API server processes between our read and our write.
        The call succeeds exactly when it was entitled to the Lease it read and none of
        those writes was accepted; then the stored Lease is ours, with our `now`. */
    method TryAcquire(now: int, others: seq<Lease>) returns (result: ElectionResult)
      requires ServerOk(api.server)
      modifies api
      ensures ServerOk(api.server)
      ensures Decide(old(api.server).stored, identity, duration, now) == None ==>
                && !result.acquired && api.server == old(api.server)
                && Some(result.lease) == old(api.server).stored
      ensures Decide(old(api.server).stored, identity, duration, now) != None ==>
                var reached := ApplyAll(old(api.server), others);
                if reached == old(api.server)
                then && result.acquired
                     && Some(result.lease) == Decide(old(api.server).stored, identity, duration, now)
                     && api.server == Apply(old(api.server), result.lease)
                     && api.server.stored.value.spec == result.lease.spec
                     && result.lease.spec.holder == Some(identity)
                     && result.lease.spec.renewTime == Some(now)
                else !result.acquired && api.server == reached && Some(result.lease) == reached.stored
    {
      var lease := api.GetLease();
      if lease == None {
        ProposalSurvives(api.server, others, NewLease(identity, duration, now));
        api.LandAll(others);
        result := ApplyOrReportConflict(NewLease(identity, duration, now));
        return;
      }
      if !CanHold(lease.value, identity, now) {
        return ElectionResult(false, lease.value);
      }
      if lease.value.version == None {
        return ElectionResult(false, lease.value);
      }
      var next := RenewedLease(lease.value, identity, duration, now);
      ProposalSurvives(api.server, others, next);
      api.LandAll(others);
      result := ApplyOrReportConflict(next);
    }

    method ApplyOrReportConflict(lease: Lease) returns (result: ElectionResult)
      requires ServerOk(api.server)
      modifies api
      ensures ServerOk(api.server)
      ensures api.server == Apply(old(api.server), lease)
      ensures result.acquired <==> Accepts(old(api.server), lease)
      ensures result.lease == if result.acquired || api.server.stored == None then lease
                              else api.server.stored.value
    {
      var conflict := api.ApplyLease(lease);
      if conflict {
        var current := api.GetLease();
        return ElectionResult(false, if current != None then current.value else lease);
      }
      return ElectionResult(true, lease);
    }
  }

  // ----- every interleaving ----------------------------------------------------

  datatype Request = Request(serial: nat, who: Id, now: int, lease: Lease)

  datatype Phase =
    | Idle
    | Started(now: int)
    | Waiting(req: Request)
    | Replied(req: Request, accepted: bool)

  /** `won` is the elector's last successful result; a later failure does not erase it. */
  datatype Elector = Elector(duration: int, phase: Phase, won: Option<Lease>)

  datatype State = State(
    clock: int,
    server: Server,
    wire: set<Request>,
    nextSerial: nat,
    electors: map<Id, Elector>)

  datatype Action =
    | Tick(elapsed: nat)
    | Start(who: Id)      // the caller reads the clock
    | Read(who: Id)       // get_lease and the decision
    | Land(req: Request)  // the server processes a write, however late
    | Receive(who: Id)    // the reply arrives
    | Abandon(who: Id)    // cancelled, timed out, or the reply was lost

  predicate Enabled(s: State, a: Action) {
    match a
    case Tick(_) => true
    case Start(who) => who in s.electors && s.electors[who].phase.Idle?
    case Read(who) => who in s.electors && s.electors[who].phase.Started?
    case Land(req) => req in s.wire
    case Receive(who) => who in s.electors && s.electors[who].phase.Replied?
    case Abandon(who) => who in s.electors && !s.electors[who].phase.Idle?
  }

  function SetPhase(s: State, who: Id, phase: Phase): State
    requires who in s.electors
  {
    s.(electors := s.electors[who := s.electors[who].(phase := phase)])
  }

  function Step(s: State, a: Action): State
    requires Enabled(s, a)
  {
    match a
    case Tick(elapsed) => s.(clock := s.clock + elapsed)
    case Start(who) => SetPhase(s, who, Started(s.clock))
    case Read(who) =>
      var e := s.electors[who];
      (match Decide(s.server.stored, who, e.duration, e.phase.now)
       case None => SetPhase(s, who, Idle)
       case Some(lease) =>
         var req := Request(s.nextSerial, who, e.phase.now, lease);
         SetPhase(s, who, Waiting(req)).(wire := s.wire + {req}, nextSerial := s.nextSerial + 1))
    case Land(req) =>
      var s' := s.(server := Apply(s.server, req.lease), wire := s.wire - {req});
      if req.who in s.electors && s.electors[req.who].phase == Waiting(req)
      then SetPhase(s', req.who, Replied(req, Accepts(s.server, req.lease)))
      else s'
    case Receive(who) =>
      var e := s.electors[who];
      s.(electors := s.electors[who := e.(
        phase := Idle,
        won := if e.phase.accepted then Some(e.phase.req.lease) else e.won)])
    case Abandon(who) => SetPhase(s, who, Idle)
  }

  ghost predicate Runs(s: State, actions: seq<Action>, t: State)
    decreases |actions|
  {
    if actions == [] then s == t
    else Enabled(s, actions[0]) && Runs(Step(s, actions[0]), actions[1..], t)
  }

  /** Nobody has called yet; the Lease may be absent or left over from anyone, with any content. */
  ghost predicate Init(s: State) {
    && ServerOk(s.server) && |s.server.log| <= 1
    && s.wire == {}
    && forall id :: id in s.electors ==> s.electors[id].phase == Idle && s.electors[id].won == None
  }

  /** An elector is in term while the clock is below the expiry of its last success. */
  ghost predicate InTerm(s: State, id: Id) {
    id in s.electors && s.electors[id].won.Some? && LiveAt(s.electors[id].won.value, s.clock)
  }

  predicate LiveAt(lease: Lease, clock: int) {
    lease.spec.renewTime.Some? && clock < lease.spec.renewTime.value + lease.spec.duration
  }

  // ----- invariant --------------------------------------------------------------

  /** A success the elector knows of, or that is on its way to it. */
  ghost predicate Claims(e: Elector, lease: Lease) {
    e.won == Some(lease) || (e.phase.Replied? && e.phase.accepted && e.phase.req.lease == lease)
  }

  ghost predicate OwnLease(lease: Lease, id: Id, e: Elector, limit: int) {
    && lease.spec.holder == Some(id)
    && lease.spec.duration == e.duration
    && lease.spec.renewTime.Some? && lease.spec.renewTime.value <= limit
  }

  ghost predicate ElectorOk(s: State, id: Id, e: Elector) {
    && (e.phase.Started? ==> e.phase.now <= s.clock)
    && (e.phase.Replied? ==> e.phase.req.who == id)
    && forall lease {:trigger Claims(e, lease)} :: Claims(e, lease) ==>
         && OwnLease(lease, id, e, if e.phase.Started? then e.phase.now else s.clock)
         && (LiveAt(lease, s.clock) ==> Backed(s.server, lease))
  }

  /** The stored Lease is held by the same elector and expires no earlier. */
  ghost predicate Backed(server: Server, lease: Lease) {
    && server.stored.Some?
    && server.stored.value.spec.holder == lease.spec.holder
    && server.stored.value.spec.duration == lease.spec.duration
    && server.stored.value.spec.renewTime.Some?
    && lease.spec.renewTime.Some?
    && server.stored.value.spec.renewTime.value >= lease.spec.renewTime.value
  }

  ghost predicate RequestOk(s: State, r: Request) {
    && r.who in s.electors
    && r.now <= s.clock
    && OwnLease(r.lease, r.who, s.electors[r.who], r.now) && r.lease.spec.renewTime == Some(r.now)
    && VersionBelow(r.lease, s.server.nextVersion)
    && (s.electors[r.who].phase.Started? ==> r.now <= s.electors[r.who].phase.now)
    && (Accepts(s.server, r.lease) ==>
          && Decide(s.server.stored, r.who, s.electors[r.who].duration, r.now) == Some(r.lease)
          && forall c {:trigger Claims(s.electors[r.who], c)} ::
               Claims(s.electors[r.who], c) && c.spec.renewTime.Some? ==> c.spec.renewTime.value <= r.now)
  }

  ghost predicate Inv(s: State) {
    && ServerOk(s.server)
    && (forall id :: id in s.electors ==> ElectorOk(s, id, s.electors[id]))
    && (forall r :: r in s.wire ==> RequestOk(s, r))
    && Lineage(s.server.log)
  }

  /** `next` is what some elector, entitled to `prev`, writes over exactly that version. */
  ghost predicate Succeeds(prev: Lease, next: Lease) {
    exists me, duration, now ::
      && CanHold(prev, me, now) && prev.version.Some?
      && next == RenewedLease(prev, me, duration, now).(version := next.version)
      && next.version.Some? && prev.version.value < next.version.value
  }

  ghost predicate Lineage(log: seq<Lease>) {
    forall i :: 0 < i < |log| ==> Succeeds(log[i - 1], log[i])
  }

  lemma {:induction false} LandKeepsInv(s: State, req: Request)
    requires Inv(s) && req in s.wire
    ensures Inv(Step(s, Land(req)))
  {
    var t := Step(s, Land(req));
    if Accepts(s.server, req.lease) {
      var kept := req.lease.(version := Some(s.server.nextVersion));
      assert t.server.log == s.server.log + [kept];
      if s.server.stored.Some? {
        assert kept == RenewedLease(s.server.stored.value, req.who, s.electors[req.who].duration, req.now)
                         .(version := kept.version);
        assert Succeeds(s.server.stored.value, kept);
      }
      forall r | r in t.wire
        ensures RequestOk(t, r)
      {
        assert RequestOk(s, r);
        assert !Accepts(t.server, r.lease);
      }
      forall id | id in t.electors
        ensures ElectorOk(t, id, t.electors[id])
      {
        LandKeepsElector(s, req, id);
      }
    } else {
      forall r | r in t.wire
        ensures RequestOk(t, r)
      {
        assert RequestOk(s, r);
        forall c | Claims(t.electors[r.who], c)
          ensures Claims(s.electors[r.who], c)
        {
        }
      }
      forall id | id in t.electors
        ensures ElectorOk(t, id, t.electors[id])
      {
        assert ElectorOk(s, id, s.electors[id]) && RequestOk(s, req);
        forall c | Claims(t.electors[id], c)
          ensures Claims(s.electors[id], c)
        {
        }
      }
    }
  }

  /** The heart of safety: an accepted write leaves no other elector with a live claim. */
  lemma {:induction false} LandKeepsElector(s: State, req: Request, id: Id)
    requires Inv(s) && req in s.wire && Accepts(s.server, req.lease) && id in s.electors
    ensures ElectorOk(Step(s, Land(req)), id, Step(s, Land(req)).electors[id])
  {
    var t := Step(s, Land(req));
    var e, e' := s.electors[id], t.electors[id];
    assert ElectorOk(s, id, e) && RequestOk(s, req);
    forall c | Claims(e', c)
      ensures OwnLease(c, id, e', if e'.phase.Started? then e'.phase.now else t.clock)
      ensures LiveAt(c, t.clock) ==> Backed(t.server, c)
    {
      assert Claims(e, c) || c == req.lease;
    }
  }

  lemma {:induction false} StepKeepsInv(s: State, a: Action)
    requires Inv(s) && Enabled(s, a)
    ensures Inv(Step(s, a))
  {
    var t := Step(s, a);
    match a
    case Land(req) => LandKeepsInv(s, req);
    case Tick(_) =>
      forall id | id in t.electors ensures ElectorOk(t, id, t.electors[id]) {
        assert ElectorOk(s, id, s.electors[id]);
      }
      forall r | r in t.wire ensures RequestOk(t, r) { assert RequestOk(s, r); }
    case Start(_) => QuietStep(s, a);
    case Read(who) => QuietStep(s, a);
    case Receive(who) => QuietStep(s, a);
    case Abandon(_) => QuietStep(s, a);
  }

  /** Steps of one elector that leave the server and the clock alone. */
  lemma {:induction false} QuietStep(s: State, a: Action)
    requires Inv(s) && Enabled(s, a)
    requires a.Start? || a.Read? || a.Receive? || a.Abandon?
    ensures Inv(Step(s, a))
  {
    var t := Step(s, a);
    var who := a.who;
    var e, e' := s.electors[who], t.electors[who];
    assert ElectorOk(s, who, e);
    forall c | Claims(e', c) ensures Claims(e, c) {}
    assert ElectorOk(t, who, e');
    forall id | id in t.electors ensures ElectorOk(t, id, t.electors[id]) {
      assert ElectorOk(s, id, s.electors[id]);
    }
    forall r | r in t.wire ensures RequestOk(t, r) {
      if r in s.wire {
        assert RequestOk(s, r);
      }
    }
  }

  lemma {:induction false} RunKeepsInv(s: State, actions: seq<Action>, t: State)
    requires Inv(s) && Runs(s, actions, t)
    ensures Inv(t)
    decreases |actions|
  {
    if actions != [] {
      StepKeepsInv(s, actions[0]);
      RunKeepsInv(Step(s, actions[0]), actions[1..], t);
    }
  }

  // ----- main results --------------------------------------------------------------

  /** In every state of every run at most one elector is in term, and the stored Lease names
      it with an expiry no earlier than the one it believes in. */
  lemma {:induction false} AtMostOneLeader(s: State, actions: seq<Action>, t: State)
    requires Init(s) && Runs(s, actions, t)
    ensures forall a, b :: InTerm(t, a) && InTerm(t, b) ==> a == b
    ensures forall a :: InTerm(t, a) ==>
              && t.server.stored.Some?
              && t.server.stored.value.spec.holder == Some(a)
              && LiveAt(t.server.stored.value, t.clock)
              && Backed(t.server, t.electors[a].won.value)
  {
    RunKeepsInv(s, actions, t);
    forall a | InTerm(t, a)
      ensures t.server.stored.Some? && t.server.stored.value.spec.holder == Some(a)
      ensures LiveAt(t.server.stored.value, t.clock) && Backed(t.server, t.electors[a].won.value)
    {
      assert ElectorOk(t, a, t.electors[a]);
      assert Claims(t.electors[a], t.electors[a].won.value);
    }
  }

  function HolderChanges(log: seq<Lease>): nat {
    if |log| <= 1 then 0
    else HolderChanges(log[..|log| - 1])
         + if log[|log| - 1].spec.holder != log[|log| - 2].spec.holder then 1 else 0
  }

  lemma {:induction false} LineageCounts(log: seq<Lease>)
    requires Lineage(log) && log != []
    ensures log[|log| - 1].spec.transitions == log[0].spec.transitions + HolderChanges(log)
    ensures log[0].spec.acquireTime.Some? ==>
              forall i :: 0 <= i < |log| ==> log[i].spec.acquireTime == log[0].spec.acquireTime
  {
    if |log| > 1 {
      var init := log[..|log| - 1];
      LineageCounts(init);
      assert Succeeds(log[|log| - 2], log[|log| - 1]);
    }
  }

  /** A Lease as an elector creates it. */
  predicate Created(lease: Lease) {
    && lease.spec.holder.Some? && lease.spec.transitions == 0
    && lease.spec.acquireTime.Some? && lease.spec.acquireTime == lease.spec.renewTime
  }

  /** The first stored Lease stays the first; on an empty server an elector created it. */
  lemma {:induction false} FirstStored(s: State, actions: seq<Action>, t: State)
    requires Inv(s) && Runs(s, actions, t)
    ensures if s.server.log != [] then t.server.log != [] && t.server.log[0] == s.server.log[0]
            else t.server.log != [] ==> Created(t.server.log[0])
    decreases |actions|
  {
    if actions != [] {
      var a := actions[0];
      StepKeepsInv(s, a);
      FirstStored(Step(s, a), actions[1..], t);
      if a.Land? && Accepts(s.server, a.req.lease) { assert RequestOk(s, a.req); }
    }
  }

  /** Every stored version is the renewal, by an entitled elector, of the version immediately
      before it; transitions count holder changes; the acquire time, once set, stays.  On a server
      that was empty both start with the creation. */
  lemma {:induction false} LeaseLineage(s: State, actions: seq<Action>, t: State)
    requires Init(s) && Runs(s, actions, t)
    ensures Lineage(t.server.log)
    ensures var log := t.server.log;
            log != [] ==>
              && t.server.stored == Some(log[|log| - 1])
              && log[|log| - 1].spec.transitions == log[0].spec.transitions + HolderChanges(log)
              && (log[0].spec.acquireTime.Some? ==> log[|log| - 1].spec.acquireTime == log[0].spec.acquireTime)
    ensures var log := t.server.log;
            s.server.stored == None && log != [] ==>
              && Created(log[0])
              && log[|log| - 1].spec.transitions == HolderChanges(log)
              && log[|log| - 1].spec.acquireTime == log[0].spec.renewTime
  {
    RunKeepsInv(s, actions, t);
    FirstStored(s, actions, t);
    if t.server.log != [] {
      LineageCounts(t.server.log);
    }
  }

  /** A call nobody interferes with. */
  function WholeCall(s: State, who: Id): State
    requires who in s.electors && s.electors[who].phase.Idle?
  {
    var read := Step(Step(s, Start(who)), Read(who));
    if read.electors[who].phase.Idle? then read
    else Step(Step(read, Land(read.electors[who].phase.req)), Receive(who))
  }

  /** In any reachable state an undisturbed call leaves its caller in term, named by the stored
      Lease, whenever no other holder's term is still running; otherwise it changes no Lease. */
  lemma {:induction false} UndisturbedCallSucceeds(s: State, actions: seq<Action>, t: State, who: Id)
    requires Init(s) && Runs(s, actions, t)
    requires who in t.electors && t.electors[who].phase.Idle?
    requires t.server.stored.Some? ==> t.server.stored.value.version.Some?
    ensures var busy := && t.server.stored.Some?
                        && t.server.stored.value.spec.holder != None
                        && t.server.stored.value.spec.holder != Some(who)
                        && LiveAt(t.server.stored.value, t.clock);
            var after := WholeCall(t, who);
            if busy then after == t
            else && after.electors[who].phase.Idle?
                 && after.server.stored.Some?
                 && after.server.stored.value.spec.holder == Some(who)
                 && (t.electors[who].duration > 0 ==> InTerm(after, who))
                 && forall id :: id in t.electors && id != who ==> !InTerm(after, id)
  {
    RunKeepsInv(s, actions, t);
    var e := t.electors[who];
    var started := Step(t, Start(who));
    var read := Step(started, Read(who));
    if Decide(t.server.stored, who, e.duration, t.clock) == None {
      assert read.electors == t.electors;
    } else {
      var req := read.electors[who].phase.req;
      assert Accepts(read.server, req.lease);
      var after := WholeCall(t, who);
      assert after.server.stored.value.spec.holder == Some(who);
      forall id | id in t.electors && id != who
        ensures !InTerm(after, id)
      {
        assert ElectorOk(t, id, t.electors[id]);
        assert after.electors[id] == t.electors[id];
        if InTerm(t, id) {
          assert Claims(t.electors[id], t.electors[id].won.value);
        }
      }
    }
  }

  // ----- renewal times ----------------------------------------------------------

  ghost predicate RenewMonotone(log: seq<Lease>) {
    forall i :: 0 < i < |log| ==> NotEarlier(log[i - 1], log[i])
  }

  predicate NotEarlier(prev: Lease, next: Lease) {
    prev.spec.renewTime.Some? ==> next.spec.renewTime.Some? && prev.spec.renewTime.value <= next.spec.renewTime.value
  }

  /** No elector with a negative configured duration shares the Lease with another one. */
  ghost predicate SaneDurations(electors: map<Id, Elector>) {
    forall a, b :: a in electors && b in electors && a != b ==> electors[b].duration >= 0
  }

  /** A leftover Lease that no elector can renew to an earlier time: its renew time is missing or
      has come, or it is a stranger's that runs until then or longer. */
  ghost predicate LeftoverSane(s: State) {
    s.server.stored.Some? && s.server.stored.value.spec.renewTime.Some? ==>
      var spec := s.server.stored.value.spec;
      spec.renewTime.value <= s.clock || Stranger(s, spec)
  }

  predicate Stranger(s: State, spec: LeaseSpec) {
    spec.holder.Some? && spec.holder.value !in s.electors && spec.duration >= 0
  }

  ghost predicate RenewInv(s: State) {
    && RenewMonotone(s.server.log)
    && (s.server.stored.Some? ==> LeftoverBound(s) || exists h :: h in s.electors && RenewBound(s, h))
  }

  /** Still the leftover Lease, and every decision under way is later than its renew time. */
  ghost predicate LeftoverBound(s: State)
    requires s.server.stored.Some?
  {
    var spec := s.server.stored.value.spec;
    spec.renewTime.Some? ==>
      || Stranger(s, spec)
      || (&& spec.renewTime.value <= s.clock
          && (forall id :: id in s.electors && s.electors[id].phase.Started? ==>
                spec.renewTime.value <= s.electors[id].phase.now)
          && (forall r :: r in s.wire && Accepts(s.server, r.lease) ==> spec.renewTime.value <= r.now))
  }

  ghost predicate RenewBound(s: State, h: Id)
    requires h in s.electors && s.server.stored.Some?
  {
    && OwnLease(s.server.stored.value, h, s.electors[h], s.clock)
    && (s.electors[h].phase.Started? ==>
          s.server.stored.value.spec.renewTime.value <= s.electors[h].phase.now)
    && forall r :: r in s.wire && r.who == h && Accepts(s.server, r.lease) ==>
         s.server.stored.value.spec.renewTime.value <= r.now
  }

  lemma {:induction false} LandKeepsRenew(s: State, req: Request)
    requires Inv(s) && SaneDurations(s.electors) && RenewInv(s)
    requires req in s.wire && Accepts(s.server, req.lease)
    ensures RenewInv(Step(s, Land(req)))
  {
    var t := Step(s, Land(req));
    assert RequestOk(s, req);
    assert t.server.log == s.server.log + [t.server.stored.value];
    if s.server.stored.Some? {
      if !LeftoverBound(s) { var h :| h in s.electors && RenewBound(s, h); }
      assert NotEarlier(s.server.stored.value, t.server.stored.value);
    }
    forall r | r in t.wire
      ensures !Accepts(t.server, r.lease)
    {
      assert RequestOk(s, r);
    }
    assert RenewBound(t, req.who);
  }

  lemma {:induction false} LeftoverStep(s: State, a: Action)
    requires Inv(s) && Enabled(s, a) && !(a.Land? && Accepts(s.server, a.req.lease))
    requires s.server.stored.Some? && LeftoverBound(s)
    ensures Step(s, a).server == s.server && LeftoverBound(Step(s, a))
  {
  }

  lemma {:induction false} StepKeepsRenew(s: State, a: Action)
    requires Inv(s) && SaneDurations(s.electors) && RenewInv(s) && Enabled(s, a)
    ensures RenewInv(Step(s, a)) && SaneDurations(Step(s, a).electors)
  {
    if a.Land? && Accepts(s.server, a.req.lease) {
      LandKeepsRenew(s, a.req);
    } else {
      var t := Step(s, a);
      assert t.server == s.server;
      if s.server.stored.Some? && !LeftoverBound(s) {
        var h :| h in s.electors && RenewBound(s, h);
        assert ElectorOk(s, h, s.electors[h]);
        assert RenewBound(t, h);
      } else if s.server.stored.Some? {
        LeftoverStep(s, a);
      }
    }
  }

  lemma {:induction false} RunKeepsRenew(s: State, actions: seq<Action>, t: State)
    requires Inv(s) && SaneDurations(s.electors) && RenewInv(s) && Runs(s, actions, t)
    ensures RenewInv(t)
    decreases |actions|
  {
    if actions != [] {
      StepKeepsInv(s, actions[0]);
      StepKeepsRenew(s, actions[0]);
      RunKeepsRenew(Step(s, actions[0]), actions[1..], t);
    }
  }

  /** How long until anyone can hold the stored Lease. */
  function Wait(s: State): nat {
    if s.server.stored == None || s.server.stored.value.spec.renewTime == None then 0
    else
      var spec := s.server.stored.value.spec;
      if s.clock >= spec.renewTime.value + spec.duration then 0 else spec.renewTime.value + spec.duration - s.clock
  }

  /** `b` writes with a negative duration after `a` read its clock; `a` then takes over with
      the earlier `now`. */
  lemma {:induction false} NegativeDurationMovesBack(s: State, a: Id, b: Id) returns (actions: seq<Action>, t: State)
    requires Init(s) && (s.server.stored.Some? ==> s.server.stored.value.version.Some?)
    requires a in s.electors && b in s.electors && a != b && s.electors[b].duration < 0
    ensures Runs(s, actions, t) && !RenewMonotone(t.server.log)
  {
    var s0 := Step(s, Tick(Wait(s)));
    var s1 := Step(s0, Start(a));
    var s2 := Step(s1, Tick(1));
    var s3 := Step(s2, Start(b));
    var s4 := Step(s3, Read(b));
    var land := Land(s4.electors[b].phase.req);
    var s5 := Step(s4, land);
    var s6 := Step(s5, Read(a));
    var land' := Land(s6.electors[a].phase.req);
    t := Step(s6, land');
    var n := |t.server.log| - 1;
    assert !NotEarlier(t.server.log[n - 1], t.server.log[n]);
    assert Runs(t, [], t);
    RunsCons(s6, land', [], t);
    RunsCons(s5, Read(a), [land'], t);
    RunsCons(s4, land, [Read(a)] + [land'], t);
    var last := [land] + ([Read(a)] + [land']);
    RunsCons(s3, Read(b), last, t);
    RunsCons(s2, Start(b), [Read(b)] + last, t);
    RunsCons(s1, Tick(1), [Start(b)] + ([Read(b)] + last), t);
    RunsCons(s0, Start(a), [Tick(1)] + ([Start(b)] + ([Read(b)] + last)), t);
    actions := [Tick(Wait(s))] + ([Start(a)] + ([Tick(1)] + ([Start(b)] + ([Read(b)] + last))));
    RunsCons(s, Tick(Wait(s)), actions[1..], t);
  }

  /** A leftover Lease renewed in the future moves back as soon as an elector may hold it. */
  lemma {:induction false} FutureLeaseMovesBack(s: State, who: Id) returns (actions: seq<Action>, t: State)
    requires Init(s) && s.server.stored.Some? && s.server.stored.value.version.Some? && !LeftoverSane(s)
    requires who in s.electors
    ensures Runs(s, actions, t) && !RenewMonotone(t.server.log)
  {
    var spec := s.server.stored.value.spec;
    var me := if spec.holder.Some? && spec.holder.value in s.electors then spec.holder.value else who;
    var wait := if spec.holder == None || spec.holder == Some(me) then 0 else Wait(s);
    var s0 := Step(s, Tick(wait));
    var s1 := Step(s0, Start(me));
    var s2 := Step(s1, Read(me));
    var land := Land(s2.electors[me].phase.req);
    t := Step(s2, land);
    assert !NotEarlier(t.server.log[1 - 1], t.server.log[1]);
    assert Runs(t, [], t);
    RunsCons(s2, land, [], t);
    RunsCons(s1, Read(me), [land], t);
    RunsCons(s0, Start(me), [Read(me)] + [land], t);
    actions := [Tick(wait)] + ([Start(me)] + ([Read(me)] + [land]));
    RunsCons(s, Tick(wait), actions[1..], t);
  }

  lemma {:induction false} RunsCons(s: State, a: Action, rest: seq<Action>, t: State)
    requires Enabled(s, a) && Runs(Step(s, a), rest, t)
    ensures Runs(s, [a] + rest, t)
  {
    assert ([a] + rest)[1..] == rest;
  }

  ghost predicate RenewMonotoneInEveryRun(s: State) {
    forall actions, t :: Runs(s, actions, t) ==> RenewMonotone(t.server.log)
  }

  /** Nobody can write at all: there are no electors, or the leftover Lease has no version. */
  ghost predicate NobodyWrites(s: State) {
    s.electors == map[] || (s.server.stored.Some? && s.server.stored.value.version == None)
  }

  lemma {:induction false} NothingWritten(s: State, actions: seq<Action>, t: State)
    requires Inv(s) && NobodyWrites(s) && s.wire == {} && |s.server.log| <= 1 && Runs(s, actions, t)
    ensures |t.server.log| <= 1
    decreases |actions|
  {
    if actions != [] {
      StepKeepsInv(s, actions[0]);
      NothingWritten(Step(s, actions[0]), actions[1..], t);
    }
  }

  /** Stored renewal times never decrease in any run, from an absent Lease or any leftover one,
      exactly when nobody can write, or no elector with a negative duration has a rival and the
      leftover Lease cannot be renewed to an earlier time. */
  lemma {:induction false} RenewTimesNeverDecrease(s: State)
    requires Init(s)
    ensures RenewMonotoneInEveryRun(s) <==> NobodyWrites(s) || (SaneDurations(s.electors) && LeftoverSane(s))
  {
    if NobodyWrites(s) {
      forall actions, t | Runs(s, actions, t) ensures RenewMonotone(t.server.log) {
        NothingWritten(s, actions, t);
      }
    } else if SaneDurations(s.electors) && LeftoverSane(s) {
      forall actions, t | Runs(s, actions, t) ensures RenewMonotone(t.server.log) {
        RunKeepsRenew(s, actions, t);
      }
    } else if !SaneDurations(s.electors) {
      var a, b :| a in s.electors && b in s.electors && a != b && !(s.electors[b].duration >= 0);
      var actions, t := NegativeDurationMovesBack(s, a, b);
      assert Runs(s, actions, t) && !RenewMonotone(t.server.log);
    } else {
      var who :| who in s.electors;
      var actions, t := FutureLeaseMovesBack(s, who);
      assert Runs(s, actions, t) && !RenewMonotone(t.server.log);
    }
  }
}
