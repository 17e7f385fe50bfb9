/** What an operation has seen by the time it moves ownership, and what it leaves in the row. */
module ProtocolValidation {
  import opened Records
  import opened Protocol
  import opened ProtocolInvariants
  import opened ProtocolTheorems
  import opened StatusRows

  // ---- the checks, as events of a run ----

  predicate ActsAt(w: World, e: Event, id: nat) {
    e.Act? && e.id == id && e.fate == Ack && id in w.clients
  }

  /** The lock that the operation is shown is not there, or has expired. */
  predicate SeesNoLock(w: World, e: Event, id: nat) {
    && ActsAt(w, e, id) && w.clients[id].pc.CheckLock?
    && (PastLock(w, e.stale).Some? ==> PastLock(w, e.stale).value.expiresAt * NANOS < w.now)
  }

  /** The row that the validation reads, or creates, is not suspended. */
  predicate SeesRunningGroup(w: World, e: Event, id: nat) {
    && ActsAt(w, e, id) && w.clients[id].pc in {ReadConfig(Validate), CreateConfig(Validate)}
    && Next(w, e).table.config.Some? && !Next(w, e).table.config.value.suspended
  }

  predicate SeesHealthyTarget(w: World, e: Event, id: nat, target: string) {
    && ActsAt(w, e, id) && w.clients[id].pc.CheckHealth?
    && target in w.table.status && w.table.status[target].health == OK
  }

  /** The put of the lease is acknowledged: the LOCK row was not there or had expired, and
      carries the token from then on. */
  predicate TakesLease(w: World, e: Event, id: nat) {
    && ActsAt(w, e, id) && w.clients[id].pc.LeasePut?
    && (w.table.lock.Some? ==> w.table.lock.value.expiresAt < Seconds(w.clients[id].pc.now))
    && Names(Next(w, e).table.lock, id)
  }

  ghost predicate SawNoLock(es: seq<Event>, id: nat) {
    exists n: nat :: n < |es| && SeesNoLock(At(es, n), es[n], id)
  }

  ghost predicate SawRunningGroup(es: seq<Event>, id: nat) {
    exists n: nat :: n < |es| && SeesRunningGroup(At(es, n), es[n], id)
  }

  ghost predicate SawHealthyTarget(es: seq<Event>, id: nat, target: string) {
    exists n: nat :: n < |es| && SeesHealthyTarget(At(es, n), es[n], id, target)
  }

  ghost predicate TookLease(es: seq<Event>, id: nat) {
    exists n: nat :: n < |es| && TakesLease(At(es, n), es[n], id)
  }

  predicate Forced(op: Op) {
    op.Failover? && op.force
  }

  /** All that an operation checks before it moves ownership to a target. */
  ghost predicate Checked(es: seq<Event>, id: nat, op: Op, target: string) {
    && SawNoLock(es, id) && SawRunningGroup(es, id) && (Forced(op) || SawHealthyTarget(es, id, target))
    && TookLease(es, id)
  }

  // ---- which of them an operation has behind it ----

  predicate PastLease(c: Client) {
    IsMove(c.op) && PhaseOf(c.pc) in {Moving, Recording}
  }

  predicate PastHealth(c: Client) {
    IsMove(c.op) && ((c.op.Failover? && AtSource(c.pc)) || PhaseOf(c.pc).Locking? || PastLease(c))
  }

  predicate PastRead(c: Client) {
    IsMove(c.op) && (c.pc.CheckHealth? || PastHealth(c))
  }

  predicate PastCheckLock(c: Client) {
    IsMove(c.op) && (c.pc in {ReadConfig(Validate), CreateConfig(Validate)} || PastRead(c))
  }

  ghost predicate ClientSaw(es: seq<Event>, id: nat, c: Client) {
    && (PastCheckLock(c) ==> SawNoLock(es, id))
    && (PastRead(c) ==> SawRunningGroup(es, id))
    && (PastHealth(c) ==> Forced(c.op) || SawHealthyTarget(es, id, Target(c)))
    && (PastLease(c) ==> TookLease(es, id))
  }

  ghost predicate CommitChecked(es: seq<Event>, w: World, c: Commit) {
    c.origin.Moved? ==> c.origin.id in w.clients && Checked(es, c.origin.id, w.clients[c.origin.id].op, c.origin.target)
  }

  ghost predicate SawInv(es: seq<Event>, w: World) {
    && (forall id :: id in w.clients ==> ClientSaw(es, id, w.clients[id]))
    && (forall i :: 0 <= i < |w.commits| ==> CommitChecked(es, w, w.commits[i]))
  }

  /** What has been seen stays seen. */
  lemma SawLater(es: seq<Event>, e: Event, id: nat, target: string)
    ensures SawNoLock(es + [e], id) <==> SawNoLock(es, id) || SeesNoLock(Run(Init(), es), e, id)
    ensures SawRunningGroup(es + [e], id) <==> SawRunningGroup(es, id) || SeesRunningGroup(Run(Init(), es), e, id)
    ensures SawHealthyTarget(es + [e], id, target)
       <==> SawHealthyTarget(es, id, target) || SeesHealthyTarget(Run(Init(), es), e, id, target)
    ensures TookLease(es + [e], id) <==> TookLease(es, id) || TakesLease(Run(Init(), es), e, id)
  {
    var all, n := es + [e], |es|;
    assert all[n] == e && At(all, n) == Run(Init(), es) by { assert all[..n] == es; }
    forall i: nat | i < n ensures At(all, i) == At(es, i) && all[i] == es[i] { assert all[..i] == es[..i]; }
  }

  // ---- one step ----

  /** Where the next step of a caller can lead: on if it has seen what it has to, out if not. */
  predicate Leads(w: World, e: Event, id: nat, c: Client, c': Client) {
    && c'.op == c.op && c'.start == c.start
    && LeadsOn(w, e, id, c, c')
  }

  predicate LeadsOn(w: World, e: Event, id: nat, c: Client, c': Client) {
    match c.pc
    case CheckLock => c' == Leave(c) || (SeesNoLock(w, e, id) && c' == c.(pc := ReadConfig(Validate)))
    case CheckLease => c' == Leave(c) || c' == c.(pc := LeaseClock)
    case ReadConfig(at) =>
      || c' == Leave(c) || c' == c.(pc := CreateConfig(at))
      || (ActsAt(w, e, id) && Next(w, e).table.config.Some?
          && c' == Use(c, at, Unmarshal(Next(w, e).table.config.value)))
    case CreateConfig(at) =>
      || c' == Leave(c)
      || (ActsAt(w, e, id) && Next(w, e).table.config.Some?
          && c' == Use(c, at, Unmarshal(Next(w, e).table.config.value)))
    case CheckHealth => c' == Leave(c) || (SeesHealthyTarget(w, e, id, Target(c)) && c' == Validated(c))
    case LeaseClock => c' == c.(pc := LeasePut(w.now))
    case LeasePut(_) =>
      c' == Leave(c) || (TakesLease(w, e, id) && c'.lease.Held? && c' == Granted(c, c'.lease.expiresAt))
    case Transact => c' == c.(pc := Release) || c' == c.(ok := true, pc := WriteHistory)
    case WriteHistory => c' == c.(pc := ReadConfig(History)) || c' == c.(pc := Release)
    case PutConfig => c' == Leave(c.(ok := c'.ok)) && (c.ok ==> c'.ok)
    case Release => c' == c.(pc := Done, lease := c'.lease)
    case Holding => c' == c.(lease := c'.lease)
    case Done => c' == c
  }

  lemma CheckLeads(w: World, id: nat, fate: Fate, stale: nat)
    requires id in w.clients
    requires w.clients[id].pc.CheckLock? || w.clients[id].pc.CheckLease? || w.clients[id].pc.CheckHealth?
    ensures var w' := Step(w, id, fate, stale);
            id in w'.clients && Leads(w, Act(id, fate, stale), id, w.clients[id], w'.clients[id])
  {
  }

  lemma ReadLeads(w: World, id: nat, fate: Fate, stale: nat)
    requires id in w.clients && (w.clients[id].pc.ReadConfig? || w.clients[id].pc.CreateConfig?)
    ensures var w' := Step(w, id, fate, stale);
            id in w'.clients && Leads(w, Act(id, fate, stale), id, w.clients[id], w'.clients[id])
  {
    assert Unmarshal(PutItem(DefaultConfig(w.clients[id].cluster))) == PutItem(DefaultConfig(w.clients[id].cluster));
  }

  lemma LeaseLeads(w: World, id: nat, fate: Fate, stale: nat)
    requires id in w.clients && (w.clients[id].pc.LeaseClock? || w.clients[id].pc.LeasePut?)
    ensures var w' := Step(w, id, fate, stale);
            id in w'.clients && Leads(w, Act(id, fate, stale), id, w.clients[id], w'.clients[id])
  {
  }

  lemma WriteLeads(w: World, id: nat, fate: Fate, stale: nat)
    requires id in w.clients
    requires w.clients[id].pc.Transact? || w.clients[id].pc.WriteHistory? || w.clients[id].pc.PutConfig?
    ensures var w' := Step(w, id, fate, stale);
            id in w'.clients && Leads(w, Act(id, fate, stale), id, w.clients[id], w'.clients[id])
  {
  }

  lemma EndLeads(w: World, id: nat, fate: Fate, stale: nat)
    requires id in w.clients && (w.clients[id].pc.Release? || w.clients[id].pc.Holding? || w.clients[id].pc.Done?)
    ensures var w' := Step(w, id, fate, stale);
            id in w'.clients && Leads(w, Act(id, fate, stale), id, w.clients[id], w'.clients[id])
  {
  }

  lemma StepLeads(w: World, id: nat, fate: Fate, stale: nat)
    requires id in w.clients
    ensures var w' := Step(w, id, fate, stale);
            id in w'.clients && Leads(w, Act(id, fate, stale), id, w.clients[id], w'.clients[id])
  {
    match w.clients[id].pc
    case CheckLock => CheckLeads(w, id, fate, stale);
    case CheckLease => CheckLeads(w, id, fate, stale);
    case CheckHealth => CheckLeads(w, id, fate, stale);
    case ReadConfig(_) => ReadLeads(w, id, fate, stale);
    case CreateConfig(_) => ReadLeads(w, id, fate, stale);
    case LeaseClock => LeaseLeads(w, id, fate, stale);
    case LeasePut(_) => LeaseLeads(w, id, fate, stale);
    case Transact => WriteLeads(w, id, fate, stale);
    case WriteHistory => WriteLeads(w, id, fate, stale);
    case PutConfig => WriteLeads(w, id, fate, stale);
    case Release => EndLeads(w, id, fate, stale);
    case Holding => EndLeads(w, id, fate, stale);
    case Done => EndLeads(w, id, fate, stale);
  }

  lemma CheckLockIsPassed(w: World, e: Event, id: nat, c: Client, c': Client)
    requires Leads(w, e, id, c, c') && ShapeOk(c) && !PastCheckLock(c) && PastCheckLock(c')
    ensures SeesNoLock(w, e, id)
  {
  }

  lemma ReadIsPassed(w: World, e: Event, id: nat, c: Client, c': Client)
    requires Leads(w, e, id, c, c') && ShapeOk(c) && id in w.clients && w.clients[id] == c
    requires !PastRead(c) && PastRead(c')
    ensures SeesRunningGroup(w, e, id)
  {
  }

  lemma HealthIsPassed(w: World, e: Event, id: nat, c: Client, c': Client)
    requires Leads(w, e, id, c, c') && ShapeOk(c) && !PastHealth(c) && PastHealth(c') && !Forced(c.op)
    ensures SeesHealthyTarget(w, e, id, Target(c'))
  {
    match c.pc
    case CheckLock =>
    case CheckLease =>
    case ReadConfig(_) =>
    case CreateConfig(_) =>
    case CheckHealth =>
    case LeaseClock =>
    case LeasePut(_) =>
    case Transact =>
    case WriteHistory =>
    case PutConfig =>
    case Release =>
    case Holding =>
    case Done =>
  }

  lemma LeaseIsPassed(w: World, e: Event, id: nat, c: Client, c': Client)
    requires Leads(w, e, id, c, c') && ShapeOk(c) && !PastLease(c) && PastLease(c')
    ensures TakesLease(w, e, id)
  {
    match c.pc
    case CheckLock =>
    case CheckLease =>
    case ReadConfig(_) =>
    case CreateConfig(_) =>
    case CheckHealth =>
    case LeaseClock =>
    case LeasePut(_) =>
    case Transact =>
    case WriteHistory =>
    case PutConfig =>
    case Release =>
    case Holding =>
    case Done =>
  }

  /** The target is decided before the health is asked for. */
  lemma TargetStays(w: World, e: Event, id: nat, c: Client, c': Client)
    requires Leads(w, e, id, c, c') && ShapeOk(c)
    ensures c'.op == c.op && (PastHealth(c) ==> Target(c') == Target(c))
  {
    match c.pc
    case CheckLock =>
    case CheckLease =>
    case ReadConfig(_) =>
    case CreateConfig(_) =>
    case CheckHealth =>
    case LeaseClock =>
    case LeasePut(_) =>
    case Transact =>
    case WriteHistory =>
    case PutConfig =>
    case Release =>
    case Holding =>
    case Done =>
  }

  lemma ClientSawStep(es: seq<Event>, e: Event, id: nat, c: Client, c': Client)
    requires var w := Run(Init(), es); Leads(w, e, id, c, c') && id in w.clients && w.clients[id] == c
    requires ShapeOk(c) && ClientSaw(es, id, c)
    ensures ClientSaw(es + [e], id, c')
  {
    var w := Run(Init(), es);
    TargetStays(w, e, id, c, c');
    SawLater(es, e, id, Target(c'));
    if PastCheckLock(c') && !PastCheckLock(c) { CheckLockIsPassed(w, e, id, c, c'); }
    if PastRead(c') && !PastRead(c) { ReadIsPassed(w, e, id, c, c'); }
    if PastHealth(c') && !PastHealth(c) && !Forced(c.op) { HealthIsPassed(w, e, id, c, c'); }
    if PastLease(c') && !PastLease(c) { LeaseIsPassed(w, e, id, c, c'); }
  }

  // ---- the commit of a step ----

  /** What a step of `id` commits, if anything: its move, along its route and under its own
      reference; its rewrite; or the default row. */
  predicate CommitsOwn(w: World, id: nat, c: Client, commits: seq<Commit>) {
    || commits == w.commits
    || (&& |commits| == |w.commits| + 1 && w.commits == commits[..|w.commits|]
        && var x := commits[|w.commits|];
           match c.pc
           case Transact =>
             && c.route.Some? && x.origin == Moved(id, c.route.value.source, c.route.value.target)
             && x.row.lastFailover == Some(FailoverRef(id, c.start))
           case PutConfig =>
             && c.rec.Some? && x.origin == Rewritten(id)
             && x.row.lastFailover == if IsMove(c.op) then Some(FailoverRef(id, c.start)) else c.rec.value.lastFailover
           case CreateConfig(_) => x.origin == Creation && w.commits == []
           case _ => false)
  }

  lemma QuietStep(w: World, id: nat, fate: Fate, stale: nat)
    requires id in w.clients
    requires var pc := w.clients[id].pc; !pc.Transact? && !pc.PutConfig? && !pc.CreateConfig?
    ensures Step(w, id, fate, stale).commits == w.commits
  {
  }

  lemma StepCommitsOwn(w: World, id: nat, fate: Fate, stale: nat)
    requires id in w.clients && ChainInv(w) && ShapeOk(w.clients[id])
    ensures CommitsOwn(w, id, w.clients[id], Step(w, id, fate, stale).commits)
  {
    var pc := w.clients[id].pc;
    if !pc.Transact? && !pc.PutConfig? && !pc.CreateConfig? {
      QuietStep(w, id, fate, stale);
    } else {
      var commits := Step(w, id, fate, stale).commits;
      assert commits == w.commits || w.commits == commits[..|w.commits|];
    }
  }

  // ---- every move was checked ----

  lemma SawStays(es: seq<Event>, e: Event, id: nat, c: Client)
    requires ClientSaw(es, id, c)
    ensures ClientSaw(es + [e], id, c)
  {
    SawLater(es, e, id, Target(c));
  }

  lemma CommitStaysChecked(es: seq<Event>, e: Event, w: World, w': World, x: Commit)
    requires CommitChecked(es, w, x)
    requires forall id :: id in w.clients ==> id in w'.clients && w'.clients[id].op == w.clients[id].op
    ensures CommitChecked(es + [e], w', x)
  {
    if x.origin.Moved? { SawLater(es, e, x.origin.id, x.origin.target); }
  }

  /** A caller that sends its transaction has everything behind it. */
  lemma MoverSawAll(es: seq<Event>, id: nat, c: Client, commits: seq<Commit>, now: nat)
    requires ClientSaw(es, id, c) && ClientOk(commits, now, c) && c.pc.Transact?
    ensures c.route.Some? && Checked(es, id, c.op, c.route.value.target)
  {
  }

  lemma ActKeepsSaw(es: seq<Event>, id: nat, fate: Fate, stale: nat)
    requires var w := Run(Init(), es); Inv(w) && SawInv(es, w) && id in w.clients
    ensures SawInv(es + [Act(id, fate, stale)], Step(Run(Init(), es), id, fate, stale))
  {
    var w, e := Run(Init(), es), Act(id, fate, stale);
    var w' := Step(w, id, fate, stale);
    ClientInOrder(w, id);
    StepLeads(w, id, fate, stale);
    StepIsLocal(w, id, fate, stale);
    StepAddsNobody(w, id, fate, stale);
    TargetStays(w, e, id, w.clients[id], w'.clients[id]);
    ClientSawStep(es, e, id, w.clients[id], w'.clients[id]);
    forall k | k in w'.clients ensures ClientSaw(es + [e], k, w'.clients[k]) {
      if k != id { SawStays(es, e, k, w.clients[k]); }
    }
    StepCommitsOwn(w, id, fate, stale);
    if w.clients[id].pc.Transact? { MoverSawAll(es, id, w.clients[id], w.commits, w.now); }
    NewCommitIsChecked(es, e, w, w', id, w.clients[id]);
  }

  lemma NewCommitIsChecked(es: seq<Event>, e: Event, w: World, w': World, id: nat, c: Client)
    requires forall i :: 0 <= i < |w.commits| ==> CommitChecked(es, w, w.commits[i])
    requires forall k :: k in w.clients ==> k in w'.clients && w'.clients[k].op == w.clients[k].op
    requires id in w.clients && w.clients[id] == c && CommitsOwn(w, id, c, w'.commits)
    requires c.pc.Transact? ==> c.route.Some? && Checked(es, id, c.op, c.route.value.target)
    ensures forall i :: 0 <= i < |w'.commits| ==> CommitChecked(es + [e], w', w'.commits[i])
  {
    forall i | 0 <= i < |w'.commits| ensures CommitChecked(es + [e], w', w'.commits[i]) {
      if i < |w.commits| {
        assert w'.commits[i] == w.commits[i];
        CommitStaysChecked(es, e, w, w', w.commits[i]);
      } else if c.pc.Transact? {
        SawLater(es, e, id, c.route.value.target);
      }
    }
  }

  /** Callers that have just begun have nothing behind them; the others are as they were. */
  predicate OnlyNewCallers(w: World, w': World) {
    && (forall k :: k in w.clients ==> k in w'.clients && w'.clients[k] == w.clients[k])
    && (forall k :: k in w'.clients && k !in w.clients ==> !PastCheckLock(w'.clients[k]))
  }

  lemma OthersBegin(w: World, e: Event)
    requires !e.Act?
    ensures OnlyNewCallers(w, Next(w, e))
  {
  }

  lemma OtherKeepsSaw(es: seq<Event>, e: Event, w: World, w': World)
    requires SawInv(es, w) && OnlyNewCallers(w, w') && w.commits <= w'.commits
    requires forall i :: |w.commits| <= i < |w'.commits| ==> w'.commits[i].origin.Creation?
    ensures SawInv(es + [e], w')
  {
    forall k | k in w'.clients ensures ClientSaw(es + [e], k, w'.clients[k]) {
      if k in w.clients { SawStays(es, e, k, w.clients[k]); }
    }
    forall i | 0 <= i < |w'.commits| ensures CommitChecked(es + [e], w', w'.commits[i]) {
      if i < |w.commits| {
        assert w'.commits[i] == w.commits[i];
        CommitStaysChecked(es, e, w, w', w.commits[i]);
      }
    }
  }

  lemma OthersCreate(w: World, e: Event)
    requires !e.Act?
    ensures w.commits <= Next(w, e).commits
    ensures forall i :: |w.commits| <= i < |Next(w, e).commits| ==> Next(w, e).commits[i].origin.Creation?
  {
  }

  lemma {:induction false} SawInvHolds(es: seq<Event>)
    ensures SawInv(es, Run(Init(), es))
  {
    if es != [] {
      var n := |es| - 1;
      var w, e := Run(Init(), es[..n]), es[n];
      SawInvHolds(es[..n]);
      Reachable(es[..n]);
      assert es[..n] + [e] == es;
      if e.Act? {
        if e.id in w.clients {
          ActKeepsSaw(es[..n], e.id, e.fate, e.stale);
        } else {
          OtherKeepsSaw(es[..n], e, w, w);
        }
      } else {
        OthersCreate(w, e);
        OthersBegin(w, e);
        OtherKeepsSaw(es[..n], e, w, Next(w, e));
      }
    }
  }

  /** In every run, whoever moved ownership had seen, at some event each, a lock that was
      not there or had expired, a group that was not suspended and, unless forced, a healthy
      target, and had taken a lease. */
  lemma {:induction false} EveryMoveWasChecked(es: seq<Event>, i: nat)
    requires var w := Run(Init(), es); i < |w.commits| && w.commits[i].origin.Moved?
    ensures var w := Run(Init(), es);
            var move := w.commits[i].origin;
            move.id in w.clients && Checked(es, move.id, w.clients[move.id].op, move.target)
  {
    SawInvHolds(es);
    assert CommitChecked(es, Run(Init(), es), Run(Init(), es).commits[i]);
  }

  // ---- the last failover in the row ----

  /** A move, and the rewrite that an operation makes after it, carry the reference of that
      operation; a rewrite by anybody else carries none. */
  predicate RefOk(w: World, x: Commit) {
    match x.origin
    case Creation => true
    case Moved(id, _, _) => id in w.clients && x.row.lastFailover == Some(FailoverRef(id, w.clients[id].start))
    case Rewritten(id) =>
      && id in w.clients
      && x.row.lastFailover == if IsMove(w.clients[id].op) then Some(FailoverRef(id, w.clients[id].start)) else None
  }

  predicate RefsOk(w: World) {
    forall i :: 0 <= i < |w.commits| ==> RefOk(w, w.commits[i])
  }

  predicate SameCallers(w: World, w': World) {
    forall k :: k in w.clients ==>
      k in w'.clients && w'.clients[k].op == w.clients[k].op && w'.clients[k].start == w.clients[k].start
  }

  lemma StepKeepsRefs(w: World, w': World, id: nat, c: Client)
    requires RefsOk(w)
    requires SameCallers(w, w') && id in w.clients && w.clients[id] == c && CommitsOwn(w, id, c, w'.commits)
    requires c.rec.Some? ==> c.rec.value.lastFailover.None?
    ensures RefsOk(w')
  {
    forall i | 0 <= i < |w'.commits| ensures RefOk(w', w'.commits[i]) {
      if i < |w.commits| { assert w'.commits[i] == w.commits[i] && RefOk(w, w.commits[i]); }
    }
  }

  lemma OtherKeepsRefs(w: World, e: Event)
    requires !e.Act? && RefsOk(w)
    ensures RefsOk(Next(w, e))
  {
    var w' := Next(w, e);
    OthersCreate(w, e);
    forall i | 0 <= i < |w'.commits| ensures RefOk(w', w'.commits[i]) {
      if i < |w.commits| { assert w'.commits[i] == w.commits[i] && RefOk(w, w.commits[i]); }
    }
  }

  /** In every run the row names the failover that last moved it or recorded itself in it;
      when somebody else rewrites the row, the reference is lost. */
  lemma {:induction false} RowNamesItsFailover(es: seq<Event>)
    ensures RefsOk(Run(Init(), es))
  {
    if es != [] {
      var n := |es| - 1;
      var w, e := Run(Init(), es[..n]), es[n];
      RowNamesItsFailover(es[..n]);
      if e.Act? && e.id in w.clients {
        ActKeepsRefs(es[..n], e.id, e.fate, e.stale);
      } else if !e.Act? {
        OtherKeepsRefs(w, e);
      }
    }
  }

  lemma ActKeepsRefs(es: seq<Event>, id: nat, fate: Fate, stale: nat)
    requires var w := Run(Init(), es); id in w.clients && RefsOk(w)
    ensures var w' := Step(Run(Init(), es), id, fate, stale);
            RefsOk(w')
  {
    var w := Run(Init(), es);
    var w' := Step(w, id, fate, stale);
    Reachable(es);
    ClientInOrder(w, id);
    StepLeads(w, id, fate, stale);
    StepIsLocal(w, id, fate, stale);
    StepCommitsOwn(w, id, fate, stale);
    StepKeepsRefs(w, w', id, w.clients[id]);
  }

  // ---- the history ----

  /** A history row is of an operation that is past its transaction and was told that it went
      through, under the second in which it started, with its route. */
  predicate HistoryRowOk(w: World, second: nat, h: HistoryRow) {
    && h.writer in w.clients
    && var c := w.clients[h.writer];
       && IsMove(c.op) && c.ok && !BeforeTransact(c.pc) && c.route.Some?
       && second == Seconds(c.start) && h.source == c.route.value.source && h.target == c.route.value.target
  }

  predicate HistoryOk(w: World) {
    forall s :: s in w.table.history ==> HistoryRowOk(w, s, w.table.history[s])
  }

  /** What a step of `id` writes into the history, if anything: its own row. */
  predicate WritesHistory(w: World, id: nat, c: Client, history: map<nat, HistoryRow>) {
    || history == w.table.history
    || (&& c.pc.WriteHistory? && c.route.Some?
        && history == w.table.history[Seconds(c.start) := HistoryRow(id, c.route.value.source, c.route.value.target)])
  }

  lemma StepRecords(w: World, id: nat, fate: Fate, stale: nat)
    requires id in w.clients && ShapeOk(w.clients[id])
    ensures WritesHistory(w, id, w.clients[id], Step(w, id, fate, stale).table.history)
  {
    if !w.clients[id].pc.WriteHistory? { NothingRecorded(w, id, fate, stale); }
  }

  lemma NothingRecorded(w: World, id: nat, fate: Fate, stale: nat)
    requires id in w.clients && !w.clients[id].pc.WriteHistory?
    ensures Step(w, id, fate, stale).table.history == w.table.history
  {
    var c := w.clients[id];
    match c.pc
    case CheckLock =>
    case CheckLease =>
    case ReadConfig(_) =>
    case CreateConfig(_) =>
    case CheckHealth =>
    case LeaseClock =>
    case LeasePut(_) =>
    case Transact =>
    case PutConfig =>
    case Release =>
    case Holding =>
    case Done =>
  }

  /** An operation that is past its transaction stays so, with its route and its result. */
  lemma PastStays(w: World, e: Event, id: nat, c: Client, c': Client)
    requires Leads(w, e, id, c, c') && ShapeOk(c) && IsMove(c.op) && !BeforeTransact(c.pc)
    ensures c'.route == c.route && (c.ok ==> c'.ok) && !BeforeTransact(c'.pc)
  {
  }

  lemma HistoryStaysOk(w: World, w': World, e: Event, id: nat, c: Client)
    requires HistoryOk(w) && id in w.clients && w.clients[id] == c && ShapeOk(c)
    requires id in w'.clients && Leads(w, e, id, c, w'.clients[id]) && WritesHistory(w, id, c, w'.table.history)
    requires forall k :: k in w.clients && k != id ==> k in w'.clients && w'.clients[k] == w.clients[k]
    ensures HistoryOk(w')
  {
    if IsMove(c.op) && !BeforeTransact(c.pc) { PastStays(w, e, id, c, w'.clients[id]); }
    forall s | s in w'.table.history ensures HistoryRowOk(w', s, w'.table.history[s]) {
      if s in w.table.history && w'.table.history[s] == w.table.history[s] {
        assert HistoryRowOk(w, s, w.table.history[s]);
      }
    }
  }

  lemma OtherKeepsHistory(w: World, e: Event)
    requires HistoryOk(w) && !e.Act?
    ensures HistoryOk(Next(w, e))
  {
    OthersBegin(w, e);
    OthersRecordNothing(w, e);
    forall s | s in w.table.history ensures HistoryRowOk(Next(w, e), s, w.table.history[s]) {
      assert HistoryRowOk(w, s, w.table.history[s]);
    }
  }

  lemma OthersRecordNothing(w: World, e: Event)
    requires !e.Act?
    ensures Next(w, e).table.history == w.table.history
  {
  }

  lemma {:induction false} HistoryHolds(es: seq<Event>)
    ensures HistoryOk(Run(Init(), es))
  {
    if es != [] {
      var n := |es| - 1;
      var w, e := Run(Init(), es[..n]), es[n];
      HistoryHolds(es[..n]);
      if e.Act? && e.id in w.clients {
        Reachable(es[..n]);
        ClientInOrder(w, e.id);
        StepLeads(w, e.id, e.fate, e.stale);
        StepIsLocal(w, e.id, e.fate, e.stale);
        StepRecords(w, e.id, e.fate, e.stale);
        HistoryStaysOk(w, Next(w, e), e, e.id, w.clients[e.id]);
      } else if !e.Act? {
        OtherKeepsHistory(w, e);
      }
    }
  }

  /** In every run every history row is of an operation that did move ownership: it names the
      two clusters of that move, under the second in which the operation started. */
  lemma {:induction false} HistoryNamesMoves(es: seq<Event>, second: nat)
    requires second in Run(Init(), es).table.history
    ensures var w := Run(Init(), es);
            var h := w.table.history[second];
            && h.writer in w.clients && second == Seconds(w.clients[h.writer].start)
            && exists i :: 0 <= i < |w.commits| && w.commits[i].origin == Moved(h.writer, h.source, h.target)
  {
    HistoryHolds(es);
    var w := Run(Init(), es);
    var h := w.table.history[second];
    assert HistoryRowOk(w, second, h);
    OneOperationMovesOnce(es, h.writer);
    var i :| 0 <= i < |w.commits| && IsMoveBy(w.commits[i], h.writer);
    assert w.commits[i].origin == Moved(h.writer, h.source, h.target);
  }

  // ---- every lease is given back ----

  predicate TriesRelease(w: World, e: Event, id: nat) {
    e.Act? && e.id == id && id in w.clients && w.clients[id].pc.Release?
  }

  predicate TriesReleaseAt(es: seq<Event>, n: nat, id: nat) {
    n < |es| && TriesRelease(At(es, n), es[n], id)
  }

  ghost predicate TriedRelease(es: seq<Event>, id: nat) {
    exists n: nat :: TriesReleaseAt(es, n, id)
  }

  lemma TriedReleaseLater(es: seq<Event>, e: Event, id: nat)
    ensures TriedRelease(es, id) || TriesRelease(Run(Init(), es), e, id) ==> TriedRelease(es + [e], id)
  {
    var all := es + [e];
    if n: nat :| TriesReleaseAt(es, n, id) {
      assert all[..n] == es[..n];
      assert TriesReleaseAt(all, n, id);
    }
    if TriesRelease(Run(Init(), es), e, id) {
      assert all[..|es|] == es;
      assert TriesReleaseAt(all, |es|, id);
    }
  }

  /** An operation that is over has tried to give its lease back, if it had one. */
  ghost predicate GivesBack(es: seq<Event>, id: nat, c: Client) {
    IsMove(c.op) && c.pc.Done? && !c.lease.NoLease? ==> TriedRelease(es, id)
  }

  lemma EndIsReached(w: World, e: Event, id: nat, c: Client, c': Client)
    requires Leads(w, e, id, c, c') && ShapeOk(c) && IsMove(c.op) && c'.pc.Done? && !c'.lease.NoLease?
    ensures c.pc.Release? || (c.pc.Done? && !c.lease.NoLease?)
  {
  }

  lemma ActGivesBack(es: seq<Event>, id: nat, fate: Fate, stale: nat)
    requires var w := Run(Init(), es); id in w.clients && ShapeOk(w.clients[id]) && GivesBack(es, id, w.clients[id])
    ensures var w' := Step(Run(Init(), es), id, fate, stale);
            id in w'.clients && GivesBack(es + [Act(id, fate, stale)], id, w'.clients[id])
  {
    var w, e := Run(Init(), es), Act(id, fate, stale);
    StepLeads(w, id, fate, stale);
    var c' := Step(w, id, fate, stale).clients[id];
    if IsMove(c'.op) && c'.pc.Done? && !c'.lease.NoLease? { EndIsReached(w, e, id, w.clients[id], c'); }
    TriedReleaseLater(es, e, id);
  }

  /** In every run, however a failover or a failback ends, it has tried to give back the
      lease that it had: none is left behind but by a release that itself went wrong. */
  lemma {:induction false} EveryLeaseIsGivenBack(es: seq<Event>, id: nat)
    requires id in Run(Init(), es).clients
    ensures GivesBack(es, id, Run(Init(), es).clients[id])
  {
    if es != [] {
      var n := |es| - 1;
      var w, e := Run(Init(), es[..n]), es[n];
      assert es[..n] + [e] == es;
      Reachable(es[..n]);
      TriedReleaseLater(es[..n], e, id);
      if id in w.clients {
        EveryLeaseIsGivenBack(es[..n], id);
        ClientInOrder(w, id);
        if e.Act? && e.id == id {
          ActGivesBack(es[..n], id, e.fate, e.stale);
        } else {
          OtherLeavesCaller(w, e, id);
        }
      } else {
        NewCallerHasNoLease(w, e, id);
      }
    }
  }

  lemma OtherLeavesCaller(w: World, e: Event, id: nat)
    requires id in w.clients && !(e.Act? && e.id == id)
    ensures id in Next(w, e).clients && Next(w, e).clients[id] == w.clients[id]
  {
    if e.Act? && e.id in w.clients { StepIsLocal(w, e.id, e.fate, e.stale); }
  }

  lemma NewCallerHasNoLease(w: World, e: Event, id: nat)
    requires id !in w.clients && id in Next(w, e).clients
    ensures Next(w, e).clients[id].lease.NoLease?
  {
    if e.Act? && e.id in w.clients { StepAddsNobody(w, e.id, e.fate, e.stale); }
  }

  // ---- a live lease is seen ----

  /** While a lease is live, an operation that is shown the LOCK row as it is goes no
      further, at its validation and at AcquireLock alike. */
  lemma {:induction false} LiveLeaseIsSeen(es: seq<Event>, a: nat, id: nat, fate: Fate)
    requires Live(Run(Init(), es), a)
    requires var w := Run(Init(), es); id in w.clients && (w.clients[id].pc.CheckLock? || w.clients[id].pc.CheckLease?)
    ensures var w := Run(Init(), es);
            Next(w, Act(id, fate, |w.locks|)) == SetClient(w, id, w.clients[id].(pc := Done))
  {
    Reachable(es);
    ClientInOrder(Run(Init(), es), id);
    LockIsShown(Run(Init(), es), a);
  }

  lemma LockIsShown(w: World, a: nat)
    requires LeaseInv(w) && Live(w, a)
    ensures LooksLocked(PastLock(w, |w.locks|), w.now)
  {
  }
}
