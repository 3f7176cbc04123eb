/**
 Durable approvals: an identity derived from what is being approved, a record that is decided once, and gates,
 reviewers and sweeps that act on it in any order.
 */
module Approvals {
  import opened Outcomes
  import opened Sequences

  type Arguments = map<string, string>

  datatype ApprovalStatus = Pending | Approved | Rejected | Expired | Cancelled

  /** The digest of the four identifying fields, taken to be injective and so represented by them. */
  datatype Key = Key(executionId: string, nodeId: Option<string>, action: string, arguments: Arguments)

  /** Absent arguments and empty arguments identify the same action. */
  function ApprovalKey(executionId: string, action: string, nodeId: Option<string>, arguments: Option<Arguments>): Key {
    Key(executionId, nodeId, action, if arguments.Some? then arguments.value else map[])
  }

  /** Two requests are one and the same record exactly when all four agree, absent arguments being empty ones. */
  lemma SameRecordIff(e: string, f: string, a: string, b: string, n: Option<string>, m: Option<string>,
                      x: Option<Arguments>, y: Option<Arguments>)
    ensures ApprovalKey(e, a, n, x) == ApprovalKey(f, b, m, y) <==>
            && e == f && a == b && n == m
            && (x == y || (x.None? && y == Some(map[])) || (y.None? && x == Some(map[])))
  {
  }

  datatype Request = Request(
    status: ApprovalStatus, parameters: Arguments, requestedAt: int, expiresAt: Option<int>,
    decidedBy: Option<string>, note: Option<string>, modified: Option<Arguments>, decidedAt: Option<int>)

  type Table = map<Key, Request>

  /** On read, a request counts as expired from its expiry time on. */
  predicate ExpiredAt(r: Request, now: int) {
    r.expiresAt.Some? && now >= r.expiresAt.value
  }

  function EffectiveParameters(r: Request): Arguments {
    if r.modified.Some? then r.modified.value else r.parameters
  }

  function NewRequest(key: Key, now: int, ttl: Option<int>): Request {
    Request(Pending, key.arguments, now, if ttl.Some? then Some(now + ttl.value) else None, None, None, None, None)
  }

  datatype DecideError = NotFound | AlreadyDecided(current: ApprovalStatus)

  datatype Verdict = Verdict(status: ApprovalStatus, decider: string, note: Option<string>, modified: Option<Arguments>)

  /** `decide`: the update matches only a pending row; the same decision again is no error, a different one is. */
  function Decided(t: Table, key: Key, v: Verdict, now: int): Result<Table, DecideError> {
    if key !in t then Err(NotFound)
    else if t[key].status == Pending then
      Ok(t[key := t[key].(status := v.status, decidedBy := Some(v.decider), note := v.note, modified := v.modified,
                          decidedAt := Some(now))])
    else if t[key].status == v.status then Ok(t)
    else Err(AlreadyDecided(t[key].status))
  }

  /** The sweep, unlike a read, waits until the expiry time lies strictly in the past. */
  predicate Overdue(r: Request, now: int) {
    r.status == Pending && r.expiresAt.Some? && r.expiresAt.value < now
  }

  function Swept(t: Table, now: int): Table {
    map k | k in t :: if Overdue(t[k], now) then t[k].(status := Expired, decidedAt := Some(now)) else t[k]
  }

  const EXPIRY := Verdict(Expired, "system", Some("expired before a decision was made"), None)

  // ---------------------------------------------------------------- what a gate reports

  datatype Outcome = Granted(arguments: Arguments) | Refused(status: ApprovalStatus) | Waiting

  function OutcomeOf(r: Request): Outcome {
    match r.status
    case Approved => Granted(EffectiveParameters(r))
    case Pending => Waiting
    case s => Refused(s)
  }

  // ---------------------------------------------------------------- many actors

  /** How far one gate call has got. Reading, creating, judging expiry, marking and re-reading are separate steps. */
  datatype Gate =
    | Asking(key: Key)
    | Missing(key: Key)
    | Holding(key: Key, seen: Request)
    | Expiring(key: Key)
    | Rereading(key: Key)
    | Resolved(key: Key, seen: Request, at: int)
    | Failed(key: Key)

  datatype Event =
    | Tick(elapsed: nat)
    | Ask(gate: nat, key: Key)
    | Look(gate: nat)
    | Create(gate: nat)
    | Judge(gate: nat)
    | Mark(gate: nat)
    | Reread(gate: nat)
    | Decide(key: Key, verdict: Verdict)  // a reviewer approving or rejecting
    | Sweep

  /** `created` lists every row insertion; `decisions` every decide call that succeeded. */
  datatype System = System(
    now: int, ttl: Option<int>, table: Table, gates: map<nat, Gate>, created: seq<Key>,
    decisions: seq<(Key, ApprovalStatus)>)

  predicate ByReviewer(v: Verdict) {
    v.status == Approved || v.status == Rejected
  }

  function DecideIn(s: System, key: Key, v: Verdict): System {
    match Decided(s.table, key, v, s.now)
    case Ok(t) => s.(table := t, decisions := s.decisions + [(key, v.status)])
    case Err(_) => s
  }

  function GateStep(s: System, g: nat, e: Event): System
    requires g in s.gates
  {
    var key := s.gates[g].key;
    match (s.gates[g], e)
    case (Asking(_), Look(_)) =>
      s.(gates := s.gates[g := if key in s.table then Holding(key, s.table[key]) else Missing(key)])
    case (Missing(_), Create(_)) =>
      if key in s.table then s.(gates := s.gates[g := Failed(key)])  // the primary key refuses a second row
      else
        var r := NewRequest(key, s.now, s.ttl);
        s.(table := s.table[key := r], gates := s.gates[g := Holding(key, r)], created := s.created + [key])
    case (Holding(_, seen), Judge(_)) =>
      if seen.status == Pending && ExpiredAt(seen, s.now) then s.(gates := s.gates[g := Expiring(key)])
      else s.(gates := s.gates[g := Resolved(key, seen, s.now)])
    case (Expiring(_), Mark(_)) =>
      var after := DecideIn(s, key, EXPIRY);
      after.(gates := s.gates[g := if Decided(s.table, key, EXPIRY, s.now).Ok? then Rereading(key) else Failed(key)])
    case (Rereading(_), Reread(_)) =>
      s.(gates := s.gates[g := if key in s.table then Resolved(key, s.table[key], s.now) else Failed(key)])
    case _ => s
  }

  function Step(s: System, e: Event): System {
    match e
    case Tick(d) => s.(now := s.now + d)
    case Ask(g, key) => s.(gates := s.gates[g := Asking(key)])
    case Decide(key, v) => if ByReviewer(v) then DecideIn(s, key, v) else s
    case Sweep => s.(table := Swept(s.table, s.now))
    case _ => if e.gate in s.gates then GateStep(s, e.gate, e) else s
  }

  function Run(s: System, events: seq<Event>): System {
    if events == [] then s else Step(Run(s, events[..|events| - 1]), events[|events| - 1])
  }

  function Start(now: int, ttl: Option<int>): System {
    System(now, ttl, map[], map[], [], [])
  }

  /** A later version of a row: same request, and once decided, not a field different. */
  ghost predicate Later(r: Request, r': Request) {
    && r.parameters == r'.parameters && r.requestedAt == r'.requestedAt && r.expiresAt == r'.expiresAt
    && (r.status != Pending ==> r' == r)
  }

  ghost predicate Evolves(t: Table, t': Table) {
    forall k :: k in t ==> k in t' && Later(t[k], t'[k])
  }

  ghost predicate GateSound(s: System, g: Gate) {
    match g
    case Holding(k, seen) => k in s.table && Later(seen, s.table[k])
    case Expiring(k) => k in s.table
    case Rereading(k) => k in s.table && s.table[k].status != Pending
    case Resolved(k, seen, at) =>
      && k in s.table && Later(seen, s.table[k]) && at <= s.now
      && (seen.status == Pending ==> !ExpiredAt(seen, at))
    case _ => true
  }

  ghost predicate LogSound(s: System) {
    && NoDup(s.created)
    && (forall k :: k in s.table <==> k in s.created)
    && (forall d :: d in s.decisions ==> d.0 in s.table && d.1 != Pending && s.table[d.0].status == d.1)
  }

  ghost predicate Inv(s: System) {
    LogSound(s) && forall g :: g in s.gates ==> GateSound(s, s.gates[g])
  }

  lemma DecidedEvolves(t: Table, key: Key, v: Verdict, now: int)
    requires Decided(t, key, v, now).Ok?
    ensures Evolves(t, Decided(t, key, v, now).value)
    ensures v.status != Pending ==> Decided(t, key, v, now).value[key].status == v.status
  {
  }

  lemma StepEvolves(s: System, e: Event)
    ensures Evolves(s.table, Step(s, e).table)
  {
    match e
    case Decide(key, v) =>
      if Decided(s.table, key, v, s.now).Ok? {
        DecidedEvolves(s.table, key, v, s.now);
      }
    case Mark(g) =>
      if g in s.gates && Decided(s.table, s.gates[g].key, EXPIRY, s.now).Ok? {
        DecidedEvolves(s.table, s.gates[g].key, EXPIRY, s.now);
      }
    case _ =>
  }

  /** What a gate has seen stays true of the row as the table evolves. */
  lemma GateSoundPersists(s: System, t: System, g: Gate)
    requires GateSound(s, g) && Evolves(s.table, t.table) && s.now <= t.now
    ensures GateSound(t, g)
  {
  }

  lemma EvolvedKeepsDecisions(s: System, t: Table)
    requires LogSound(s) && Evolves(s.table, t) && (forall k :: k in t ==> k in s.table)
    ensures LogSound(s.(table := t))
  {
  }

  lemma DecideKeepsLog(s: System, key: Key, v: Verdict)
    requires LogSound(s) && v.status != Pending
    ensures LogSound(DecideIn(s, key, v))
  {
  }

  lemma CreateKeepsLog(s: System, key: Key, r: Request)
    requires LogSound(s) && key !in s.table
    ensures LogSound(s.(table := s.table[key := r], created := s.created + [key]))
  {
  }

  lemma StepKeepsLog(s: System, e: Event)
    requires LogSound(s)
    ensures LogSound(Step(s, e))
  {
    match e
    case Decide(key, v) =>
      if ByReviewer(v) {
        DecideKeepsLog(s, key, v);
      }
    case Sweep =>
      StepEvolves(s, e);
      EvolvedKeepsDecisions(s, Swept(s.table, s.now));
    case Mark(g) =>
      if g in s.gates {
        DecideKeepsLog(s, s.gates[g].key, EXPIRY);
      }
    case Create(g) =>
      if g in s.gates && s.gates[g].key !in s.table {
        CreateKeepsLog(s, s.gates[g].key, NewRequest(s.gates[g].key, s.now, s.ttl));
      }
    case _ =>
  }

  /** The gate that moved is sound afterwards. */
  lemma MoverSound(s: System, g: nat, e: Event)
    requires g in s.gates && GateSound(s, s.gates[g])
    ensures g in GateStep(s, g, e).gates && GateSound(GateStep(s, g, e), GateStep(s, g, e).gates[g])
    ensures GateStep(s, g, e).gates == s.gates[g := GateStep(s, g, e).gates[g]]
    ensures GateStep(s, g, e).now == s.now
  {
  }

  lemma StepKeepsInv(s: System, e: Event)
    requires Inv(s)
    ensures Inv(Step(s, e))
  {
    var t := Step(s, e);
    StepKeepsLog(s, e);
    StepEvolves(s, e);
    var moves := !(e.Tick? || e.Ask? || e.Decide? || e.Sweep?) && e.gate in s.gates;
    if moves {
      MoverSound(s, e.gate, e);
    }
    forall g | g in t.gates ensures GateSound(t, t.gates[g]) {
      if g in s.gates && t.gates[g] == s.gates[g] {
        GateSoundPersists(s, t, s.gates[g]);
      }
    }
  }

  lemma {:induction false} RunKeepsInv(s: System, events: seq<Event>)
    requires Inv(s)
    ensures Inv(Run(s, events))
    ensures Evolves(s.table, Run(s, events).table)
  {
    if events != [] {
      var before := events[..|events| - 1];
      RunKeepsInv(s, before);
      StepKeepsInv(Run(s, before), events[|events| - 1]);
      StepEvolves(Run(s, before), events[|events| - 1]);
    }
  }

  /** Between any two moments of any run: rows stay, a decided row never changes again, and no key is created twice. */
  lemma RecordsAreWriteOnce(now: int, ttl: Option<int>, first: seq<Event>, rest: seq<Event>)
    ensures var s := Run(Start(now, ttl), first);
            var t := Run(s, rest);
            && (forall k :: k in s.table ==> k in t.table)
            && (forall k :: k in s.table && s.table[k].status != Pending ==> t.table[k] == s.table[k])
            && NoDup(t.created)
            && (forall k :: k in t.table <==> k in t.created)
  {
    RunKeepsInv(Start(now, ttl), first);
    RunKeepsInv(Run(Start(now, ttl), first), rest);
  }

  /** Every decision that ever succeeded is the row's status at the end, so opposite decisions never both succeed. */
  lemma DecisionsAgree(now: int, ttl: Option<int>, events: seq<Event>)
    ensures var s := Run(Start(now, ttl), events);
            && (forall d :: d in s.decisions ==> d.0 in s.table && s.table[d.0].status == d.1)
            && (forall c, d :: c in s.decisions && d in s.decisions && c.0 == d.0 ==> c.1 == d.1)
  {
    RunKeepsInv(Start(now, ttl), events);
  }

  /**
   Whatever else runs, a gate that was granted names a row that is approved and stays so, with the reviewer's
   arguments if any and else the request's own; a gate told to wait was told so within the row's time to live.
   */
  lemma GateTheorem(now: int, ttl: Option<int>, events: seq<Event>, g: nat)
    requires g in Run(Start(now, ttl), events).gates
    requires Run(Start(now, ttl), events).gates[g].Resolved?
    ensures var s := Run(Start(now, ttl), events);
            var Resolved(key, seen, at) := s.gates[g];
            match OutcomeOf(seen)
            case Granted(arguments) =>
              && key in s.table && s.table[key].status == Approved
              && arguments == (match s.table[key].modified case Some(changed) => changed case None => key.arguments)
            case Refused(status) => key in s.table && s.table[key].status == status && status != Approved
            case Waiting => key in s.table && (ttl.Some? ==> at < s.table[key].requestedAt + ttl.value)
  {
    RunKeepsInv(Start(now, ttl), events);
    RunKeepsTimes(Start(now, ttl), events);
    assert GateSound(Run(Start(now, ttl), events), Run(Start(now, ttl), events).gates[g]);
  }

  /** A decision on a key succeeds exactly when a row exists that is pending or already decided the same way. */
  lemma DecideSucceedsIff(t: Table, key: Key, v: Verdict, now: int)
    ensures Decided(t, key, v, now).Ok? <==> key in t && (t[key].status == Pending || t[key].status == v.status)
    ensures Decided(t, key, v, now).Err? ==>
              Decided(t, key, v, now).error == if key in t then AlreadyDecided(t[key].status) else NotFound
    ensures Decided(t, key, v, now).Ok? && v.status != Pending ==>
              forall v': Verdict, now': int :: v'.status != Pending && v'.status != v.status ==>
                Decided(Decided(t, key, v, now).value, key, v', now') == Err(AlreadyDecided(v.status))
  {
  }

  /** Nothing stops a reviewer approving a pending request after its expiry time, and the next gate then grants it. */
  lemma LateApprovalIsHonoured(t: Table, key: Key, decider: string, now: int)
    requires key in t && t[key].status == Pending && ExpiredAt(t[key], now)
    ensures var after := Decided(t, key, Verdict(Approved, decider, None, None), now);
            after.Ok? && OutcomeOf(after.value[key]) == Granted(t[key].parameters)
  {
  }

  // ---------------------------------------------------------------- when a request expires

  /** A record asks for its key's action, lives for the time to live, is undecided while pending, and expires late. */
  ghost predicate RecordTimely(key: Key, r: Request, ttl: Option<int>, now: int) {
    && r.parameters == key.arguments && r.requestedAt <= now
    && r.expiresAt == (match ttl case Some(d) => Some(r.requestedAt + d) case None => None)
    && (r.status == Pending ==> r == Request(Pending, r.parameters, r.requestedAt, r.expiresAt, None, None, None, None))
    && (r.status == Expired ==>
          ttl.Some? && r.decidedAt.Some? && r.requestedAt + ttl.value <= r.decidedAt.value <= now)
  }

  ghost predicate RowsTimely(t: Table, ttl: Option<int>, now: int) {
    forall k :: k in t ==> RecordTimely(k, t[k], ttl, now)
  }

  ghost predicate GateTimely(t: Table, g: Gate, now: int) {
    g.Expiring? ==> g.key in t && ExpiredAt(t[g.key], now)
  }

  ghost predicate Timely(s: System) {
    RowsTimely(s.table, s.ttl, s.now) && forall g :: g in s.gates ==> GateTimely(s.table, s.gates[g], s.now)
  }

  lemma DecidedTimely(t: Table, key: Key, v: Verdict, ttl: Option<int>, now: int)
    requires RowsTimely(t, ttl, now) && Decided(t, key, v, now).Ok? && v.status != Pending
    requires v.status == Expired ==> key in t && ExpiredAt(t[key], now)
    ensures RowsTimely(Decided(t, key, v, now).value, ttl, now)
  {
  }

  lemma StepKeepsRowTimes(s: System, e: Event)
    requires Timely(s)
    ensures RowsTimely(Step(s, e).table, s.ttl, Step(s, e).now)
  {
    match e
    case Decide(key, v) =>
      if ByReviewer(v) && Decided(s.table, key, v, s.now).Ok? {
        DecidedTimely(s.table, key, v, s.ttl, s.now);
      }
    case Mark(g) =>
      if g in s.gates && s.gates[g].Expiring? && Decided(s.table, s.gates[g].key, EXPIRY, s.now).Ok? {
        assert GateTimely(s.table, s.gates[g], s.now);
        DecidedTimely(s.table, s.gates[g].key, EXPIRY, s.ttl, s.now);
      }
    case _ =>
  }

  lemma StepKeepsTimes(s: System, e: Event)
    requires Inv(s) && Timely(s)
    ensures Timely(Step(s, e)) && Step(s, e).ttl == s.ttl && s.now <= Step(s, e).now
  {
    hide RowsTimely;
    StepEvolves(s, e);
    StepKeepsRowTimes(s, e);
    var t := Step(s, e);
    forall g | g in t.gates ensures GateTimely(t.table, t.gates[g], t.now) {
      if g in s.gates {
        GateKeepsTimes(s, e, g);
      }
    }
  }

  lemma GateKeepsTimes(s: System, e: Event, g: nat)
    requires Evolves(s.table, Step(s, e).table) && g in s.gates
    requires GateSound(s, s.gates[g]) && GateTimely(s.table, s.gates[g], s.now)
    ensures var t := Step(s, e); g in t.gates && GateTimely(t.table, t.gates[g], t.now) && s.now <= t.now
  {
    hide Decided, Swept, NewRequest;
  }

  lemma {:induction false} RunKeepsTimes(s: System, events: seq<Event>)
    requires Inv(s) && Timely(s)
    ensures var t := Run(s, events); Timely(t) && t.ttl == s.ttl && s.now <= t.now
  {
    if events != [] {
      var before := events[..|events| - 1];
      RunKeepsInv(s, before);
      RunKeepsTimes(s, before);
      StepKeepsTimes(Run(s, before), events[|events| - 1]);
    }
  }

  /** In no run does a record expire before its time to live is over, or without one. */
  lemma ExpiredOnlyLate(now: int, ttl: Option<int>, events: seq<Event>, key: Key)
    requires key in Run(Start(now, ttl), events).table
    requires Run(Start(now, ttl), events).table[key].status == Expired
    ensures var s := Run(Start(now, ttl), events);
            var r := s.table[key];
            ttl.Some? && r.decidedAt.Some? && r.requestedAt + ttl.value <= r.decidedAt.value <= s.now
  {
    RunKeepsTimes(Start(now, ttl), events);
  }

  /**
   A record created at one moment of a run and undecided at a later one: a gate call at that later moment is told to
   wait within the time to live, counted from the creation, and is refused as expired from its end on.
   */
  lemma UndecidedOutcome(now: int, ttl: Option<int>, first: seq<Event>, g: nat, rest: seq<Event>, h: nat)
    requires var s := Run(Start(now, ttl), first);
             g in s.gates && s.gates[g].Missing? && s.gates[g].key !in s.table
    requires var s := Run(Start(now, ttl), first);
             var t := Run(Step(s, Create(g)), rest);
             s.gates[g].key in t.table && t.table[s.gates[g].key].status == Pending
    ensures var s := Run(Start(now, ttl), first);
            var key, t := s.gates[g].key, Run(Step(s, Create(g)), rest);
            var u := JudgeSteps(FindSteps(t, h, key), h);
            && s.now <= t.now && h in u.gates && u.gates[h].Resolved? && u.gates[h].key == key
            && OutcomeOf(u.gates[h].seen)
               == if ttl.None? || t.now < s.now + ttl.value then Waiting else Refused(Expired)
  {
    hide Run, JudgeSteps, FindSteps;
    var s := Run(Start(now, ttl), first);
    var t := Run(Step(s, Create(g)), rest);
    RunKeepsInv(Start(now, ttl), first);
    RunKeepsTimes(Start(now, ttl), first);
    StepKeepsInv(s, Create(g));
    StepKeepsTimes(s, Create(g));
    RunKeepsInv(Step(s, Create(g)), rest);
    RunKeepsTimes(Step(s, Create(g)), rest);
    UninterruptedGateIsResolve(t, h, s.gates[g].key);
  }

  /** The same of a gate that looked earlier and judges only now: what it saw is still what the record says. */
  lemma LateJudgement(now: int, ttl: Option<int>, events: seq<Event>, h: nat)
    requires var s := Run(Start(now, ttl), events);
             && h in s.gates && s.gates[h].Holding?
             && s.gates[h].key in s.table && s.table[s.gates[h].key].status == Pending
    ensures var s := Run(Start(now, ttl), events);
            var Holding(key, seen) := s.gates[h];
            && OutcomeOf(seen) == Waiting
            && Step(s, Judge(h)).gates[h]
               == if ttl.None? || s.now < s.table[key].requestedAt + ttl.value
                  then Resolved(key, seen, s.now) else Expiring(key)
  {
    hide Run;
    var s := Run(Start(now, ttl), events);
    RunKeepsInv(Start(now, ttl), events);
    RunKeepsTimes(Start(now, ttl), events);
    assert GateSound(s, s.gates[h]);
  }

  /** A sweep expires an undecided record one tick later than a gate would: strictly after its time to live. */
  lemma SweepExpiresIff(now: int, ttl: Option<int>, events: seq<Event>, key: Key)
    requires var s := Run(Start(now, ttl), events); key in s.table && s.table[key].status == Pending
    ensures var s := Run(Start(now, ttl), events);
            var t := Step(s, Sweep);
            && key in t.table
            && (t.table[key].status == Expired <==> ttl.Some? && s.table[key].requestedAt + ttl.value < s.now)
            && (t.table[key].status != Expired ==> t.table[key] == s.table[key])
  {
    hide Run;
    RunKeepsTimes(Start(now, ttl), events);
  }

  // ---------------------------------------------------------------- when a gate raises

  /** Creating raises exactly when someone else has stored the record since the gate looked. */
  lemma CreateRaisesIff(s: System, g: nat)
    requires g in s.gates && s.gates[g].Missing?
    ensures Step(s, Create(g)).gates[g].Failed? <==> s.gates[g].key in s.table
  {
  }

  /**
   Marking raises exactly when a reviewer has decided since the gate judged the record expired; that another gate or
   a sweep has expired it is no error.
   */
  lemma MarkRaisesIff(s: System, g: nat)
    requires Inv(s) && g in s.gates && s.gates[g].Expiring?
    ensures Step(s, Mark(g)).gates[g].Failed? <==> s.table[s.gates[g].key].status !in {Pending, Expired}
  {
    assert GateSound(s, s.gates[g]);
  }

  /** And these two are the only steps that raise. */
  lemma OnlyCreateAndMarkRaise(s: System, g: nat, e: Event)
    requires Inv(s) && g in s.gates && !s.gates[g].Failed?
    ensures var t := Step(s, e); g in t.gates && t.gates[g].Failed? ==> e == Create(g) || e == Mark(g)
  {
    assert GateSound(s, s.gates[g]);
  }

  lemma RunSnoc(s: System, events: seq<Event>, e: Event)
    ensures Run(s, events + [e]) == Step(Run(s, events), e)
  {
    assert (events + [e])[..|events|] == events;
  }

  /** A gate up to the moment it has judged its own record expired. */
  function JudgedExpired(g: nat, key: Key, ttl: nat): seq<Event> {
    [Ask(g, key)] + [Look(g)] + [Create(g)] + [Tick(ttl)] + [Judge(g)]
  }

  lemma JudgedExpiredRun(now: int, ttl: nat, g: nat, key: Key)
    ensures Run(Start(now, Some(ttl)), JudgedExpired(g, key, ttl))
         == System(now + ttl, Some(ttl), map[key := NewRequest(key, now, Some(ttl))], map[g := Expiring(key)],
             [key], [])
  {
    var s := Start(now, Some(ttl));
    var a, b := [Ask(g, key)], [Look(g)];
    RunSnoc(s, [], Ask(g, key));
    assert [] + a == a;
    RunSnoc(s, a, Look(g));
    RunSnoc(s, a + b, Create(g));
    RunSnoc(s, a + b + [Create(g)], Tick(ttl));
    RunSnoc(s, a + b + [Create(g)] + [Tick(ttl)], Judge(g));
  }

  /** A reviewer approving between the judgement and the mark: the record is approved, and its gate raises. */
  lemma ApprovedGateCanRaise(now: int, ttl: nat, g: nat, key: Key, decider: string)
    ensures var verdict := Verdict(Approved, decider, None, None);
            var s := Run(Start(now, Some(ttl)), JudgedExpired(g, key, ttl) + [Decide(key, verdict)] + [Mark(g)]);
            g in s.gates && s.gates[g].Failed? && key in s.table && s.table[key].status == Approved
  {
    var verdict := Verdict(Approved, decider, None, None);
    var s, judged := Start(now, Some(ttl)), JudgedExpired(g, key, ttl);
    JudgedExpiredRun(now, ttl, g, key);
    RunSnoc(s, judged, Decide(key, verdict));
    RunSnoc(s, judged + [Decide(key, verdict)], Mark(g));
  }

  // ---------------------------------------------------------------- one gate alone

  function Found(t: Table, key: Key, now: int, ttl: Option<int>): (f: Table)
    ensures key in f
  {
    if key in t then t else t[key := NewRequest(key, now, ttl)]
  }

  /** Find or create, then judge expiry on read: the table left and the record reported. */
  function ResolvedAlone(t: Table, key: Key, now: int, ttl: Option<int>): (Table, Request) {
    var found := Found(t, key, now, ttl);
    var judged :=
      if found[key].status == Pending && ExpiredAt(found[key], now)
          then Decided(found, key, EXPIRY, now).value else found;
    (judged, judged[key])
  }

  function FindSteps(s: System, g: nat, key: Key): System {
    Step(Step(Step(s, Ask(g, key)), Look(g)), Create(g))
  }

  function JudgeSteps(s: System, g: nat): System {
    Step(Step(Step(s, Judge(g)), Mark(g)), Reread(g))
  }

  lemma FindStepsFind(s: System, g: nat, key: Key)
    ensures var t := FindSteps(s, g, key);
            var found := Found(s.table, key, s.now, s.ttl);
            t.table == found && t.now == s.now && g in t.gates && t.gates[g] == Holding(key, found[key])
  {
  }

  lemma JudgeStepsJudge(s: System, g: nat, key: Key)
    requires key in s.table && g in s.gates && s.gates[g] == Holding(key, s.table[key])
    ensures var t := JudgeSteps(s, g);
            var r := s.table[key];
            var table :=
              if r.status == Pending && ExpiredAt(r, s.now) then Decided(s.table, key, EXPIRY, s.now).value
                  else s.table;
            t.table == table && g in t.gates && t.gates[g] == Resolved(key, table[key], s.now)
  {
  }

  /** The gate's separate steps with nothing in between are one call of the service, and do not raise. */
  lemma UninterruptedGateIsResolve(s: System, g: nat, key: Key)
    ensures var t := JudgeSteps(FindSteps(s, g, key), g);
            var alone := ResolvedAlone(s.table, key, s.now, s.ttl);
            t.table == alone.0 && g in t.gates && t.gates[g] == Resolved(key, alone.1, s.now)
  {
    hide FindSteps, JudgeSteps;
    FindStepsFind(s, g, key);
    JudgeStepsJudge(FindSteps(s, g, key), g, key);
  }

  // ---------------------------------------------------------------- the service as mutable state

  class ApprovalService {
    var table: Table
    const ttl: Option<int>

    constructor (ttl: Option<int>)
      ensures this.ttl == ttl && table == map[]
    {
      this.ttl, this.table := ttl, map[];
    }

    method Record(key: Key, v: Verdict, now: int) returns (r: Result<Request, DecideError>)
      modifies this
      ensures match Decided(old(table), key, v, now)
              case Ok(t) => table == t && r == Ok(t[key])
              case Err(e) => table == old(table) && r == Err(e)
    {
      if key !in table {
        return Err(NotFound);
      }
      if table[key].status == Pending {
        table := table[key := table[key].(status := v.status, decidedBy := Some(v.decider), note := v.note,
                                          modified := v.modified, decidedAt := Some(now))];
      } else if table[key].status != v.status {
        return Err(AlreadyDecided(table[key].status));
      }
      r := Ok(table[key]);
    }

    method Approve(key: Key, decider: string, note: Option<string>, modified: Option<Arguments>, now: int)
      returns (r: Result<Request, DecideError>)
      modifies this
      ensures Evolves(old(table), table)
      ensures r.Ok? <==> key in old(table) && old(table)[key].status in {Pending, Approved}
      ensures r.Ok? ==> key in table && table[key] == r.value && r.value.status == Approved
      ensures r.Ok? && old(table)[key].status == Pending ==>
                && r.value.decidedBy == Some(decider) && r.value.note == note && r.value.modified == modified
                && r.value.decidedAt == Some(now)
      ensures r.Err? ==> table == old(table)
    {
      r := Record(key, Verdict(Approved, decider, note, modified), now);
    }

    method Reject(key: Key, decider: string, note: Option<string>, now: int) returns (r: Result<Request, DecideError>)
      modifies this
      ensures Evolves(old(table), table)
      ensures r.Ok? <==> key in old(table) && old(table)[key].status in {Pending, Rejected}
      ensures r.Ok? ==> key in table && table[key] == r.value && r.value.status == Rejected
      ensures r.Ok? && old(table)[key].status == Pending ==>
                && r.value.decidedBy == Some(decider) && r.value.note == note && r.value.modified == None
                && r.value.decidedAt == Some(now)
      ensures r.Err? ==> table == old(table)
    {
      r := Record(key, Verdict(Rejected, decider, note, None), now);
    }

    /** Expires what is overdue, touches nothing else, and reports how many records changed. */
    method ExpireOverdue(now: int) returns (count: nat)
      modifies this
      ensures table.Keys == old(table).Keys
      ensures forall k :: k in table ==> (table[k] != old(table)[k] <==> Overdue(old(table)[k], now))
      ensures forall k :: k in table && table[k] != old(table)[k] ==>
                table[k] == old(table)[k].(status := Expired, decidedAt := Some(now))
      ensures count == |set k | k in table && table[k] != old(table)[k]|
    {
      ghost var before := table;
      var due := set k | k in table && Overdue(table[k], now);
      table := Swept(table, now);
      count := |due|;
      assert due == set k | k in table && table[k] != before[k];
    }

    /** One uninterrupted gate call. */
    method Resolve(key: Key, now: int) returns (r: Request)
      modifies this
      ensures (table, r) == ResolvedAlone(old(table), key, now, ttl)
      ensures Evolves(old(table), table)
      ensures r.status == Pending ==> !ExpiredAt(r, now)
      ensures key !in old(table) ==> r.requestedAt == now && r.parameters == key.arguments
      ensures key !in old(table) && (ttl.None? || ttl.value > 0) ==>
                && r.status == Pending && r.expiresAt == (if ttl.Some? then Some(now + ttl.value) else None)
                && r.decidedBy == None && r.note == None && r.modified == None && r.decidedAt == None
      ensures key in old(table) && old(table)[key].status == Pending && ExpiredAt(old(table)[key], now) ==>
                r == old(table)[key].(status := Expired, decidedBy := Some("system"), modified := None,
                                      note := Some("expired before a decision was made"), decidedAt := Some(now))
      ensures forall k :: k in table && k != key ==> k in old(table) && table[k] == old(table)[k]
    {
      if key !in table {
        table := table[key := NewRequest(key, now, ttl)];
      }
      if table[key].status == Pending && ExpiredAt(table[key], now) {
        var marked := Record(key, EXPIRY, now);
      }
      r := table[key];
    }

    /** Returns the arguments to use only under an approved record; otherwise says whether to pause or fail. */
    method Require(executionId: string, action: string, nodeId: Option<string>, arguments: Option<Arguments>, now: int)
      returns (o: Outcome)
      modifies this
      ensures Evolves(old(table), table)
      ensures var key := ApprovalKey(executionId, action, nodeId, arguments);
              && key in table && o == OutcomeOf(table[key])
              && (o.Granted? <==> key in old(table) && old(table)[key].status == Approved)
              && (o.Granted? ==> table == old(table) && o.arguments == EffectiveParameters(table[key]))
              && (o.Waiting? ==> !ExpiredAt(table[key], now))
              && (key !in old(table) ==> o == if ttl.None? || ttl.value > 0 then Waiting else Refused(Expired))
              && (o.Granted? ==>
                    o.arguments == if table[key].modified.Some? then table[key].modified.value
                                   else table[key].parameters)
    {
      var r := Resolve(ApprovalKey(executionId, action, nodeId, arguments), now);
      o := OutcomeOf(r);
    }
  }
}
