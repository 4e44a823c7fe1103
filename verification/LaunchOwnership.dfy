/**
  Launching one run: any number of requests, concurrent or replayed, each of
  which may die between any two of its steps.
 */
module LaunchOwnership {
  import opened Common
  import opened RunStates

  // -- the launcher -----------------------------------------------------------------------

  datatype Outcome = Success | Uncertain | Definite

  /** What one POST to the job service came to. */
  datatype Reply =
    | NotSent                                            // no client library, no credentials
    | PostRaised                                         // a timeout or a reset: unknown
    | Answered(status: nat, hasBody: bool, readable: bool)

  function OutcomeOf(r: Reply): Outcome {
    match r
    case NotSent => Definite
    case PostRaised => Uncertain
    case Answered(status, hasBody, readable) =>
      if status >= 400 then Definite
      else if hasBody && !readable then Definite   // reading the body raises, like any other error
      else Success
  }

  /** The launcher's own assumption: the service creates an execution only when
      it is asked and does not answer with an error. */
  predicate Plausible(r: Reply, started: bool) {
    started ==> r.PostRaised? || (r.Answered? && r.status < 400)
  }

  /** A launch attempt as the run sees it: did an execution start, and what was said. */
  datatype Behaviour = Behaviour(started: bool, outcome: Outcome)

  /**
    A definite failure means nothing started, except where the service started
    an execution and answered with an error, or with a success whose body cannot
    be read. The launcher takes an error for proof that nothing started; then the
    unreadable success is the one reply that is misreported.
   */
  lemma MisreportedIff(r: Reply, started: bool)
    ensures Behaviour(started, OutcomeOf(r)) == Behaviour(true, Definite) <==>
              started && (r.NotSent? || (r.Answered? && (r.status >= 400 || (r.hasBody && !r.readable))))
    ensures Plausible(r, started) ==>
              (Behaviour(started, OutcomeOf(r)) == Behaviour(true, Definite) <==>
                 started && r.Answered? && r.status < 400 && r.hasBody && !r.readable)
  {
  }

  // -- the protocol ----------------------------------------------------------------------------

  datatype Phase = Reading | Owner | Called(outcome: Outcome) | Gone

  /** `started` counts the requests whose attempt may have started an execution. */
  datatype Desk = Desk(launch: LaunchState, queued: bool, phase: map<nat, Phase>, started: set<nat>)

  datatype Step =
    | Arrive(q: nat, identityOk: bool)
    | Acquire(q: nat, answers: bool)      // the compare-and-set, or a database error
    | Call(q: nat, b: Behaviour)
    | Record(q: nat, lands: bool)         // the unconditional write of what happened
    | Crash(q: nat)
    | SetQueued(queued: bool)             // whatever else moves the run's status

  function PhaseOf(d: Desk, q: nat): Phase {
    if q in d.phase then d.phase[q] else Gone
  }

  function StateFor(o: Outcome): LaunchState {
    match o
    case Success => Launched
    case Uncertain => LaunchUnknown
    case Definite => LaunchFailed
  }

  predicate Acquirable(l: LaunchState) {
    l == Pending || l == LaunchFailed
  }

  function Next(d: Desk, s: Step): Desk {
    match s
    case Arrive(q, identityOk) =>
      if q in d.phase then d
      else d.(phase := d.phase[q := if identityOk && d.queued && d.launch != LaunchUnknown then Reading else Gone])
    case Acquire(q, answers) =>
      if PhaseOf(d, q) != Reading then d
      else if answers && d.queued && Acquirable(d.launch) then d.(launch := LaunchStarted, phase := d.phase[q := Owner])
      else d.(phase := d.phase[q := Gone])
    case Call(q, b) =>
      if PhaseOf(d, q) != Owner then d
      else d.(phase := d.phase[q := Called(b.outcome)], started := if b.started then d.started + {q} else d.started)
    case Record(q, lands) =>
      if !PhaseOf(d, q).Called? then d
      else d.(launch := if lands then StateFor(PhaseOf(d, q).outcome) else d.launch, phase := d.phase[q := Gone])
    case Crash(q) => if q in d.phase then d.(phase := d.phase[q := Gone]) else d
    case SetQueued(queued) => d.(queued := queued)
  }

  function Ran(d: Desk, steps: seq<Step>): Desk
    decreases |steps|
  {
    if steps == [] then d else Ran(Next(d, steps[0]), steps[1..])
  }

  lemma {:induction false} RanConcat(d: Desk, a: seq<Step>, b: seq<Step>)
    ensures Ran(d, a + b) == Ran(Ran(d, a), b)
    decreases |a|
  {
    if a == [] {
      assert a + b == b;
    } else {
      assert (a + b)[1..] == a[1..] + b;
      RanConcat(Next(d, a[0]), a[1..], b);
    }
  }

  function Created(): Desk {
    Desk(Pending, true, map[], {})
  }

  predicate Active(p: Phase) {
    p.Owner? || p.Called?
  }

  /** An attempt under way owns the launch alone, and while the launch can be
      taken nothing has started. */
  ghost predicate Owned(d: Desk) {
    && (forall q :: q in d.phase && Active(d.phase[q]) ==> d.launch == LaunchStarted && d.started <= {q})
    && (forall q, p :: q in d.phase && p in d.phase && Active(d.phase[q]) && Active(d.phase[p]) ==> q == p)
    && (forall q :: q in d.phase && (d.phase[q].Owner? || d.phase[q] == Called(Definite)) ==> d.started == {})
    && (Acquirable(d.launch) ==> d.started == {})
    && |d.started| <= 1
  }

  predicate Truthful(s: Step) {
    s.Call? ==> s.b != Behaviour(true, Definite)
  }

  lemma StepKeepsOwnership(d: Desk, s: Step)
    requires Owned(d) && Truthful(s)
    ensures Owned(Next(d, s))
  {
    if s.Call? && PhaseOf(d, s.q) == Owner {
      assert d.started == {};
      assert {} + {s.q} == {s.q};
    }
  }

  lemma {:induction false} RunKeepsOwnership(d: Desk, steps: seq<Step>)
    requires Owned(d) && forall i :: 0 <= i < |steps| ==> Truthful(steps[i])
    ensures Owned(Ran(d, steps))
    decreases |steps|
  {
    hide Owned, Next;
    if steps != [] {
      StepKeepsOwnership(d, steps[0]);
      RunKeepsOwnership(Next(d, steps[0]), steps[1..]);
    }
  }

  /** A history in which every attempt behaves as the launcher may. */
  predicate Behaves(steps: seq<Step>, launcher: set<Behaviour>) {
    forall i :: 0 <= i < |steps| && steps[i].Call? ==> steps[i].b in launcher
  }

  /**
    Across every interleaving of launch requests and crashes, at most one attempt
    may have started an execution, exactly when the launcher never reports a
    definite failure for an execution that started.
   */
  lemma OneExecutionIff(launcher: set<Behaviour>)
    ensures (forall steps :: Behaves(steps, launcher) ==> |Ran(Created(), steps).started| <= 1)
            <==> Behaviour(true, Definite) !in launcher
  {
    if Behaviour(true, Definite) !in launcher {
      forall steps | Behaves(steps, launcher) ensures |Ran(Created(), steps).started| <= 1 {
        RunKeepsOwnership(Created(), steps);
      }
    } else {
      var steps := TwoLaunches();
      assert Behaves(steps, launcher);
    }
  }

  /** A started execution reported as a definite failure is launched again. */
  lemma TwoLaunches() returns (steps: seq<Step>)
    ensures Behaves(steps, {Behaviour(true, Definite)}) && Ran(Created(), steps).started == {1, 2}
    ensures |Ran(Created(), steps).started| == 2
  {
    var misreported := Behaviour(true, Definite);
    var first := [Arrive(1, true), Acquire(1, true), Call(1, misreported), Record(1, true)];
    var second := [Arrive(2, true), Acquire(2, true), Call(2, misreported)];
    steps := first + second;
    RanConcat(Created(), first, second);
    var d := Desk(LaunchFailed, true, map[1 := Gone], {1});
    FirstLaunch(first, d);
    SecondLaunch(d, second);
    assert {1} + {2} == {1, 2};
  }

  lemma FirstLaunch(steps: seq<Step>, d: Desk)
    requires steps == [Arrive(1, true), Acquire(1, true), Call(1, Behaviour(true, Definite)), Record(1, true)]
    requires d == Desk(LaunchFailed, true, map[1 := Gone], {1})
    ensures Ran(Created(), steps) == d
  {
    var d1 := Next(Created(), steps[0]);
    var d2 := Next(d1, steps[1]);
    var d3 := Next(d2, steps[2]);
    assert Next(d3, steps[3]) == d;
    assert steps[1..][1..][1..][1..] == [];
    assert Ran(d3, steps[1..][1..][1..]) == d;
    assert Ran(d2, steps[1..][1..]) == d;
  }

  lemma SecondLaunch(d: Desk, steps: seq<Step>)
    requires steps == [Arrive(2, true), Acquire(2, true), Call(2, Behaviour(true, Definite))]
    requires d == Desk(LaunchFailed, true, map[1 := Gone], {1})
    ensures Ran(d, steps).started == {1} + {2}
  {
    var d1 := Next(d, steps[0]);
    var d2 := Next(d1, steps[1]);
    var d3 := Next(d2, steps[2]);
    assert steps[1..][1..][1..] == [];
    assert Ran(d2, steps[1..][1..]) == d3;
  }

  /** A launch is retried only when it may be: once an attempt was uncertain, or
      died as the owner, no later request ever calls the launcher. */
  lemma {:induction false} AParkedLaunchStaysParked(d: Desk, steps: seq<Step>)
    requires !Acquirable(d.launch) && forall q :: q in d.phase ==> !Active(d.phase[q])
    ensures Ran(d, steps).started == d.started && Ran(d, steps).launch == d.launch
    decreases |steps|
  {
    if steps != [] {
      AParkedLaunchStaysParked(Next(d, steps[0]), steps[1..]);
    }
  }

  // -- one request ---------------------------------------------------------------------------------

  datatype Answer = ReturnedExisting | IdentityRefused | DatabaseFailed | LaunchedNow | ParkedUnknown | FailedCanRetry

  class Board {
    var desk: Desk

    constructor ()
      ensures desk == Created()
    {
      desk := Created();
    }

    /** Other requests, between two steps of this one. */
    method OthersRun(steps: seq<Step>)
      modifies this
      ensures desk == Ran(old(desk), steps)
    {
      for i := 0 to |steps|
        invariant Ran(desk, steps[i..]) == Ran(old(desk), steps)
      {
        assert steps[i..][1..] == steps[i + 1..];
        desk := Next(desk, steps[i]);
      }
    }

    /** The compare-and-set on launch ownership: one statement. */
    method TryAcquireLaunch(q: nat) returns (acquired: bool)
      requires PhaseOf(desk, q) == Reading
      modifies this
      ensures desk == Next(old(desk), Acquire(q, true)) && (acquired <==> PhaseOf(desk, q) == Owner)
    {
      acquired := desk.queued && (desk.launch == Pending || desk.launch == LaunchFailed);
      if acquired {
        desk := desk.(launch := LaunchStarted);
      }
      desk := desk.(phase := desk.phase[q := if acquired then Owner else Gone]);
    }

    method SetLaunchState(q: nat, state: LaunchState, lands: bool)
      requires PhaseOf(desk, q).Called? && state == StateFor(PhaseOf(desk, q).outcome)
      modifies this
      ensures desk == Next(old(desk), Record(q, lands))
    {
      if lands {
        desk := desk.(launch := state);
      }
      desk := desk.(phase := desk.phase[q := Gone]);
    }

    /** Launch the run, unless its launch is taken, unknown or over. */
    method LaunchCreatedRun(q: nat, identityOk: bool, acquireAnswers: bool, reply: Reply, started: bool, lands: bool,
                            gap1: seq<Step>, gap2: seq<Step>)
      returns (a: Answer)
      requires q !in desk.phase && Spares(gap1, q) && Spares(gap2, q)
      modifies this
      ensures (desk, a) ==
          Handled(old(desk), q, identityOk, acquireAnswers, Behaviour(started, OutcomeOf(reply)), lands, gap1, gap2)
    {
      hide Ran;
      if !identityOk {
        desk := desk.(phase := desk.phase[q := Gone]);
        return IdentityRefused;
      }
      if !desk.queued || desk.launch == LaunchUnknown {
        desk := desk.(phase := desk.phase[q := Gone]);
        return ReturnedExisting;
      }
      desk := desk.(phase := desk.phase[q := Reading]);
      SparedPhase(desk, gap1, q);
      OthersRun(gap1);
      if !acquireAnswers {
        desk := desk.(phase := desk.phase[q := Gone]);
        return DatabaseFailed;
      }
      var acquired := TryAcquireLaunch(q);
      if !acquired {
        return ReturnedExisting;
      }
      SparedPhase(desk, gap2, q);
      OthersRun(gap2);
      var outcome := OutcomeOf(reply);
      desk := desk.(phase := desk.phase[q := Called(outcome)],
                    started := if started then desk.started + {q} else desk.started);
      match outcome {
        case Uncertain =>
          SetLaunchState(q, LaunchUnknown, lands);
          return ParkedUnknown;
        case Definite =>
          SetLaunchState(q, LaunchFailed, lands);
          return FailedCanRetry;
        case Success =>
          SetLaunchState(q, Launched, lands);
          return LaunchedNow;
      }
    }
  }

  predicate Spares(steps: seq<Step>, q: nat) {
    forall i :: 0 <= i < |steps| ==> steps[i].SetQueued? || steps[i].q != q
  }

  lemma {:induction false} SparedPhase(d: Desk, steps: seq<Step>, q: nat)
    requires Spares(steps, q) && q in d.phase
    ensures PhaseOf(Ran(d, steps), q) == PhaseOf(d, q) && q in Ran(d, steps).phase
    decreases |steps|
  {
    hide Acquirable, StateFor;
    if steps != [] {
      assert PhaseOf(Next(d, steps[0]), q) == PhaseOf(d, q);
      SparedPhase(Next(d, steps[0]), steps[1..], q);
    }
  }

  function AnswerFor(o: Outcome): Answer {
    match o
    case Success => LaunchedNow
    case Uncertain => ParkedUnknown
    case Definite => FailedCanRetry
  }

  /** The protocol steps one request takes, with the others' between them. */
  function Handled(d: Desk, q: nat, identityOk: bool, acquireAnswers: bool, b: Behaviour, lands: bool,
                   gap1: seq<Step>, gap2: seq<Step>): (Desk, Answer) {
    var d1 := Next(d, Arrive(q, identityOk));
    if !identityOk then (d1, IdentityRefused)
    else if PhaseOf(d1, q) != Reading then (d1, ReturnedExisting)
    else
      var d2 := Next(Ran(d1, gap1), Acquire(q, acquireAnswers));
      if !acquireAnswers then (d2, DatabaseFailed)
      else if PhaseOf(d2, q) != Owner then (d2, ReturnedExisting)
      else (Next(Next(Ran(d2, gap2), Call(q, b)), Record(q, lands)), AnswerFor(b.outcome))
  }

  /** The service answered below 400, with nothing to read or something readable. */
  predicate Accepts(r: Reply) {
    r.Answered? && r.status < 400 && (r.hasBody ==> r.readable)
  }

  /**
    What one request answers, and what its launch leaves on the row, told from the
    service's reply. A POST that raised is parked: the row says unknown, nobody may
    launch it again, and a run still queued cannot be cancelled on it.
   */
  lemma WhatALaunchLeaves(d: Desk, q: nat, identityOk: bool, acquireAnswers: bool, reply: Reply, started: bool,
                          lands: bool, gap1: seq<Step>, gap2: seq<Step>)
    requires q !in d.phase && Spares(gap1, q) && Spares(gap2, q)
    ensures var (z, a) :=
              Handled(d, q, identityOk, acquireAnswers, Behaviour(started, OutcomeOf(reply)), lands, gap1, gap2);
            var reading := Ran(d.(phase := d.phase[q := Reading]), gap1);
            var looked := identityOk && d.queued && d.launch != LaunchUnknown;
            var acquired := looked && acquireAnswers && reading.queued && reading.launch in {Pending, LaunchFailed};
            && (a == IdentityRefused <==> !identityOk)
            && (a == DatabaseFailed <==> looked && !acquireAnswers)
            && (a == ParkedUnknown <==> acquired && reply.PostRaised?)
            && (a == LaunchedNow <==> acquired && Accepts(reply))
            && (a == FailedCanRetry <==> acquired && !reply.PostRaised? && !Accepts(reply))
            && (acquired && lands ==>
                  && (z.launch == LaunchUnknown <==> reply.PostRaised?)
                  && (z.launch == Launched <==> Accepts(reply))
                  && (z.launch == LaunchFailed <==> !reply.PostRaised? && !Accepts(reply))
                  && (reply.PostRaised? ==> CancellationRefusal(Queued, z.launch) == Some(LaunchUnresolved)))
  {
    hide Ran, Owned;
    var d1 := Next(d, Arrive(q, identityOk));
    if identityOk && PhaseOf(d1, q) == Reading {
      SparedPhase(d1, gap1, q);
      var d2 := Next(Ran(d1, gap1), Acquire(q, acquireAnswers));
      if acquireAnswers && PhaseOf(d2, q) == Owner {
        SparedPhase(d2, gap2, q);
      }
    }
  }

  /** One request is a history of the protocol, so what every history keeps holds
      across it: it calls the launcher at most once, and only as the owner. */
  lemma ARequestKeepsOwnership(d: Desk, q: nat, identityOk: bool, acquireAnswers: bool, reply: Reply, started: bool,
                               lands: bool, gap1: seq<Step>, gap2: seq<Step>)
    requires Owned(d) && q !in d.phase && Spares(gap1, q) && Spares(gap2, q) && Plausible(reply, started)
    requires started && reply.Answered? && reply.hasBody ==> reply.readable
    requires forall i :: 0 <= i < |gap1| ==> Truthful(gap1[i])
    requires forall i :: 0 <= i < |gap2| ==> Truthful(gap2[i])
    ensures var (z, a) :=
        Handled(d, q, identityOk, acquireAnswers, Behaviour(started, OutcomeOf(reply)), lands, gap1, gap2);
            && Owned(z)
            && (a in {LaunchedNow, ParkedUnknown, FailedCanRetry} && started ==> z.started == {q})
            && (a == FailedCanRetry ==> !started)
  {
    hide Ran, Owned, Next;
    var b := Behaviour(started, OutcomeOf(reply));
    var d1 := Next(d, Arrive(q, identityOk));
    StepKeepsOwnership(d, Arrive(q, identityOk));
    if identityOk && PhaseOf(d1, q) == Reading {
      RunKeepsOwnership(d1, gap1);
      var d2 := Next(Ran(d1, gap1), Acquire(q, acquireAnswers));
      StepKeepsOwnership(Ran(d1, gap1), Acquire(q, acquireAnswers));
      if acquireAnswers && PhaseOf(d2, q) == Owner {
        RunKeepsOwnership(d2, gap2);
        SparedPhase(d2, gap2, q);
        var d3 := Ran(d2, gap2);
        StepKeepsOwnership(d3, Call(q, b));
        StepKeepsOwnership(Next(d3, Call(q, b)), Record(q, lands));
        OwnerStarts(d3, q, b, lands);
      }
    }
  }

  lemma OwnerStarts(d: Desk, q: nat, b: Behaviour, lands: bool)
    requires Owned(d) && PhaseOf(d, q) == Owner
    ensures Next(Next(d, Call(q, b)), Record(q, lands)).started == if b.started then {q} else {}
  {
  }
}
