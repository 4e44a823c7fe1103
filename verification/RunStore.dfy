/**
  The stored row of one run and everything that moves it. Each write is one
  statement of the database: a compare-and-set on the status that was read.
 */
module RunStore {
  import opened Common
  import opened RunStates

  /** `author` and `writes` count what the row cannot show: who wrote the
      terminal status, and how many such writes there were. */
  datatype Run = Run(
    status: Status, launch: LaunchState, output: Option<nat>, lease: nat,
    cancelAccepted: bool, author: Option<nat>, writes: nat)

  /** What other processes do. Each step decided from what its process had read. */
  datatype Step =
    | Cancel(read: Status, readLaunch: LaunchState)
    | Move(read: Status, target: Status)                 // a non-terminal transition
    | Reclaim                                            // another worker's lease takes effect
    | Finish(who: nat, read: Status, target: Status, output: Option<nat>)
    | SetLaunch(state: LaunchState)

  function Closed(r: Run, who: nat, target: Status, output: Option<nat>): Run {
    r.(status := target, output := if output.Some? then output else r.output,
       author := Some(who), writes := r.writes + 1)
  }

  /** The repository's own check before the statement is sent. */
  predicate MayFinish(read: Status, target: Status) {
    Terminal(target) && (Known(read) ==> MayMove(read, target))
  }

  predicate CancelLands(r: Run, read: Status, readLaunch: LaunchState) {
    && CancellationRefusal(read, readLaunch).None? && MayMove(read, CancellationRequested)
    && r.status == read && (Claimed(read) || r.launch == Launched)
  }

  function Landed(r: Run, s: Step): Run {
    match s
    case Cancel(read, readLaunch) =>
      if CancelLands(r, read, readLaunch) then r.(status := CancellationRequested, cancelAccepted := true) else r
    case Move(read, target) =>
      if !Terminal(target) && MayMove(read, target) && r.status == read
      then r.(status := target, cancelAccepted := r.cancelAccepted || target == CancellationRequested) else r
    case Reclaim =>
      if r.status in {Queued, Launching, Waiting, CancellationRequested, Starting, Running}
      then r.(status := if r.status == CancellationRequested then r.status else Starting, lease := r.lease + 1) else r
    case Finish(who, read, target, output) =>
      if MayFinish(read, target) && r.status == read then Closed(r, who, target, output) else r
    case SetLaunch(state) => r.(launch := state)
  }

  /** What each write changes, and when, told from the row and the statuses. A
      cancellation of an unclaimed run needs its launch recorded as started, when
      it was read and when it lands. */
  lemma WhatLands(r: Run, s: Step)
    ensures s.Cancel? ==>
              Landed(r, s) == if r.status == s.read
                                 && (s.read in {Starting, Running, Waiting}
                                     || (s.read in {Queued, Launching}
                                         && s.readLaunch == Launched && r.launch == Launched))
                              then r.(status := CancellationRequested, cancelAccepted := true) else r
    ensures s.Move? && r.status == s.read && s.target in NextStatuses(s.read) && !Terminal(s.target) ==>
              Landed(r, s) == r.(status := s.target,
                                 cancelAccepted := r.cancelAccepted || s.target == CancellationRequested)
    ensures s.Move? && (r.status != s.read || s.target !in NextStatuses(s.read) || Terminal(s.target)) ==>
              Landed(r, s) == r
    ensures s.Reclaim? ==>
              Landed(r, s) == if Terminal(r.status) || r.status.Legacy? then r
                              else if r.status == CancellationRequested then r.(lease := r.lease + 1)
                              else r.(status := Starting, lease := r.lease + 1)
    ensures s.Finish? ==>
              var allowed := Terminal(s.target) && (s.target in NextStatuses(s.read) || s.read.Legacy?);
              Landed(r, s) == if r.status == s.read && allowed
                              then r.(status := s.target, author := Some(s.who), writes := r.writes + 1,
                                      output := if s.output.None? then r.output else s.output)
                              else r
  {
  }

  function LandedAll(r: Run, steps: seq<Step>): Run
    decreases |steps|
  {
    if steps == [] then r else LandedAll(Landed(r, steps[0]), steps[1..])
  }

  /** The row never says two things about its ending. */
  ghost predicate Sound(r: Run) {
    && (Terminal(r.status) <==> r.author.Some?)
    && r.writes == (if Terminal(r.status) then 1 else 0)
    && (r.cancelAccepted ==> r.status in {CancellationRequested, Cancelled, Failed})
    && (r.status == CancellationRequested ==> r.cancelAccepted)
  }

  /** What any later row keeps of an earlier one. */
  ghost predicate Evolves(a: Run, b: Run) {
    && (Terminal(a.status) ==>
        b.status == a.status && b.output == a.output && b.author == a.author && b.writes == a.writes)
    && (a.cancelAccepted ==> b.cancelAccepted)
  }

  predicate NotBy(me: nat, steps: seq<Step>) {
    forall i :: 0 <= i < |steps| ==> (steps[i].Finish? ==> steps[i].who != me)
  }

  lemma StepEvolves(r: Run, s: Step)
    requires Sound(r)
    ensures Sound(Landed(r, s)) && Evolves(r, Landed(r, s))
    ensures forall me: nat :: (s.Finish? ==> s.who != me) && r.author != Some(me) ==> Landed(r, s).author != Some(me)
  {
  }

  /**
    Whatever finalizers, cancellations, claims and compared moves do to a run, in
    any order: one terminal write at most, a terminal row that never changes, and an
    accepted cancellation that ends only as cancelled or failed.
   */
  lemma {:induction false} EveryHistoryIsSound(r: Run, steps: seq<Step>)
    requires Sound(r)
    ensures var z := LandedAll(r, steps);
            && Sound(z) && Evolves(r, z) && z.writes <= 1
            && (forall me: nat :: NotBy(me, steps) && r.author != Some(me) ==> z.author != Some(me))
    decreases |steps|
  {
    hide Landed, Sound, Evolves;
    if steps == [] {
      assert Evolves(r, r) by { Unchanged(r); }
    } else {
      StepEvolves(r, steps[0]);
      EveryHistoryIsSound(Landed(r, steps[0]), steps[1..]);
      EvolvesOn(r, Landed(r, steps[0]), LandedAll(r, steps));
      forall me: nat | NotBy(me, steps) && r.author != Some(me) ensures LandedAll(r, steps).author != Some(me) {
        assert steps[0].Finish? ==> steps[0].who != me;
        assert NotBy(me, steps[1..]);
      }
    }
    AtMostOnce(LandedAll(r, steps));
  }

  lemma Unchanged(r: Run)
    ensures Evolves(r, r)
  {
  }

  lemma AtMostOnce(r: Run)
    requires Sound(r)
    ensures r.writes <= 1
  {
  }

  lemma EvolvesOn(a: Run, b: Run, c: Run)
    requires Evolves(a, b) && Evolves(b, c)
    ensures Evolves(a, c)
  {
  }

  // -- writes that compare nothing -----------------------------------------------------------

  /** `transition_run` compares the status it read only when it changes a status
      this release knows. A refresh, and any move from an unknown status, writes
      over whatever the row has become. */
  predicate ComparesNothing(read: Status, target: Status) {
    !Terminal(target) && (read == target || !Known(read))
  }

  function Overwritten(r: Run, target: Status): Run {
    r.(status := target, cancelAccepted := r.cancelAccepted || target == CancellationRequested)
  }

  /** Such a write is harmless exactly when the run is not over, and has not
      accepted a cancellation that the write takes back. */
  predicate Harmless(r: Run, target: Status) {
    !Terminal(r.status) && (r.cancelAccepted ==> target == CancellationRequested)
  }

  lemma OverwriteIsHarmlessIff(r: Run, read: Status, target: Status)
    requires Sound(r) && ComparesNothing(read, target)
    ensures Sound(Overwritten(r, target)) && Evolves(r, Overwritten(r, target)) <==> Harmless(r, target)
  {
  }

  /** A row of a status nobody knows is finished by one worker and reopened by
      another that had read it before. */
  lemma LegacyMoveUndoesAnEnding(name: string) returns (r: Run, finish: Step)
    ensures Sound(r) && r.status == Legacy(name) && Terminal(Landed(r, finish).status)
    ensures ComparesNothing(r.status, Running)
    ensures var z := Overwritten(Landed(r, finish), Running); !Sound(z) && !Evolves(Landed(r, finish), z)
  {
    r := Run(Legacy(name), Launched, None, 0, false, None, 0);
    finish := Finish(0, Legacy(name), Completed, None);
  }

  /** Any write to the row. */
  datatype AnyWrite = Compared(s: Step) | Overwrite(read: Status, target: Status)

  function Applied(r: Run, w: AnyWrite): Run {
    match w
    case Compared(s) => Landed(r, s)
    case Overwrite(read, target) => if ComparesNothing(read, target) then Overwritten(r, target) else r
  }

  function AppliedAll(r: Run, writes: seq<AnyWrite>): Run
    decreases |writes|
  {
    if writes == [] then r else AppliedAll(Applied(r, writes[0]), writes[1..])
  }

  /** Every write that compares nothing finds the run where it does no harm. */
  predicate NoHarm(r: Run, writes: seq<AnyWrite>)
    decreases |writes|
  {
    writes != [] ==>
      && (writes[0].Overwrite? && ComparesNothing(writes[0].read, writes[0].target) ==> Harmless(r, writes[0].target))
      && NoHarm(Applied(r, writes[0]), writes[1..])
  }

  /** What every later row keeps of every earlier one, along a history. */
  ghost predicate StaysSound(r: Run, writes: seq<AnyWrite>)
    decreases |writes|
  {
    && Sound(r)
    && (writes != [] ==> Evolves(r, Applied(r, writes[0])) && StaysSound(Applied(r, writes[0]), writes[1..]))
  }

  /** Over every history of every kind of write: each step keeps what the row
      promised exactly when no write that compares nothing lands where it harms. */
  lemma {:induction false} HistoriesStaySoundIff(r: Run, writes: seq<AnyWrite>)
    requires Sound(r)
    ensures StaysSound(r, writes) <==> NoHarm(r, writes)
    decreases |writes|
  {
    hide Landed, Sound, Evolves, Overwritten, Harmless, ComparesNothing;
    if writes != [] {
      match writes[0] {
        case Compared(s) => StepEvolves(r, s);
        case Overwrite(read, target) =>
          if ComparesNothing(read, target) {
            OverwriteIsHarmlessIff(r, read, target);
          } else {
            Unchanged(r);
          }
      }
      if Sound(Applied(r, writes[0])) {
        HistoriesStaySoundIff(Applied(r, writes[0]), writes[1..]);
      }
    }
  }

  // -- one worker's view of the row ------------------------------------------------------

  datatype Net = Delivered(leaseLive: bool) | RequestLost | ReplyLost(leaseLive: bool)

  datatype RaceCode = InvalidRunTransition | RunLeaseLost

  datatype Write = Committed | Refused(code: RaceCode) | Unreachable

  /** The single statement of `finalize_run_guarded`. */
  function Guarded(r: Run, who: nat, token: nat, leaseLive: bool, target: Status, expected: Status,
      output: Option<nat>): Run {
    if r.lease == token && leaseLive && r.status == expected then Closed(r, who, target, output) else r
  }

  function Written(r: Run, who: nat, token: nat, net: Net, target: Status, expected: Status,
      output: Option<nat>): (Run, Write) {
    if !MayFinish(expected, target) then (r, Refused(InvalidRunTransition))
    else match net
      case RequestLost => (r, Unreachable)
      case ReplyLost(leaseLive) => (Guarded(r, who, token, leaseLive, target, expected, output), Unreachable)
      case Delivered(leaseLive) =>
        (Guarded(r, who, token, leaseLive, target, expected, output),
         if r.lease == token && leaseLive && r.status == expected then Committed else Refused(RunLeaseLost))
  }

  lemma ClosingEvolves(r: Run, who: nat, target: Status, output: Option<nat>)
    requires Sound(r) && MayFinish(r.status, target)
    ensures Sound(Closed(r, who, target, output)) && Evolves(r, Closed(r, who, target, output))
    ensures !Terminal(r.status) && Terminal(target)
  {
  }

  lemma WriteEvolves(r: Run, who: nat, token: nat, net: Net, target: Status, expected: Status, output: Option<nat>)
    requires Sound(r)
    ensures var (z, w) := Written(r, who, token, net, target, expected, output);
            && Sound(z) && Evolves(r, z)
            && (w.Committed? ==> z == Closed(r, who, target, output) && Terminal(target) && !Terminal(r.status))
            && (w.Refused? ==> z == r)
            && (z == r || (z == Closed(r, who, target, output) && !Terminal(r.status) && !w.Refused?))
  {
    hide Sound, Evolves, MayFinish, Terminal, Closed;
    Unchanged(r);
    if MayFinish(expected, target) && r.status == expected {
      ClosingEvolves(r, who, target, output);
    }
  }

  class Store {
    var run: Run

    constructor (run: Run)
      ensures this.run == run
    {
      this.run := run;
    }

    /** Other processes, between two calls of this one. */
    method OthersRun(steps: seq<Step>)
      modifies this
      ensures run == LandedAll(old(run), steps)
    {
      for i := 0 to |steps|
        invariant LandedAll(run, steps[i..]) == LandedAll(old(run), steps)
      {
        assert steps[i..][1..] == steps[i + 1..];
        run := Landed(run, steps[i]);
      }
    }

    method GetStatus(answers: bool) returns (status: Option<Status>)
      ensures status == if answers then Some(run.status) else None
    {
      return if answers then Some(run.status) else None;
    }

    /** One statement of the database: it matches the row, or nothing. */
    method UpdateGuarded(who: nat, token: nat, leaseLive: bool, target: Status, expected: Status,
        output: Option<nat>) returns (matched: bool)
      modifies this
      ensures run == Guarded(old(run), who, token, leaseLive, target, expected, output)
      ensures matched == (old(run).lease == token && leaseLive && old(run).status == expected)
    {
      matched := run.lease == token && leaseLive && run.status == expected;
      if matched {
        run := run.(status := target, output := if output.Some? then output else run.output,
                    author := Some(who), writes := run.writes + 1);
      }
    }

    method FinalizeRun(who: nat, token: nat, net: Net, target: Status, expected: Status,
        output: Option<nat>) returns (w: Write)
      modifies this
      ensures run == Written(old(run), who, token, net, target, expected, output).0
      ensures w == Written(old(run), who, token, net, target, expected, output).1
    {
      hide MayFinish, Guarded;
      if !MayFinish(expected, target) {
        return Refused(InvalidRunTransition);
      }
      match net
      case RequestLost =>
        return Unreachable;
      case ReplyLost(leaseLive) =>
        var _ := UpdateGuarded(who, token, leaseLive, target, expected, output);
        return Unreachable;
      case Delivered(leaseLive) =>
        var matched := UpdateGuarded(who, token, leaseLive, target, expected, output);
        return if matched then Committed else Refused(RunLeaseLost);
    }
  }
}
