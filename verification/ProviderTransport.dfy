/** One absolute deadline per provider request, split across its phases. */
module ProviderTransport {
  import opened Common

  datatype Phase = Pool | Connect | Write | Read

  const SETUP: seq<Phase> := [Pool, Connect, Write]
  const MIN_SECONDS: real := 0.001

  function ShareOf(p: Phase): real {
    if p == Pool then 0.05 else 0.10
  }

  function CapOf(p: Phase): real {
    if p == Pool then 5.0 else 10.0
  }

  /** The seconds a phase before the header wait may take. */
  function SetupSeconds(deadline: real, connect: Option<real>, p: Phase): real {
    var share := Min(deadline * ShareOf(p), CapOf(p));
    Max(MIN_SECONDS, if p == Connect && connect.Some? then Min(share, connect.value) else share)
  }

  function SetupTotal(deadline: real, connect: Option<real>): real {
    SetupSeconds(deadline, connect, Pool) + SetupSeconds(deadline, connect, Connect)
        + SetupSeconds(deadline, connect, Write)
  }

  function ReadSeconds(deadline: real, connect: Option<real>, inactivity: Option<real>): real {
    var rest := deadline - SetupTotal(deadline, connect);
    Max(MIN_SECONDS, if inactivity.Some? then Min(rest, inactivity.value) else rest)
  }

  /** The whole deadline, divided across the phases. */
  function Allotment(deadline: real, connect: Option<real>, inactivity: Option<real>): map<Phase, real> {
    map[Pool := SetupSeconds(deadline, connect, Pool), Connect := SetupSeconds(deadline, connect, Connect),
        Write := SetupSeconds(deadline, connect, Write), Read := ReadSeconds(deadline, connect, inactivity)]
  }

  function Total(a: map<Phase, real>): real
    requires Pool in a && Connect in a && Write in a && Read in a
  {
    a[Pool] + a[Connect] + a[Write] + a[Read]
  }

  /** No phase longer than its own bound, none shorter than a millisecond, and
      each exactly its share where nothing tightens it. */
  ghost predicate SplitsSetup(a: map<Phase, real>, deadline: real, connect: Option<real>)
    requires Pool in a && Connect in a && Write in a
  {
    && 0.001 <= a[Pool] && 0.001 <= a[Connect] && 0.001 <= a[Write]
    && (deadline <= 0.02 ==> a[Pool] == 0.001) && (0.02 <= deadline <= 100.0 ==> a[Pool] == deadline / 20.0)
    && (deadline >= 100.0 ==> a[Pool] == 5.0)
    && (deadline <= 0.01 ==> a[Write] == 0.001) && (0.01 <= deadline <= 100.0 ==> a[Write] == deadline / 10.0)
    && (deadline >= 100.0 ==> a[Write] == 10.0)
    && (connect.None? ==> a[Connect] == a[Write])
    && (connect.Some? ==> a[Connect] == if connect.value <= 0.001 then 0.001
                                        else if connect.value <= a[Write] then connect.value else a[Write])
  }

  /** Reading takes all the deadline leaves, but never longer than the stream may
      stay silent. */
  ghost predicate SplitsDeadline(a: map<Phase, real>, deadline: real, connect: Option<real>, inactivity: Option<real>) {
    && a.Keys == {Pool, Connect, Write, Read} && SplitsSetup(a, deadline, connect)
    && (var left := deadline - a[Pool] - a[Connect] - a[Write];
        && (inactivity.None? ==> a[Read] == if left <= 0.001 then 0.001 else left)
        && (inactivity.Some? ==> a[Read] == if inactivity.value <= 0.001 || left <= 0.001 then 0.001
                                            else if inactivity.value <= left then inactivity.value else left))
  }

  lemma EachPhaseIs(deadline: real, connect: Option<real>, inactivity: Option<real>)
    requires deadline > 0.0
    ensures SplitsDeadline(Allotment(deadline, connect, inactivity), deadline, connect, inactivity)
  {
  }

  method AllocateRequestTimeouts(deadline: real, connect: Option<real>, inactivity: Option<real>)
    returns (r: Option<map<Phase, real>>)
    ensures r.Some? <==> deadline > 0.0
    ensures r.Some? ==> r.value == Allotment(deadline, connect, inactivity)
    ensures r.Some? ==> SplitsDeadline(r.value, deadline, connect, inactivity)
  {
    if deadline <= 0.0 {
      return None;
    }
    EachPhaseIs(deadline, connect, inactivity);
    hide SplitsDeadline;
    var allocation: map<Phase, real> := map[];
    var setup := 0.0;
    for i := 0 to |SETUP|
      invariant forall p :: p in allocation <==> p in SETUP[..i]
      invariant forall p :: p in allocation ==> allocation[p] == SetupSeconds(deadline, connect, p)
      invariant setup == (if i > 0 then SetupSeconds(deadline, connect, Pool) else 0.0)
                       + (if i > 1 then SetupSeconds(deadline, connect, Connect) else 0.0)
                       + (if i > 2 then SetupSeconds(deadline, connect, Write) else 0.0)
    {
      hide SetupSeconds;
      assert SETUP[..i + 1] == SETUP[..i] + [SETUP[i]];
      var p := SETUP[i];
      var value := Min(deadline * ShareOf(p), CapOf(p));
      if p == Connect && connect.Some? {
        value := Min(value, connect.value);
      }
      value := Max(MIN_SECONDS, value);
      assert value == SetupSeconds(deadline, connect, p) by { SetupIs(deadline, connect, p); }
      allocation := allocation[p := value];
      setup := setup + value;
    }
    assert SETUP[..|SETUP|] == SETUP;
    assert SETUP[0] == Pool && SETUP[1] == Connect && SETUP[2] == Write;
    assert Pool in SETUP && Connect in SETUP && Write in SETUP;
    assert Pool in allocation && Connect in allocation && Write in allocation;
    hide SetupSeconds;
    var read := deadline - setup;
    if inactivity.Some? {
      read := Min(read, inactivity.value);
    }
    allocation := allocation[Read := Max(MIN_SECONDS, read)];
    return Some(allocation);
  }

  lemma SetupIs(deadline: real, connect: Option<real>, p: Phase)
    ensures var share := Min(deadline * ShareOf(p), CapOf(p));
            SetupSeconds(deadline, connect, p) ==
                Max(MIN_SECONDS, if p == Connect && connect.Some? then Min(share, connect.value) else share)
  {
  }

  /**
    The phases fit in the deadline exactly when the deadline leaves each of the
    four its minimum millisecond, whatever the connect timeout and the
    inactivity window are.
   */
  lemma PhasesFitIff(deadline: real, connect: Option<real>, inactivity: Option<real>)
    requires deadline > 0.0
    ensures Total(Allotment(deadline, connect, inactivity)) <= deadline <==> deadline >= 0.004
    ensures inactivity.None? && deadline >= 0.004 ==> Total(Allotment(deadline, connect, inactivity)) == deadline
  {
  }

  // -- what a caller may change --------------------------------------------------------

  /** The smaller of the allocation and a stated override; anything else stays. */
  function Overridden(a: map<Phase, real>, configured: map<Phase, Option<real>>): map<Phase, real> {
    map p | p in a :: if p in configured && configured[p].Some? then Min(a[p], configured[p].value) else a[p]
  }

  /** A stated override holds where it is the smaller one. */
  ghost predicate HoldsTo(v: real, allotted: real, stated: Option<real>) {
    if stated.Some? && stated.value < allotted then v == stated.value else v == allotted
  }

  /** What the caller stated about one phase, if anything. */
  function StatedFor(p: Phase, configured: Option<map<Phase, Option<real>>>): Option<real> {
    if configured.Some? && p in configured.value then configured.value[p] else None
  }

  lemma OverridesOnlyTighten(a: map<Phase, real>, configured: map<Phase, Option<real>>)
    requires forall p :: p in a
    ensures forall p :: HoldsTo(Overridden(a, configured)[p], a[p], StatedFor(p, Some(configured)))
    ensures forall p :: Overridden(a, configured)[p] <= a[p]
    ensures Total(Overridden(a, configured)) <= Total(a)
  {
    var o := Overridden(a, configured);
    assert o[Pool] <= a[Pool] && o[Connect] <= a[Connect] && o[Write] <= a[Write] && o[Read] <= a[Read];
  }

  function Tightened(a: map<Phase, real>, configured: Option<map<Phase, Option<real>>>): map<Phase, real> {
    if configured.Some? then Overridden(a, configured.value) else a
  }

  /** A caller's own timing for one request; both numbers are positive. */
  datatype Timing = Timing(total: real, inactivity: Option<real>)

  class Request {
    var timeouts: Option<map<Phase, Option<real>>>

    constructor (timeouts: Option<map<Phase, Option<real>>>)
      ensures this.timeouts == timeouts
    {
      this.timeouts := timeouts;
    }
  }

  /** A caller's total only brings the deadline forward. */
  lemma TimingIs(client: real, timing: Option<Timing>)
    ensures timing.None? ==> DeadlineOf(client, timing) == client && InactivityOf(timing).None?
    ensures timing.Some? ==>
              && DeadlineOf(client, timing) <= client && DeadlineOf(client, timing) <= timing.value.total
              && DeadlineOf(client, timing) in {client, timing.value.total}
              && InactivityOf(timing) == timing.value.inactivity
  {
  }

  function DeadlineOf(client: real, timing: Option<Timing>): real {
    if timing.Some? then Min(client, timing.value.total) else client
  }

  function InactivityOf(timing: Option<Timing>): Option<real> {
    if timing.Some? then timing.value.inactivity else None
  }

  function Stated(a: map<Phase, real>): map<Phase, Option<real>> {
    map p | p in a :: Some(a[p])
  }

  method Tighten(a: map<Phase, real>, configured: map<Phase, Option<real>>) returns (r: map<Phase, real>)
    ensures r == Overridden(a, configured)
  {
    r := a;
    var rest := configured.Keys;
    while rest != {}
      invariant rest <= configured.Keys && r.Keys == a.Keys
      invariant forall p :: p in a ==>
                  r[p] == if p in configured && p !in rest && configured[p].Some? then Min(a[p], configured[p].value)
                      else a[p]
      decreases |rest|
    {
      var p :| p in rest;
      rest := rest - {p};
      if configured[p].Some? && p in a {
        r := r[p := Min(r[p], configured[p].value)];
      }
    }
  }

  datatype Headers = ArrivedInTime(deadlineAt: real) | DeadlineExceeded(elapsed: real) | BadDeadline

  /** Send one request whose headers arrive at `headersAt`. */
  method HandleRequest(client: real, connect: Option<real>, timing: Option<Timing>, request: Request,
                       started: real, headersAt: real) returns (h: Headers)
    modifies request
    ensures h.BadDeadline? <==> DeadlineOf(client, timing) <= 0.0
    ensures h.BadDeadline? ==> request.timeouts == old(request.timeouts)
    ensures !h.BadDeadline? ==>
              request.timeouts == Some(Stated(Tightened(
                Allotment(DeadlineOf(client, timing), connect, InactivityOf(timing)), old(request.timeouts))))
    ensures !h.BadDeadline? ==>
              exists a :: SplitsDeadline(a, DeadlineOf(client, timing), connect, InactivityOf(timing))
                && request.timeouts.Some? && request.timeouts.value.Keys == a.Keys
                && forall p :: p in a ==>
                     && request.timeouts.value[p].Some?
                     && HoldsTo(request.timeouts.value[p].value, a[p], StatedFor(p, old(request.timeouts)))
    ensures !h.BadDeadline? ==> (h.DeadlineExceeded? <==> headersAt - started >= DeadlineOf(client, timing))
    ensures h.DeadlineExceeded? ==> h.elapsed == headersAt - started
    ensures h.ArrivedInTime? ==> h.deadlineAt == started + DeadlineOf(client, timing) && headersAt < h.deadlineAt
  {
    var deadline, inactivity := client, None;
    if timing.Some? {
      deadline, inactivity := Min(client, timing.value.total), timing.value.inactivity;
    }
    var allotted := AllocateRequestTimeouts(deadline, connect, inactivity);
    if allotted.None? {
      return BadDeadline;
    }
    var timeouts := allotted.value;
    if request.timeouts.Some? {
      timeouts := Tighten(allotted.value, request.timeouts.value);
    }
    request.timeouts := Some(Stated(timeouts));
    var elapsed := headersAt - started;
    if elapsed >= deadline {
      return DeadlineExceeded(elapsed);
    }
    return ArrivedInTime(started + deadline);
  }

  // -- the body ---------------------------------------------------------------------------

  /** One chunk of the body and the clock when it arrived. */
  datatype Chunk = Chunk(bytes: nat, at: real)

  /** Hand on what arrives before the deadline; the first late chunk closes the
      connection and is never handed on. */
  method Stream(chunks: seq<Chunk>, deadlineAt: real) returns (yielded: seq<Chunk>, raised: bool)
    ensures yielded <= chunks
    ensures forall i :: 0 <= i < |yielded| ==> yielded[i].at < deadlineAt
    ensures raised <==> exists i :: 0 <= i < |chunks| && chunks[i].at >= deadlineAt
    ensures raised ==> |yielded| < |chunks| && chunks[|yielded|].at >= deadlineAt
    ensures !raised ==> yielded == chunks
  {
    yielded := [];
    for i := 0 to |chunks|
      invariant yielded == chunks[..i]
      invariant forall j :: 0 <= j < i ==> chunks[j].at < deadlineAt
    {
      if chunks[i].at >= deadlineAt {
        return yielded, true;
      }
      yielded := yielded + [chunks[i]];
    }
    return yielded, false;
  }

  /** A caller's timing can only bring the deadline forward, so no chunk reaches
      it later than the client's own deadline after the start. */
  method Exchange(client: real, connect: Option<real>, timing: Option<Timing>, request: Request,
                  started: real, headersAt: real, chunks: seq<Chunk>) returns (yielded: seq<Chunk>, complete: bool)
    modifies request
    ensures forall i :: 0 <= i < |yielded| ==> yielded[i].at < started + DeadlineOf(client, timing)
    ensures DeadlineOf(client, timing) <= client
    ensures complete <==> && DeadlineOf(client, timing) > 0.0 && headersAt - started < DeadlineOf(client, timing)
                          && forall i :: 0 <= i < |chunks| ==> chunks[i].at < started + DeadlineOf(client, timing)
    ensures yielded <= chunks && (complete ==> yielded == chunks)
    ensures !complete && DeadlineOf(client, timing) > 0.0 && headersAt - started < DeadlineOf(client, timing) ==>
              |yielded| < |chunks| && chunks[|yielded|].at >= started + DeadlineOf(client, timing)
  {
    var h := HandleRequest(client, connect, timing, request, started, headersAt);
    if !h.ArrivedInTime? {
      return [], false;
    }
    var raised;
    yielded, raised := Stream(chunks, h.deadlineAt);
    complete := !raised;
  }
}
