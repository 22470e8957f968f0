/** The `wait` command: poll the exact (application, id) lookup until the
    first answered instance is UP, or give up at a deadline.

    The race between the poll goroutine and the deadline timer is modelled
    sequentially. Each poll is one lookup followed by a one-second sleep.
    Registry round trips are taken to cost no time, so poll `k` answers at
    exactly `k` seconds after the timer started; `Polls` gives the registry's
    answer to each of them. A deadline of `timeout` seconds beats every poll
    answering later than it and loses to every poll answering earlier. In
    this idealisation the poll at `timeout` answers at the same instant as
    the timer fires, and `tieFound` says which of the two the final select
    picks. */
module Waiter {
  import opened Optional
  import opened Instances
  import opened Decimal
  import opened Table
  import opened Exits

  type Polls = nat -> seq<Instance>

  /** Reported once per wait. `elapsed` is the index of the deciding poll, in
      whole seconds; it is absent when no clock was started (timeout 0). */
  datatype WaitOutcome =
    | Found(inst: Instance, elapsed: Option<nat>)
    | TimedOut
    | NotFoundImmediate

  const NotFoundText: string := "Not found"
  const TimeoutText: string := "Wait timout exit"

  /** `foundInstanceFunction`: the instance handed to the success callback,
      present only when the answer is non-empty and its FIRST element's status
      is exactly "UP". Later elements are never looked at. */
  function UpInstance(instances: seq<Instance>): (r: Option<Instance>)
    ensures r.Some? <==> |instances| > 0 && instances[0].status == UpStatus
    ensures r.Some? ==> r.value == instances[0]
  {
    if |instances| != 0 && instances[0].status == UpStatus then Some(instances[0]) else None
  }

  predicate IsUp(instances: seq<Instance>) {
    UpInstance(instances).Some?
  }

  /** The status comparison is exact: a record is UP only when its status is
      "UP" itself, whatever follows it in the answer. */
  lemma UpIsExact(inst: Instance, rest: seq<Instance>)
    ensures UpInstance([inst] + rest).Some? <==> inst.status == UpStatus
  {
  }

  /** Timeout 0: a single lookup decides, and no elapsed time is measured. */
  function ImmediateWait(answer: seq<Instance>): (o: WaitOutcome)
    ensures o.Found? <==> IsUp(answer)
    ensures o.Found? ==> o.inst == answer[0] && o.elapsed == None
    ensures !o.TimedOut?
  {
    match UpInstance(answer)
    case Some(inst) => Found(inst, None)
    case None => NotFoundImmediate
  }

  /** The first of polls `0 .. n-1` whose answer is UP. */
  function FirstUp(polls: Polls, n: nat): (r: Option<nat>)
    ensures r.Some? ==> r.value < n && IsUp(polls(r.value))
    ensures r.Some? ==> forall j: nat :: j < r.value ==> !IsUp(polls(j))
    ensures r.None? ==> forall j: nat :: j < n ==> !IsUp(polls(j))
  {
    if n == 0 then None
    else
      match FirstUp(polls, n - 1)
      case Some(k) => Some(k)
      case None => if IsUp(polls(n - 1)) then Some(n - 1) else None
  }

  /** Number of polls issued strictly before the deadline. A negative timeout
      makes a timer that has already fired. */
  function BeforeDeadline(timeout: int): nat {
    if timeout < 0 then 0 else timeout
  }

  /** Reference definition of the timed race (timeout not 0). */
  function TimedWait(polls: Polls, timeout: int, tieFound: bool): (o: WaitOutcome)
    ensures !o.NotFoundImmediate?
    ensures o.Found? ==> o.elapsed.Some? && o.elapsed.value <= timeout
    ensures o.Found? ==> var k := o.elapsed.value;
      IsUp(polls(k)) && o.inst == polls(k)[0] && (forall j: nat :: j < k ==> !IsUp(polls(j)))
    ensures o.Found? && o.elapsed.value == timeout ==> tieFound
    ensures o.TimedOut? <==>
      (forall j: nat :: j < timeout ==> !IsUp(polls(j)))
      && !(tieFound && timeout >= 0 && IsUp(polls(timeout)))
  {
    match FirstUp(polls, BeforeDeadline(timeout))
    case Some(k) => Found(polls(k)[0], Some(k))
    case None =>
      if tieFound && timeout >= 0 && IsUp(polls(timeout)) then Found(polls(timeout)[0], Some(timeout))
      else TimedOut
  }

  /** The poll loop run until the race is decided. `observed` counts the
      answers the decision was made from: one per poll up to the deciding one. */
  method PollLoop(polls: Polls, timeout: int, tieFound: bool) returns (o: WaitOutcome, observed: nat)
    ensures o == TimedWait(polls, timeout, tieFound)
    ensures o.Found? ==> o.elapsed.Some? && observed == o.elapsed.value + 1
    ensures observed <= BeforeDeadline(timeout) + 1
  {
    var k: nat := 0;
    while k < BeforeDeadline(timeout)
      invariant k <= BeforeDeadline(timeout)
      invariant forall j: nat :: j < k ==> !IsUp(polls(j))
    {
      var up := UpInstance(polls(k));
      if up.Some? {
        return Found(up.value, Some(k)), k + 1;
      }
      k := k + 1;
    }
    observed := k;
    if tieFound && timeout >= 0 {
      var up := UpInstance(polls(timeout));
      observed := observed + 1;
      if up.Some? {
        return Found(up.value, Some(timeout)), observed;
      }
    }
    return TimedOut, observed;
  }

  /** The whole wait: timeout 0 takes the single-lookup path, anything else
      races. Exactly one outcome, and the timed path never reports the
      immediate failure nor the immediate path a timeout. */
  function Wait(timeout: int, tieFound: bool, polls: Polls): (o: WaitOutcome)
    ensures timeout == 0 ==> !o.TimedOut? && (o.Found? <==> IsUp(polls(0)))
    ensures timeout == 0 && o.Found? ==> o.elapsed.None?
    ensures timeout != 0 ==> !o.NotFoundImmediate? && (o.Found? ==> o.elapsed.Some?)
    ensures o.Found? ==> o.inst.status == UpStatus
  {
    if timeout == 0 then ImmediateWait(polls(0)) else TimedWait(polls, timeout, tieFound)
  }

  const WaitingPrefix: string := "Wait for instanceID: \""
  const WaitingMiddle: string := "\" app name: \""
  const WaitingSuffix: string := "\"...\n"

  /** The announcement of the timed path, quoting the id, then the app name. */
  function WaitingLine(appName: string, instanceId: string): (line: string)
    ensures |line| == |WaitingPrefix| + |instanceId| + |WaitingMiddle| + |appName| + |WaitingSuffix|
    ensures line[|WaitingPrefix|..|WaitingPrefix| + |instanceId|] == instanceId
    ensures var start := |WaitingPrefix| + |instanceId| + |WaitingMiddle|;
      line[start..start + |appName|] == appName
  {
    WaitingPrefix + instanceId + WaitingMiddle + appName + WaitingSuffix
  }

  /** `Println` of "It took: " and the elapsed time (space-separated), with the
      time printed in whole seconds. */
  const ElapsedPrefix: string := "It took:  "
  const ElapsedSuffix: string := "s\n"

  /** The elapsed-time line; the number in it reads back as the seconds waited. */
  function ElapsedLine(seconds: nat): (line: string)
    ensures |line| > |ElapsedPrefix| + |ElapsedSuffix|
    ensures line[..|ElapsedPrefix|] == ElapsedPrefix
    ensures line[|line| - |ElapsedSuffix|..] == ElapsedSuffix
    ensures ParseInt(line[|ElapsedPrefix|..|line| - |ElapsedSuffix|]) == Some(seconds as int)
  {
    ParseShowInt(seconds);
    var line := ElapsedPrefix + ShowInt(seconds) + ElapsedSuffix;
    assert line[|ElapsedPrefix|..|line| - |ElapsedSuffix|] == ShowInt(seconds);
    line
  }

  /** What the command prints and how it exits for a given outcome. */
  function Report(appName: string, instanceId: string, o: WaitOutcome): (r: Run)
    ensures r.exit == Ok <==> o.Found?
    ensures r.exit != Ok ==> r.exit == Failure(TimeoutErrorCode, if o.TimedOut? then TimeoutText else NotFoundText)
    ensures o.Found? && o.elapsed.None? ==> r.stdout == Header + Row(o.inst)
    ensures o.Found? && o.elapsed.Some? ==>
      r.stdout == WaitingLine(appName, instanceId) + ElapsedLine(o.elapsed.value) + (Header + Row(o.inst))
  {
    match o
    case Found(inst, None) =>
      RenderSingle(inst);
      Run(Render([inst]), Ok)
    case Found(inst, Some(k)) =>
      RenderSingle(inst);
      Run(WaitingLine(appName, instanceId) + ElapsedLine(k) + Render([inst]), Ok)
    case TimedOut => Run(WaitingLine(appName, instanceId), Failure(TimeoutErrorCode, TimeoutText))
    case NotFoundImmediate => Run("", Failure(TimeoutErrorCode, NotFoundText))
  }

  /** The `wait` action: argument checks (name before id), then the wait. */
  function WaitCommand(appName: string, instanceId: string, timeout: int, tieFound: bool, polls: Polls): (r: Run)
    ensures appName == "" ==> r == Run("", Help(AppNameEmptyErrorCode))
    ensures appName != "" && instanceId == "" ==> r == Run("", Help(IdEmptyErrorCode))
    ensures appName != "" && instanceId != "" ==>
      (r.exit == Ok || r.exit == Failure(TimeoutErrorCode, NotFoundText) || r.exit == Failure(TimeoutErrorCode, TimeoutText))
    ensures appName != "" && instanceId != "" && timeout == 0 ==>
      (r.exit == Ok <==> IsUp(polls(0)))
    ensures appName != "" && instanceId != "" && timeout == 0 && !IsUp(polls(0)) ==>
      r == Run("", Failure(TimeoutErrorCode, NotFoundText))
    ensures appName != "" && instanceId != "" && timeout == 0 && IsUp(polls(0)) ==>
      r.stdout == Header + Row(polls(0)[0])
    ensures appName != "" && instanceId != "" && timeout != 0 ==>
      var waiting := WaitingLine(appName, instanceId);
      |r.stdout| >= |waiting| && r.stdout[..|waiting|] == waiting
      && (r.exit == Ok <==> TimedWait(polls, timeout, tieFound).Found?)
  {
    match CheckArgs(appName, instanceId)
    case Some(code) => Run("", Help(code))
    case None =>
      Report(appName, instanceId, Wait(timeout, tieFound, polls))
  }

  /** The timed outcome depends only on the polls issued up to the deadline:
      what the registry would answer afterwards is never observed. */
  lemma {:induction false} DeadlineBoundsObservation(p1: Polls, p2: Polls, timeout: int, tieFound: bool)
    requires forall j: nat :: j <= timeout ==> p1(j) == p2(j)
    ensures TimedWait(p1, timeout, tieFound) == TimedWait(p2, timeout, tieFound)
  {
  }

  /** Timeout 0 makes exactly one lookup: only the first poll's answer matters. */
  lemma ZeroTimeoutAsksOnce(p1: Polls, p2: Polls, tieFound: bool)
    requires p1(0) == p2(0)
    ensures Wait(0, tieFound, p1) == Wait(0, tieFound, p2)
  {
  }

  /** A registry that never reports UP ends every wait unsuccessfully:
      NotFoundImmediate for timeout 0, TimedOut otherwise. */
  lemma NeverUpNeverFound(polls: Polls, timeout: int, tieFound: bool)
    requires forall j: nat :: !IsUp(polls(j))
    ensures Wait(timeout, tieFound, polls) == if timeout == 0 then NotFoundImmediate else TimedOut
  {
  }

  /** Waiting longer never loses an instance already found within a shorter timeout. */
  lemma {:induction false} LongerTimeoutKeepsFound(polls: Polls, timeout: int, longer: int, tieFound: bool)
    requires 0 < timeout <= longer
    requires TimedWait(polls, timeout, tieFound).Found?
    ensures TimedWait(polls, longer, tieFound) == TimedWait(polls, timeout, tieFound)
  {
  }

  /** An instance starting up and turning UP three seconds in. */
  function OrdersPolls(k: nat): seq<Instance> {
    [Instance("orders", "i-1", if k < 3 then "STARTING" else UpStatus, "10.0.0.5", 8080)]
  }

  /** Timeout 10 finds it at the fourth poll (3 s), timeout 2 times out, and
      timeout 0 reports the immediate failure, whichever way the boundary race goes. */
  lemma OrdersScenario(tieFound: bool)
    ensures Wait(10, tieFound, OrdersPolls) == Found(OrdersPolls(3)[0], Some(3))
    ensures Wait(2, tieFound, OrdersPolls) == TimedOut
    ensures Wait(0, tieFound, OrdersPolls) == NotFoundImmediate
  {
  }

}
