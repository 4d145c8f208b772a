/** A two-position shutter driven through `set()`: target validation against
    case-folded synonym lists, the "already there" shortcut, the `busy`
    guard, and the worker that brackets the motion with `busy`. The concrete
    device is the simulated shutter, whose `sig` signal holds 1 when open and
    0 when closed. The worker thread is an explicit step method: each call
    performs the next action of one pending worker. */
module Shutter {
  import opened Wrappers
  import opened DeviceStatus
  import Text

  const OpenValue: int := 1
  const CloseValue: int := 0
  const UnknownState: string := "unknown"
  const DefaultOpenValues: seq<string> := ["open", "opened"]
  const DefaultCloseValues: seq<string> := ["close", "closed"]

  datatype ShutterError =
    | Busy                          // RuntimeError("shutter is operating")
    | InvalidTarget(target: string) // ValueError("received <target> : ...")

  /** Every synonym is lower case. */
  predicate AllLower(vs: seq<string>) {
    forall i :: 0 <= i < |vs| ==> Text.IsLower(vs[i])
  }

  /** The constructor's case folding of a synonym list. */
  function LowerAll(vs: seq<string>): (r: seq<string>)
    ensures |r| == |vs| && AllLower(r)
    ensures forall i :: 0 <= i < |vs| ==> r[i] == Text.Lower(vs[i])
    ensures AllLower(vs) ==> r == vs
  {
    seq(|vs|, i requires 0 <= i < |vs| => Text.Lower(vs[i]))
  }

  /** The acceptable `set()` arguments: open synonyms, then close synonyms. */
  function Choices(openValues: seq<string>, closeValues: seq<string>): (r: seq<string>)
    ensures |r| == |openValues| + |closeValues|
    ensures r[..|openValues|] == openValues && r[|openValues|..] == closeValues
    ensures forall t :: t in r <==> t in openValues || t in closeValues
  {
    openValues + closeValues
  }

  /** `validTarget`: whether the lower-cased target is a choice; an
      unacceptable target is an error when `shouldRaise` is set. */
  function ValidTarget(target: string, openValues: seq<string>, closeValues: seq<string>,
                       shouldRaise: bool): (r: Result<bool, ShutterError>)
    ensures r.Success? ==> (r.value <==> Text.Lower(target) in openValues + closeValues)
    ensures r.Failure? <==> shouldRaise && Text.Lower(target) !in openValues + closeValues
    ensures r.Failure? ==> r.error == InvalidTarget(target)
  {
    var ok := Text.Lower(target) in Choices(openValues, closeValues);
    if !ok && shouldRaise then Failure(InvalidTarget(target)) else Success(ok)
  }

  /** `isOpen`: the state text is the first open synonym. Only that one
      counts: a state equal to any later, different synonym is not open. */
  predicate IsOpen(state: string, openValues: seq<string>)
    requires |openValues| > 0
    ensures IsOpen(state, openValues) ==> state in openValues
    ensures forall i :: 0 < i < |openValues| && openValues[i] != openValues[0] && openValues[i] == state ==> !IsOpen(state, openValues)
  {
    state == openValues[0]
  }

  /** `isClosed`: the state text is the first close synonym. Only that one
      counts: a state equal to any later, different synonym is not closed. */
  predicate IsClosed(state: string, closeValues: seq<string>)
    requires |closeValues| > 0
    ensures IsClosed(state, closeValues) ==> state in closeValues
    ensures forall i :: 0 < i < |closeValues| && closeValues[i] != closeValues[0] && closeValues[i] == state ==> !IsClosed(state, closeValues)
  {
    state == closeValues[0]
  }

  /** `inPosition`: validates the target (raising), then tells whether an
      open synonym is asked while open or a close synonym while closed. */
  function InPosition(target: string, state: string, openValues: seq<string>,
                      closeValues: seq<string>): (r: Result<bool, ShutterError>)
    requires |openValues| > 0 && |closeValues| > 0
    ensures r.Failure? <==> Text.Lower(target) !in openValues + closeValues
    ensures r.Failure? ==> r.error == InvalidTarget(target)
    ensures r.Success? ==>
      (r.value <==>
         (Text.Lower(target) in openValues && state == openValues[0])
         || (Text.Lower(target) in closeValues && state == closeValues[0]))
  {
    match ValidTarget(target, openValues, closeValues, true)
    case Failure(e) => Failure(e)
    case Success(_) =>
      var v := Text.Lower(target);
      if v in openValues && IsOpen(state, openValues) then Success(true)
      else if v in closeValues && IsClosed(state, closeValues) then Success(true)
      else Success(false)
  }

  /** The simulated shutter's `state` property, read from its signal. */
  function SynState(sig: int): (s: string)
    ensures s == "open" || s == "close" || s == UnknownState
  {
    if sig == OpenValue then "open"
    else if sig == CloseValue then "close"
    else UnknownState
  }

  /** The simulated `open()`: writes the open value unless already open. */
  function SynOpen(sig: int, openValues: seq<string>): (r: int)
    requires |openValues| > 0
    ensures r == sig || r == OpenValue
    ensures openValues[0] == "open" ==> SynState(r) == "open"
    ensures IsOpen(SynState(sig), openValues) ==> r == sig
  {
    if !IsOpen(SynState(sig), openValues) then OpenValue else sig
  }

  /** The simulated `close()`: writes the close value only when open. */
  function SynClose(sig: int, openValues: seq<string>): (r: int)
    requires |openValues| > 0
    ensures r == sig || r == CloseValue
    ensures openValues[0] == "open" ==> SynState(r) != "open"
    ensures openValues[0] == "open" && SynState(sig) == "open" ==> SynState(r) == "close"
    ensures !IsOpen(SynState(sig), openValues) ==> r == sig
  {
    if IsOpen(SynState(sig), openValues) then CloseValue else sig
  }

  /** The worker's motion for target `v`: open synonyms are tested first. */
  function Move(v: string, sig: int, openValues: seq<string>, closeValues: seq<string>): (r: int)
    requires |openValues| > 0
    ensures r == sig || r == OpenValue || r == CloseValue
    ensures v in openValues && openValues[0] == "open" ==> SynState(r) == "open"
    ensures v !in openValues && v in closeValues && openValues[0] == "open" ==> SynState(r) != "open"
    ensures v !in openValues + closeValues ==> r == sig
  {
    if v in openValues then SynOpen(sig, openValues)
    else if v in closeValues then SynClose(sig, openValues)
    else sig
  }

  /** The synonym lists a shutter keeps: lower case, headed by the two
      texts the simulated `state` reports. */
  predicate WellFormedLists(openValues: seq<string>, closeValues: seq<string>) {
    |openValues| > 0 && |closeValues| > 0
    && openValues[0] == "open" && closeValues[0] == "close"
    && AllLower(openValues) && AllLower(closeValues)
  }

  /** The simulated shutter is open exactly when its signal holds 1 and
      closed exactly when it holds 0; any other value is neither. */
  lemma SynStateQueries(sig: int, openValues: seq<string>, closeValues: seq<string>)
    requires WellFormedLists(openValues, closeValues)
    ensures IsOpen(SynState(sig), openValues) <==> sig == OpenValue
    ensures IsClosed(SynState(sig), closeValues) <==> sig == CloseValue
  {
    assert "open" != "close" && "open" != UnknownState && "close" != UnknownState;
  }

  /** Only the first synonym names a state: a state text equal to a later
      synonym counts as neither open nor closed. */
  lemma LaterSynonymIsNoState()
    ensures !IsOpen("opened", DefaultOpenValues) && !IsClosed("opened", DefaultCloseValues)
    ensures !IsOpen("closed", DefaultOpenValues) && !IsClosed("closed", DefaultCloseValues)
  {
    assert "opened" != "open" && "opened" != "close";
    assert "closed" != "open" && "closed" != "close";
  }

  /** `open()` leaves the shutter open and a second call writes nothing;
      `close()` from open leaves it closed and from an unknown state changes
      nothing. */
  lemma OpenCloseEffects(sig: int, openValues: seq<string>, closeValues: seq<string>)
    requires WellFormedLists(openValues, closeValues)
    ensures SynState(SynOpen(sig, openValues)) == "open"
    ensures SynOpen(SynOpen(sig, openValues), openValues) == SynOpen(sig, openValues)
    ensures SynState(sig) == "open" ==> SynState(SynClose(sig, openValues)) == "close"
    ensures SynState(sig) != "open" ==> SynClose(sig, openValues) == sig
  {
    SynStateQueries(sig, openValues, closeValues);
    SynStateQueries(OpenValue, openValues, closeValues);
  }

  /** When the lists share no synonym, a target already in position needs no
      motion, and a target not in position is reached by the motion except
      for a close request from the unknown state. */
  lemma MoveAgreesWithInPosition(v: string, sig: int, openValues: seq<string>,
                                  closeValues: seq<string>)
    requires WellFormedLists(openValues, closeValues)
    requires forall t :: t in openValues ==> t !in closeValues
    requires Text.IsLower(v) && v in openValues + closeValues
    ensures InPosition(v, SynState(sig), openValues, closeValues) == Success(true)
            ==> Move(v, sig, openValues, closeValues) == sig
    ensures v in openValues ==> SynState(Move(v, sig, openValues, closeValues)) == "open"
    ensures v in closeValues && SynState(sig) != UnknownState
            ==> SynState(Move(v, sig, openValues, closeValues)) == "close"
    ensures v in closeValues && SynState(sig) == UnknownState
            ==> Move(v, sig, openValues, closeValues) == sig
  {
    assert Text.Lower(v) == v;
    SynStateQueries(sig, openValues, closeValues);
    OpenCloseEffects(sig, openValues, closeValues);
  }

  /** The next action of a worker thread spawned by `set()`. */
  datatype Phase = RaiseBusy | Motion | LowerBusy | Finish

  /** A spawned worker: its lower-cased target, the status it finishes and
      the action it performs next. */
  datatype Worker = Worker(target: string, status: nat, phase: Phase)

  /** The simulated shutter device. `statuses` holds every status `set()`
      returned, a handle being an index; `workers` the threads not yet done. */
  class SynShutter {
    var openValues: seq<string>
    var closeValues: seq<string>
    var busy: bool
    var sig: int
    var statuses: seq<Status>
    var workers: seq<Worker>

    ghost predicate Valid()
      reads this
    {
      WellFormedLists(openValues, closeValues)
      && forall k :: 0 <= k < |workers| ==> workers[k].status < |statuses|
    }

    function State(): (s: string)
      reads this
      ensures s == SynState(sig)
      ensures s == "open" <==> sig == OpenValue
      ensures s == "close" <==> sig == CloseValue
    {
      SynState(sig)
    }

    function ChoicesNow(): (r: seq<string>)
      reads this
      ensures |r| == |openValues| + |closeValues|
      ensures r[..|openValues|] == openValues && r[|openValues|..] == closeValues
      ensures forall t :: t in r <==> t in openValues || t in closeValues
    {
      Choices(openValues, closeValues)
    }

    /** A fresh shutter: the default synonym lists case-folded, the signal
        at its initial 0 (closed), not busy, no status, no worker. */
    constructor()
      ensures Valid()
      ensures openValues == DefaultOpenValues && closeValues == DefaultCloseValues
      ensures sig == 0 && !busy && statuses == [] && workers == []
      ensures State() == "close"
    {
      assert Text.IsLower(DefaultOpenValues[0]) && Text.IsLower(DefaultOpenValues[1]);
      assert Text.IsLower(DefaultCloseValues[0]) && Text.IsLower(DefaultCloseValues[1]);
      openValues := LowerAll(DefaultOpenValues);
      closeValues := LowerAll(DefaultCloseValues);
      busy := false;
      sig := 0;
      statuses := [];
      workers := [];
    }

    /** `addOpenValue`: appends the lower-cased synonym, returns `choices`. */
    method AddOpenValue(text: string) returns (choices: seq<string>)
      requires Valid()
      modifies this
      ensures Valid()
      ensures openValues == old(openValues) + [Text.Lower(text)]
      ensures closeValues == old(closeValues)
      ensures busy == old(busy) && sig == old(sig)
      ensures statuses == old(statuses) && workers == old(workers)
      ensures choices == openValues + closeValues
    {
      openValues := openValues + [Text.Lower(text)];
      choices := Choices(openValues, closeValues);
    }

    /** `addCloseValue`: appends the lower-cased synonym, returns `choices`. */
    method AddCloseValue(text: string) returns (choices: seq<string>)
      requires Valid()
      modifies this
      ensures Valid()
      ensures closeValues == old(closeValues) + [Text.Lower(text)]
      ensures openValues == old(openValues)
      ensures busy == old(busy) && sig == old(sig)
      ensures statuses == old(statuses) && workers == old(workers)
      ensures choices == openValues + closeValues
    {
      closeValues := closeValues + [Text.Lower(text)];
      choices := Choices(openValues, closeValues);
    }

    /** `set(value)`: refuses while busy, then refuses an unacceptable
        target; a target already in position gets a finished status; any
        other gets a pending status and a worker that has not run yet, so
        `busy` is still false when `set()` returns. */
    method Set(value: string) returns (r: Result<nat, ShutterError>)
      requires Valid()
      modifies this
      ensures Valid()
      ensures openValues == old(openValues) && closeValues == old(closeValues)
      ensures busy == old(busy) && sig == old(sig)
      ensures old(busy) ==> r == Failure(Busy)
      ensures !old(busy) && Text.Lower(value) !in openValues + closeValues
              ==> r == Failure(InvalidTarget(Text.Lower(value)))
      ensures r.Failure? ==> statuses == old(statuses) && workers == old(workers)
      ensures r.Success? <==> !old(busy) && Text.Lower(value) in openValues + closeValues
      ensures r.Success? ==> r.value == |old(statuses)|
      ensures r.Success? && InPosition(value, State(), openValues, closeValues) == Success(true)
              ==> statuses == old(statuses) + [Status(true, true)] && workers == old(workers)
      ensures r.Success? && InPosition(value, State(), openValues, closeValues) == Success(false)
              ==> statuses == old(statuses) + [Pending]
                  && workers == old(workers) + [Worker(Text.Lower(value), r.value, RaiseBusy)]
    {
      if busy {
        return Failure(Busy);
      }
      var v := Text.Lower(value);
      Text.LowerIdempotent(value);
      var ok := ValidTarget(v, openValues, closeValues, true);
      if ok.Failure? {
        return Failure(ok.error);
      }
      var handle := |statuses|;
      match InPosition(v, SynState(sig), openValues, closeValues)
      case Failure(e) =>
        return Failure(e);
      case Success(there) =>
        if there {
          statuses := statuses + [Status(true, true)];
        } else {
          statuses := statuses + [Pending];
          workers := workers + [Worker(v, handle, RaiseBusy)];
        }
        return Success(handle);
    }

    /** Worker `k` performs its next action: raise `busy`; call `open()`
        for an open synonym (tested first) or `close()` for a close one;
        lower `busy`; finish its status successfully and end. */
    method WorkerStep(k: nat)
      requires Valid() && k < |workers|
      modifies this
      ensures Valid()
      ensures openValues == old(openValues) && closeValues == old(closeValues)
      ensures var w := old(workers[k]);
        match w.phase
        case RaiseBusy =>
          busy && sig == old(sig) && statuses == old(statuses)
          && workers == old(workers)[k := w.(phase := Motion)]
        case Motion =>
          busy == old(busy) && statuses == old(statuses)
          && sig == Move(w.target, old(sig), openValues, closeValues)
          && workers == old(workers)[k := w.(phase := LowerBusy)]
        case LowerBusy =>
          !busy && sig == old(sig) && statuses == old(statuses)
          && workers == old(workers)[k := w.(phase := Finish)]
        case Finish =>
          busy == old(busy) && sig == old(sig)
          && statuses == old(statuses)[w.status := Status(true, true)]
          && workers == old(workers)[..k] + old(workers)[k + 1..]
    {
      var w := workers[k];
      match w.phase
      case RaiseBusy =>
        busy := true;
        workers := workers[k := w.(phase := Motion)];
      case Motion =>
        sig := Move(w.target, sig, openValues, closeValues);
        workers := workers[k := w.(phase := LowerBusy)];
      case LowerBusy =>
        busy := false;
        workers := workers[k := w.(phase := Finish)];
      case Finish =>
        statuses := statuses[w.status := Status(true, true)];
        workers := workers[..k] + workers[k + 1..];
        assert forall j :: 0 <= j < |workers| ==>
          workers[j] == (if j < k then old(workers)[j] else old(workers)[j + 1]);
    }
  }

  /** Opening a fresh (closed) shutter with any open synonym: `set()` hands
      back a pending status and leaves `busy` false; the worker then raises
      `busy`, opens the shutter, lowers `busy` and finishes the status. */
  method OpenThroughWorker(target: string)
    returns (r: Result<nat, ShutterError>, pendingAfterSet: Status, busyAfterSet: bool,
             busyWhileMoving: bool, finalBusy: bool, finalState: string, finalStatus: Status)
    requires Text.Lower(target) in DefaultOpenValues
    ensures r == Success(0)
    ensures pendingAfterSet == Pending && !busyAfterSet
    ensures busyWhileMoving && !finalBusy
    ensures finalState == "open" && finalStatus == Status(true, true)
  {
    var s := new SynShutter();
    assert "close" != "open" && "close" != "opened";
    r := s.Set(target);
    pendingAfterSet := s.statuses[0];
    busyAfterSet := s.busy;
    s.WorkerStep(0);
    s.WorkerStep(0);
    busyWhileMoving := s.busy;
    assert s.State() == "open" by {
      MoveAgreesWithInPosition(Text.Lower(target), 0, s.openValues, s.closeValues);
    }
    s.WorkerStep(0);
    s.WorkerStep(0);
    finalBusy := s.busy;
    finalState := s.State();
    finalStatus := s.statuses[0];
  }

  /** Asking a fresh (closed) shutter for any close synonym finishes the
      status at once: no worker, no write to the signal, `busy` untouched. */
  method CloseWhenClosed(target: string)
    returns (r: Result<nat, ShutterError>, status: Status, workers: nat, busy: bool, state: string)
    requires Text.Lower(target) in DefaultCloseValues
    ensures r == Success(0) && status == Status(true, true)
    ensures workers == 0 && !busy && state == "close"
  {
    var s := new SynShutter();
    r := s.Set(target);
    status := s.statuses[0];
    workers := |s.workers|;
    busy := s.busy;
    state := s.State();
  }

  /** While a worker holds `busy`, a further `set()` is refused without a
      new status; two `set()` calls before any worker runs are both
      accepted, since only the worker raises `busy`. */
  method BusyGuard()
    returns (first: Result<nat, ShutterError>, second: Result<nat, ShutterError>,
             whileBusy: Result<nat, ShutterError>, statusCount: nat)
    ensures first == Success(0) && second == Success(1)
    ensures whileBusy == Failure(Busy) && statusCount == 2
  {
    var s := new SynShutter();
    assert "close" != "open" && "close" != "opened";
    first := s.Set("open");
    second := s.Set("open");
    s.WorkerStep(0);
    whileBusy := s.Set("close");
    statusCount := |s.statuses|;
  }

  /** An unacceptable target is refused with the lower-cased text and no
      status; the error is reported before the shutter's position matters. */
  method RejectUnknownTarget(target: string)
    returns (r: Result<nat, ShutterError>, statusCount: nat)
    requires Text.Lower(target) !in DefaultOpenValues + DefaultCloseValues
    ensures r == Failure(InvalidTarget(Text.Lower(target))) && statusCount == 0
  {
    var s := new SynShutter();
    r := s.Set(target);
    statusCount := |s.statuses|;
  }
}
