/** Starting and attaching to a container: a caller and a helper goroutine that
  * meet over two unbuffered channels, while the caller's context may end.
  */
module PodmanAttach {
  import opened Wrappers

  datatype RunMode = StartAndAttach | AttachOnly | NoRun

  /** What a run hands back: no error, the abort error, or any other error. */
  datatype RunEnd = Completed | Aborted | Errored

  datatype Caller = AwaitingReady | Starting | AwaitingEnd | Returned(end: RunEnd)

  datatype Helper = Attaching | OfferingReady | Streaming | OfferingEnd(end: RunEnd) | Exited

  /** `ended`: the context ended. `starts` and `ready` record how often the
    * container was started and whether the caller saw the attachment ready.
    */
  datatype Attachment = Attachment(
    mode: RunMode, caller: Caller, helper: Helper, ended: bool, starts: nat, ready: bool)

  datatype Event =
    | ContextEnds
    | HelperReady              // the attachment is up
    | HelperEnds(end: RunEnd)  // the attach call returned
    | ReadyMeets               // the caller receives from the ready channel
    | EndMeets                 // the caller receives the helper's error
    | StartWorks
    | StartFails
    | CallerAborts             // the caller's select takes the ended context

  function Initial(mode: RunMode, ended: bool): Attachment
    requires !mode.NoRun?
  {
    Attachment(mode, if mode.StartAndAttach? then AwaitingReady else AwaitingEnd, Attaching, ended, 0, false)
  }

  function Happens(s: Attachment, ev: Event): Option<Attachment> {
    match ev
    case ContextEnds => Some(s.(ended := true))
    case HelperReady =>
      if s.helper != Attaching then None
      else Some(s.(helper := if s.mode.StartAndAttach? then OfferingReady else Streaming))
    case HelperEnds(end) =>
      if s.helper !in {Attaching, Streaming} || end == Aborted then None
      else Some(s.(helper := OfferingEnd(end)))
    case ReadyMeets =>
      if s.caller != AwaitingReady || s.helper != OfferingReady then None
      else Some(s.(caller := Starting, helper := Streaming, ready := true))
    case EndMeets =>
      if s.caller !in {AwaitingReady, AwaitingEnd} || !s.helper.OfferingEnd? then None
      else Some(s.(caller := Returned(s.helper.end), helper := Exited))
    case StartWorks =>
      if s.caller != Starting then None else Some(s.(caller := AwaitingEnd, starts := s.starts + 1))
    case StartFails =>
      if s.caller != Starting then None else Some(s.(caller := Returned(Errored)))
    case CallerAborts =>
      if s.caller != AwaitingEnd || !s.ended then None else Some(s.(caller := Returned(Aborted)))
  }

  function HappenAll(s: Attachment, events: seq<Event>): Option<Attachment>
    decreases |events|
  {
    if events == [] then Some(s)
    else match Happens(s, events[0])
      case None => None
      case Some(s') => HappenAll(s', events[1..])
  }

  /** What the executor may rely on when a run returns. */
  predicate MayReturn(mode: RunMode, ended: bool, end: RunEnd) {
    && (mode.NoRun? ==> end == Completed)
    && (end == Aborted ==> ended)
  }

  ghost predicate AttachInv(s: Attachment) {
    && !s.mode.NoRun?
    && s.starts <= 1
    && (s.starts == 1 ==> s.ready)
    && (s.mode.StartAndAttach? && s.caller == AwaitingEnd ==> s.starts == 1)
    && (s.caller == Starting ==> s.ready)
    && (s.mode.AttachOnly? ==> s.starts == 0 && s.caller !in {AwaitingReady, Starting} && s.helper != OfferingReady)
    && (s.caller == AwaitingReady || s.caller == Starting ==> s.starts == 0)
    && (s.caller == AwaitingReady ==> s.helper != Streaming)
    && (s.caller == Returned(Aborted) ==> s.ended && (s.mode.StartAndAttach? ==> s.starts == 1))
    && (s.helper == Exited ==> s.caller.Returned? && s.caller.end != Aborted)
    && (s.helper.OfferingEnd? ==> s.helper.end != Aborted)
  }

  lemma {:induction false} AttachInvHolds(s: Attachment, events: seq<Event>)
    requires AttachInv(s) && HappenAll(s, events).Some?
    ensures AttachInv(HappenAll(s, events).value)
    decreases |events|
  {
    if events != [] {
      AttachInvHolds(Happens(s, events[0]).value, events[1..]);
    }
  }

  /** In every run: the abort error only after the context ended, at most one
    * start, only once the attachment was ready, and none when only attaching.
    */
  lemma AttachContract(mode: RunMode, ended: bool, events: seq<Event>)
    requires !mode.NoRun? && HappenAll(Initial(mode, ended), events).Some?
    ensures var s := HappenAll(Initial(mode, ended), events).value;
      && (s.caller.Returned? ==> MayReturn(mode, s.ended, s.caller.end))
      && s.starts <= 1
      && (s.starts == 1 ==> mode.StartAndAttach? && s.ready)
      && (s.caller == Returned(Aborted) && mode.StartAndAttach? ==> s.starts == 1)
  {
    AttachInvHolds(Initial(mode, ended), events);
    ModeFixed(Initial(mode, ended), events);
  }

  /** What the events say of the caller: it returns at most once, for one of three reasons. */
  predicate CallerStory(s: Attachment, events: seq<Event>, s': Attachment) {
    if s.caller.Returned? then
      && s'.caller == s.caller
      && StartFails !in events && CallerAborts !in events && EndMeets !in events
    else
      && (s'.caller.Returned? <==> StartFails in events || CallerAborts in events || EndMeets in events)
      && (StartFails in events ==>
            s'.caller == Returned(Errored) && CallerAborts !in events && EndMeets !in events)
      && (CallerAborts in events ==>
            s'.caller == Returned(Aborted) && EndMeets !in events && (s.ended || ContextEnds in events))
      && (EndMeets in events ==>
            && s'.caller.Returned?
            && (s.helper == OfferingEnd(s'.caller.end) || HelperEnds(s'.caller.end) in events))
  }

  lemma {:induction false} CallerTold(s: Attachment, events: seq<Event>)
    requires HappenAll(s, events).Some?
    ensures CallerStory(s, events, HappenAll(s, events).value)
    decreases |events|
  {
    if events != [] {
      CallerTold(Happens(s, events[0]).value, events[1..]);
      assert events == [events[0]] + events[1..];
    }
  }

  /** The attach call returns once. */
  lemma {:induction false} HelperEndsOnce(s: Attachment, events: seq<Event>)
    requires HappenAll(s, events).Some?
    ensures s.helper.OfferingEnd? || s.helper.Exited? ==> forall end :: HelperEnds(end) !in events
    ensures forall e, e' :: HelperEnds(e) in events && HelperEnds(e') in events ==> e == e'
    ensures HelperEnds(Aborted) !in events
    decreases |events|
  {
    if events != [] {
      HelperEndsOnce(Happens(s, events[0]).value, events[1..]);
      assert events == [events[0]] + events[1..];
    }
  }

  /** Starts and readiness are what the events say. */
  lemma {:induction false} StartsTold(s: Attachment, events: seq<Event>)
    requires HappenAll(s, events).Some? && AttachInv(s)
    ensures var s' := HappenAll(s, events).value;
      && (s'.starts == 1 <==> s.starts == 1 || StartWorks in events)
      && (s'.ready <==> s.ready || ReadyMeets in events)
    decreases |events|
  {
    if events != [] {
      AttachInvHolds(s, [events[0]]);
      assert HappenAll(s, [events[0]]) == Some(Happens(s, events[0]).value) by {
        assert [events[0]][1..] == [];
      }
      StartsTold(Happens(s, events[0]).value, events[1..]);
      assert events == [events[0]] + events[1..];
    }
  }

  /** Which error comes back, told by the events of any run. A start that failed comes back
    * as an error; the abort error means that the context ended; anything else is what the
    * attach call itself returned. So no error comes back only if the attach call returned
    * none, and never when the start failed.
    */
  lemma AttachReturns(mode: RunMode, ended: bool, events: seq<Event>)
    requires !mode.NoRun? && HappenAll(Initial(mode, ended), events).Some?
    ensures var s := HappenAll(Initial(mode, ended), events).value;
      && (s.caller.Returned? <==> StartFails in events || CallerAborts in events || EndMeets in events)
      && (StartFails in events ==> s.caller == Returned(Errored))
      && (s.caller == Returned(Aborted) <==> CallerAborts in events)
      && (CallerAborts in events ==> ended || ContextEnds in events)
      && (forall end :: s.caller == Returned(end) && end != Aborted ==>
            (StartFails in events && end == Errored) || (EndMeets in events && HelperEnds(end) in events))
      && (forall end :: EndMeets in events && HelperEnds(end) in events ==> s.caller == Returned(end))
      && (s.caller == Returned(Completed) ==> HelperEnds(Completed) in events && StartFails !in events)
      && (s.starts == 1 <==> StartWorks in events)
      && (s.ready <==> ReadyMeets in events)
  {
    CallerTold(Initial(mode, ended), events);
    HelperEndsOnce(Initial(mode, ended), events);
    StartsTold(Initial(mode, ended), events);
  }

  lemma HappenThen(s: Attachment, ev: Event, rest: seq<Event>)
    requires Happens(s, ev).Some?
    ensures HappenAll(s, [ev] + rest) == HappenAll(Happens(s, ev).value, rest)
  {
    assert ([ev] + rest)[1..] == rest;
  }

  /** The caller comes back with `end` from `s` after these events. */
  predicate ReturnsAfter(s: Attachment, events: seq<Event>, end: RunEnd) {
    HappenAll(s, events).Some? && HappenAll(s, events).value.caller == Returned(end)
  }

  /** How a caller that waits for the end comes back with `end`. */
  function Ending(end: RunEnd): seq<Event> {
    if end.Aborted? then [CallerAborts] else [HelperEnds(end)] + [EndMeets]
  }

  lemma EndingReturns(s: Attachment, end: RunEnd)
    requires s.caller == AwaitingEnd && s.helper in {Attaching, Streaming} && (end.Aborted? ==> s.ended)
    ensures ReturnsAfter(s, Ending(end), end)
  {
    if end.Aborted? {
      assert [CallerAborts] == [CallerAborts] + [];
      HappenThen(s, CallerAborts, []);
    } else {
      HappenThen(s, HelperEnds(end), [EndMeets]);
      assert [EndMeets] == [EndMeets] + [];
      HappenThen(Happens(s, HelperEnds(end)).value, EndMeets, []);
    }
  }

  /** A run whose container is started if it is to be, and which then ends as `end` says. */
  lemma StartedReturns(mode: RunMode, ended: bool, end: RunEnd) returns (events: seq<Event>)
    requires MayReturn(mode, ended, end) && !mode.NoRun?
    ensures ReturnsAfter(Initial(mode, ended), events, end) && ContextEnds !in events
    ensures mode.StartAndAttach? ==> StartWorks in events
  {
    hide HappenAll;
    var s := Initial(mode, ended);
    events := Ending(end);
    if mode.StartAndAttach? {
      var l2 := [StartWorks] + events;
      var l1 := [ReadyMeets] + l2;
      events := [HelperReady] + l1;
      HappenThen(s, HelperReady, l1);
      s := Happens(s, HelperReady).value;
      HappenThen(s, ReadyMeets, l2);
      s := Happens(s, ReadyMeets).value;
      HappenThen(s, StartWorks, Ending(end));
      s := Happens(s, StartWorks).value;
    }
    EndingReturns(s, end);
  }

  /** What the executor relies on is no more and no less than what can happen while the
    * context's end does not change.
    */
  lemma MayReturnExactly(mode: RunMode, ended: bool, end: RunEnd)
    requires !mode.NoRun?
    ensures MayReturn(mode, ended, end) <==>
      exists events :: ContextEnds !in events && ReturnsAfter(Initial(mode, ended), events, end)
  {
    if MayReturn(mode, ended, end) {
      var events := StartedReturns(mode, ended, end);
    }
    forall events | ContextEnds !in events && ReturnsAfter(Initial(mode, ended), events, end)
      ensures MayReturn(mode, ended, end)
    {
      AttachReturns(mode, ended, events);
    }
  }

  /** Wherever a run stands, its caller can still come back, and once its context has ended
    * it can leave from where it waits for the end.
    */
  lemma CallerCanReturn(mode: RunMode, ended: bool, events: seq<Event>)
    requires !mode.NoRun? && HappenAll(Initial(mode, ended), events).Some?
    ensures var s := HappenAll(Initial(mode, ended), events).value;
      && (s.caller.Returned? || exists more, end :: ReturnsAfter(s, more, end))
      && (s.caller == AwaitingEnd && s.ended ==> ReturnsAfter(s, [CallerAborts], Aborted))
  {
    AttachInvHolds(Initial(mode, ended), events);
    var s := HappenAll(Initial(mode, ended), events).value;
    assert [CallerAborts] + [] == [CallerAborts] && [StartFails] + [] == [StartFails] && [EndMeets] + [] == [EndMeets];
    match s.caller
    case AwaitingReady =>
      if s.helper.OfferingReady? {
        HappenThen(s, ReadyMeets, [StartFails]);
        HappenThen(Happens(s, ReadyMeets).value, StartFails, []);
        assert ReturnsAfter(s, [ReadyMeets] + [StartFails], Errored);
      } else if s.helper.Attaching? {
        HappenThen(s, HelperEnds(Errored), [EndMeets]);
        HappenThen(Happens(s, HelperEnds(Errored)).value, EndMeets, []);
        assert ReturnsAfter(s, [HelperEnds(Errored)] + [EndMeets], Errored);
      } else {
        HappenThen(s, EndMeets, []);
        assert ReturnsAfter(s, [EndMeets], s.helper.end);
      }
    case Starting =>
      HappenThen(s, StartFails, []);
      assert ReturnsAfter(s, [StartFails], Errored);
    case AwaitingEnd =>
      var ends := s.(ended := true);
      HappenThen(s, ContextEnds, [CallerAborts]);
      HappenThen(ends, CallerAborts, []);
      if s.ended {
        assert s == ends;
      }
      assert ReturnsAfter(s, [ContextEnds] + [CallerAborts], Aborted);
    case Returned(_) =>
  }

  lemma {:induction false} ModeFixed(s: Attachment, events: seq<Event>)
    requires HappenAll(s, events).Some?
    ensures HappenAll(s, events).value.mode == s.mode
    decreases |events|
  {
    if events != [] {
      ModeFixed(Happens(s, events[0]).value, events[1..]);
    }
  }

  /** A caller that left without the helper's error (aborted, or the start
    * failed) leaves the helper behind for good: nobody receives from its channel.
    */
  lemma {:induction false} AbandonedHelperNeverExits(s: Attachment, events: seq<Event>)
    requires s.caller.Returned? && s.helper != Exited && HappenAll(s, events).Some?
    ensures HappenAll(s, events).value.helper != Exited && HappenAll(s, events).value.caller == s.caller
    decreases |events|
  {
    if events != [] {
      AbandonedHelperNeverExits(Happens(s, events[0]).value, events[1..]);
    }
  }
}
