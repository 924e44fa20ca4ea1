/** The writing half of the asynchronous driver: user writes and keepalives share one socket, on which at most one write
    may be under way. Completions, timeouts and errors are events that come in any order. */
module IoDriver {

  /** What a completion handler is told. */
  datatype Outcome = Fine | Aborted | Failed

  /** The flags of the driver, and what it has done: the messages accepted from the user, those handed to the socket, the
      number of keepalives handed to it, and what the socket is busy with. */
  datatype Driver = Driver(writePending: bool, keepalivePending: bool, wroteBetween: bool, wait: nat, timerPending: bool,
                           cancelled: bool, buffer: nat, accepted: seq<nat>, handed: seq<nat>, keepalives: nat,
                           userBusy: bool, keepaliveBusy: bool, failed: bool)

  datatype Event =
    | SetKeepalive
    | Write(message: nat)
    | UserWritten(outcome: Outcome)
    | KeepaliveTimeout
    | KeepaliveWritten(outcome: Outcome)
    | PeerHeard
    | Cancel

  /** What may happen: the user writes only when no write is pending, sets the timer only when it does not run, and handlers are
      called for what is under way. Also a cancelled driver may be written to; its reads may still complete. */
  predicate Enabled(d: Driver, e: Event) {
    match e
    case SetKeepalive => !d.timerPending
    case Write(_) => !d.writePending
    case UserWritten(_) => d.userBusy
    case KeepaliveTimeout => d.timerPending
    case KeepaliveWritten(_) => d.keepaliveBusy
    case PeerHeard => true
    case Cancel => true
  }

  function Cancelled(d: Driver): Driver {
    if d.cancelled then d else d.(writePending := false, cancelled := true, timerPending := false)
  }

  /** `async_write` of the user's buffer. */
  function HandOver(d: Driver): Driver {
    d.(handed := d.handed + [d.buffer], userBusy := true)
  }

  /** The timer: nothing while a keepalive is under way, the end after three in a row without hearing anything, a keepalive
      where nothing is being written nor has been since the last time, otherwise the timer again. */
  function TimedOut(d: Driver): Driver {
    var t := d.(timerPending := false);
    if d.keepalivePending then t
    else
      var u := t.(wait := d.wait + 1);
      if u.wait > 3 then Cancelled(u) else KeptAlive(u)
  }

  function KeptAlive(d: Driver): Driver {
    if !d.writePending && !d.wroteBetween then
      d.(keepalivePending := true, keepalives := d.keepalives + 1, keepaliveBusy := true)
    else d.(wroteBetween := false, timerPending := true)
  }

  /** A keepalive is through: the message that waits for it goes out. */
  function KeepaliveDone(d: Driver, outcome: Outcome): Driver {
    var t := d.(keepaliveBusy := false);
    if outcome.Failed? then Cancelled(t)
    else
      var u := t.(keepalivePending := false);
      (if d.writePending then HandOver(u) else u).(timerPending := true)
  }

  function UserDone(d: Driver, outcome: Outcome): Driver {
    var t := d.(userBusy := false);
    if d.cancelled then t
    else if outcome.Fine? then t.(wroteBetween := true, writePending := false)
    else t.(failed := true)
  }

  function Accepted(d: Driver, m: nat): Driver {
    var t := d.(writePending := true, buffer := m, accepted := d.accepted + [m]);
    if d.keepalivePending then t else HandOver(t)
  }

  function Step(d: Driver, e: Event): Driver
    requires Enabled(d, e)
  {
    match e
    case SetKeepalive => d.(timerPending := true)
    case Write(m) => Accepted(d, m)
    case UserWritten(outcome) => UserDone(d, outcome)
    case KeepaliveTimeout => TimedOut(d)
    case KeepaliveWritten(outcome) => KeepaliveDone(d, outcome)
    case PeerHeard => if d.cancelled then d else d.(wait := 0)
    case Cancel => Cancelled(d)
  }

  /** A user write that waits for a keepalive to go out first. */
  predicate Deferred(d: Driver) { d.writePending && d.keepalivePending }

  /** What holds in every uncancelled state. */
  predicate Inv(d: Driver) {
    !d.cancelled ==>
      && !(d.userBusy && d.keepaliveBusy)
      && d.keepaliveBusy == d.keepalivePending
      && (d.userBusy ==> d.writePending && !d.failed)
      && (d.writePending ==> d.userBusy || d.keepalivePending || d.failed)
      && (d.failed ==> d.writePending && !d.keepalivePending)
      && d.accepted == d.handed + (if Deferred(d) then [d.buffer] else [])
  }

  function Fresh(): Driver {
    Driver(false, false, false, 0, false, false, 0, [], [], 0, false, false, false)
  }

  lemma StepKeepsInv(d: Driver, e: Event)
    requires Inv(d) && Enabled(d, e)
    ensures Inv(Step(d, e))
  {
    hide TimedOut, KeepaliveDone;
    match e
    case KeepaliveTimeout => TimedOutKeeps(d);
    case KeepaliveWritten(outcome) => KeepaliveKeeps(d, outcome);
    case _ =>
  }

  lemma TimedOutKeeps(d: Driver)
    requires Inv(d) && d.timerPending
    ensures Inv(TimedOut(d))
  {
  }

  lemma KeepaliveKeeps(d: Driver, outcome: Outcome)
    requires Inv(d) && d.keepaliveBusy
    ensures Inv(KeepaliveDone(d, outcome))
  {
  }

  ghost predicate Runs(d: Driver, events: seq<Event>, t: Driver)
    decreases |events|
  {
    if events == [] then d == t
    else Enabled(d, events[0]) && Runs(Step(d, events[0]), events[1..], t)
  }

  lemma {:induction false} RunKeepsInv(d: Driver, events: seq<Event>, t: Driver)
    requires Inv(d) && Runs(d, events, t)
    ensures Inv(t)
    decreases |events|
  {
    hide Inv, Step;
    if events != [] {
      StepKeepsInv(d, events[0]);
      RunKeepsInv(Step(d, events[0]), events[1..], t);
    }
  }

  /** In every reachable uncancelled state at most one write is under way, and every message accepted from the user has
      been handed to the socket exactly once and in order, but for one that waits for the keepalive under way. */
  lemma OneWriteAtATime(events: seq<Event>, d: Driver)
    requires Runs(Fresh(), events, d) && !d.cancelled
    ensures !(d.userBusy && d.keepaliveBusy)
    ensures d.accepted == d.handed + (if d.writePending && d.keepaliveBusy then [d.buffer] else [])
  {
    RunKeepsInv(Fresh(), events, d);
  }

  /** The message that waits goes out when the keepalive completes, once. */
  lemma DeferredGoesOut(events: seq<Event>, d: Driver, outcome: Outcome)
    requires Runs(Fresh(), events, d) && !d.cancelled && Deferred(d) && !outcome.Failed?
    ensures Enabled(d, KeepaliveWritten(outcome))
    ensures
      var t := Step(d, KeepaliveWritten(outcome));
      && t.handed == d.handed + [d.buffer] == t.accepted && t.userBusy && !t.keepaliveBusy && t.timerPending
  {
    RunKeepsInv(Fresh(), events, d);
  }

  /** Once the keepalive timer has been started, it runs or a keepalive is under way, as long as nothing is cancelled. */
  lemma {:induction false} KeepaliveGoesOn(d: Driver, events: seq<Event>, t: Driver)
    requires Inv(d) && (d.timerPending || d.keepaliveBusy) && Runs(d, events, t) && !t.cancelled && !d.cancelled
    ensures t.timerPending || t.keepaliveBusy
    decreases |events|
  {
    if events != [] {
      var next := Step(d, events[0]);
      StepKeepsInv(d, events[0]);
      if next.cancelled {
        CancelIsFinal(next, events[1..], t);
      } else {
        KeepaliveGoesOn(next, events[1..], t);
      }
    }
  }

  lemma StaysCancelled(d: Driver, e: Event)
    requires d.cancelled && Enabled(d, e)
    ensures Step(d, e).cancelled
  {
    hide TimedOut, KeepaliveDone, UserDone, Accepted;
    match e
    case KeepaliveTimeout => CancelledTimedOut(d);
    case KeepaliveWritten(outcome) => CancelledKeepalive(d, outcome);
    case UserWritten(outcome) => CancelledUser(d, outcome);
    case Write(m) => CancelledWrite(d, m);
    case _ =>
  }

  lemma CancelledTimedOut(d: Driver)
    requires d.cancelled
    ensures TimedOut(d).cancelled
  {
  }

  lemma CancelledKeepalive(d: Driver, outcome: Outcome)
    requires d.cancelled
    ensures KeepaliveDone(d, outcome).cancelled
  {
  }

  lemma CancelledUser(d: Driver, outcome: Outcome)
    requires d.cancelled
    ensures UserDone(d, outcome).cancelled
  {
  }

  lemma CancelledWrite(d: Driver, m: nat)
    requires d.cancelled
    ensures Accepted(d, m).cancelled
  {
  }

  lemma {:induction false} CancelIsFinal(d: Driver, events: seq<Event>, t: Driver)
    requires d.cancelled && Runs(d, events, t)
    ensures t.cancelled
    decreases |events|
  {
    hide Step, Enabled;
    if events != [] {
      StaysCancelled(d, events[0]);
      CancelIsFinal(Step(d, events[0]), events[1..], t);
    }
  }

  /** A user write that fails other than by cancelling leaves the write pending for good: the user can never write again,
      and no keepalive is sent any more. */
  lemma {:induction false} FailureIsFinal(d: Driver, events: seq<Event>, t: Driver)
    requires Inv(d) && d.failed && !d.cancelled && Runs(d, events, t) && !t.cancelled
    ensures t.failed && t.writePending && t.handed == d.handed && t.keepalives == d.keepalives
    decreases |events|
  {
    if events != [] {
      var next := Step(d, events[0]);
      StepKeepsInv(d, events[0]);
      if next.cancelled {
        CancelIsFinal(next, events[1..], t);
      } else {
        FailureIsFinal(next, events[1..], t);
      }
    }
  }

  // ----- What a completion does -----

  /** The user may write again after a write that went through, and only then; a cancelled driver takes no notice. */
  lemma WriteThrough(d: Driver, outcome: Outcome)
    requires Enabled(d, UserWritten(outcome)) && d.writePending
    ensures
      var t := Step(d, UserWritten(outcome));
      && !t.userBusy && t.handed == d.handed && t.cancelled == d.cancelled && t.timerPending == d.timerPending
      && (Enabled(t, Write(0)) <==> !d.cancelled && outcome.Fine?)
      && (t.failed <==> d.failed || (!d.cancelled && !outcome.Fine?))
  {
  }

  /** A keepalive that fails cancels the driver; with any other outcome the timer runs again, also where the keepalive was aborted
      because the driver had been cancelled. */
  lemma KeepaliveThrough(d: Driver, outcome: Outcome)
    requires Enabled(d, KeepaliveWritten(outcome))
    ensures
      var t := Step(d, KeepaliveWritten(outcome));
      && !t.keepaliveBusy && t.keepalives == d.keepalives
      && (t.cancelled <==> d.cancelled || outcome.Failed?)
      && (!outcome.Failed? ==> t.timerPending && !t.keepalivePending)
      && t.handed == (if d.writePending && !outcome.Failed? then d.handed + [d.buffer] else d.handed)
  {
    match outcome
    case Failed =>
    case _ =>
  }

  /** Cancelling stops the timer and gives up the write; done again it changes nothing. */
  lemma CancelOnce(d: Driver)
    ensures
      var t := Step(d, Cancel);
      && t.cancelled && Step(t, Cancel) == t && t.handed == d.handed && t.keepalives == d.keepalives
      && (!d.cancelled ==> !t.timerPending && !t.writePending) && t.userBusy == d.userBusy && t.keepaliveBusy == d.keepaliveBusy
      && t.wait == d.wait && t.keepalivePending == d.keepalivePending
  {
  }

  // ----- When a driver gives up, and when a keepalive goes out -----

  predicate Possible(d: Driver, events: seq<Event>)
    decreases |events|
  {
    events == [] || (Enabled(d, events[0]) && Possible(Step(d, events[0]), events[1..]))
  }

  /** The timeouts that found no keepalive under way, since the driver last heard from the other side; `before` counts
      earlier ones. */
  function Silent(d: Driver, events: seq<Event>, before: nat): nat
    requires Possible(d, events)
    decreases |events|
  {
    if events == [] then before
    else
      var e := events[0];
      var now :=
        if e.PeerHeard? && !d.cancelled then 0
        else if e.KeepaliveTimeout? && !d.keepalivePending then before + 1
        else before;
      Silent(Step(d, e), events[1..], now)
  }

  predicate NoTimeout(events: seq<Event>) {
    forall i :: 0 <= i < |events| ==> !events[i].KeepaliveTimeout?
  }

  /** A write of the user's has gone through since the last timeout. */
  ghost predicate WroteSince(events: seq<Event>) {
    exists i :: 0 <= i < |events| && events[i] == UserWritten(Fine) && NoTimeout(events[i + 1..])
  }

  lemma WroteStep(events: seq<Event>)
    requires events != []
    ensures NoTimeout(events) <==> !events[0].KeepaliveTimeout? && NoTimeout(events[1..])
    ensures WroteSince(events) <==> WroteSince(events[1..]) || (events[0] == UserWritten(Fine) && NoTimeout(events[1..]))
  {
    var rest := events[1..];
    assert forall i :: 0 <= i < |rest| ==> rest[i] == events[i + 1];
    assert forall i :: 1 <= i < |events| ==> events[i] == rest[i - 1];
    if WroteSince(rest) {
      var i :| 0 <= i < |rest| && rest[i] == UserWritten(Fine) && NoTimeout(rest[i + 1..]);
      assert rest[i + 1..] == events[i + 2..];
    }
    if WroteSince(events) {
      var i :| 0 <= i < |events| && events[i] == UserWritten(Fine) && NoTimeout(events[i + 1..]);
      if i > 0 { assert events[i + 1..] == rest[i..]; }
    }
  }

  /** While it is not cancelled a driver has waited three times at most, and has written nothing while a keepalive is under
      way. */
  predicate Patient(d: Driver) {
    !d.cancelled ==> d.wait <= 3 && (d.keepalivePending ==> !d.wroteBetween)
  }

  lemma WaitStep(d: Driver, e: Event)
    requires Inv(d) && Patient(d) && Enabled(d, e)
    ensures
      var t := Step(d, e);
      && Patient(t)
      && t.wait == (if e.PeerHeard? && !d.cancelled then 0
                    else if e.KeepaliveTimeout? && !d.keepalivePending then d.wait + 1
                    else d.wait)
      && (!t.cancelled ==>
            t.wroteBetween == (e == UserWritten(Fine) || (!e.KeepaliveTimeout? && d.wroteBetween)))
  {
    hide TimedOut, KeepaliveDone;
    match e
    case KeepaliveTimeout => TimedOutWaits(d);
    case KeepaliveWritten(outcome) => KeepaliveWaits(d, outcome);
    case _ =>
  }

  lemma TimedOutWaits(d: Driver)
    requires Inv(d) && Patient(d) && d.timerPending
    ensures Patient(TimedOut(d)) && TimedOut(d).wait == (if d.keepalivePending then d.wait else d.wait + 1)
    ensures !TimedOut(d).cancelled ==> !TimedOut(d).wroteBetween
  {
  }

  lemma KeepaliveWaits(d: Driver, outcome: Outcome)
    requires Patient(d)
    ensures
      var t := KeepaliveDone(d, outcome);
      Patient(t) && t.wait == d.wait && t.wroteBetween == d.wroteBetween
  {
  }

  /** Along every run the count and the flag of the driver are just that. */
  lemma {:induction false} Counts(d: Driver, events: seq<Event>, t: Driver)
    requires Inv(d) && Patient(d) && Runs(d, events, t)
    ensures Inv(t) && Patient(t) && Possible(d, events) && t.wait == Silent(d, events, d.wait)
    ensures !t.cancelled ==> t.wroteBetween == (WroteSince(events) || (d.wroteBetween && NoTimeout(events)))
    decreases |events|
  {
    hide Enabled, Inv, Patient, Step, WroteSince, NoTimeout;
    if events == [] {
      NothingWritten();
    } else {
      var next := Step(d, events[0]);
      StepKeepsInv(d, events[0]);
      WaitStep(d, events[0]);
      WroteStep(events);
      Counts(next, events[1..], t);
      if next.cancelled { CancelIsFinal(next, events[1..], t); }
    }
  }

  lemma NothingWritten()
    ensures !WroteSince([]) && NoTimeout([])
  {
  }

  /** In every run, a timeout cancels the driver if and only if it is the fourth to find no keepalive under way since the driver
      last heard from the other side; and if not, a keepalive goes out if and only if nothing is being written and nothing
      has been written since the last timeout. */
  lemma GivesUpAtFourth(events: seq<Event>, d: Driver)
    requires Runs(Fresh(), events, d) && !d.cancelled && d.timerPending
    ensures Possible(Fresh(), events)
    ensures
      var t := Step(d, KeepaliveTimeout);
      && (t.cancelled <==> !d.keepaliveBusy && Silent(Fresh(), events, 0) == 3)
      && (!t.cancelled ==>
            var sends := !d.keepaliveBusy && !d.writePending && !WroteSince(events);
            t.keepalives == d.keepalives + (if sends then 1 else 0) && t.keepaliveBusy == (d.keepaliveBusy || sends))
  {
    hide WroteSince, NoTimeout, Silent, Runs, Possible;
    Counts(Fresh(), events, d);
  }

  class AsyncDriver {
    var writePending: bool
    var keepalivePending: bool
    var wroteBetween: bool
    var wait: nat
    var timerPending: bool
    var cancelled: bool
    var buffer: nat
    ghost var accepted: seq<nat>
    ghost var handed: seq<nat>
    ghost var keepalives: nat
    ghost var userBusy: bool
    ghost var keepaliveBusy: bool
    ghost var failed: bool

    ghost function State(): Driver
      reads this
    {
      Driver(writePending, keepalivePending, wroteBetween, wait, timerPending, cancelled, buffer, accepted, handed,
             keepalives, userBusy, keepaliveBusy, failed)
    }

    constructor ()
      ensures State() == Fresh()
    {
      writePending, keepalivePending, wroteBetween, wait, timerPending, cancelled, buffer := false, false, false, 0, false, false, 0;
      accepted, handed, keepalives, userBusy, keepaliveBusy, failed := [], [], 0, false, false, false;
    }

    /** The socket takes the user's buffer. */
    method AsyncWrite()
      modifies this`handed, this`userBusy
      ensures State() == HandOver(old(State()))
    {
      handed, userBusy := handed + [buffer], true;
    }

    method SetKeepalive()
      requires Enabled(State(), Event.SetKeepalive)
      modifies this
      ensures State() == Step(old(State()), Event.SetKeepalive)
    {
      timerPending := true;
    }

    method Write(message: nat)
      requires Enabled(State(), Event.Write(message))
      modifies this
      ensures State() == Step(old(State()), Event.Write(message))
    {
      buffer, accepted := message, accepted + [message];
      writePending := true;
      if !keepalivePending {
        AsyncWrite();
      }
    }

    method OnWrite(outcome: Outcome)
      requires Enabled(State(), UserWritten(outcome))
      modifies this
      ensures State() == Step(old(State()), UserWritten(outcome))
    {
      userBusy := false;
      if cancelled {
        return;
      }
      if outcome.Fine? {
        wroteBetween := true;
        writePending := false;
      } else {
        failed := true;
      }
    }

    method OnKeepaliveTimeout()
      requires Enabled(State(), KeepaliveTimeout)
      modifies this
      ensures State() == Step(old(State()), KeepaliveTimeout)
    {
      hide KeptAlive;
      timerPending := false;
      if keepalivePending {
        return;
      }
      wait := wait + 1;
      if wait > 3 {
        Cancel();
      } else {
        KeepAlive();
      }
    }

    method KeepAlive()
      modifies this
      ensures State() == KeptAlive(old(State()))
    {
      if !writePending && !wroteBetween {
        keepalivePending := true;
        keepalives, keepaliveBusy := keepalives + 1, true;
      } else {
        wroteBetween := false;
        timerPending := true;
      }
    }

    method OnWriteKeepalive(outcome: Outcome)
      requires Enabled(State(), KeepaliveWritten(outcome))
      modifies this
      ensures State() == Step(old(State()), KeepaliveWritten(outcome))
    {
      keepaliveBusy := false;
      if outcome.Failed? {
        Cancel();
      } else {
        keepalivePending := false;
        if writePending {
          AsyncWrite();
        }
        timerPending := true;
      }
    }

    /** The first bytes of a message have come in. */
    method OnPeek()
      requires Enabled(State(), PeerHeard)
      modifies this
      ensures State() == Step(old(State()), PeerHeard)
    {
      if !cancelled {
        wait := 0;
      }
    }

    method Cancel()
      modifies this
      ensures State() == Cancelled(old(State()))
    {
      if !cancelled {
        writePending := false;
        cancelled := true;
        timerPending := false;
      }
    }
  }
}
