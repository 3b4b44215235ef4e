/** `ScheduleController`: the control state that requests and the scheduler loop share. */
module Controller {

  datatype SchedulerState = Starting | Sleeping | Running | Stopping | Stopped

  /** Whether the loop waits on the condition, and has been notified since. */
  datatype Waiter = NotWaiting | Blocked | Notified

  datatype Status = Status(
    state: SchedulerState,
    pendingWake: bool,
    pendingRunNow: bool,
    quitRequested: bool,
    runCount: int
  )

  datatype Control = Control(status: Status, waiter: Waiter)

  const INITIAL := Control(Status(Starting, false, false, false, 0), NotWaiting)

  datatype Request = StatusRequest | WakeRequest | RunNowRequest | QuitRequest
  datatype ResponseStatus = Ok | Accepted | Busy | Error
  datatype Response = Response(ok: bool, status: ResponseStatus, scheduler: Status)
  datatype Mode = Normal | RunNow

  // ---------- What each locked section does ----------

  function NotifyAll(c: Control): Control {
    if c.waiter == Blocked then c.(waiter := Notified) else c
  }

  function Set(c: Control, status: Status): Control {
    NotifyAll(c.(status := status))
  }

  function Answer(c: Control, status: ResponseStatus): (Control, Response) {
    (c, Response(status == Ok || status == Accepted, status, c.status))
  }

  function Handle(c: Control, request: Request): (Control, Response) {
    var s := c.status;
    match request
    case StatusRequest => Answer(c, Ok)
    case WakeRequest =>
      if s.quitRequested then Answer(c, Error) else Answer(Set(c, s.(pendingWake := true)), Accepted)
    case RunNowRequest =>
      if s.state == Running then Answer(c, Busy)
      else if s.quitRequested then Answer(c, Error)
      else Answer(Set(c, s.(pendingRunNow := true)), Accepted)
    case QuitRequest =>
      Answer(Set(c, s.(quitRequested := true, state := if s.state == Running then Running else Stopping)), Accepted)
  }

  function TakeNextRunMode(c: Control): (Control, Mode) {
    (c.(status := c.status.(pendingWake := false, pendingRunNow := false)),
     if c.status.pendingRunNow then RunNow else Normal)
  }

  predicate HasPendingWork(s: Status) {
    s.pendingWake || s.pendingRunNow || s.quitRequested
  }

  /** The part of `wait_for_work` that ends with the wait, when there is one. */
  function BeginWait(c: Control): Control {
    var s := c.status;
    if s.quitRequested then c.(status := s.(state := Stopping))
    else
      var slept := Set(c, s.(state := Sleeping));
      if s.pendingWake || s.pendingRunNow then slept else slept.(waiter := Blocked)
  }

  /** What a response says: it is `ok` unless the request was refused, it comes with the status after the
      request, a refused request changes nothing, and an accepted one is pending, or is a quit. */
  lemma ResponsesTell(c: Control, request: Request)
    ensures var (after, response) := Handle(c, request); var s := c.status;
            && response.scheduler == after.status
            && (response.ok <==> response.status == Ok || response.status == Accepted)
            && (response.status == Ok <==> request == StatusRequest)
            && (response.status == Busy <==> request == RunNowRequest && s.state == Running)
            && (response.status == Error <==>
                  s.quitRequested && (request == WakeRequest || (request == RunNowRequest && s.state != Running)))
            && (response.status != Accepted ==> after == c)
            && (response.status == Accepted ==> after.waiter == (if c.waiter == Blocked then Notified else c.waiter))
            && after.status.pendingWake == (s.pendingWake || (request == WakeRequest && response.status == Accepted))
            && after.status.pendingRunNow == (s.pendingRunNow || (request == RunNowRequest && response.status == Accepted))
            && after.status.quitRequested == (s.quitRequested || request == QuitRequest)
            && after.status.state == (if request == QuitRequest && s.state != Running then Stopping else s.state)
            && after.status.runCount == s.runCount
  {
  }

  // ---------- The controller ----------

  class ScheduleController {
    var state: SchedulerState
    var pendingWake: bool
    var pendingRunNow: bool
    var quitRequested: bool
    var runCount: int
    var waiter: Waiter  // the waiting list of the condition

    function CurrentStatus(): Status
      reads this
    {
      Status(state, pendingWake, pendingRunNow, quitRequested, runCount)
    }

    function View(): Control
      reads this
    {
      Control(CurrentStatus(), waiter)
    }

    constructor ()
      ensures View() == INITIAL
    {
      state, pendingWake, pendingRunNow, quitRequested, runCount := Starting, false, false, false, 0;
      waiter := NotWaiting;
    }

    method NotifyWaiters()
      modifies this`waiter
      ensures View() == NotifyAll(old(View()))
    {
      if waiter == Blocked { waiter := Notified; }
    }

    method HandleRequest(request: Request) returns (response: Response)
      modifies this
      ensures (View(), response) == Handle(old(View()), request)
    {
      match request {
        case StatusRequest => response := Response(true, Ok, CurrentStatus());
        case WakeRequest => response := RequestWake();
        case RunNowRequest => response := RequestRunNow();
        case QuitRequest => response := RequestQuit();
      }
    }

    method RequestWake() returns (response: Response)
      modifies this
      ensures (View(), response) == Handle(old(View()), WakeRequest)
    {
      if quitRequested { return Response(false, Error, CurrentStatus()); }
      pendingWake := true;
      NotifyWaiters();
      response := Response(true, Accepted, CurrentStatus());
    }

    method RequestRunNow() returns (response: Response)
      modifies this
      ensures (View(), response) == Handle(old(View()), RunNowRequest)
    {
      if state == Running { return Response(false, Busy, CurrentStatus()); }
      if quitRequested { return Response(false, Error, CurrentStatus()); }
      pendingRunNow := true;
      NotifyWaiters();
      response := Response(true, Accepted, CurrentStatus());
    }

    method RequestQuit() returns (response: Response)
      modifies this
      ensures (View(), response) == Handle(old(View()), QuitRequest)
    {
      quitRequested := true;
      if state != Running { state := Stopping; }
      NotifyWaiters();
      response := Response(true, Accepted, CurrentStatus());
    }

    method MarkRunning()
      modifies this
      ensures View() == Set(old(View()), old(CurrentStatus()).(state := Running))
    {
      state := Running;
      NotifyWaiters();
    }

    method MarkStopped()
      modifies this
      ensures View() == Set(old(View()), old(CurrentStatus()).(state := Stopped))
    {
      state := Stopped;
      NotifyWaiters();
    }

    method UpdateRunCount(count: int)
      modifies this
      ensures View() == Set(old(View()), old(CurrentStatus()).(runCount := count))
    {
      runCount := count;
      NotifyWaiters();
    }

    method TakeRunMode() returns (mode: Mode)
      modifies this
      ensures (View(), mode) == TakeNextRunMode(old(View()))
    {
      if pendingRunNow {
        pendingRunNow := false;
        pendingWake := false;
        return RunNow;
      }
      pendingWake := false;
      mode := Normal;
    }

    method PendingWork() returns (pending: bool)
      ensures pending == HasPendingWork(CurrentStatus())
    {
      pending := pendingWake || pendingRunNow || quitRequested;
    }

    /** `wait_for_work` up to its wait; says whether the caller is now waiting. */
    method StartWaiting() returns (waiting: bool)
      requires waiter == NotWaiting
      modifies this
      ensures View() == BeginWait(old(View()))
      ensures waiting <==> waiter == Blocked
    {
      waiting := false;
      if quitRequested {
        state := Stopping;
        return;
      }
      state := Sleeping;
      NotifyWaiters();
      if !pendingWake && !pendingRunNow {
        waiter := Blocked;
        waiting := true;
      }
    }

    /** The wait returns: notified, or the timeout has elapsed. */
    method StopWaiting()
      modifies this
      ensures View() == old(View()).(waiter := NotWaiting)
    {
      waiter := NotWaiting;
    }
  }
}
