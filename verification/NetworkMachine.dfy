/** The start and stop machines as the code has them: one context, a set of fields per IP family. */
module NetworkMachine {
  import opened Wrappers
  import opened NetworkProtocol

  const STOP_BEGIN: nat := 1
  const STOP_NETWORK: nat := 3

  class NetworkContext {
    var clientIPv4: Option<nat>
    var serviceStatusIPv4: nat
    var eventReportIPv4: nat
    var handleIPv4: nat
    var startingIPv4: bool
    var stoppingIPv4: bool

    var clientIPv6: Option<nat>
    var serviceStatusIPv6: nat
    var eventReportIPv6: nat
    var handleIPv6: nat
    var startingIPv6: bool
    var stoppingIPv6: bool

    var currentRat: string
    var log: seq<Action>

    constructor ()
      ensures View() == Wds(IDLE, IDLE, "") && log == []
    {
      clientIPv4, serviceStatusIPv4, eventReportIPv4, handleIPv4 := None, INVALID_EVENT, INVALID_EVENT, INVALID_HANDLE;
      clientIPv6, serviceStatusIPv6, eventReportIPv6, handleIPv6 := None, INVALID_EVENT, INVALID_EVENT, INVALID_HANDLE;
      startingIPv4, stoppingIPv4, startingIPv6, stoppingIPv6 := false, false, false, false;
      currentRat, log := "", [];
    }

    ghost function View(): Wds
      reads this
    {
      Wds(Session(clientIPv4, eventReportIPv4, serviceStatusIPv4, handleIPv4, startingIPv4, stoppingIPv4),
          Session(clientIPv6, eventReportIPv6, serviceStatusIPv6, handleIPv6, startingIPv6, stoppingIPv6),
          currentRat)
    }
  }

  class StartTask {
    const context: NetworkContext
    const family: Family
    const callback: bool
    var currentStep: nat
    var pending: Option<Request>
    var references: nat

    constructor (context: NetworkContext, family: Family, callback: bool)
      ensures this.context == context && this.family == family && this.callback == callback
      ensures currentStep == START_BEGIN && Running()
    {
      this.context, this.family, this.callback := context, family, callback;
      currentStep, pending, references := START_BEGIN, None, 1;
    }

    ghost predicate Running()
      reads this
    {
      pending.None? && references == 1
    }

    ghost predicate Valid()
      reads this
    {
      if pending.Some? then references == 1 && !pending.value.StopNetwork? && currentStep == StepOf(pending.value)
      else references == 0
    }

    ghost function View(): Progress
      reads this, context
    {
      Progress(context.View(), pending, context.log)
    }

    method Send(q: Request)
      requires Running() && !q.StopNetwork? && currentStep == StepOf(q)
      modifies this`pending, context`log
      ensures Valid() && View() == Asking(old(context.View()), old(context.log), family, q)
    {
      var client := if q == AllocateClient then None
                    else if family == IPv4 then context.clientIPv4 else context.clientIPv6;
      pending, context.log := Some(q), context.log + [Ask(q, client)];
    }

    /** The switch of the start machine. */
    method Step()
      requires Running() && START_BEGIN <= currentStep <= START_END
      modifies this, context
      ensures Valid() && currentStep >= old(currentStep)
      ensures var w, log := old(context.View()), old(context.log);
              View() == if old(currentStep) <= START_ALLOCATE then Opening(w, log, family)
                        else if old(currentStep) == START_CONFIGURE then Asking(w, log, family, SetIpFamily)
                        else if old(currentStep) == START_REGISTER then Asking(w, log, family, RegisterEvents)
                        else if old(currentStep) == START_NETWORK then Asking(w, log, family, StartNetwork)
                        else if old(currentStep) == START_LEASE then Asking(w, log, family, GetLease)
                        else if old(currentStep) == START_RAT then Asking(w, log, family, GetTechnology)
                        else StartDone(w, log, family)
    {
      if currentStep == START_BEGIN {
        currentStep := currentStep + 1;
      }
      if currentStep == START_ALLOCATE {
        if (family == IPv4 && context.clientIPv4.None?) || (family == IPv6 && context.clientIPv4.None?) {
          Send(AllocateClient);
          return;
        }
        currentStep := currentStep + 1;
      }
      if currentStep == START_CONFIGURE {
        Send(SetIpFamily);
      } else if currentStep == START_REGISTER {
        Send(RegisterEvents);
      } else if currentStep == START_NETWORK {
        Send(StartNetwork);
      } else if currentStep == START_LEASE {
        Send(GetLease);
      } else if currentStep == START_RAT {
        Send(GetTechnology);
      } else {
        if family == IPv4 {
          context.startingIPv4 := false;
        } else {
          context.startingIPv6 := false;
        }
        currentStep := currentStep + 1;
        references, context.log := references - 1, context.log + [Release];
      }
    }

    /** The request to start: the flag goes up and the machine is entered. */
    method Begin()
      requires Running() && currentStep == START_BEGIN
      modifies this, context
      ensures Valid() && View() == BeginStart(old(context.View()), old(context.log), family)
    {
      if family == IPv4 {
        context.startingIPv4 := true;
      }
      if family == IPv6 {
        context.startingIPv6 := true;
      }
      Step();
    }

    /** The completion of the request in flight, by the callback it was sent with. */
    method Complete(r: Reply)
      requires Valid() && pending.Some?
      modifies this, context
      ensures Valid() && View() == StartAnswered(old(View()), family, callback, r)
      ensures currentStep > old(currentStep)
    {
      var request := pending.value;
      pending, context.log := None, context.log + [Answer(r)];
      match request {
        case AllocateClient => OnClientAllocated(r);
        case SetIpFamily => OnIpFamilySet(r);
        case RegisterEvents => OnEventsEnabled(r);
        case StartNetwork => OnNetworkStarted(r);
        case GetLease => OnLease(r);
        case GetTechnology => OnTechnology(r);
      }
    }

    /** A run of the machine under a script of completions. */
    method Run(replies: seq<Reply>)
      requires Valid()
      modifies this, context
      ensures Valid() && View() == StartRun(old(View()), family, callback, replies)
      decreases |replies|
    {
      if pending.Some? && replies != [] {
        Complete(replies[0]);
        Run(replies[1..]);
      }
    }

    method Advance()
      requires Running() && START_ALLOCATE <= currentStep <= START_RAT
      modifies this, context
      ensures Valid() && currentStep > old(currentStep)
      ensures var w, log := old(context.View()), old(context.log);
              View() == if old(currentStep) == START_ALLOCATE then Asking(w, log, family, SetIpFamily)
                        else if old(currentStep) == START_CONFIGURE then Asking(w, log, family, RegisterEvents)
                        else if old(currentStep) == START_REGISTER then Asking(w, log, family, StartNetwork)
                        else if old(currentStep) == START_NETWORK then Asking(w, log, family, GetLease)
                        else if old(currentStep) == START_LEASE then Asking(w, log, family, GetTechnology)
                        else StartDone(w, log, family)
    {
      currentStep := currentStep + 1;
      Step();
    }

    method JumpToEnd()
      requires Running() && START_ALLOCATE <= currentStep <= START_RAT
      modifies this, context
      ensures Valid() && currentStep > old(currentStep)
      ensures View() == StartDone(old(context.View()), old(context.log), family)
    {
      currentStep := START_END;
      Step();
    }

    method OnClientAllocated(r: Reply)
      requires Running() && currentStep == START_ALLOCATE
      modifies this, context
      ensures Valid() && currentStep > old(currentStep)
      ensures var w, log := old(context.View()), old(context.log);
              View() == if !r.ok then StartDone(w, log, family)
                        else Asking(w.With(family, w.Of(family).(client := Some(r.client))), log, family, SetIpFamily)
    {
      if !r.ok {
        JumpToEnd();
        return;
      }
      if family == IPv4 {
        context.clientIPv4 := Some(r.client);
      } else if family == IPv6 {
        context.clientIPv6 := Some(r.client);
      }
      Advance();
    }

    method OnIpFamilySet(r: Reply)
      requires Running() && currentStep == START_CONFIGURE
      modifies this, context
      ensures Valid() && currentStep > old(currentStep)
      ensures var w, log := old(context.View()), old(context.log);
              View() == if !r.ok then StartDone(w, log, family) else Asking(w, log, family, RegisterEvents)
    {
      if !r.ok {
        JumpToEnd();
        return;
      }
      Advance();
    }

    method OnEventsEnabled(r: Reply)
      requires Running() && currentStep == START_REGISTER
      modifies this, context
      ensures Valid() && currentStep > old(currentStep)
      ensures var w, log := old(context.View()), old(context.log);
              var s := w.Of(family).(eventId := if r.ok then r.eventId else INVALID_EVENT, serviceId := r.serviceId);
              View() == Asking(w.With(family, s), log, family, StartNetwork)
    {
      if family == IPv4 {
        context.eventReportIPv4 := if r.ok then r.eventId else INVALID_EVENT;
        context.serviceStatusIPv4 := r.serviceId;
      } else {
        context.eventReportIPv6 := if r.ok then r.eventId else INVALID_EVENT;
        context.serviceStatusIPv6 := r.serviceId;
      }
      Advance();
    }

    method OnNetworkStarted(r: Reply)
      requires Running() && currentStep == START_NETWORK
      modifies this, context
      ensures Valid() && currentStep > old(currentStep)
      ensures var w, s, log := old(context.View()), old(context.View()).Of(family), old(context.log);
              View() == if r.ok then Asking(w.With(family, s.(handle := r.handle.GetOr(s.handle))), log, family, GetLease)
                        else if callback
                        then StartDone(w.With(family, s.(handle := INVALID_HANDLE)), log + [Notify(IpNotReady)], family)
                        else StartDone(w, log, family)
    {
      if !r.ok {
        if callback {
          if family == IPv4 {
            context.handleIPv4 := INVALID_HANDLE;
          } else {
            context.handleIPv6 := INVALID_HANDLE;
          }
          context.log := context.log + [Notify(IpNotReady)];
        }
        JumpToEnd();
      } else {
        if r.handle.Some? {
          if family == IPv4 {
            context.handleIPv4 := r.handle.value;
          } else {
            context.handleIPv6 := r.handle.value;
          }
        }
        Advance();
      }
    }

    method OnLease(r: Reply)
      requires Running() && currentStep == START_LEASE
      modifies this, context
      ensures Valid() && currentStep > old(currentStep)
      ensures var w, log := old(context.View()), old(context.log);
              View() == if !r.ok then StartDone(w, log, family)
                        else Asking(w, if callback then log + [Notify(IpReady)] else log, family, GetTechnology)
    {
      if !r.ok {
        JumpToEnd();
        return;
      }
      if callback {
        context.log := context.log + [Notify(IpReady)];
      }
      Advance();
    }

    method OnTechnology(r: Reply)
      requires Running() && currentStep == START_RAT
      modifies this, context
      ensures Valid() && currentStep > old(currentStep)
      ensures var w, log := old(context.View()), old(context.log);
              View() == StartDone(if r.ok then w.(rat := r.technology) else w, log, family)
    {
      if !r.ok {
        JumpToEnd();
        return;
      }
      context.currentRat := r.technology;
      Advance();
    }
  }

  class StopTask {
    const context: NetworkContext
    const family: Family
    var currentStep: nat
    var pending: Option<Request>
    var references: nat

    constructor (context: NetworkContext, family: Family)
      ensures this.context == context && this.family == family && currentStep == STOP_BEGIN && Running()
    {
      this.context, this.family := context, family;
      currentStep, pending, references := STOP_BEGIN, None, 1;
    }

    ghost predicate Running()
      reads this
    {
      pending.None? && references == 1
    }

    ghost predicate Valid()
      reads this
    {
      if pending.Some? then references == 1 && pending.value.StopNetwork? && currentStep == STOP_NETWORK
      else references == 0
    }

    ghost function View(): Progress
      reads this, context
    {
      Progress(context.View(), pending, context.log)
    }

    // Events are dropped before the network is stopped; the else branches do not look at the family.
    method DeregisterEvents()
      modifies context
      ensures var w := old(context.View());
              && context.View() == Deregistered(w, family)
              && context.log == old(context.log) + Dropped(w, family)
    {
      if family == IPv4 && context.eventReportIPv4 != INVALID_EVENT {
        context.log := context.log + [Disconnect(IPv4, context.eventReportIPv4)];
        context.eventReportIPv4 := INVALID_EVENT;
      } else {
        if context.eventReportIPv6 != INVALID_EVENT {
          context.log := context.log + [Disconnect(IPv6, context.eventReportIPv6)];
          context.eventReportIPv6 := INVALID_EVENT;
        }
      }
      if family == IPv4 && context.serviceStatusIPv4 != INVALID_EVENT {
        context.log := context.log + [Disconnect(IPv4, context.serviceStatusIPv4)];
        context.serviceStatusIPv4 := INVALID_EVENT;
      } else {
        if context.serviceStatusIPv6 != INVALID_EVENT {
          context.log := context.log + [Disconnect(IPv6, context.serviceStatusIPv6)];
          context.serviceStatusIPv6 := INVALID_EVENT;
        }
      }
    }

    method StopNetworkBlock() returns (suspended: bool)
      requires Running() && currentStep == STOP_NETWORK
      modifies this`pending, context`log
      ensures var w, log := old(context.View()), old(context.log);
              && suspended == NetworkVictim(w, family).Some?
              && context.View() == w
              && (suspended ==>
                    var g := NetworkVictim(w, family).value;
                    Valid() && pending == Some(StopNetwork(g, w.Of(g).handle))
                    && context.log == log + [Ask(StopNetwork(g, w.Of(g).handle), w.Of(g).client)])
              && (!suspended ==> Running() && context.log == log)
    {
      if family == IPv4 && context.handleIPv4 != INVALID_HANDLE {
        var q := StopNetwork(IPv4, context.handleIPv4);
        pending, context.log := Some(q), context.log + [Ask(q, context.clientIPv4)];
        return true;
      } else {
        if context.handleIPv6 != INVALID_HANDLE {
          var q := StopNetwork(IPv6, context.handleIPv6);
          pending, context.log := Some(q), context.log + [Ask(q, context.clientIPv6)];
          return true;
        }
      }
      return false;
    }

    // Giving the client back, and forgetting the technology with the last one.
    method GiveBackClient()
      modifies context
      ensures var w := old(context.View());
              && context.View() == Freed(w, family)
              && context.log == old(context.log) + GivenBack(w, family)
    {
      if family == IPv4 {
        if context.clientIPv4.Some? {
          context.log := context.log + [ReleaseClient(IPv4, context.clientIPv4.value)];
          context.clientIPv4 := None;
        }
      } else {
        if context.clientIPv6.Some? {
          context.log := context.log + [ReleaseClient(IPv6, context.clientIPv6.value)];
          context.clientIPv6 := None;
        }
      }
      if context.clientIPv6.None? && context.clientIPv4.None? {
        context.currentRat := "";
      }
    }

    // The last two blocks, into which every stop falls.
    method ReleaseBlocks()
      requires Running()
      modifies this, context
      ensures Valid() && currentStep > old(currentStep)
      ensures View() == StopDone(old(context.View()), old(context.log), family)
    {
      GiveBackClient();
      currentStep := currentStep + 1;
      if family == IPv4 {
        context.stoppingIPv4 := false;
      } else {
        context.stoppingIPv6 := false;
      }
      currentStep := currentStep + 1;
      references, context.log := references - 1, context.log + [Release];
    }

    /** The request to stop; it is ignored while a stop of the family is in progress. */
    method Begin() returns (accepted: bool)
      requires Running() && currentStep == STOP_BEGIN
      modifies this, context
      ensures accepted == !old(context.View()).Of(family).stopping
      ensures accepted ==> Valid() && View() == BeginStop(old(context.View()), old(context.log), family)
      ensures !accepted ==> context.View() == old(context.View()) && context.log == old(context.log)
    {
      if family == IPv4 && context.stoppingIPv4 { return false; }
      if family == IPv6 && context.stoppingIPv6 { return false; }
      if family == IPv4 {
        context.stoppingIPv4 := true;
      }
      if family == IPv6 {
        context.stoppingIPv6 := true;
      }
      currentStep := currentStep + 1;
      DeregisterEvents();
      currentStep := currentStep + 1;
      var suspended := StopNetworkBlock();
      if !suspended {
        currentStep := currentStep + 1;
        ReleaseBlocks();
      }
      return true;
    }

    /** The stop request has completed. */
    method Complete(r: Reply)
      requires Valid() && pending.Some?
      modifies this, context
      ensures Valid() && currentStep > old(currentStep)
      ensures View() == StopAnswered(old(View()), family, r)
    {
      pending, context.log := None, context.log + [Answer(r)];
      if family == IPv4 {
        context.handleIPv4 := INVALID_HANDLE;
      } else {
        context.handleIPv6 := INVALID_HANDLE;
      }
      currentStep := currentStep + 1;
      ReleaseBlocks();
    }
  }
}
