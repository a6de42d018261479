/**
 * The connectivity observer: a reachability flag set is classified into one of
 * three statuses, the observer caches the last status and tells its delegate
 * about every event.
 */
module Reachability {
  import opened Wrappers

  /** The statuses the observer reports. */
  datatype NetworkStatus = Unreachable | ReachableWiFi | ReachableCellular

  /**
   * The named bits of a platform reachability flag set. `Other` stands for
   * any bit the platform may add that has no name here.
   */
  datatype ReachabilityFlag =
    | TransientConnection
    | Reachable
    | ConnectionRequired
    | ConnectionOnTraffic
    | InterventionRequired
    | ConnectionOnDemand
    | IsLocalAddress
    | IsDirect
    | IsWWAN
    | Other(bit: nat)

  /** A flag set is the set of bits that are on. */
  type Flags = set<ReachabilityFlag>

  /** The only bits the classification looks at. */
  const InspectedBits: Flags := {Reachable, ConnectionOnTraffic, IsWWAN}

  /**
   * The status a flag set stands for: reachable only when `Reachable` is on
   * and `ConnectionOnTraffic` is off, and then cellular exactly when `IsWWAN`
   * is on.
   */
  function Classify(flags: Flags): (status: NetworkStatus)
    ensures status != Unreachable <==> Reachable in flags && ConnectionOnTraffic !in flags
    ensures status == ReachableCellular <==> status != Unreachable && IsWWAN in flags
  {
    if Reachable !in flags then Unreachable
    else if ConnectionOnTraffic in flags then Unreachable
    else if IsWWAN in flags then ReachableCellular
    else ReachableWiFi
  }

  lemma UnreachableWithoutReachable(flags: Flags)
    requires Reachable !in flags
    ensures Classify(flags) == Unreachable
  {
  }

  lemma ConnectionOnTrafficOverridesWWAN(flags: Flags)
    requires Reachable in flags && ConnectionOnTraffic in flags
    ensures Classify(flags) == Unreachable
  {
  }

  lemma CellularWhenWWAN(flags: Flags)
    requires Reachable in flags && ConnectionOnTraffic !in flags && IsWWAN in flags
    ensures Classify(flags) == ReachableCellular
  {
  }

  lemma WiFiOtherwise(flags: Flags)
    requires Reachable in flags && ConnectionOnTraffic !in flags && IsWWAN !in flags
    ensures Classify(flags) == ReachableWiFi
  {
  }

  /** Flag sets that agree on the three inspected bits classify alike. */
  lemma ClassifyReadsOnlyInspectedBits(f: Flags, g: Flags)
    requires f * InspectedBits == g * InspectedBits
    ensures Classify(f) == Classify(g)
  {
    assert Reachable in f <==> Reachable in f * InspectedBits;
    assert ConnectionOnTraffic in f <==> ConnectionOnTraffic in f * InspectedBits;
    assert IsWWAN in f <==> IsWWAN in f * InspectedBits;
  }

  /** The identity of a delegate object. */
  type ListenerId = nat

  /** One call of the delegate's `networkStatusChanged`, with the status it carried. */
  datatype Notification = Notification(listener: ListenerId, newStatus: NetworkStatus)

  /** What an observer shows from outside: its cached status and the notifications sent so far. */
  datatype Observed = Observed(status: NetworkStatus, sent: seq<Notification>)

  /** The notifications one status change sends: one to the delegate if there is one, none otherwise. */
  function Notify(delegate: Option<ListenerId>, status: NetworkStatus): (out: seq<Notification>)
    ensures delegate.None? ==> out == []
    ensures delegate.Some? ==> |out| == 1 && out[0].listener == delegate.value && out[0].newStatus == status
  {
    match delegate
    case None => []
    case Some(l) => [Notification(l, status)]
  }

  /** One flag-change event: the flags are classified, cached and reported, with no suppression of repeats. */
  function OnEvent(o: Observed, delegate: Option<ListenerId>, flags: Flags): (r: Observed)
    ensures r.status == Classify(flags)
    ensures |r.sent| == |o.sent| + (if delegate.Some? then 1 else 0)
    ensures r.sent[..|o.sent|] == o.sent
    ensures delegate.Some? ==> r.sent[|o.sent|] == Notification(delegate.value, Classify(flags))
  {
    Observed(Classify(flags), o.sent + Notify(delegate, Classify(flags)))
  }

  /** The events of a run, delivered in order, to an observer whose delegate does not change. */
  function Replay(o: Observed, delegate: Option<ListenerId>, events: seq<Flags>): (r: Observed)
    ensures events != [] ==> r.status == Classify(events[|events| - 1])
    ensures |o.sent| <= |r.sent|
    ensures r.sent[..|o.sent|] == o.sent
    decreases |events|
  {
    if events == [] then o
    else OnEvent(Replay(o, delegate, events[..|events| - 1]), delegate, events[|events| - 1])
  }

  /**
   * N events send N notifications to a delegate, in event order, each
   * carrying that event's classification; without a delegate nothing is
   * sent. The cached status is that of the last event.
   */
  lemma {:induction false} ReplayNotifiesEveryEvent(o: Observed, delegate: Option<ListenerId>, events: seq<Flags>)
    ensures var r := Replay(o, delegate, events);
      r.status == (if events == [] then o.status else Classify(events[|events| - 1])) &&
      |r.sent| == |o.sent| + (if delegate.Some? then |events| else 0) &&
      r.sent[..|o.sent|] == o.sent &&
      forall i :: 0 <= i < |events| && delegate.Some? ==>
        r.sent[|o.sent| + i] == Notification(delegate.value, Classify(events[i]))
  {
    if events != [] {
      var init := events[..|events| - 1];
      ReplayNotifiesEveryEvent(o, delegate, init);
      var p := Replay(o, delegate, init);
      var r := Replay(o, delegate, events);
      assert r == OnEvent(p, delegate, events[|events| - 1]);
      assert r.sent[..|p.sent|] == p.sent;
      forall i | 0 <= i < |events| && delegate.Some?
        ensures r.sent[|o.sent| + i] == Notification(delegate.value, Classify(events[i]))
      {
        if i < |init| {
          assert r.sent[|o.sent| + i] == p.sent[|o.sent| + i];
          assert events[i] == init[i];
        }
      }
    }
  }

  /**
   * The platform delivering a run of flag-change events to an observer, one
   * callback (and so one `ParseFlags`) per event, in order.
   */
  method DeliverEvents(n: NetworkReachability, events: seq<Flags>)
    modifies n`currentStatus, n`notifications
    ensures n.State() == Replay(old(n.State()), n.delegate, events)
  {
    ghost var start := n.State();
    var i := 0;
    while i < |events|
      invariant 0 <= i <= |events|
      invariant n.State() == Replay(start, n.delegate, events[..i])
    {
      assert events[..i + 1][..i] == events[..i];
      n.ParseFlags(events[i]);
      i := i + 1;
    }
    assert events[..i] == events;
  }

  /** The host the observer watches. */
  const TargetHost := "airwave1.exurion.com"

  /** The platform's reachability handle for a host. */
  datatype Handle = Handle(host: string)

  /**
   * A connectivity observer. The delegate is a slot for at most one
   * listener; `notifications` records every call made to it.
   */
  class NetworkReachability {
    const reachability: Handle
    var delegate: Option<ListenerId>
    var currentStatus: NetworkStatus
    ghost var notifications: seq<Notification>

    ghost function State(): Observed
      reads this
    {
      Observed(currentStatus, notifications)
    }

    /** A fresh observer is unreachable, has no delegate and has sent nothing. */
    constructor (handle: Handle)
      ensures reachability == handle && delegate == None
      ensures State() == Observed(Unreachable, [])
    {
      reachability := handle;
      delegate := None;
      currentStatus := Unreachable;
      notifications := [];
    }

    /** Replaces the delegate; the status and the notifications sent so far stay. */
    method SetDelegate(listener: Option<ListenerId>)
      modifies this`delegate
      ensures delegate == listener
    {
      delegate := listener;
    }

    /** Classifies a flag set and passes the status on to `StatusChanged`. */
    method ParseFlags(flags: Flags)
      modifies this`currentStatus, this`notifications
      ensures State() == OnEvent(old(State()), delegate, flags)
    {
      var status := Unreachable;
      if Reachable in flags {
        if ConnectionOnTraffic !in flags {
          status := ReachableWiFi;
          if IsWWAN in flags {
            status := ReachableCellular;
          }
        }
      }
      StatusChanged(status);
    }

    /** Caches the status and notifies the delegate, if any, even when the status did not change. */
    method StatusChanged(status: NetworkStatus)
      modifies this`currentStatus, this`notifications
      ensures currentStatus == status
      ensures notifications == old(notifications) + Notify(delegate, status)
    {
      currentStatus := status;
      if delegate.Some? {
        notifications := notifications + [Notification(delegate.value, status)];
      }
    }
  }

  /**
   * The failable initialiser: `lookup` is what the platform answered when
   * asked for a handle to `TargetHost`. No handle, no observer.
   */
  method Create(lookup: Option<Handle>) returns (r: Option<NetworkReachability>)
    requires lookup.Some? ==> lookup.value.host == TargetHost
    ensures r.Some? <==> lookup.Some?
    ensures r.Some? ==> fresh(r.value) && r.value.reachability == lookup.value
    ensures r.Some? ==> r.value.delegate == None && r.value.State() == Observed(Unreachable, [])
  {
    match lookup
    case None =>
      r := None;
    case Some(h) =>
      var n := new NetworkReachability(h);
      r := Some(n);
  }
}
