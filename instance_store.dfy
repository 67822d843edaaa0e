/** The client's view of "the one instance" (handlers/www/assets/app-simplified.js):
    `$scope.instance`, the instance objects it has pointed at, and the pending
    `$timeout` callbacks that hold on to one of those objects (`setupInstance`
    50 ms after `instance new`, and the DOM-ready wait of
    `TerminalService.attachTerminal`). JavaScript object references are the
    keys of `heap`; a callback that captured an object keeps its key even
    after `$scope.instance` has moved on. */
module InstanceStore {
  import opened JsValues
  import opened Instances

  type Ref = nat

  /** A pending `$timeout` callback and the instance object it captured. */
  datatype Timer = Setup(ref: Ref) | DomReady(ref: Ref)

  class Store {
    var instance: Option<Ref>
    var heap: map<Ref, InstanceRec>
    var nextRef: Ref
    var timers: seq<Timer>

    ghost predicate Valid()
      reads this
    {
      && (instance.Some? ==> instance.value in heap)
      && (forall r :: r in heap ==> r < nextRef)
      && (forall k :: 0 <= k < |timers| ==> timers[k].ref in heap)
      && (forall k :: 0 <= k < |timers| && timers[k].DomReady? ==> heap[timers[k].ref].term.Some?)
    }

    constructor ()
      ensures Valid() && instance == None && heap == map[] && timers == []
    {
      instance := None;
      heap := map[];
      nextRef := 0;
      timers := [];
    }

    /** The record `$scope.instance` points at, if any. */
    function Current(): Option<InstanceRec>
      reads this
      requires Valid()
    {
      if instance.None? then None else Some(heap[instance.value])
    }

    /** `$scope.instance && $scope.instance.name === name`. */
    predicate Matches(name: Value)
      reads this
      requires Valid()
    {
      instance.Some? && heap[instance.value].name == name
    }

    // ----- What each socket callback does to the store -----

    /** Nothing but the records in `heap` changed. */
    twostate predicate OnlyHeap()
      reads this
    {
      instance == old(instance) && nextRef == old(nextRef) && timers == old(timers)
    }

    /** After `instance new`: a fresh object replaces the current one
        wholesale, and `setupInstance` on that object is queued. */
    twostate predicate InstanceAdded(name: Value, ip: Value, hostname: Value, proxyHost: Value)
      reads this
    {
      && instance == Some(old(nextRef)) && old(nextRef) !in old(heap)
      && heap == old(heap)[old(nextRef) := Created(name, ip, hostname, proxyHost)]
      && nextRef == old(nextRef) + 1
      && timers == old(timers) + [Setup(old(nextRef))]
    }

    /** After `instance delete`: the instance is forgotten exactly when its name matches. */
    twostate predicate InstanceDeleted(name: Value)
      requires old(Valid())
      reads this
    {
      && instance == (if old(Matches(name)) then None else old(instance))
      && heap == old(heap) && nextRef == old(nextRef) && timers == old(timers)
    }

    /** After `instance terminal status`: last write wins, on a name match only. */
    twostate predicate StatusSet(name: Value, status: Value)
      requires old(Valid())
      reads this
    {
      && OnlyHeap()
      && (old(Matches(name)) ==>
            heap == old(heap)[instance.value := old(heap)[instance.value].(status := status)])
      && (!old(Matches(name)) ==> heap == old(heap))
    }

    /** After `instance stats`: with an instance, reading `stats.instance`
        throws on `null` and `undefined`; on a match cpu and mem are taken. */
    twostate predicate StatsApplied(stats: Value, threw: bool)
      requires old(Valid())
      reads this
    {
      && OnlyHeap()
      && (threw <==> instance.Some? && Prop(stats, "instance").None?)
      && (!threw && instance.Some? && Prop(stats, "instance") == Some(old(heap)[instance.value].name) ==>
            heap == old(heap)[instance.value := old(heap)[instance.value].(mem := Prop(stats, "mem").value,
                                                                             cpu := Prop(stats, "cpu").value)])
      && (threw || instance.None? || Prop(stats, "instance") != Some(old(heap)[instance.value].name) ==>
            heap == old(heap))
    }

    /** After `instance terminal out`: on a name match the output is buffered
        or written to the terminal. */
    twostate predicate OutputDelivered(name: Value, data: Value)
      requires old(Valid())
      reads this
    {
      && OnlyHeap()
      && (old(Matches(name)) ==>
            heap == old(heap)[instance.value := OutputArrived(old(heap)[instance.value], ToJsString(data))])
      && (!old(Matches(name)) ==> heap == old(heap))
    }

    /** After `instance port`: on a name match the port is added unless listed. */
    twostate predicate PortAdded(instanceName: Value, port: Value)
      requires old(Valid())
      reads this
    {
      && OnlyHeap()
      && (old(Matches(instanceName)) ==>
            heap == old(heap)[instance.value := old(heap)[instance.value].(ports := AddUnique(old(heap)[instance.value].ports, port))])
      && (!old(Matches(instanceName)) ==> heap == old(heap))
    }

    /** After `instance swarm port`: the same rule for the swarm-exposed list. */
    twostate predicate SwarmPortAdded(instanceName: Value, port: Value)
      requires old(Valid())
      reads this
    {
      && OnlyHeap()
      && (old(Matches(instanceName)) ==>
            heap == old(heap)[instance.value := old(heap)[instance.value].(swarmPorts := AddUnique(old(heap)[instance.value].swarmPorts, port))])
      && (!old(Matches(instanceName)) ==> heap == old(heap))
    }

    /** After `instance viewport resize`: the current record, if any, is
        `ViewportResized`; with a zero dimension or no instance nothing changes. */
    twostate predicate ViewportResizeApplied(cols: Value, rows: Value)
      reads this
    {
      && OnlyHeap()
      && (instance.Some? ==>
            && instance.value in old(heap)
            && heap == old(heap)[instance.value := ViewportResized(old(heap)[instance.value], cols, rows)])
      && (instance.None? || LooselyZero(cols) || LooselyZero(rows) ==> heap == old(heap))
    }

    // ----- The callbacks -----

    /** `instance new`. */
    method InstanceNew(name: Value, ip: Value, hostname: Value, proxyHost: Value)
      requires Valid()
      modifies this
      ensures Valid() && InstanceAdded(name, ip, hostname, proxyHost)
    {
      var r := nextRef;
      heap := heap[r := Created(name, ip, hostname, proxyHost)];
      nextRef := nextRef + 1;
      instance := Some(r);
      timers := timers + [Setup(r)];
    }

    /** `instance delete`. */
    method InstanceDelete(name: Value)
      requires Valid()
      modifies this`instance
      ensures Valid() && InstanceDeleted(name)
    {
      if instance.Some? && heap[instance.value].name == name {
        instance := None;
      }
    }

    /** `instance terminal status`. */
    method TerminalStatus(name: Value, status: Value)
      requires Valid()
      modifies this`heap
      ensures Valid() && StatusSet(name, status)
    {
      if instance.Some? && heap[instance.value].name == name {
        var r := instance.value;
        heap := heap[r := heap[r].(status := status)];
      }
    }

    /** `instance stats`: `stats.instance` is read only when there is an instance. */
    method InstanceStats(stats: Value) returns (threw: bool)
      requires Valid()
      modifies this`heap
      ensures Valid() && StatsApplied(stats, threw)
    {
      threw := false;
      if instance.Some? {
        var tag := Prop(stats, "instance");
        if tag.None? {
          threw := true;
          return;
        }
        var r := instance.value;
        if heap[r].name == tag.value {
          heap := heap[r := heap[r].(mem := Prop(stats, "mem").value)];
          heap := heap[r := heap[r].(cpu := Prop(stats, "cpu").value)];
        }
      }
    }

    /** `instance terminal out`. */
    method TerminalOut(name: Value, data: Value)
      requires Valid()
      modifies this`heap
      ensures Valid() && OutputDelivered(name, data)
    {
      if instance.Some? && heap[instance.value].name == name {
        var r := instance.value;
        var rec := heap[r];
        if rec.term.None? {
          heap := heap[r := rec.(buffer := Some(Appended(rec.buffer, ToJsString(data))))];
        } else {
          heap := heap[r := rec.(term := Some(Write(rec.term.value, ToJsString(data))))];
        }
      }
    }

    /** `instance port`. */
    method InstancePort(sessionId: Value, instanceName: Value, port: Value)
      requires Valid()
      modifies this`heap
      ensures Valid() && PortAdded(instanceName, port)
    {
      if instance.Some? && heap[instance.value].name == instanceName {
        var r := instance.value;
        if port !in heap[r].ports {
          heap := heap[r := heap[r].(ports := heap[r].ports + [port])];
        }
      }
    }

    /** `instance swarm port`. */
    method SwarmPort(sessionId: Value, instanceName: Value, port: Value)
      requires Valid()
      modifies this`heap
      ensures Valid() && SwarmPortAdded(instanceName, port)
    {
      if instance.Some? && heap[instance.value].name == instanceName {
        var r := instance.value;
        if port !in heap[r].swarmPorts {
          heap := heap[r := heap[r].(swarmPorts := heap[r].swarmPorts + [port])];
        }
      }
    }

    /** `instance viewport resize`: ignored for a zero dimension; otherwise
        resizes the current terminal, if any, and flushes a non-empty buffer. */
    method ViewportResize(cols: Value, rows: Value)
      requires Valid()
      modifies this`heap
      ensures Valid() && ViewportResizeApplied(cols, rows)
    {
      if LooselyZero(cols) || LooselyZero(rows) {
        return;
      }
      if instance.Some? && heap[instance.value].term.Some? {
        var r := instance.value;
        var rec := heap[r];
        rec := rec.(term := Some(rec.term.value.(size := Some((cols, rows)))));
        if rec.buffer.Some? && rec.buffer.value != "" {
          rec := rec.(term := Some(Write(rec.term.value, rec.buffer.value)), buffer := Some(""));
        }
        assert rec == ViewportResized(heap[r], cols, rows);
        heap := heap[r := rec];
      }
    }

    /** `setupInstance` / `attachTerminal` on object `r`: when it has no
        terminal yet, create one at once and schedule the DOM-ready wait. */
    method SetupInstance(r: Ref)
      requires Valid() && r in heap
      modifies this`heap, this`timers
      ensures Valid()
      ensures old(heap)[r].term.Some? ==> heap == old(heap) && timers == old(timers)
      ensures old(heap)[r].term.None? ==>
        heap == old(heap)[r := TermCreated(old(heap)[r])] && timers == old(timers) + [DomReady(r)]
    {
      if heap[r].term.None? {
        heap := heap[r := heap[r].(term := Some(NewTerm))];
        timers := timers + [DomReady(r)];
      }
    }

    /** One pending callback fires. A `Setup` runs `setupInstance` on the
        object it captured; a `DomReady` opens that object's terminal, flushes
        its buffer and wires its input when the page element was found, and
        only logs otherwise. `$scope.instance` never changes. */
    method FireTimer(k: nat, containerFound: bool)
      requires Valid() && k < |timers|
      modifies this`heap, this`timers
      ensures Valid()
      ensures var t := old(timers)[k]; var rest := old(timers)[..k] + old(timers)[k + 1..];
        match t
        case Setup(r) =>
          if old(heap)[r].term.None? then
            heap == old(heap)[r := TermCreated(old(heap)[r])] && timers == rest + [DomReady(r)]
          else heap == old(heap) && timers == rest
        case DomReady(r) =>
          timers == rest && heap == (if containerFound then old(heap)[r := TermReady(old(heap)[r])] else old(heap))
    {
      var t := timers[k];
      var rest := timers[..k] + timers[k + 1..];
      assert forall j :: 0 <= j < |rest| ==> rest[j] == (if j < k then timers[j] else timers[j + 1]);
      timers := rest;
      match t
      case Setup(r) =>
        SetupInstance(r);
      case DomReady(r) =>
        if containerFound {
          heap := heap[r := TermReady(heap[r])];
        }
    }

    /** `getSession` found an instance: install the server's record as a new
        object and run `setupInstance` on it immediately. */
    method Load(s: ServerInstance)
      requires Valid()
      modifies this
      ensures Valid()
      ensures instance == Some(old(nextRef)) && nextRef == old(nextRef) + 1
      ensures heap == old(heap)[old(nextRef) := TermCreated(FromServer(s))]
      ensures timers == old(timers) + [DomReady(old(nextRef))]
    {
      var r := nextRef;
      heap := heap[r := FromServer(s)];
      nextRef := nextRef + 1;
      instance := Some(r);
      SetupInstance(r);
    }
  }
}
