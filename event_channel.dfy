/** The publish/subscribe layer the client builds on its raw socket
    (handlers/www/assets/app-simplified.js, `connect`): a dictionary from event
    name to the callbacks registered for it, an `emit` that packs a name and
    positional arguments into one frame, and the lookup the `open`, `close`
    and `message` listeners use to find the callbacks to run. */
module EventChannel {
  import opened JsValues

  /** One wire message `{name, args}`. */
  datatype Frame = Frame(name: string, args: seq<Value>)

  /** `socket.listeners[name]`, or no callbacks when the name was never registered. */
  function HandlersFor<H>(registry: map<string, seq<H>>, name: string): seq<H> {
    if name in registry then registry[name] else []
  }

  /** The dictionary after `on(name, h)`: `h` is appended to the list for `name`
      and every other list is left alone. */
  function Register<H>(registry: map<string, seq<H>>, name: string, h: H): (r: map<string, seq<H>>)
    ensures forall x :: HandlersFor(r, x) == HandlersFor(registry, x) + (if x == name then [h] else [])
    ensures r.Keys == registry.Keys + {name}
  {
    registry[name := HandlersFor(registry, name) + [h]]
  }

  /** The dictionary built by a sequence of `on` calls, oldest first. */
  function Build<H>(log: seq<(string, H)>): map<string, seq<H>>
    decreases |log|
  {
    if log == [] then map[] else
      var last := log[|log| - 1];
      Register(Build(log[..|log| - 1]), last.0, last.1)
  }

  /** Reference definition: the callbacks registered for `name`, in registration order. */
  function Named<H>(log: seq<(string, H)>, name: string): seq<H>
    decreases |log|
  {
    if log == [] then []
    else Named(log[..|log| - 1], name) + (if log[|log| - 1].0 == name then [log[|log| - 1].1] else [])
  }

  /** Looking a name up in the dictionary gives exactly the callbacks that were
      registered for that name, in the order they were registered. */
  lemma {:induction false} BuildMatchesLog<H>(log: seq<(string, H)>, name: string)
    ensures HandlersFor(Build(log), name) == Named(log, name)
    decreases |log|
  {
    if log != [] {
      BuildMatchesLog(log[..|log| - 1], name);
    }
  }

  /** A name nobody registered has no callbacks, so a frame carrying it runs nothing. */
  lemma {:induction false} UnregisteredNameHasNoHandlers<H>(log: seq<(string, H)>, name: string)
    requires forall k :: 0 <= k < |log| ==> log[k].0 != name
    ensures HandlersFor(Build(log), name) == []
    decreases |log|
  {
    BuildMatchesLog(log, name);
    if log != [] {
      UnregisteredNameHasNoHandlers(log[..|log| - 1], name);
      BuildMatchesLog(log[..|log| - 1], name);
    }
  }

  /** The socket object with the `listeners` dictionary and the `on`/`emit`
      functions attached to it. `sent` is every frame handed to `socket.send`. */
  class Channel<H> {
    var listeners: map<string, seq<H>>
    ghost var registrations: seq<(string, H)>
    var sent: seq<Frame>

    ghost predicate Valid()
      reads this
    {
      listeners == Build(registrations)
    }

    constructor ()
      ensures Valid() && registrations == [] && sent == []
    {
      listeners := map[];
      registrations := [];
      sent := [];
    }

    /** `socket.on(name, cb)`. */
    method On(name: string, h: H)
      requires Valid()
      modifies this
      ensures Valid()
      ensures registrations == old(registrations) + [(name, h)]
      ensures sent == old(sent)
    {
      if name !in listeners {
        listeners := listeners[name := []];
      }
      listeners := listeners[name := listeners[name] + [h]];
      registrations := registrations + [(name, h)];
      assert registrations[..|registrations| - 1] == old(registrations);
    }

    /** `socket.emit(name, a1, ..., an)`: exactly one frame `{name, args: [a1..an]}` is sent. */
    method Emit(name: string, rest: seq<Value>)
      modifies this`sent
      ensures sent == old(sent) + [Frame(name, rest)]
    {
      var args: seq<Value> := [];
      var i := 0;
      while i < |rest|
        invariant 0 <= i <= |rest|
        invariant args == rest[..i]
      {
        args := args + [rest[i]];
        i := i + 1;
      }
      assert args == rest;
      sent := sent + [Frame(name, args)];
    }

    /** `socket.listeners[name]` as the dispatch loops read it. */
    function Listeners(name: string): (hs: seq<H>)
      reads this
      requires Valid()
      ensures hs == Named(registrations, name)
    {
      BuildMatchesLog(registrations, name);
      HandlersFor(listeners, name)
    }
  }
}
