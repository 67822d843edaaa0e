/** The instance record the client keeps for its one container, and the pure
    transitions that the socket handlers and the terminal-attach callbacks
    apply to it (handlers/www/assets/app-simplified.js). The terminal widget
    is abstracted to the list of strings written to it, whether it has been
    opened in the page, its last size, and whether its keyboard input has
    been wired to the socket. */
module Instances {
  import opened JsValues

  datatype Term = Term(written: seq<string>, isOpen: bool, size: Option<(Value, Value)>, inputBound: bool)

  /** A `new Terminal(...)` that nothing has been done with yet. */
  const NewTerm := Term([], false, None, false)

  /** One instance object. `buffer == None` is a missing `buffer` property;
      `term == None` is a missing `term`. */
  datatype InstanceRec = InstanceRec(
    name: Value, ip: Value, hostname: Value, proxyHost: Value,
    status: Value, cpu: Value, mem: Value,
    ports: seq<Value>, swarmPorts: seq<Value>,
    buffer: Option<string>,
    term: Option<Term>)

  /** An instance as the session endpoint returns it: port lists may be absent. */
  datatype ServerInstance = ServerInstance(
    name: Value, ip: Value, hostname: Value, proxyHost: Value,
    ports: Option<seq<Value>>, swarmPorts: Option<seq<Value>>)

  /** The record built by the `instance new` handler. */
  function Created(name: Value, ip: Value, hostname: Value, proxyHost: Value): (r: InstanceRec)
    ensures r.name == name && r.ip == ip && r.hostname == hostname && r.proxyHost == proxyHost
    ensures r.ports == [] && r.swarmPorts == [] && r.buffer == Some("") && r.term == None
  {
    InstanceRec(name, ip, hostname, proxyHost, Undefined, Undefined, Undefined, [], [], Some(""), None)
  }

  /** The record `getSession` installs: missing port lists default to empty,
      and no `buffer` is added. */
  function FromServer(s: ServerInstance): (r: InstanceRec)
    ensures r.name == s.name && r.proxyHost == s.proxyHost
    ensures r.ports == (if s.ports.Some? then s.ports.value else [])
    ensures r.swarmPorts == (if s.swarmPorts.Some? then s.swarmPorts.value else [])
    ensures r.buffer == None && r.term == None
  {
    InstanceRec(s.name, s.ip, s.hostname, s.proxyHost, Undefined, Undefined, Undefined,
                if s.ports.Some? then s.ports.value else [],
                if s.swarmPorts.Some? then s.swarmPorts.value else [],
                None, None)
  }

  predicate NoDup<T(==)>(s: seq<T>) {
    forall i, j :: 0 <= i < j < |s| ==> s[i] != s[j]
  }

  /** `if (list.indexOf(p) === -1) list.push(p)`. */
  function AddUnique<T(==)>(list: seq<T>, p: T): (r: seq<T>)
    ensures p in r
    ensures r == (if p in list then list else list + [p])
    ensures NoDup(list) ==> NoDup(r)
  {
    if p in list then list else list + [p]
  }

  /** `buffer += data` in JavaScript: a missing buffer reads as "undefined". */
  function Appended(buffer: Option<string>, data: string): string {
    match buffer
    case None => "undefined" + data
    case Some(b) => b + data
  }

  function BufferText(buffer: Option<string>): string {
    match buffer
    case None => ""
    case Some(b) => b
  }

  function Write(t: Term, data: string): Term {
    t.(written := t.written + [data])
  }

  /** The `instance terminal out` handler on a matching instance: buffer while
      there is no terminal, write straight to it once there is one. */
  function OutputArrived(rec: InstanceRec, data: string): (r: InstanceRec)
    ensures rec.term.None? ==> r == rec.(buffer := Some(Appended(rec.buffer, data)))
    ensures rec.term.Some? ==> r == rec.(term := Some(Write(rec.term.value, data)))
    ensures r.term.Some? <==> rec.term.Some?
  {
    if rec.term.None? then rec.(buffer := Some(Appended(rec.buffer, data)))
    else rec.(term := Some(Write(rec.term.value, data)))
  }

  /** The synchronous part of `TerminalService.attachTerminal`: a terminal is
      created and assigned at once, before the page element is looked up. */
  function TermCreated(rec: InstanceRec): (r: InstanceRec)
    ensures r.term.Some?
    ensures rec.term.Some? ==> r == rec
    ensures rec.term.None? ==> r.term.value.written == [] && !r.term.value.isOpen && !r.term.value.inputBound
    ensures r.(term := rec.term) == rec
  {
    if rec.term.Some? then rec else rec.(term := Some(NewTerm))
  }

  /** Write a non-empty buffer to the terminal in one piece and empty it. */
  function Flushed(rec: InstanceRec): (r: InstanceRec)
    requires rec.term.Some?
    ensures r.term.Some? && r.term.value.(written := rec.term.value.written) == rec.term.value
    ensures var flush := rec.buffer.Some? && rec.buffer.value != "";
      && r.term.value.written == rec.term.value.written + (if flush then [rec.buffer.value] else [])
      && r.buffer == (if flush then Some("") else rec.buffer)
    ensures r.(term := rec.term, buffer := rec.buffer) == rec
  {
    if rec.buffer.Some? && rec.buffer.value != "" then
      rec.(term := Some(Write(rec.term.value, rec.buffer.value)), buffer := Some(""))
    else rec
  }

  /** The DOM-ready callback when the page element was found: open the
      terminal, flush the buffer, wire its keyboard input. */
  function TermReady(rec: InstanceRec): (r: InstanceRec)
    requires rec.term.Some?
    ensures r.term.Some? && r.term.value.isOpen && r.term.value.inputBound
  {
    var shown := rec.(term := Some(rec.term.value.(isOpen := true)));
    var flushed := Flushed(shown);
    flushed.(term := Some(flushed.term.value.(inputBound := true)))
  }

  /** The `instance viewport resize` handler: degenerate geometry is ignored;
      otherwise an existing terminal is resized and a non-empty buffer flushed. */
  function ViewportResized(rec: InstanceRec, cols: Value, rows: Value): (r: InstanceRec)
    ensures LooselyZero(cols) || LooselyZero(rows) || rec.term.None? ==> r == rec
    ensures r.ports == rec.ports && r.swarmPorts == rec.swarmPorts && r.name == rec.name
    ensures r.term.Some? <==> rec.term.Some?
    ensures !LooselyZero(cols) && !LooselyZero(rows) && rec.term.Some? ==>
      var flush := rec.buffer.Some? && rec.buffer.value != "";
      && r.term.value.size == Some((cols, rows))
      && r.term.value.written == rec.term.value.written + (if flush then [rec.buffer.value] else [])
      && r.buffer == (if flush then Some("") else rec.buffer)
  {
    if LooselyZero(cols) || LooselyZero(rows) then rec
    else if rec.term.None? then rec
    else Flushed(rec.(term := Some(rec.term.value.(size := Some((cols, rows))))))
  }

  // ----- Ports: deduplicated, in order of first announcement -----

  /** Index of the first occurrence of `x` in `s`. */
  function FirstIndex<T(==)>(s: seq<T>, x: T): (i: nat)
    requires x in s
    ensures i < |s| && s[i] == x && x !in s[..i]
    decreases |s|
  {
    if s[0] == x then 0 else
      var k := FirstIndex(s[1..], x);
      assert s[..k + 1] == [s[0]] + s[1..][..k];
      k + 1
  }

  lemma {:induction false} FirstIndexAppend<T>(s: seq<T>, p: T, x: T)
    requires x in s
    ensures FirstIndex(s + [p], x) == FirstIndex(s, x)
    decreases |s|
  {
    if s[0] != x {
      assert (s + [p])[1..] == s[1..] + [p];
      FirstIndexAppend(s[1..], p, x);
    }
  }

  /** The list after announcements `ps` arrive, one `AddUnique` each, in order. */
  function Announced<T(==)>(init: seq<T>, ps: seq<T>): seq<T>
    decreases |ps|
  {
    if ps == [] then init else AddUnique(Announced(init, ps[..|ps| - 1]), ps[|ps| - 1])
  }

  /** `r` lists the distinct elements of `all`, each once, in order of first occurrence. */
  ghost predicate DedupOf<T>(all: seq<T>, r: seq<T>) {
    && NoDup(r)
    && (forall i :: 0 <= i < |r| ==> r[i] in all)
    && (forall i :: 0 <= i < |all| ==> all[i] in r)
    && (forall i, j :: 0 <= i < j < |r| ==> FirstIndex(all, r[i]) < FirstIndex(all, r[j]))
  }

  /** One more announcement keeps the list the first-occurrence deduplication
      of everything announced. */
  lemma AnnounceStep<T>(all: seq<T>, r: seq<T>, p: T)
    requires DedupOf(all, r)
    ensures DedupOf(all + [p], AddUnique(r, p))
  {
    forall x | x in all ensures FirstIndex(all + [p], x) == FirstIndex(all, x) {
      FirstIndexAppend(all, p, x);
    }
    if p in r {
      AnnounceKnown(all, r, p);
    } else {
      AnnounceNew(all, r, p);
    }
  }

  lemma AnnounceKnown<T>(all: seq<T>, r: seq<T>, p: T)
    requires DedupOf(all, r) && p in r
    requires forall x :: x in all ==> FirstIndex(all + [p], x) == FirstIndex(all, x)
    ensures DedupOf(all + [p], r)
  {
    forall i, j | 0 <= i < j < |r| ensures FirstIndex(all + [p], r[i]) < FirstIndex(all + [p], r[j]) {
      assert r[i] in all && r[j] in all;
    }
  }

  lemma AnnounceNew<T>(all: seq<T>, r: seq<T>, p: T)
    requires DedupOf(all, r) && p !in r
    requires forall x :: x in all ==> FirstIndex(all + [p], x) == FirstIndex(all, x)
    ensures DedupOf(all + [p], r + [p])
  {
    var r2 := r + [p];
    assert p !in all;
    assert FirstIndex(all + [p], p) == |all|;
    forall i, j | 0 <= i < j < |r2| ensures FirstIndex(all + [p], r2[i]) < FirstIndex(all + [p], r2[j]) {
      assert r2[i] == r[i] && r[i] in all;
      if j < |r| {
        assert r2[j] == r[j];
      }
    }
  }

  lemma {:induction false} AnnouncedKeepsPrefix<T>(init: seq<T>, ps: seq<T>)
    ensures |init| <= |Announced(init, ps)| && Announced(init, ps)[..|init|] == init
    decreases |ps|
  {
    if ps != [] {
      AnnouncedKeepsPrefix(init, ps[..|ps| - 1]);
    }
  }

  /** However often each port is announced, the list keeps what it had, holds
      every announced port exactly once, and lists ports in the order of their
      first announcement. */
  lemma {:induction false} AnnouncedPorts<T>(init: seq<T>, ps: seq<T>)
    requires NoDup(init)
    ensures |init| <= |Announced(init, ps)| && Announced(init, ps)[..|init|] == init
    ensures DedupOf(init + ps, Announced(init, ps))
    decreases |ps|
  {
    AnnouncedKeepsPrefix(init, ps);
    if ps == [] {
      assert init + ps == init;
      forall i, j | 0 <= i < j < |init| ensures FirstIndex(init, init[i]) < FirstIndex(init, init[j]) {
        FirstIndexOfNoDup(init, i);
        FirstIndexOfNoDup(init, j);
      }
    } else {
      var ps' := ps[..|ps| - 1];
      AnnouncedPorts(init, ps');
      AnnounceStep(init + ps', Announced(init, ps'), ps[|ps| - 1]);
      SplitLast(init, ps);
    }
  }

  lemma SplitLast<T>(a: seq<T>, b: seq<T>)
    requires b != []
    ensures a + b == (a + b[..|b| - 1]) + [b[|b| - 1]]
  {
    assert b == b[..|b| - 1] + [b[|b| - 1]];
  }

  lemma FirstIndexOfNoDup<T>(s: seq<T>, i: nat)
    requires NoDup(s) && i < |s|
    ensures FirstIndex(s, s[i]) == i
  {
  }

  // ----- Terminal output: what reaches the terminal, in which order -----

  /** Steps that touch one instance's output: a terminal-out event for it, the
      terminal being created, the DOM-ready callback (element found), and a
      viewport resize. */
  datatype OutputEvent = Out(data: string) | Create | Ready | Resize(cols: Value, rows: Value)

  function Step(rec: InstanceRec, e: OutputEvent): InstanceRec {
    match e
    case Out(d) => OutputArrived(rec, d)
    case Create => TermCreated(rec)
    case Ready => if rec.term.Some? then TermReady(rec) else rec
    case Resize(c, r) => ViewportResized(rec, c, r)
  }

  function Run(rec: InstanceRec, evs: seq<OutputEvent>): InstanceRec
    decreases |evs|
  {
    if evs == [] then rec else Step(Run(rec, evs[..|evs| - 1]), evs[|evs| - 1])
  }

  function Concat(ws: seq<string>): string
    decreases |ws|
  {
    if ws == [] then "" else Concat(ws[..|ws| - 1]) + ws[|ws| - 1]
  }

  /** Everything the server sent for this instance, in arrival order. */
  function AllOutput(evs: seq<OutputEvent>): string
    decreases |evs|
  {
    if evs == [] then "" else
      AllOutput(evs[..|evs| - 1]) + (if evs[|evs| - 1].Out? then evs[|evs| - 1].data else "")
  }

  /** Everything shown so far, plus what still waits in the buffer. */
  function Delivered(rec: InstanceRec): string {
    (if rec.term.Some? then Concat(rec.term.value.written) else "") + BufferText(rec.buffer)
  }

  /** Reference accounting of a trace: output received before the terminal
      existed (phase 0), after it was created but before the first flush
      point (phase 1), and after that (phase 2). */
  datatype Ledger = Ledger(phase: nat, before: string, between: string, after: string)

  function Account(evs: seq<OutputEvent>): Ledger
    decreases |evs|
  {
    if evs == [] then Ledger(0, "", "", "") else AccountStep(Account(evs[..|evs| - 1]), evs[|evs| - 1])
  }

  function AccountStep(l: Ledger, e: OutputEvent): Ledger {
    match e
    case Out(d) =>
      if l.phase == 0 then l.(before := l.before + d)
      else if l.phase == 1 then l.(between := l.between + d)
      else l.(after := l.after + d)
    case Create => if l.phase == 0 then l.(phase := 1) else l
    case Ready => if l.phase == 1 then l.(phase := 2) else l
    case Resize(c, r) =>
      if l.phase == 1 && !LooselyZero(c) && !LooselyZero(r) then l.(phase := 2) else l
  }

  ghost predicate OutputInvariant(rec: InstanceRec, l: Ledger) {
    && l.phase <= 2
    && (l.phase == 0 ==> rec.term.None? && rec.buffer == Some(l.before) && l.between == "" && l.after == "")
    && (l.phase == 1 ==> rec.term.Some? && Concat(rec.term.value.written) == l.between
                         && rec.buffer == Some(l.before) && l.after == "")
    && (l.phase == 2 ==> rec.term.Some? && Concat(rec.term.value.written) == l.between + l.before + l.after
                         && rec.buffer == Some(""))
  }

  lemma ConcatWrite(t: Term, d: string)
    ensures Concat(Write(t, d).written) == Concat(t.written) + d
  {
    assert Write(t, d).written[..|t.written|] == t.written;
  }

  /** A flush in phase 1 moves the buffered block behind what was written directly. */
  lemma FlushStep(rec: InstanceRec, l: Ledger)
    requires OutputInvariant(rec, l) && l.phase == 1
    ensures OutputInvariant(Flushed(rec), l.(phase := 2))
  {
    if l.before != "" {
      ConcatWrite(rec.term.value, l.before);
    }
  }

  lemma StepKeepsInvariant(rec: InstanceRec, l: Ledger, e: OutputEvent)
    requires OutputInvariant(rec, l)
    ensures OutputInvariant(Step(rec, e), AccountStep(l, e))
  {
    match e
    case Out(d) =>
      if l.phase != 0 {
        ConcatWrite(rec.term.value, d);
      }
    case Create =>
      assert Concat(NewTerm.written) == "";
    case Ready =>
      if l.phase == 1 {
        var shown := rec.(term := Some(rec.term.value.(isOpen := true)));
        FlushStep(shown, l);
      }
    case Resize(c, r) =>
      if l.phase == 1 && !LooselyZero(c) && !LooselyZero(r) {
        FlushStep(rec.(term := Some(rec.term.value.(size := Some((c, r))))), l);
      }
  }

  lemma {:induction false} OutputInvariantHolds(rec0: InstanceRec, evs: seq<OutputEvent>)
    requires rec0.term.None? && rec0.buffer == Some("")
    ensures OutputInvariant(Run(rec0, evs), Account(evs))
    decreases |evs|
  {
    if evs != [] {
      var prefix := evs[..|evs| - 1];
      OutputInvariantHolds(rec0, prefix);
      StepKeepsInvariant(Run(rec0, prefix), Account(prefix), evs[|evs| - 1]);
    }
  }

  /** Every byte received is counted in exactly one of the three phases, and
      a phase not yet reached has counted nothing. */
  lemma {:induction false} AllOutputAccounted(evs: seq<OutputEvent>)
    ensures var l := Account(evs);
      && AllOutput(evs) == l.before + l.between + l.after
      && (l.phase == 0 ==> l.between == "" && l.after == "")
      && (l.phase == 1 ==> l.after == "")
    decreases |evs|
  {
    if evs != [] {
      var prefix := evs[..|evs| - 1];
      AllOutputAccounted(prefix);
      var l := Account(prefix);
      var e := evs[|evs| - 1];
      if e.Out? {
        var d := e.data;
        if l.phase == 0 {
          assert l.before + l.between + l.after + d == (l.before + d) + l.between + l.after;
        } else if l.phase == 1 {
          assert l.before + l.between + l.after + d == l.before + (l.between + d) + l.after;
        } else {
          assert l.before + l.between + l.after + d == l.before + l.between + (l.after + d);
        }
      }
    }
  }

  /** For a freshly created instance, the terminal plus the buffer hold every
      byte the server sent, each exactly once; the only reordering is that
      output received while the terminal was being set up comes before the
      output buffered earlier. */
  lemma OutputOrder(name: Value, ip: Value, hostname: Value, proxyHost: Value, evs: seq<OutputEvent>)
    ensures var l := Account(evs);
      && Delivered(Run(Created(name, ip, hostname, proxyHost), evs)) == l.between + l.before + l.after
      && AllOutput(evs) == l.before + l.between + l.after
  {
    OutputInvariantHolds(Created(name, ip, hostname, proxyHost), evs);
    AllOutputAccounted(evs);
  }

  /** When no output arrives while the terminal is being set up, it is shown
      exactly once and in arrival order. */
  lemma InOrderWithoutEarlyOutput(name: Value, ip: Value, hostname: Value, proxyHost: Value, evs: seq<OutputEvent>)
    requires Account(evs).between == ""
    ensures Delivered(Run(Created(name, ip, hostname, proxyHost), evs)) == AllOutput(evs)
  {
    OutputOrder(name, ip, hostname, proxyHost, evs);
    var l := Account(evs);
    assert l.between + l.before == l.before + l.between;
  }

  /** The interleaving that reorders: "a" arrives before the terminal exists,
      "b" after it was created but before the page element was ready. */
  lemma EarlyOutputIsReordered(name: Value)
    ensures var rec := Run(Created(name, Null, Null, Null), [Out("a"), Create, Out("b"), Ready]);
      rec.term.Some? && rec.term.value.written == ["b", "a"] && rec.buffer == Some("")
  {
    var r0 := Created(name, Null, Null, Null);
    var e1, e2, e3, e4 := [Out("a")], [Out("a"), Create], [Out("a"), Create, Out("b")], [Out("a"), Create, Out("b"), Ready];
    assert e1[..0] == [] && e2[..1] == e1 && e3[..2] == e2 && e4[..3] == e3;
    assert "" + "a" == "a" && NewTerm.written + ["b"] == ["b"];
    var r1 := r0.(buffer := Some("a"));
    assert Run(r0, e1) == r1;
    var r2 := r1.(term := Some(NewTerm));
    assert Run(r0, e2) == r2;
    var r3 := r1.(term := Some(NewTerm.(written := ["b"])));
    assert Run(r0, e3) == r3;
  }
}
