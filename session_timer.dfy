/** The server-side session countdown (scheduler/task/session_timer.go): a
    registry of at most one running timer per session, the decision each
    one-second tick takes, and the `HH:MM:SS` / `MM:SS` rendering of the time
    left. Goroutines are the ghost multiset `goroutines`; a tick and a
    context cancellation are explicit steps. */
module SessionTimer {
  import opened Decimal
  import opened JsValues

  /** What `storage.SessionGet` gave the tick: the session, with its
      remaining lifetime `ExpiresAt - now` in nanoseconds; not found; or any
      other storage error. */
  datatype Lookup = Found(remaining: int) | NotFound | StorageError

  /** What the tick does: end the timer, wait for the next tick, or emit the
      formatted time to the session. */
  datatype Tick = Stop | Skip | Emit(time: string)

  const NanosPerSecond: nat := 1_000_000_000

  // ----- Rendering and reading back the time left -----

  /** The fields of `s` between colons. */
  function Split(s: string): (parts: seq<string>)
    ensures |parts| >= 1
    decreases |s|
  {
    if s == [] then [""]
    else if s[0] == ':' then [""] + Split(s[1..])
    else
      var rest := Split(s[1..]);
      [[s[0]] + rest[0]] + rest[1..]
  }

  lemma {:induction false} SplitNoColon(a: string)
    requires ':' !in a
    ensures Split(a) == [a]
    decreases |a|
  {
    if a != [] {
      SplitNoColon(a[1..]);
      assert [a[0]] + a[1..] == a;
    }
  }

  lemma {:induction false} SplitJoin(a: string, b: string)
    requires ':' !in a
    ensures Split(a + ":" + b) == [a] + Split(b)
    decreases |a|
  {
    if a == [] {
      assert a + ":" + b == [':'] + b;
      assert (a + ":" + b)[1..] == b;
    } else {
      assert (a + ":" + b)[1..] == a[1..] + ":" + b;
      SplitJoin(a[1..], b);
      assert [a[0]] + a[1..] == a;
    }
  }

  lemma DigitsHaveNoColon(s: string)
    requires AllDigits(s)
    ensures ':' !in s
  {
    forall i | 0 <= i < |s|
      ensures s[i] != ':'
    {
      assert IsDigit(s[i]);
    }
  }

  /** The time shown by the client for `secs` whole seconds: `HH:MM:SS` when
      at least an hour is left, `MM:SS` otherwise, every field zero-padded. */
  function FormatRemaining(secs: nat): (s: string)
    ensures secs < 3600 <==> |s| == 5
    ensures secs >= 3600 ==> |s| >= 8 && (secs / 3600 < 100 ==> |s| == 8)
    ensures |s| >= 5 && s[|s| - 3] == ':'
  {
    var hours := secs / 3600;
    var minutes := (secs / 60) % 60;
    var seconds := secs % 60;
    if hours > 0 then Pad2(hours) + ":" + Pad2(minutes) + ":" + Pad2(seconds)
    else Pad2(minutes) + ":" + Pad2(seconds)
  }

  lemma ClockArithmetic(secs: nat)
    ensures secs / 3600 * 3600 + (secs / 60) % 60 * 60 + secs % 60 == secs
    ensures secs / 3600 == 0 ==> (secs / 60) % 60 == secs / 60 && secs < 3600
  {
    var q := secs / 60;
    assert secs == q * 60 + secs % 60;
    assert q == q / 60 * 60 + q % 60;
    var h := q / 60;
    assert h * 3600 <= secs < h * 3600 + 3600;
    assert secs / 3600 == h;
  }

  lemma SplitTwo(a: string, b: string)
    requires AllDigits(a) && AllDigits(b)
    ensures Split(a + ":" + b) == [a, b]
  {
    DigitsHaveNoColon(a);
    DigitsHaveNoColon(b);
    SplitNoColon(b);
    SplitJoin(a, b);
  }

  lemma SplitThree(a: string, b: string, c: string)
    requires AllDigits(a) && AllDigits(b) && AllDigits(c)
    ensures Split(a + ":" + b + ":" + c) == [a, b, c]
  {
    DigitsHaveNoColon(a);
    SplitTwo(b, c);
    assert a + ":" + b + ":" + c == a + ":" + (b + ":" + c);
    SplitJoin(a, b + ":" + c);
  }

  /** Reading the rendered clock back gives the whole seconds it was made
      from; its minute and second fields are two digits below 60, and the
      hours field, when present, is the hours zero-padded to two digits. */
  lemma ClockRoundTrip(secs: nat)
    ensures ParseClock(FormatRemaining(secs)) == Some(secs)
    ensures var parts := Split(FormatRemaining(secs));
      && |parts| == (if secs >= 3600 then 3 else 2)
      && (forall k :: 0 <= k < |parts| ==> AllDigits(parts[k]) && |parts[k]| >= 2)
      && |parts[|parts| - 1]| == 2 && ParseNat(parts[|parts| - 1]) < 60
      && |parts[|parts| - 2]| == 2 && ParseNat(parts[|parts| - 2]) < 60
      && (secs >= 3600 ==> ParseNat(parts[0]) == secs / 3600 && (secs / 3600 < 100 ==> |parts[0]| == 2))
  {
    ClockArithmetic(secs);
    ClockFields(secs);
  }

  /** The fields of the rendered clock: the zero-padded hours when there are
      any, then the zero-padded minutes and seconds. */
  lemma ClockFields(secs: nat)
    ensures Split(FormatRemaining(secs)) ==
      (if secs >= 3600 then [Pad2(secs / 3600)] else []) + [Pad2((secs / 60) % 60), Pad2(secs % 60)]
  {
    var hh, mm, ss := Pad2(secs / 3600), Pad2((secs / 60) % 60), Pad2(secs % 60);
    if secs / 3600 > 0 {
      SplitThree(hh, mm, ss);
    } else {
      SplitTwo(mm, ss);
    }
  }

  /** Read a clock string back: three or two colon-separated fields of digits. */
  function ParseClock(s: string): Option<nat> {
    var parts := Split(s);
    if |parts| == 3 && AllDigits(parts[0]) && AllDigits(parts[1]) && AllDigits(parts[2]) then
      Some(ParseNat(parts[0]) * 3600 + ParseNat(parts[1]) * 60 + ParseNat(parts[2]))
    else if |parts| == 2 && AllDigits(parts[0]) && AllDigits(parts[1]) then
      Some(ParseNat(parts[0]) * 60 + ParseNat(parts[1]))
    else None
  }

  // ----- One tick -----

  /** The body of the ticker case in `runTimer`: a missing session or an
      expired one stops the timer, any other storage error skips the tick,
      and otherwise the time left is emitted, rendered from its whole seconds. */
  function TickDecision(l: Lookup): (t: Tick)
    ensures t.Stop? <==> l.NotFound? || (l.Found? && l.remaining <= 0)
    ensures t.Skip? <==> l.StorageError?
    ensures t.Emit? ==> l.Found? && l.remaining > 0
                        && ParseClock(t.time) == Some(l.remaining / NanosPerSecond as int)
    ensures t.Emit? ==> (l.remaining < 3600 * NanosPerSecond <==> |t.time| == 5)
    ensures t.Emit? ==> t.time == FormatRemaining(l.remaining / NanosPerSecond as int)
  {
    match l
    case NotFound => Stop
    case StorageError => Skip
    case Found(r) =>
      if r <= 0 then Stop else
        ClockRoundTrip(r / NanosPerSecond);
        Emit(FormatRemaining(r / NanosPerSecond))
  }

  // ----- The registry -----

  /** `sessionTimer`: `activeTimers` maps a session id to the cancel function
      stored for its timer (a handle number here); `emitted` is every
      `event.Emit(SessionTimerEvent, sessionId, time)`. */
  class SessionTimer {
    var activeTimers: map<string, nat>
    var nextCancel: nat
    ghost var goroutines: multiset<string>
    var emitted: seq<(string, string)>

    /** Exactly one running goroutine for each registered session, none for others. */
    ghost predicate Valid()
      reads this
    {
      forall id :: goroutines[id] == (if id in activeTimers then 1 else 0)
    }

    function Name(): string {
      "SessionTimer"
    }

    /** `NewSessionTimer`. */
    constructor ()
      ensures Valid() && activeTimers == map[] && goroutines == multiset{} && emitted == []
      ensures Name() == "SessionTimer"
    {
      activeTimers := map[];
      nextCancel := 0;
      goroutines := multiset{};
      emitted := [];
    }

    /** `Run`: nothing when the session already has a timer; otherwise
        register exactly one entry for it and start its goroutine. */
    method Run(sessionId: string)
      requires Valid()
      modifies this
      ensures Valid()
      ensures old(sessionId in activeTimers) ==>
        activeTimers == old(activeTimers) && goroutines == old(goroutines) && nextCancel == old(nextCancel)
      ensures old(sessionId !in activeTimers) ==>
        && activeTimers == old(activeTimers)[sessionId := old(nextCancel)]
        && goroutines == old(goroutines) + multiset{sessionId}
        && nextCancel == old(nextCancel) + 1
      ensures goroutines[sessionId] == 1
      ensures emitted == old(emitted)
    {
      if sessionId in activeTimers {
        return;
      }
      activeTimers := activeTimers[sessionId := nextCancel];
      nextCancel := nextCancel + 1;
      goroutines := goroutines + multiset{sessionId};
    }

    /** The deferred cleanup of `runTimer`: the goroutine ends and its
        session's entry is deleted; other sessions keep theirs. */
    method Exit(sessionId: string)
      requires Valid() && goroutines[sessionId] > 0
      modifies this`activeTimers, this`goroutines
      ensures Valid()
      ensures activeTimers == old(activeTimers) - {sessionId}
      ensures goroutines == old(goroutines) - multiset{sessionId}
      ensures goroutines[sessionId] == 0
    {
      activeTimers := activeTimers - {sessionId};
      goroutines := goroutines - multiset{sessionId};
    }

    /** `ctx.Done()` fired for the goroutine of `sessionId`. */
    method Cancelled(sessionId: string)
      requires Valid() && goroutines[sessionId] > 0
      modifies this`activeTimers, this`goroutines
      ensures Valid()
      ensures activeTimers == old(activeTimers) - {sessionId}
      ensures goroutines == old(goroutines) - multiset{sessionId}
    {
      Exit(sessionId);
    }

    /** One tick of the goroutine of `sessionId`, given what storage returned. */
    method TickOnce(sessionId: string, lookup: Lookup) returns (t: Tick)
      requires Valid() && goroutines[sessionId] > 0
      modifies this
      ensures Valid()
      ensures t == TickDecision(lookup)
      ensures nextCancel == old(nextCancel)
      ensures t.Stop? ==> activeTimers == old(activeTimers) - {sessionId}
                          && goroutines == old(goroutines) - multiset{sessionId} && emitted == old(emitted)
      ensures t.Skip? ==> activeTimers == old(activeTimers) && goroutines == old(goroutines) && emitted == old(emitted)
      ensures t.Emit? ==> activeTimers == old(activeTimers) && goroutines == old(goroutines)
                          && emitted == old(emitted) + [(sessionId, t.time)]
    {
      match lookup {
        case NotFound =>
          t := Stop;
          Exit(sessionId);
        case StorageError =>
          t := Skip;
        case Found(remaining) =>
          if remaining <= 0 {
            t := Stop;
            Exit(sessionId);
          } else {
            var secs := remaining / NanosPerSecond;
            var hours := secs / 3600;
            var minutes := (secs / 60) % 60;
            var seconds := secs % 60;
            var timeString := "";
            if hours > 0 {
              timeString := Pad2(hours) + ":" + Pad2(minutes) + ":" + Pad2(seconds);
            } else {
              timeString := Pad2(minutes) + ":" + Pad2(seconds);
            }
            t := Emit(timeString);
            emitted := emitted + [(sessionId, timeString)];
          }
      }
    }
  }
}
