/** The hardware side effects the controller issues, recorded as a trace:
    every `digitalWrite` to an output and every `delay`. */
module Io {

  /** The digital outputs the controller drives: four indicator LEDs and the
      solid-state relay. */
  datatype Pin = PowerLed | VacLed | ToolLed | RemoteLed | Relay

  /** One side effect: a write of a level to an output, or a blocking wait. */
  datatype Event = Write(pin: Pin, level: bool) | Wait(ms: nat)

  /** The time an event blocks the controller, in milliseconds. */
  function Duration(e: Event): nat
  {
    match e
    case Write(_, _) => 0
    case Wait(ms) => ms
  }

  /** Total time a trace blocks the controller, in milliseconds. */
  function Elapsed(t: seq<Event>): nat
  {
    if t == [] then 0 else Duration(t[0]) + Elapsed(t[1..])
  }

  /** How many times a trace writes to pin `p`. */
  function Writes(t: seq<Event>, p: Pin): nat
  {
    if t == [] then 0 else (if t[0].Write? && t[0].pin == p then 1 else 0) + Writes(t[1..], p)
  }

  /** Time that passes before the first write to `p`: all of the trace's time
      when it never writes `p`, and never more than that. */
  function ElapsedBefore(t: seq<Event>, p: Pin): (ms: nat)
    ensures ms <= Elapsed(t)
    ensures Writes(t, p) == 0 ==> ms == Elapsed(t)
  {
    if t == [] then 0
    else if t[0].Write? && t[0].pin == p then 0
    else Duration(t[0]) + ElapsedBefore(t[1..], p)
  }

  lemma {:induction false} ElapsedConcat(a: seq<Event>, b: seq<Event>)
    ensures Elapsed(a + b) == Elapsed(a) + Elapsed(b)
  {
    if a != [] {
      assert (a + b)[1..] == a[1..] + b;
      ElapsedConcat(a[1..], b);
    } else {
      assert a + b == b;
    }
  }

  lemma {:induction false} WritesConcat(a: seq<Event>, b: seq<Event>, p: Pin)
    ensures Writes(a + b, p) == Writes(a, p) + Writes(b, p)
  {
    if a != [] {
      assert (a + b)[1..] == a[1..] + b;
      WritesConcat(a[1..], b, p);
    } else {
      assert a + b == b;
    }
  }

  /** A prefix that never writes `p` delays the first write to `p` by all of
      its own time. */
  lemma {:induction false} ElapsedBeforeConcat(a: seq<Event>, b: seq<Event>, p: Pin)
    requires Writes(a, p) == 0
    ensures ElapsedBefore(a + b, p) == Elapsed(a) + ElapsedBefore(b, p)
  {
    if a != [] {
      assert (a + b)[1..] == a[1..] + b;
      ElapsedBeforeConcat(a[1..], b, p);
    } else {
      assert a + b == b;
    }
  }

  /** Appending events one at a time builds the same trace as appending them
      together; regrouping concatenations does not change a trace. */
  lemma AppendTwo(s: seq<Event>, a: Event, b: Event)
    ensures s + [a] + [b] == s + [a, b]
  {
  }

  lemma AppendThree(s: seq<Event>, a: Event, b: Event, c: Event)
    ensures s + [a] + [b] + [c] == s + [a, b, c]
  {
  }

  lemma AppendFour(s: seq<Event>, a: Event, b: Event, c: Event, d: Event)
    ensures s + [a] + [b] + [c] + [d] == s + [a, b, c, d]
  {
  }

  lemma ConcatTwo(s: seq<Event>, a: seq<Event>, b: seq<Event>)
    ensures s + (a + b) == s + a + b
  {
  }

  lemma ConcatThree(s: seq<Event>, a: seq<Event>, b: seq<Event>, c: seq<Event>)
    ensures s + (a + b + c) == s + a + b + c
  {
  }
}
