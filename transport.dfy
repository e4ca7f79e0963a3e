/**
 * What the client agents send. The network is not modelled: each send is
 * given its outcome, and every agent keeps the sequence of its attempts.
 */
module Transport {
  /** What one connection attempt came to: a session with its id, or a connection or I/O failure. */
  datatype SendOutcome = Delivered(sessionId: string) | Failed

  /** One message an agent tried to send: where, what, and whether it went out. */
  datatype Attempt = Attempt(address: string, payload: string, delivered: bool)

  /** A calendar timer as the agents create it: its second, minute and hour expressions, and whether it persists. */
  datatype Timer = CalendarTimer(second: string, minute: string, hour: string, persistent: bool)

  /** Every ten seconds, every minute, every hour; not kept across restarts. */
  const HEARTBEAT_TIMER := CalendarTimer("*/10", "*", "*", false)

  /** The paths the agents append to the registry's base address. */
  const REGISTER_ENDPOINT := "snoop"
  const STATUS_ENDPOINT := "snoopstatus/"

  /** What `sendMessage` returns when no session could be opened. */
  const NO_SESSION := "-1"

  /** `sendMessage`'s result: the session id, or "-1" after a failure. */
  function ReturnValue(outcome: SendOutcome): (r: string)
    ensures outcome.Failed? ==> r == NO_SESSION
    ensures outcome.Delivered? ==> r == outcome.sessionId
  {
    match outcome
    case Delivered(id) => id
    case Failed => NO_SESSION
  }

  /** The attempts of one timer tick each, all with the same address and payload. */
  function Ticks(address: string, payload: string, outcomes: seq<SendOutcome>): (r: seq<Attempt>)
    ensures |r| == |outcomes|
    ensures forall i :: 0 <= i < |r| ==> r[i] == Attempt(address, payload, outcomes[i].Delivered?)
    decreases |outcomes|
  {
    if outcomes == [] then []
    else Ticks(address, payload, outcomes[..|outcomes| - 1]) + [Attempt(address, payload, outcomes[|outcomes| - 1].Delivered?)]
  }

  /** One more tick appends one more attempt. */
  lemma TicksStep(address: string, payload: string, outcomes: seq<SendOutcome>, i: nat)
    requires i < |outcomes|
    ensures Ticks(address, payload, outcomes[..i + 1]) == Ticks(address, payload, outcomes[..i]) + [Attempt(address, payload, outcomes[i].Delivered?)]
  {
    assert outcomes[..i + 1][..i] == outcomes[..i];
  }

  /** How many attempts went to `address`. */
  function CountTo(trace: seq<Attempt>, address: string): (r: nat)
    ensures r <= |trace|
    decreases |trace|
  {
    if trace == [] then 0
    else CountTo(trace[..|trace| - 1], address) + (if trace[|trace| - 1].address == address then 1 else 0)
  }

  lemma {:induction false} CountToAppend(a: seq<Attempt>, b: seq<Attempt>, address: string)
    ensures CountTo(a + b, address) == CountTo(a, address) + CountTo(b, address)
    decreases |b|
  {
    if b != [] {
      var b' := b[..|b| - 1];
      assert (a + b)[..|a + b| - 1] == a + b';
      assert (a + b)[|a + b| - 1] == b[|b| - 1];
      CountToAppend(a, b', address);
    } else {
      assert a + b == a;
    }
  }

  /** All of a run of ticks go to their own address, none elsewhere. */
  lemma {:induction false} CountToTicks(address: string, payload: string, outcomes: seq<SendOutcome>, other: string)
    ensures CountTo(Ticks(address, payload, outcomes), address) == |outcomes|
    ensures other != address ==> CountTo(Ticks(address, payload, outcomes), other) == 0
    decreases |outcomes|
  {
    if outcomes != [] {
      var init := outcomes[..|outcomes| - 1];
      CountToTicks(address, payload, init, other);
      var t := Ticks(address, payload, outcomes);
      assert t[..|t| - 1] == Ticks(address, payload, init);
    }
  }
}
