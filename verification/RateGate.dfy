/** The shared rate-limit gates of chunk downloads: one call as code, any number of calls as an interleaving. */
module RateGate {

  const MAX_CHUNK_WAITS := 5
  const MAX_CHUNK_WAIT_SECONDS := 60

  datatype Kind = FloodWait | FloodPremiumWait

  /** The recorded wait of one request constructor: until when, and which error announced it. */
  datatype Gate = Gate(deadline: real, kind: Kind)

  function Ceil(x: real): int { -((-x).Floor) }

  function Deadline(gates: map<int, Gate>, key: int): real { if key in gates then gates[key].deadline else 0.0 }

  /** Whole seconds the gate still asks for. */
  function Remaining(gates: map<int, Gate>, key: int, now: real): nat {
    var left := Ceil(Deadline(gates, key) - now);
    if left > 0 then left else 0
  }

  /** A flood reply opens or lengthens the gate; it never shortens it. */
  function Flooded(gates: map<int, Gate>, key: int, seconds: int, kind: Kind, now: real): map<int, Gate> {
    var candidate := now + (if seconds > 1 then seconds else 1) as real;
    if candidate >= Deadline(gates, key) then gates[key := Gate(candidate, kind)] else gates
  }

  /** After a sleep the gate that was waited for goes, unless it has been replaced meanwhile. */
  function Cleared(gates: map<int, Gate>, key: int, seen: Gate): map<int, Gate> {
    if key in gates && gates[key] == seen then gates - {key} else gates
  }

  // --------------------------------------------------------------- interleaving

  datatype Phase = Asleep(until: real, seen: Gate) | Sent | Returned | Raised

  datatype Call = Call(key: int, phase: Phase, waits: nat, waited: nat, sends: nat)

  /** A wait the server has announced for a kind of request. */
  datatype Ban = Ban(key: int, until: real)

  /** The client between two awaits: every call is suspended or over. `bans` and `early` record what was announced
    and which requests went out against an announcement; `removed` records the gates that were taken away and when. */
  datatype Client = Client(gates: map<int, Gate>, now: real, calls: seq<Call>, bans: set<Ban>, early: set<Ban>,
                           removed: set<(Gate, real)>)

  /** One turn of the loop: validate, then raise, sleep or send. */
  function Turn(gates: map<int, Gate>, now: real, c: Call, valid: bool): Call {
    var remaining := Remaining(gates, c.key, now);
    if (c.waits > 0 || remaining > 0) && !valid then c.(phase := Raised)
    else if remaining > 0 then
      if c.waits >= MAX_CHUNK_WAITS || c.waited + remaining > MAX_CHUNK_WAIT_SECONDS then c.(phase := Raised)
      else
        var seen := if c.key in gates then gates[c.key] else Gate(0.0, FloodPremiumWait);
        c.(phase := Asleep(now + remaining as real, seen),
           waits := c.waits + 1, waited := c.waited + remaining)
    else c.(phase := Sent, sends := c.sends + 1)
  }

  /** The loop turn of call `i` within the client, and the record of a request sent too early. */
  function TurnIn(s: Client, i: nat, c: Call, valid: bool): Client
    requires i <= |s.calls|
  {
    var d := Turn(s.gates, s.now, c, valid);
    s.(calls := s.calls[..i] + [d] + if i < |s.calls| then s.calls[i + 1..] else [],
       early := if d.phase.Sent? then s.early + (set b | b in s.bans && b.key == c.key && s.now < b.until)
                else s.early)
  }

  datatype Reply = Done | Failed | Flood(seconds: int, kind: Kind)

  datatype Event =
    | Pass(later: real)
    | Begin(key: int, valid: bool)
    | Wake(call: nat, valid: bool)
    | Answer(call: nat, reply: Reply, valid: bool)

  predicate Possible(s: Client, e: Event) {
    match e
    case Pass(later) => s.now <= later
    case Begin(_, _) => true
    case Wake(i, _) => i < |s.calls| && s.calls[i].phase.Asleep? && s.calls[i].phase.until <= s.now
    case Answer(i, _, _) => i < |s.calls| && s.calls[i].phase.Sent?
  }

  function Next(s: Client, e: Event): Client
    requires Possible(s, e)
  {
    match e
    case Pass(later) => s.(now := later)
    case Begin(key, valid) => TurnIn(s, |s.calls|, Call(key, Sent, 0, 0, 0), valid)
    case Wake(i, valid) =>
      var c := s.calls[i];
      var gates := Cleared(s.gates, c.key, c.phase.seen);
      var removed := if gates != s.gates then s.removed + {(c.phase.seen, s.now)} else s.removed;
      TurnIn(s.(gates := gates, removed := removed), i, c, valid)
    case Answer(i, reply, valid) =>
      var c := s.calls[i];
      match reply
      case Done => s.(calls := s.calls[i := c.(phase := Returned)])
      case Failed => s.(calls := s.calls[i := c.(phase := Raised)])
      case Flood(seconds, kind) =>
        TurnIn(s.(gates := Flooded(s.gates, c.key, seconds, kind, s.now),
                  bans := s.bans + {Ban(c.key, s.now + (if seconds > 1 then seconds else 1) as real)}), i, c, valid)
  }

  ghost predicate Plays(s: Client, events: seq<Event>)
    decreases |events|
  {
    events != [] ==> Possible(s, events[0]) && Plays(Next(s, events[0]), events[1..])
  }

  function Play(s: Client, events: seq<Event>): Client
    requires Plays(s, events)
    decreases |events|
  {
    if events == [] then s else Play(Next(s, events[0]), events[1..])
  }

  /** One call's account: bounded waits, and a wait between any two requests. */
  predicate CallBounded(c: Call) {
    && c.waits <= MAX_CHUNK_WAITS && c.waited <= MAX_CHUNK_WAIT_SECONDS && c.sends <= c.waits + 1
    && (c.phase.Asleep? ==> c.sends <= c.waits && c.phase.seen.deadline <= c.phase.until)
  }

  /** Announced waits are over or guarded by a gate that lasts at least as long. */
  ghost predicate Guarded(gates: map<int, Gate>, bans: set<Ban>, now: real) {
    forall b | b in bans :: b.until <= now || b.until <= Deadline(gates, b.key)
  }

  ghost predicate Sound(s: Client) {
    && 0.0 <= s.now
    && (forall i | 0 <= i < |s.calls| :: CallBounded(s.calls[i]))
    && Guarded(s.gates, s.bans, s.now)
    && s.early == {} && (forall r | r in s.removed :: r.0.deadline <= r.1)
  }

  lemma RemainingCovers(gates: map<int, Gate>, key: int, now: real)
    ensures Remaining(gates, key, now) == 0 <==> Deadline(gates, key) <= now
    ensures Deadline(gates, key) <= now + Remaining(gates, key, now) as real
  {
  }

  /** A flood reply keeps every announced wait guarded, the new one included. */
  lemma FloodGuards(gates: map<int, Gate>, bans: set<Ban>, now: real, key: int, seconds: int, kind: Kind)
    requires Guarded(gates, bans, now)
    ensures var wait := if seconds > 1 then seconds else 1;
      Guarded(Flooded(gates, key, seconds, kind, now), bans + {Ban(key, now + wait as real)}, now)
    ensures now < Deadline(Flooded(gates, key, seconds, kind, now), key)
  {
  }

  lemma TurnSound(s: Client, i: nat, c: Call, valid: bool)
    requires Sound(s) && i <= |s.calls|
    requires c.waits <= MAX_CHUNK_WAITS && c.waited <= MAX_CHUNK_WAIT_SECONDS
    requires c.sends <= c.waits || (c.sends == c.waits + 1 && s.now < Deadline(s.gates, c.key))
    ensures Sound(TurnIn(s, i, c, valid))
  {
    RemainingCovers(s.gates, c.key, s.now);
    assert CallBounded(Turn(s.gates, s.now, c, valid));
  }

  lemma WakeSound(s: Client, i: nat, valid: bool)
    requires Sound(s) && Possible(s, Wake(i, valid))
    ensures Sound(Next(s, Wake(i, valid)))
  {
    var c := s.calls[i];
    assert CallBounded(c);
    var gates := Cleared(s.gates, c.key, c.phase.seen);
    var removed := if gates != s.gates then s.removed + {(c.phase.seen, s.now)} else s.removed;
    TurnSound(s.(gates := gates, removed := removed), i, c, valid);
  }

  lemma AnswerSound(s: Client, i: nat, reply: Reply, valid: bool)
    requires Sound(s) && Possible(s, Answer(i, reply, valid))
    ensures Sound(Next(s, Answer(i, reply, valid)))
  {
    var c := s.calls[i];
    assert CallBounded(c);
    if reply.Flood? {
      FloodGuards(s.gates, s.bans, s.now, c.key, reply.seconds, reply.kind);
      var wait := if reply.seconds > 1 then reply.seconds else 1;
      TurnSound(s.(gates := Flooded(s.gates, c.key, reply.seconds, reply.kind, s.now),
                   bans := s.bans + {Ban(c.key, s.now + wait as real)}), i, c, valid);
    }
  }

  lemma StepSound(s: Client, e: Event)
    requires Sound(s) && Possible(s, e)
    ensures Sound(Next(s, e))
  {
    match e {
      case Pass(later) =>
      case Begin(key, valid) => TurnSound(s, |s.calls|, Call(key, Sent, 0, 0, 0), valid);
      case Wake(i, valid) => WakeSound(s, i, valid);
      case Answer(i, reply, valid) => AnswerSound(s, i, reply, valid);
    }
  }

  /** Shared rate gate: for any number of interleaved calls, each call sleeps at most five times and asks for at most
    sixty seconds, sends at most six requests, no request goes out before a wait announced for its kind is over, and a
    gate is removed only after its own deadline. */
  lemma {:induction false} GateHolds(s: Client, events: seq<Event>)
    requires Sound(s) && Plays(s, events)
    ensures Sound(Play(s, events))
    ensures forall i | 0 <= i < |Play(s, events).calls| :: Play(s, events).calls[i].sends <= 6
    decreases |events|
  {
    if events != [] {
      StepSound(s, events[0]);
      GateHolds(Next(s, events[0]), events[1..]);
    } else {
      assert forall i | 0 <= i < |s.calls| :: CallBounded(s.calls[i]);
    }
  }

  // --------------------------------------------------------------- what a turn does

  /** The least whole number of seconds after which the gate's deadline has passed. */
  predicate Least(seconds: nat, gate: Gate, now: real) {
    gate.deadline <= now + seconds as real < gate.deadline + 1.0
  }

  predicate Shut(gates: map<int, Gate>, key: int, now: real) { key in gates && now < gates[key].deadline }

  /** A call is given up when its scope has ended since it last waited, or is to wait; when the gate is open it sends;
    and at a shut gate it sleeps the whole seconds that are left, unless it has slept five times or would exceed sixty
    seconds. */
  ghost predicate TakesTurn(gates: map<int, Gate>, now: real, c: Call, valid: bool, d: Call) {
    if !valid && (c.waits > 0 || Shut(gates, c.key, now)) then d == c.(phase := Raised)
    else if !Shut(gates, c.key, now) then d == c.(phase := Sent, sends := c.sends + 1)
    else
      exists seconds: nat | Least(seconds, gates[c.key], now) ::
        d == if c.waits >= 5 || c.waited + seconds > 60 then c.(phase := Raised)
             else c.(phase := Asleep(now + seconds as real, gates[c.key]), waits := c.waits + 1,
                     waited := c.waited + seconds)
  }

  lemma RemainingIsLeast(gates: map<int, Gate>, key: int, now: real)
    requires 0.0 <= now
    ensures Remaining(gates, key, now) > 0 <==> Shut(gates, key, now)
    ensures Shut(gates, key, now) ==> Least(Remaining(gates, key, now), gates[key], now)
  {
  }

  lemma TurnDecides(gates: map<int, Gate>, now: real, c: Call, valid: bool)
    requires 0.0 <= now
    ensures TakesTurn(gates, now, c, valid, Turn(gates, now, c, valid))
  {
    RemainingIsLeast(gates, c.key, now);
  }

  /** A flood reply shuts the gate for the seconds it names, at least one, unless it is shut for longer already. */
  ghost predicate Announced(gates: map<int, Gate>, after: map<int, Gate>, key: int, seconds: int, kind: Kind,
      now: real)
  {
    && (forall k | k != key :: (k in after <==> k in gates) && (k in gates ==> after[k] == gates[k]))
    && key in after
    && var until := now + (if seconds > 1 then seconds else 1) as real;
       if key in gates && until < gates[key].deadline then after[key] == gates[key] else after[key] == Gate(until, kind)
  }

  /** The gate a call has slept for goes, unless it has been replaced. */
  ghost predicate Opened(gates: map<int, Gate>, after: map<int, Gate>, key: int, seen: Gate) {
    && (forall k | k != key :: (k in after <==> k in gates) && (k in gates ==> after[k] == gates[k]))
    && (key in after <==> key in gates && gates[key] != seen) && (key in after ==> after[key] == gates[key])
  }

  lemma GatesChange(gates: map<int, Gate>, key: int, seconds: int, kind: Kind, now: real, seen: Gate)
    requires 0.0 <= now
    ensures Announced(gates, Flooded(gates, key, seconds, kind, now), key, seconds, kind, now)
    ensures Opened(gates, Cleared(gates, key, seen), key, seen)
  {
  }

  /** What an event does to the call it is about, and to the gates; every other call stays as it is. */
  lemma EventMoves(s: Client, e: Event)
    requires Sound(s) && Possible(s, e)
    ensures var t := Next(s, e);
      match e
      case Pass(later) => t == s.(now := later)
      case Begin(key, valid) =>
        && t.gates == s.gates && |t.calls| == |s.calls| + 1 && t.calls[..|s.calls|] == s.calls
        && TakesTurn(s.gates, s.now, Call(key, Sent, 0, 0, 0), valid, t.calls[|s.calls|])
      case Wake(i, valid) =>
        && t.calls == s.calls[i := t.calls[i]] && Opened(s.gates, t.gates, s.calls[i].key, s.calls[i].phase.seen)
        && TakesTurn(t.gates, s.now, s.calls[i], valid, t.calls[i])
      case Answer(i, reply, valid) =>
        && t.calls == s.calls[i := t.calls[i]]
        && match reply
           case Done => t.gates == s.gates && t.calls[i] == s.calls[i].(phase := Returned)
           case Failed => t.gates == s.gates && t.calls[i] == s.calls[i].(phase := Raised)
           case Flood(seconds, kind) =>
             && Announced(s.gates, t.gates, s.calls[i].key, seconds, kind, s.now)
             && TakesTurn(t.gates, s.now, s.calls[i], valid, t.calls[i])
  {
    match e {
      case Pass(_) =>
      case Begin(key, valid) => TurnDecides(s.gates, s.now, Call(key, Sent, 0, 0, 0), valid);
      case Wake(i, valid) =>
        GatesChange(s.gates, s.calls[i].key, 0, FloodWait, s.now, s.calls[i].phase.seen);
        TurnDecides(Next(s, e).gates, s.now, s.calls[i], valid);
      case Answer(i, reply, valid) =>
        if reply.Flood? {
          GatesChange(s.gates, s.calls[i].key, reply.seconds, reply.kind, s.now, Gate(0.0, FloodWait));
          TurnDecides(Next(s, e).gates, s.now, s.calls[i], valid);
        }
    }
  }

  /** How many more awaits of its own a call can go through. */
  function Rank(c: Call): int {
    match c.phase
    case Asleep(_, _) => 2 * (MAX_CHUNK_WAITS - c.waits) + 2
    case Sent => 2 * (MAX_CHUNK_WAITS - c.waits) + 1
    case _ => 0
  }

  /** Always returns or raises: every await a call gets through brings it closer to its end, whatever the others do,
    and no event of another call moves it at all. */
  lemma CallsEnd(s: Client, e: Event, i: nat)
    requires Sound(s) && Possible(s, e) && i < |s.calls|
    ensures var t := Next(s, e);
      && i < |t.calls|
      && ((e.Wake? || e.Answer?) && e.call == i ==> 0 <= Rank(t.calls[i]) < Rank(s.calls[i]))
      && (!((e.Wake? || e.Answer?) && e.call == i) ==> t.calls[i] == s.calls[i])
  {
    assert CallBounded(s.calls[i]);
    if e.Answer? && e.call == i && e.reply.Flood? {
      RemainingCovers(Flooded(s.gates, s.calls[i].key, e.reply.seconds, e.reply.kind, s.now), s.calls[i].key, s.now);
    }
  }

  // ------------------------------------------------------------- the call as code

  /** The client object: gates shared by all calls, and the clock. */
  class ListeningClient {
    var gates: map<int, Gate>
    var now: real
    ghost var bans: set<Ban>

    ghost predicate Valid()
      reads this
    {
      0.0 <= now && Guarded(gates, bans, now)
    }

    constructor (now: real)
      requires 0.0 <= now
      ensures Valid() && gates == map[] && this.now == now && bans == {}
    {
      gates, this.now, bans := map[], now, {};
    }

    /** An await: time passes, and other calls may do anything that keeps the announced waits guarded. */
    method Await(least: nat)
      requires Valid()
      modifies this
      ensures Valid() && now >= old(now) + least as real && bans >= old(bans)
    {
      now := now + least as real;
    }

    /** The transport's answer to a request sent now. */
    method Send(key: int) returns (reply: Reply)
      requires Valid() && forall b | b in bans && b.key == key :: b.until <= now
      modifies this
      ensures Valid() && now >= old(now) && bans >= old(bans)
    {
      Await(0);
      reply := *;
    }

    /** The top of the loop: validate, then raise, prepare to sleep, or send. */
    method NextTurn(c: Call, validate: nat -> bool) returns (d: Call)
      requires 0.0 <= now
      ensures d == Turn(gates, now, c, validate(c.waits)) && TakesTurn(gates, now, c, validate(c.waits), d)
    {
      TurnDecides(gates, now, c, validate(c.waits));
      var remaining := Remaining(gates, c.key, now);
      d := c;
      if (c.waits > 0 || remaining > 0) && !validate(c.waits) {
        d := d.(phase := Raised);
      } else if remaining > 0 {
        if c.waits >= MAX_CHUNK_WAITS || c.waited + remaining > MAX_CHUNK_WAIT_SECONDS {
          d := d.(phase := Raised);
        } else {
          var seen := gates[c.key];
          d := d.(waits := d.waits + 1, waited := d.waited + remaining, phase := Asleep(now + remaining as real, seen));
        }
      } else {
        d := d.(phase := Sent, sends := d.sends + 1);
      }
    }

    /** After the sleep: the gate goes if it is still the one that was waited for. */
    method Clear(key: int, seen: Gate)
      requires Valid() && seen.deadline <= now
      modifies this`gates
      ensures Valid() && gates == Cleared(old(gates), key, seen) && Opened(old(gates), gates, key, seen)
    {
      if key in gates && gates[key] == seen {
        gates := gates - {key};
      }
    }

    /** A flood reply: the wait it announces is recorded unless a longer one is. */
    method Record(key: int, seconds: int, kind: Kind)
      requires Valid()
      modifies this`gates, this`bans
      ensures Valid() && gates == Flooded(old(gates), key, seconds, kind, now)
      ensures Announced(old(gates), gates, key, seconds, kind, now)
      ensures bans == old(bans) + {Ban(key, now + (if seconds > 1 then seconds else 1) as real)}
    {
      FloodGuards(gates, bans, now, key, seconds, kind);
      var wait := if seconds > 1 then seconds else 1;
      bans := bans + {Ban(key, now + wait as real)};
      if now + wait as real >= Deadline(gates, key) {
        gates := gates[key := Gate(now + wait as real, kind)];
      }
    }

    /** _call, for a scoped chunk request: it returns what the last reply was, after a bounded account of waits. */
    method Request(key: int, validate: nat -> bool) returns (c: Call, reply: Reply)
      requires Valid()
      modifies this
      ensures Valid() && bans >= old(bans)
      ensures c.key == key && CallBounded(c) && (c.phase.Returned? || c.phase.Raised?)
      ensures c.phase.Returned? ==> reply.Done? && c.sends > 0
      ensures c.phase.Raised? ==> !reply.Done?
      // a call that no reply has failed is given up for its scope, its waits or its seconds only
      ensures c.phase.Raised? && !reply.Failed? ==>
                || (!validate(c.waits) && (c.waits > 0 || Shut(gates, key, now)))
                || (Shut(gates, key, now) && (c.waits >= 5 ||
                      exists seconds: nat | Least(seconds, gates[key], now) :: c.waited + seconds > 60))
    {
      c, reply := Call(key, Sent, 0, 0, 0), Flood(0, FloodPremiumWait);
      while true
        invariant Valid() && bans >= old(bans) && c.key == key
        invariant c.waits <= MAX_CHUNK_WAITS && c.waited <= MAX_CHUNK_WAIT_SECONDS && reply.Flood?
        invariant c.sends <= c.waits || (c.sends == c.waits + 1 && now < Deadline(gates, key))
        decreases MAX_CHUNK_WAITS - c.waits, c.waits + 1 - c.sends
      {
        RemainingCovers(gates, key, now);
        c := NextTurn(c, validate);
        if c.phase.Raised? {
          return;
        }
        if c.phase.Asleep? {
          Await(Remaining(gates, key, now));
          Clear(key, c.phase.seen);
          continue;
        }
        reply := Send(key);
        match reply {
          case Done =>
            c := c.(phase := Returned);
            return;
          case Failed =>
            c := c.(phase := Raised);
            return;
          case Flood(seconds, kind) =>
            Record(key, seconds, kind);
        }
      }
    }
  }
}
