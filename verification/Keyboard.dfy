/** Keyboard autorepeat.  The program jumps over whole spans of time with a division; the
    reference counts one master tick after another. */
module Keyboards {
  import opened Bytes
  import opened Wrappers

  const REPEAT_DELAY_TICKS: nat := 6_000_000
  const REPEAT_INTERVAL_TICKS: nat := 3_000_000

  datatype KeyState = KeyState(held: bool, id: nat, code: byte, untilRepeat: nat)

  const KEYS_RESET := KeyState(false, 0, 0, REPEAT_DELAY_TICKS)

  /** The next repeat is always ahead. */
  predicate Ahead(k: KeyState) {
    k.untilRepeat >= 1
  }

  // ---------------------------------------------------------------- the reference: tick by tick

  predicate RepeatsNow(k: KeyState) {
    k.held && k.untilRepeat == 1
  }

  function Tick(k: KeyState): KeyState
    requires Ahead(k)
  {
    if !k.held then k
    else k.(untilRepeat := if RepeatsNow(k) then REPEAT_INTERVAL_TICKS else k.untilRepeat - 1)
  }

  ghost function Ticked(k: KeyState, ticks: nat): (after: KeyState)
    requires Ahead(k)
    ensures Ahead(after)
    decreases ticks, k
  {
    if ticks == 0 then k else Tick(Ticked(k, ticks - 1))
  }

  /** The repeats during these ticks. */
  ghost function Repeats(k: KeyState, ticks: nat): nat
    requires Ahead(k)
    decreases ticks, k
  {
    if ticks == 0 then 0
    else Repeats(k, ticks - 1) + if RepeatsNow(Ticked(k, ticks - 1)) then 1 else 0
  }

  /** Time may be cut anywhere. */
  lemma {:induction false} TickedConcat(k: KeyState, a: nat, b: nat)
    requires Ahead(k)
    ensures Ticked(k, a + b) == Ticked(Ticked(k, a), b)
    ensures Repeats(k, a + b) == Repeats(k, a) + Repeats(Ticked(k, a), b)
    decreases b
  {
    if b > 0 {
      TickedConcat(k, a, b - 1);
      assert a + b - 1 == a + (b - 1);
    }
  }

  ghost function AfterChunks(k: KeyState, chunks: seq<nat>): (KeyState, nat)
    requires Ahead(k)
    decreases chunks
  {
    if chunks == [] then (k, 0)
    else
      var (after, repeats) := AfterChunks(Ticked(k, chunks[0]), chunks[1..]);
      (after, Repeats(k, chunks[0]) + repeats)
  }

  /** Only the sum of the time steps matters to the repeats and to the state. */
  lemma {:induction false} RepeatsIgnoreChunks(k: KeyState, chunks: seq<nat>)
    requires Ahead(k)
    ensures AfterChunks(k, chunks) == (Ticked(k, Sum(chunks)), Repeats(k, Sum(chunks)))
    decreases chunks
  {
    if chunks != [] {
      RepeatsIgnoreChunks(Ticked(k, chunks[0]), chunks[1..]);
      TickedConcat(k, chunks[0], Sum(chunks[1..]));
    }
  }

  // ---------------------------------------------------------------- closed form

  /** Up to the first repeat. */
  lemma {:induction false} Countdown(k: KeyState, ticks: nat)
    requires Ahead(k) && (!k.held || ticks <= k.untilRepeat)
    ensures Repeats(k, ticks) == if k.held && ticks == k.untilRepeat then 1 else 0
    ensures Ticked(k, ticks) == if !k.held then k
                                else if ticks < k.untilRepeat then k.(untilRepeat := k.untilRepeat - ticks)
                                else k.(untilRepeat := REPEAT_INTERVAL_TICKS)
    decreases ticks
  {
    if ticks > 0 {
      Countdown(k, ticks - 1);
    }
  }

  /** A held key repeats once when the countdown ends and once per interval after that. */
  lemma {:induction false} RepeatCount(k: KeyState, rest: nat)
    requires Ahead(k) && k.held
    ensures Repeats(k, k.untilRepeat + rest) == 1 + rest / REPEAT_INTERVAL_TICKS
    ensures Ticked(k, k.untilRepeat + rest)
         == k.(untilRepeat := REPEAT_INTERVAL_TICKS - rest % REPEAT_INTERVAL_TICKS)
    decreases rest
  {
    Countdown(k, k.untilRepeat);
    TickedConcat(k, k.untilRepeat, rest);
    var next := k.(untilRepeat := REPEAT_INTERVAL_TICKS);
    if rest < REPEAT_INTERVAL_TICKS {
      Countdown(next, rest);
    } else {
      RepeatCount(next, rest - REPEAT_INTERVAL_TICKS);
    }
  }

  // ---------------------------------------------------------------- the keyboard

  class Keyboard {
    var ticksUntilRepeat: nat
    var heldKeyId: nat
    var heldCode: byte
    var keyHeld: bool

    ghost function State(): KeyState
      reads this
    {
      KeyState(keyHeld, heldKeyId, heldCode, ticksUntilRepeat)
    }

    ghost predicate Valid()
      reads this
    {
      Ahead(State())
    }

    constructor ()
      ensures Valid() && State() == KEYS_RESET
    {
      ticksUntilRepeat, heldKeyId, heldCode, keyHeld := REPEAT_DELAY_TICKS, 0, 0, false;
    }

    method Reset()
      modifies this
      ensures Valid() && State() == KEYS_RESET
    {
      ticksUntilRepeat, heldKeyId, heldCode, keyHeld := REPEAT_DELAY_TICKS, 0, 0, false;
    }

    /** A key that is held already emits nothing more. */
    method KeyDown(id: nat, code: byte) returns (emitted: Option<byte>)
      requires Valid()
      modifies this
      ensures Valid()
      ensures var again := old(keyHeld) && old(heldKeyId) == id;
              && emitted == (if again then None else Some(code))
              && State() == if again then old(State()) else KeyState(true, id, code, REPEAT_DELAY_TICKS)
    {
      if keyHeld && heldKeyId == id {
        return None;
      }
      heldKeyId, heldCode := id, code;
      ticksUntilRepeat := REPEAT_DELAY_TICKS;
      keyHeld := true;
      return Some(code);
    }

    method KeyUp(id: nat)
      requires Valid()
      modifies this
      ensures Valid()
      ensures State() == if old(keyHeld) && old(heldKeyId) == id
                         then old(State()).(held := false, untilRepeat := REPEAT_DELAY_TICKS)
                         else old(State())
    {
      if keyHeld && heldKeyId == id {
        keyHeld := false;
        ticksUntilRepeat := REPEAT_DELAY_TICKS;
      }
    }

    /** The repeats of a span of time, at once. */
    method Advance(masterTicks: nat) returns (repeats: nat)
      requires Valid()
      modifies this
      ensures Valid()
      ensures State() == Ticked(old(State()), masterTicks)
      ensures repeats == Repeats(old(State()), masterTicks)
    {
      if !keyHeld || masterTicks < ticksUntilRepeat {
        Countdown(State(), masterTicks);
        if keyHeld {
          ticksUntilRepeat := ticksUntilRepeat - masterTicks;
        }
        return 0;
      }
      var rest := masterTicks - ticksUntilRepeat;
      RepeatCount(State(), rest);
      repeats := 1 + rest / REPEAT_INTERVAL_TICKS;
      var remainder := rest % REPEAT_INTERVAL_TICKS;
      ticksUntilRepeat := REPEAT_INTERVAL_TICKS - remainder;
    }
  }

  /** A key held down from the beginning repeats after half a second of master ticks, and every quarter of
      a second after that. */
  lemma {:induction false} HeldKeyRepeats(id: nat, code: byte, ticks: nat)
    ensures Repeats(KeyState(true, id, code, 6_000_000), ticks)
         == if ticks < 6_000_000 then 0 else 1 + (ticks - 6_000_000) / 3_000_000
  {
    var k := KeyState(true, id, code, 6_000_000);
    if ticks < 6_000_000 {
      Countdown(k, ticks);
    } else {
      RepeatCount(k, ticks - 6_000_000);
    }
  }
}
