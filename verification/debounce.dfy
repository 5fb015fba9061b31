/** The push-button program of Debounce/Debounce.c: a press is accepted when
    two readings of PINB, one debounce delay apart, both see the active-low
    button on PB0; the main loop toggles the LED on PB5 once per press. The
    delay is not modelled: the two readings are inputs. */
module Debounce {
  import opened AvrIo

  /** The button and LED pins (Debounce/Debounce.c:15 and 20). */
  const BUTTON: bv8 := PB0
  const LED: bv8 := PB5

  /** The button pulls its pin low while pressed. */
  predicate Pressed(pin: bv8) {
    !IsSet(pin, BUTTON)
  }

  /** debounce (Debounce/Debounce.c:25-37): 1 when both readings see the
      button pressed, 0 otherwise. */
  function Debounce(first: bv8, second: bv8): (r: bv8)
    ensures r <= 1
    ensures r == 1 <==> Pressed(first) && Pressed(second)
  {
    if !IsSet(first, BUTTON) then
      if !IsSet(second, BUTTON) then 1 else 0
    else 0
  }

  /** Only the button pin of each reading decides the result. */
  lemma OnlyButtonPinMatters(first: bv8, second: bv8, first': bv8, second': bv8)
    requires first & Bit(BUTTON) == first' & Bit(BUTTON)
    requires second & Bit(BUTTON) == second' & Bit(BUTTON)
    ensures Debounce(first, second) == Debounce(first', second')
  {
    PinFacts(first, first');
    PinFacts(second, second');
  }

  lemma PinFacts(x: bv8, y: bv8)
    requires x & Bit(BUTTON) == y & Bit(BUTTON)
    ensures IsSet(x, BUTTON) == IsSet(y, BUTTON)
  {
  }

  /** The variables of the main loop: `buttonPressed` and PORTB. */
  datatype Loop = Loop(pressed: bool, portb: bv8)

  /** Whether the LED pin of PORTB is driven high. */
  predicate Led(s: Loop) {
    IsSet(s.portb, LED)
  }

  /** The PORTB bits other than the LED's. */
  function OtherBits(s: Loop): bv8 {
    s.portb & !Bit(LED)
  }

  /** One pass of the main loop (Debounce/Debounce.c:52-61) given the result
      of debounce: the LED bit flips exactly on a press that follows a pass
      without one, and `buttonPressed` remembers whether this pass saw one. */
  function Step(s: Loop, press: bool): (s': Loop)
    ensures s'.pressed == press
    ensures OtherBits(s') == OtherBits(s)
    ensures Led(s') != Led(s) <==> press && !s.pressed
  {
    if press then
      if !s.pressed then
        ToggleFacts(s.portb);
        Loop(true, s.portb ^ Bit(LED))
      else s
    else s.(pressed := false)
  }

  lemma ToggleFacts(x: bv8)
    ensures (x ^ Bit(LED)) & !Bit(LED) == x & !Bit(LED)
    ensures IsSet(x ^ Bit(LED), LED) != IsSet(x, LED)
  {
  }

  /** The main loop over a finite sequence of debounce results. */
  function Run(s: Loop, presses: seq<bool>): Loop
    decreases |presses|
  {
    if presses == [] then s else Run(Step(s, presses[0]), presses[1..])
  }

  /** The number of passes that toggle the LED. */
  function Toggles(s: Loop, presses: seq<bool>): nat
    decreases |presses|
  {
    if presses == [] then 0
    else
      var s' := Step(s, presses[0]);
      (if Led(s') != Led(s) then 1 else 0) + Toggles(s', presses[1..])
  }

  /** The rising edges of the debounced signal, `prev` being its value before
      the first pass: the positions where it goes from no press to press. */
  function RisingEdges(prev: bool, presses: seq<bool>): nat
    decreases |presses|
  {
    if presses == [] then 0
    else (if presses[0] && !prev then 1 else 0) + RisingEdges(presses[0], presses[1..])
  }

  /** The LED toggles once per rising edge, counting from the value of
      `buttonPressed` the loop starts with. */
  lemma {:induction false} TogglesAreRisingEdges(s: Loop, presses: seq<bool>)
    ensures Toggles(s, presses) == RisingEdges(s.pressed, presses)
    decreases |presses|
  {
    if presses != [] {
      TogglesAreRisingEdges(Step(s, presses[0]), presses[1..]);
    }
  }

  /** After any number of passes only the LED bit of PORTB can differ, and
      it differs exactly when the number of rising edges is odd. */
  lemma {:induction false} RunTogglesLed(s: Loop, presses: seq<bool>)
    ensures OtherBits(Run(s, presses)) == OtherBits(s)
    ensures Led(Run(s, presses)) != Led(s) <==> RisingEdges(s.pressed, presses) % 2 == 1
    decreases |presses|
  {
    if presses != [] {
      RunTogglesLed(Step(s, presses[0]), presses[1..]);
    }
  }

  /** After at least one pass `buttonPressed` is the last debounce result. */
  lemma {:induction false} RunRemembersLastPress(s: Loop, presses: seq<bool>)
    requires presses != []
    ensures Run(s, presses).pressed == presses[|presses| - 1]
    decreases |presses|
  {
    if |presses| > 1 {
      RunRemembersLastPress(Step(s, presses[0]), presses[1..]);
      assert presses[1..][|presses[1..]| - 1] == presses[|presses| - 1];
    }
  }

  /** Holding the button through any number of passes, from released,
      toggles the LED exactly once. */
  lemma {:induction false} HoldTogglesOnce(prev: bool, presses: seq<bool>)
    requires presses != []
    requires forall i :: 0 <= i < |presses| ==> presses[i]
    ensures RisingEdges(prev, presses) == if prev then 0 else 1
    decreases |presses|
  {
    if |presses| > 1 {
      HoldTogglesOnce(presses[0], presses[1..]);
    }
  }

  /** The debounce results of a sequence of reading pairs. */
  function Presses(samples: seq<(bv8, bv8)>): (ps: seq<bool>)
    ensures |ps| == |samples|
    ensures forall i :: 0 <= i < |samples| ==>
              (ps[i] <==> Pressed(samples[i].0) && Pressed(samples[i].1))
  {
    seq(|samples|, i requires 0 <= i < |samples| => Debounce(samples[i].0, samples[i].1) == 1)
  }

  /** The main loop of Debounce/Debounce.c:47-62 over a finite sequence of
      reading pairs, from `buttonPressed == 0`: it ends in the state Run
      describes and has toggled the LED once per rising edge. */
  method MainLoop(portb: bv8, samples: seq<(bv8, bv8)>) returns (s: Loop, toggles: nat)
    ensures s == Run(Loop(false, portb), Presses(samples))
    ensures toggles == RisingEdges(false, Presses(samples))
  {
    var ps := Presses(samples);
    s := Loop(false, portb);
    toggles := 0;
    var i := 0;
    while i < |samples|
      invariant 0 <= i <= |samples|
      invariant Run(s, ps[i..]) == Run(Loop(false, portb), ps)
      invariant toggles + RisingEdges(s.pressed, ps[i..]) == RisingEdges(false, ps)
    {
      assert ps[i..][0] == ps[i] && ps[i..][1..] == ps[i + 1..];
      if Debounce(samples[i].0, samples[i].1) == 1 {
        if !s.pressed {
          s := Loop(true, s.portb ^ Bit(LED));
          toggles := toggles + 1;
        }
      } else {
        s := s.(pressed := false);
      }
      i := i + 1;
    }
    assert ps[i..] == [];
  }
}
