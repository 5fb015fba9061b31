/** The three timer units together: the global interrupt enable, the
    per-unit callback slots (timer0FuncPtr, timer1FuncPtr, timer2FuncPtr,
    Timer/TIMER.h:80, 94, 108), the per-unit setters that `initTimerN` calls,
    the fixed order of `initTimerN`, and the interrupt service routines that
    call the stored callback. */
module TimerUnits {
  import opened AvrIo
  import Counter8
  import Counter16
  import Ticks

  datatype Unit = T0 | T1 | T2

  /** A registered callback: an opaque token standing for a function pointer. */
  datatype Callback = Callback(id: nat)

  /** Everything the timer driver writes: the three register images, the
      global interrupt enable (the I bit `sei()` sets) and the callback slots.
      A unit absent from `slots` still holds the null pointer it starts with. */
  datatype State = State(
    t0: Counter8.Regs,
    t1: Counter16.Regs,
    t2: Counter8.Regs,
    interruptsEnabled: bool,
    slots: map<Unit, Callback>)

  /** The arguments of `initTimerN(waveformMode, milliseconds, compareMode,
      prescaler, interrupt, f)`. The period is declared uint16_t for Timer 1
      and uint8_t for Timers 0 and 2; an 8-bit unit receives its low byte. */
  datatype Config = Config(
    waveformMode: bv8,
    ms: bv16,
    compareMode: bv8,
    prescaler: bv16,
    interrupt: bv8,
    callback: Callback)

  /** The clock-select code of a unit (0 = stopped). */
  function ClockSelect(s: State, u: Unit): bv8 {
    match u
    case T0 => Counter8.ClockSelect(s.t0)
    case T1 => Counter16.ClockSelect(s.t1)
    case T2 => Counter8.ClockSelect(s.t2)
  }

  /** The compare register OCRnA of a unit, as a number. */
  function Ocr(s: State, u: Unit): nat {
    match u
    case T0 => s.t0.ocrA as nat
    case T1 => s.t1.ocrA as nat
    case T2 => s.t2.ocrA as nat
  }

  /** The interrupt-mask register TIMSKn of a unit. */
  function Mask(s: State, u: Unit): bv8 {
    match u
    case T0 => s.t0.timsk
    case T1 => s.t1.timsk
    case T2 => s.t2.timsk
  }

  /** The mask bit `setTimerNInterrupt` enables for a waveform mode. */
  function SourceBit(u: Unit, mode: bv8): bv8 {
    if u == T1 then Counter16.SourceBit(mode) else Counter8.SourceBit(mode)
  }

  /** setTimer0Waveform as written (Timer/TIMER.c:239-264): it names Timer 0's
      WGM bits but writes TCCR1A and TCCR1B. Only Timer 1's two control
      registers change; the consequences are stated by
      Timer0WaveformRewritesTimer1. */
  function SetTimer0Waveform(s: State, waveform: bv8): (s': State)
    ensures s' == s.(t1 := s'.t1)
    ensures s'.t1 == s.t1.(tccrA := s'.t1.tccrA, tccrB := s'.t1.tccrB)
  {
    s.(t1 := s.t1.(tccrA := Counter8.WaveformLow(s.t1.tccrA, waveform),
                   tccrB := s.t1.tccrB & !Bit(WGM02)))
  }

  /** Timer 0's waveform mode never changes, whatever is requested, while
      Timer 1's WGM11:10 and WGM12 are rewritten. WGM13 is left alone, so a
      CTC request puts Timer 1 into mode 2 or 10 (a phase-correct PWM mode)
      depending on what it held. */
  lemma Timer0WaveformRewritesTimer1(s: State, waveform: bv8)
    ensures Counter8.WaveformMode(SetTimer0Waveform(s, waveform).t0) == Counter8.WaveformMode(s.t0)
    ensures Counter16.WaveformMode(SetTimer0Waveform(s, waveform).t1)
            == (if waveform == 1 then 2 else 0) | (Counter16.WaveformMode(s.t1) & 8)
    ensures SetTimer0Waveform(s, waveform).t1.tccrA & !3 == s.t1.tccrA & !3
    ensures Counter16.ClockSelect(SetTimer0Waveform(s, waveform).t1) == Counter16.ClockSelect(s.t1)
  {
    var t := SetTimer0Waveform(s, waveform).t1;
    LowFacts(s.t1.tccrA, waveform);
    MisdirectedModeFacts(s.t1.tccrA, s.t1.tccrB, t.tccrA, t.tccrB, waveform);
    ModeOf(t);
    ModeOf(s.t1);
    DisjointFieldKept(s.t1.tccrB, t.tccrB, Bit(WGM02), Counter16.CsMask);
  }

  lemma LowFacts(a: bv8, waveform: bv8)
    ensures Counter8.WaveformLow(a, waveform) & !3 == a & !3
    ensures Counter8.WaveformLow(a, waveform) & 3 == (if waveform == 1 then 2 else 0)
  {
    assert Counter8.WgmMaskA == 3;
  }

  lemma ModeOf(t: Counter16.Regs)
    ensures Counter16.WaveformMode(t) == (((t.tccrB >> WGM12) & 3) << 2) | (t.tccrA & 3)
  {
  }

  lemma MisdirectedModeFacts(a: bv8, b: bv8, a': bv8, b': bv8, waveform: bv8)
    requires a' & !3 == a & !3 && a' & 3 == (if waveform == 1 then 2 else 0)
    requires b' == b & !Bit(WGM02)
    ensures (((b' >> WGM12) & 3) << 2) | (a' & 3)
            == (if waveform == 1 then 2 else 0) | (((((b >> WGM12) & 3) << 2) | (a & 3)) & 8)
  {
  }

  /** setTimerNWaveform for each unit. */
  function SetWaveform(s: State, u: Unit, waveform: bv8): State {
    match u
    case T0 => SetTimer0Waveform(s, waveform)
    case T1 => s.(t1 := Counter16.SetWaveform(s.t1, waveform))
    case T2 => s.(t2 := Counter8.SetWaveform(s.t2, waveform))
  }

  /** setTimerNTicks for each unit; an 8-bit unit takes the low byte. */
  function SetTicks(s: State, u: Unit, prescaler: bv16, ms: bv16): State
    requires prescaler != 0
  {
    match u
    case T0 => s.(t0 := Counter8.SetTicks(s.t0, prescaler, Low8(ms)))
    case T1 => s.(t1 := Counter16.SetTicks(s.t1, prescaler, ms))
    case T2 => s.(t2 := Counter8.SetTicks(s.t2, prescaler, Low8(ms)))
  }

  /** The value setTimerNTicks ORs into the unit's compare register. */
  function TicksFor(u: Unit, prescaler: bv16, ms: bv16): nat
    requires prescaler != 0
  {
    if u == T1 then Counter16.TicksValue(prescaler, ms) as nat
    else Counter8.TicksValue(prescaler, Low8(ms)) as nat
  }

  /** setTimerNCompare for each unit. */
  function SetCompare(s: State, u: Unit, mode: bv8): State {
    match u
    case T0 => s.(t0 := Counter8.SetCompare(s.t0, mode))
    case T1 => s.(t1 := Counter16.SetCompare(s.t1, mode))
    case T2 => s.(t2 := Counter8.SetCompare(s.t2, mode))
  }

  /** setTimerNInterrupt for each unit: the mask bit, then `sei()`. */
  function SetInterrupt(s: State, u: Unit, mode: bv8): (s': State)
    ensures s'.interruptsEnabled
    ensures s'.slots == s.slots
  {
    var s1 := match u
      case T0 => s.(t0 := Counter8.SetInterrupt(s.t0, mode))
      case T1 => s.(t1 := Counter16.SetInterrupt(s.t1, mode))
      case T2 => s.(t2 := Counter8.SetInterrupt(s.t2, mode));
    s1.(interruptsEnabled := true)
  }

  /** setTimerNPrescaler for each unit. */
  function SetPrescaler(s: State, u: Unit, prescaler: bv16): State {
    match u
    case T0 => s.(t0 := Counter8.SetPrescaler(s.t0, prescaler))
    case T1 => s.(t1 := Counter16.SetPrescaler(s.t1, prescaler))
    case T2 => s.(t2 := Counter8.SetPrescaler(s.t2, prescaler))
  }

  /** The statements of `initTimerN`, in the order they can run. */
  datatype Step = WaveformStep | TicksStep | CompareStep | InterruptStep | CallbackStep | PrescalerStep

  /** The statements `initTimerN` executes for a configuration
      (Timer/TIMER.c:129-150): the setup, the interrupt part, and the
      prescaler last. */
  function InitSteps(cfg: Config): seq<Step> {
    Setup(cfg) + Arm(cfg) + [PrescalerStep]
  }

  /** The waveform, the ticks only for a nonzero waveform mode, and the
      compare mode. */
  function Setup(cfg: Config): (steps: seq<Step>)
    ensures PrescalerStep !in steps && InterruptStep !in steps && CallbackStep !in steps
  {
    [WaveformStep] + (if cfg.waveformMode != 0 then [TicksStep] else []) + [CompareStep]
  }

  /** The interrupt mask (with `sei()`) and the callback store, only for a
      nonzero interrupt flag. */
  function Arm(cfg: Config): seq<Step> {
    if cfg.interrupt != 0 then [InterruptStep, CallbackStep] else []
  }

  /** A configuration `initTimerN` can run with: a nonzero waveform mode makes
      it compute ticks, which divides by the prescaler code. */
  predicate Runnable(cfg: Config) {
    cfg.waveformMode != 0 ==> cfg.prescaler != 0
  }

  /** The effect of one statement of `initTimerN` on unit `u`. */
  function ApplyStep(s: State, u: Unit, cfg: Config, step: Step): State
    requires step == TicksStep ==> cfg.prescaler != 0
  {
    match step
    case WaveformStep => SetWaveform(s, u, cfg.waveformMode)
    case TicksStep => SetTicks(s, u, cfg.prescaler, cfg.ms)
    case CompareStep => SetCompare(s, u, cfg.compareMode)
    case InterruptStep => SetInterrupt(s, u, cfg.waveformMode)
    case CallbackStep => s.(slots := s.slots[u := cfg.callback])
    case PrescalerStep => SetPrescaler(s, u, cfg.prescaler)
  }

  /** The state after running `steps` in order. */
  function Run(s: State, u: Unit, cfg: Config, steps: seq<Step>): State
    requires TicksStep in steps ==> cfg.prescaler != 0
    decreases |steps|
  {
    if |steps| == 0 then s
    else ApplyStep(Run(s, u, cfg, steps[..|steps| - 1]), u, cfg, steps[|steps| - 1])
  }

  /** Running two statement lists one after the other is running their
      concatenation. */
  lemma {:induction false} RunAppend(s: State, u: Unit, cfg: Config, a: seq<Step>, b: seq<Step>)
    requires TicksStep in a + b ==> cfg.prescaler != 0
    ensures TicksStep in a ==> cfg.prescaler != 0
    ensures TicksStep in b ==> cfg.prescaler != 0
    ensures Run(s, u, cfg, a + b) == Run(Run(s, u, cfg, a), u, cfg, b)
    decreases |b|
  {
    assert forall x :: x in a ==> x in a + b;
    assert forall x :: x in b ==> x in a + b;
    if |b| == 0 {
      assert a + b == a;
    } else {
      var b' := b[..|b| - 1];
      assert (a + b)[..|a + b| - 1] == a + b';
      assert (a + b)[|a + b| - 1] == b[|b| - 1];
      assert forall x :: x in b' ==> x in b;
      RunAppend(s, u, cfg, a, b');
    }
  }

  /** The interrupt part runs the mask-and-`sei()` call, then the store. */
  lemma RunArm(s: State, u: Unit, cfg: Config)
    ensures Run(s, u, cfg, Arm(cfg))
            == if cfg.interrupt != 0
               then ApplyStep(ApplyStep(s, u, cfg, InterruptStep), u, cfg, CallbackStep)
               else s
  {
    if cfg.interrupt != 0 {
      assert Arm(cfg)[..1] == [InterruptStep];
      assert [InterruptStep][..0] == [];
    }
  }

  /** initTimer0, initTimer1 and initTimer2 (Timer/TIMER.c:321-342, 129-150,
      509-530). The callback slot changes exactly when the interrupt flag is
      nonzero, and the global interrupt enable is then left set. */
  function Init(s: State, u: Unit, cfg: Config): (s': State)
    requires Runnable(cfg)
    ensures s'.slots == if cfg.interrupt != 0 then s.slots[u := cfg.callback] else s.slots
    ensures s'.interruptsEnabled == (s.interruptsEnabled || cfg.interrupt != 0)
  {
    InitFrame(s, u, cfg);
    Run(s, u, cfg, InitSteps(cfg))
  }

  lemma InitFrame(s: State, u: Unit, cfg: Config)
    requires Runnable(cfg)
    ensures var s' := Run(s, u, cfg, InitSteps(cfg));
            && s'.slots == (if cfg.interrupt != 0 then s.slots[u := cfg.callback] else s.slots)
            && s'.interruptsEnabled == (s.interruptsEnabled || cfg.interrupt != 0)
  {
    var setup := Setup(cfg);
    RunAppend(s, u, cfg, setup + Arm(cfg), [PrescalerStep]);
    RunAppend(s, u, cfg, setup, Arm(cfg));
    var mid := Run(s, u, cfg, setup);
    RunWithoutInterruptKeepsGlobals(s, u, cfg, setup);
    RunArm(mid, u, cfg);
    var armed := Run(mid, u, cfg, Arm(cfg));
    assert [PrescalerStep][..0] == [];
    StepGlobals(armed, u, cfg, PrescalerStep);
    if cfg.interrupt != 0 {
      StepGlobals(mid, u, cfg, InterruptStep);
      StepGlobals(ApplyStep(mid, u, cfg, InterruptStep), u, cfg, CallbackStep);
    }
  }

  /** What one statement does to the global enable and the slots. */
  lemma StepGlobals(s: State, u: Unit, cfg: Config, step: Step)
    requires step == TicksStep ==> cfg.prescaler != 0
    ensures ApplyStep(s, u, cfg, step).slots
            == (if step == CallbackStep then s.slots[u := cfg.callback] else s.slots)
    ensures ApplyStep(s, u, cfg, step).interruptsEnabled
            == (s.interruptsEnabled || step == InterruptStep)
  {
  }

  /** Statements other than the interrupt and callback ones touch neither the
      global enable nor the slots. */
  lemma {:induction false} RunWithoutInterruptKeepsGlobals(s: State, u: Unit, cfg: Config, steps: seq<Step>)
    requires TicksStep in steps ==> cfg.prescaler != 0
    requires InterruptStep !in steps && CallbackStep !in steps
    ensures Run(s, u, cfg, steps).slots == s.slots
    ensures Run(s, u, cfg, steps).interruptsEnabled == s.interruptsEnabled
    decreases |steps|
  {
    if |steps| > 0 {
      var init := steps[..|steps| - 1];
      assert forall x :: x in init ==> x in steps;
      RunWithoutInterruptKeepsGlobals(s, u, cfg, init);
      StepGlobals(Run(s, u, cfg, init), u, cfg, steps[|steps| - 1]);
    }
  }

  /** The order of `initTimerN`: the waveform first; ticks iff the waveform
      mode is nonzero; the mask-and-`sei()` call and the callback store iff the
      interrupt flag is nonzero, the store right after the call; the prescaler
      last and only there. */
  lemma InitStepOrder(cfg: Config)
    ensures InitSteps(cfg)[0] == WaveformStep
    ensures TicksStep in InitSteps(cfg) <==> cfg.waveformMode != 0
    ensures InterruptStep in InitSteps(cfg) <==> cfg.interrupt != 0
    ensures CallbackStep in InitSteps(cfg) <==> cfg.interrupt != 0
    ensures forall i, j :: (0 <= i < |InitSteps(cfg)| && 0 <= j < |InitSteps(cfg)|
              && InitSteps(cfg)[i] == InterruptStep && InitSteps(cfg)[j] == CallbackStep) ==> j == i + 1
    ensures InitSteps(cfg)[|InitSteps(cfg)| - 1] == PrescalerStep
    ensures PrescalerStep !in InitSteps(cfg)[..|InitSteps(cfg)| - 1]
  {
    assert InitSteps(cfg)[..|InitSteps(cfg)| - 1] == Setup(cfg) + Arm(cfg);
  }

  /** Every statement except the prescaler write leaves the unit's clock
      select alone (Timer 0's waveform setter only reaches Timer 1's WGM bits). */
  lemma StepKeepsClock(s: State, u: Unit, cfg: Config, step: Step)
    requires step == TicksStep ==> cfg.prescaler != 0
    requires step != PrescalerStep
    ensures ClockSelect(ApplyStep(s, u, cfg, step), u) == ClockSelect(s, u)
  {
    match step
    case WaveformStep => WaveformKeepsClock(s, u, cfg.waveformMode);
    case TicksStep =>
    case CompareStep =>
    case InterruptStep =>
    case CallbackStep =>
  }

  lemma WaveformKeepsClock(s: State, u: Unit, waveform: bv8)
    ensures ClockSelect(SetWaveform(s, u, waveform), u) == ClockSelect(s, u)
  {
    match u
    case T0 =>
      Timer0WaveformRewritesTimer1(s, waveform);
    case T1 =>
      DisjointFieldKept(s.t1.tccrB, Counter16.SetWaveform(s.t1, waveform).tccrB,
                        Counter16.WgmMaskB, Counter16.CsMask);
    case T2 =>
      DisjointFieldKept(s.t2.tccrB, Counter8.SetWaveform(s.t2, waveform).tccrB,
                        Counter8.WgmMaskB, Counter8.CsMask);
  }

  /** A statement list without the prescaler write leaves the unit's clock
      select alone. */
  lemma {:induction false} RunWithoutPrescalerKeepsClock(s: State, u: Unit, cfg: Config, steps: seq<Step>)
    requires TicksStep in steps ==> cfg.prescaler != 0
    requires PrescalerStep !in steps
    ensures ClockSelect(Run(s, u, cfg, steps), u) == ClockSelect(s, u)
    decreases |steps|
  {
    if |steps| > 0 {
      var init := steps[..|steps| - 1];
      assert forall x :: x in init ==> x in steps;
      RunWithoutPrescalerKeepsClock(s, u, cfg, init);
      StepKeepsClock(Run(s, u, cfg, init), u, cfg, steps[|steps| - 1]);
    }
  }

  /** The clock of the unit being configured is not touched until the very
      last statement: a stopped timer stays stopped while the waveform, period,
      compare mode and interrupt are configured. */
  lemma ClockStartsLast(s: State, u: Unit, cfg: Config, k: nat)
    requires Runnable(cfg)
    requires k < |InitSteps(cfg)|
    ensures ClockSelect(Run(s, u, cfg, InitSteps(cfg)[..k]), u) == ClockSelect(s, u)
  {
    var body := Setup(cfg) + Arm(cfg);
    assert InitSteps(cfg)[..k] == body[..k];
    assert forall x :: x in body[..k] ==> x in body;
    RunWithoutPrescalerKeepsClock(s, u, cfg, body[..k]);
  }

  /** The units `initTimerN` does not configure keep their registers, except
      that configuring Timer 0 rewrites Timer 1's two control registers. */
  predicate OthersKept(s: State, s': State, u: Unit) {
    && (u != T0 ==> s'.t0 == s.t0)
    && (u == T2 ==> s'.t1 == s.t1)
    && (u == T0 ==> s'.t1 == s.t1.(tccrA := s'.t1.tccrA, tccrB := s'.t1.tccrB))
    && (u != T2 ==> s'.t2 == s.t2)
  }

  /** One statement keeps the units it does not configure. */
  lemma StepOthers(s: State, u: Unit, cfg: Config, step: Step)
    requires step == TicksStep ==> cfg.prescaler != 0
    ensures OthersKept(s, ApplyStep(s, u, cfg, step), u)
  {
    match step
    case WaveformStep =>
    case TicksStep =>
    case CompareStep =>
    case InterruptStep =>
    case CallbackStep =>
    case PrescalerStep =>
  }

  /** One statement changes the compare register only when it is the ticks
      write, which turns a cleared register into the computed ticks. */
  lemma StepOcr(s: State, u: Unit, cfg: Config, step: Step)
    requires step == TicksStep ==> cfg.prescaler != 0
    ensures step != TicksStep ==> Ocr(ApplyStep(s, u, cfg, step), u) == Ocr(s, u)
    ensures step == TicksStep && Ocr(s, u) == 0
            ==> Ocr(ApplyStep(s, u, cfg, step), u) == TicksFor(u, cfg.prescaler, cfg.ms)
  {
    match step
    case WaveformStep =>
      if u == T0 {
        assert SetTimer0Waveform(s, cfg.waveformMode).t0 == s.t0;
      }
    case TicksStep =>
      if Ocr(s, u) == 0 {
        match u
        case T0 => Counter8.TicksFromZero(s.t0, cfg.prescaler, Low8(cfg.ms));
        case T1 => Counter16.TicksFromZero(s.t1, cfg.prescaler, cfg.ms);
        case T2 => Counter8.TicksFromZero(s.t2, cfg.prescaler, Low8(cfg.ms));
      }
    case CompareStep =>
    case InterruptStep =>
    case CallbackStep =>
    case PrescalerStep =>
  }

  /** OthersKept composes. */
  lemma OthersKeptTrans(s: State, s1: State, s2: State, u: Unit)
    requires OthersKept(s, s1, u) && OthersKept(s1, s2, u)
    ensures OthersKept(s, s2, u)
  {
  }

  /** The state after the setup part, and after the ticks write when there is one. */
  function AfterTicks(s: State, u: Unit, cfg: Config): State
    requires Runnable(cfg)
  {
    var w := ApplyStep(s, u, cfg, WaveformStep);
    if cfg.waveformMode != 0 then ApplyStep(w, u, cfg, TicksStep) else w
  }

  /** The setup part runs the waveform write, the ticks write for a nonzero
      waveform mode, then the compare write. */
  lemma RunSetup(s: State, u: Unit, cfg: Config)
    requires Runnable(cfg)
    ensures Run(s, u, cfg, Setup(cfg)) == ApplyStep(AfterTicks(s, u, cfg), u, cfg, CompareStep)
  {
    var steps := Setup(cfg);
    assert [WaveformStep][..0] == [];
    if cfg.waveformMode != 0 {
      assert |steps| == 3 && steps[2] == CompareStep;
      assert steps[..2] == [WaveformStep, TicksStep];
      assert steps[..2][..1] == [WaveformStep];
      assert Run(s, u, cfg, steps[..2][..1]) == ApplyStep(s, u, cfg, WaveformStep);
      assert Run(s, u, cfg, steps[..2]) == AfterTicks(s, u, cfg);
    } else {
      assert |steps| == 2 && steps[1] == CompareStep;
      assert steps[..1] == [WaveformStep];
    }
  }

  /** `initTimerN` as the composition of its parts. */
  lemma InitUnrolled(s: State, u: Unit, cfg: Config)
    requires Runnable(cfg)
    ensures Init(s, u, cfg)
            == ApplyStep(Run(Run(s, u, cfg, Setup(cfg)), u, cfg, Arm(cfg)), u, cfg, PrescalerStep)
  {
    var setup := Setup(cfg);
    RunAppend(s, u, cfg, setup + Arm(cfg), [PrescalerStep]);
    RunAppend(s, u, cfg, setup, Arm(cfg));
    assert [PrescalerStep][..0] == [];
  }

  /** `initTimerN` keeps the units it does not configure, up to Timer 0's
      stray write into Timer 1's control registers. */
  lemma InitKeepsOthers(s: State, u: Unit, cfg: Config)
    requires Runnable(cfg)
    ensures OthersKept(s, Init(s, u, cfg), u)
  {
    InitUnrolled(s, u, cfg);
    RunSetup(s, u, cfg);
    var w := ApplyStep(s, u, cfg, WaveformStep);
    var t := AfterTicks(s, u, cfg);
    var mid := ApplyStep(t, u, cfg, CompareStep);
    StepOthers(s, u, cfg, WaveformStep);
    if cfg.waveformMode != 0 {
      StepOthers(w, u, cfg, TicksStep);
      OthersKeptTrans(s, w, t, u);
    }
    StepOthers(t, u, cfg, CompareStep);
    OthersKeptTrans(s, t, mid, u);
    RunArm(mid, u, cfg);
    var armed := Run(mid, u, cfg, Arm(cfg));
    if cfg.interrupt != 0 {
      var i := ApplyStep(mid, u, cfg, InterruptStep);
      StepOthers(mid, u, cfg, InterruptStep);
      StepOthers(i, u, cfg, CallbackStep);
      OthersKeptTrans(mid, i, armed, u);
    }
    OthersKeptTrans(s, mid, armed, u);
    StepOthers(armed, u, cfg, PrescalerStep);
    OthersKeptTrans(s, armed, Init(s, u, cfg), u);
  }

  /** `initTimerN` writes the compare register only for a nonzero waveform
      mode; from a cleared register it then holds the computed ticks. */
  lemma InitWritesTicks(s: State, u: Unit, cfg: Config)
    requires Runnable(cfg)
    ensures cfg.waveformMode == 0 ==> Ocr(Init(s, u, cfg), u) == Ocr(s, u)
    ensures cfg.waveformMode != 0 && Ocr(s, u) == 0
            ==> Ocr(Init(s, u, cfg), u) == TicksFor(u, cfg.prescaler, cfg.ms)
  {
    InitUnrolled(s, u, cfg);
    RunSetup(s, u, cfg);
    var w := ApplyStep(s, u, cfg, WaveformStep);
    var t := AfterTicks(s, u, cfg);
    var mid := ApplyStep(t, u, cfg, CompareStep);
    StepOcr(s, u, cfg, WaveformStep);
    if cfg.waveformMode != 0 {
      StepOcr(w, u, cfg, TicksStep);
    }
    StepOcr(t, u, cfg, CompareStep);
    RunArm(mid, u, cfg);
    var armed := Run(mid, u, cfg, Arm(cfg));
    if cfg.interrupt != 0 {
      StepOcr(mid, u, cfg, InterruptStep);
      StepOcr(ApplyStep(mid, u, cfg, InterruptStep), u, cfg, CallbackStep);
    }
    StepOcr(armed, u, cfg, PrescalerStep);
  }

  /** `initTimerN` leaves the unit running with the prescaler code ORed into
      its clock-select field (for the 3-bit codes TIMER.h defines). */
  lemma InitStartsClock(s: State, u: Unit, cfg: Config)
    requires Runnable(cfg)
    requires cfg.prescaler < 8
    ensures ClockSelect(Init(s, u, cfg), u) == ClockSelect(s, u) | cfg.prescaler as bv8
  {
    InitUnrolled(s, u, cfg);
    var body := Setup(cfg) + Arm(cfg);
    RunAppend(s, u, cfg, Setup(cfg), Arm(cfg));
    var mid := Run(s, u, cfg, body);
    assert Init(s, u, cfg) == SetPrescaler(mid, u, cfg.prescaler);
    RunWithoutPrescalerKeepsClock(s, u, cfg, body);
    PrescalerAddsCode(mid, u, cfg.prescaler);
  }

  /** With a 3-bit code the prescaler write ORs the code into the clock-select
      field. */
  lemma PrescalerAddsCode(s: State, u: Unit, prescaler: bv16)
    requires prescaler < 8
    ensures ClockSelect(SetPrescaler(s, u, prescaler), u) == ClockSelect(s, u) | prescaler as bv8
  {
    match u
    case T0 =>
      assert ClockSelect(SetPrescaler(s, u, prescaler), u)
             == Counter8.ClockSelect(Counter8.SetPrescaler(s.t0, prescaler));
    case T1 =>
      assert ClockSelect(SetPrescaler(s, u, prescaler), u)
             == Counter16.ClockSelect(Counter16.SetPrescaler(s.t1, prescaler));
    case T2 =>
      assert ClockSelect(SetPrescaler(s, u, prescaler), u)
             == Counter8.ClockSelect(Counter8.SetPrescaler(s.t2, prescaler));
  }

  /** The source stores the callback only after the interrupt source is armed
      and interrupts are enabled. Just before the store, an event of the new
      source would already be serviced with the previously stored callback (or
      the null pointer a fresh slot holds). */
  lemma ArmedBeforeCallbackStored(s: State, u: Unit, cfg: Config)
    requires Runnable(cfg) && cfg.interrupt != 0
    ensures var steps := InitSteps(cfg);
            var mid := Run(s, u, cfg, steps[..|steps| - 2]);
            && steps[|steps| - 2] == CallbackStep
            && mid.interruptsEnabled
            && Mask(mid, u) & SourceBit(u, cfg.waveformMode) == SourceBit(u, cfg.waveformMode)
            && mid.slots == s.slots
  {
    var steps := InitSteps(cfg);
    var setup := Setup(cfg);
    assert steps[..|steps| - 2] == setup + [InterruptStep];
    RunAppend(s, u, cfg, setup, [InterruptStep]);
    assert [InterruptStep][..0] == [];
    RunWithoutInterruptKeepsGlobals(s, u, cfg, setup);
    SetInterruptArms(Run(s, u, cfg, setup), u, cfg.waveformMode);
  }

  /** After setTimerNInterrupt the source bit for the mode is set. */
  lemma SetInterruptArms(s: State, u: Unit, mode: bv8)
    ensures Mask(SetInterrupt(s, u, mode), u) & SourceBit(u, mode) == SourceBit(u, mode)
  {
    match u
    case T0 => ArmFacts(s.t0.timsk, Counter8.SourceBit(mode));
    case T1 => ArmFacts(s.t1.timsk, Counter16.SourceBit(mode));
    case T2 => ArmFacts(s.t2.timsk, Counter8.SourceBit(mode));
  }

  lemma ArmFacts(m: bv8, b: bv8)
    ensures (m | b) & b == b
  {
  }

  /** The interrupt vectors a timer unit has on the ATmega328P (Timer 0 and
      Timer 2 have no input-capture vector; Capt(T0) and Capt(T2) stand for
      events that never occur). */
  datatype Vector = CompA(unit: Unit) | CompB(unit: Unit) | Ovf(unit: Unit) | Capt(unit: Unit)

  /** The vectors TIMER.c compiles an ISR for, given that every
      TIMERn_INTERRUPT_* macro of Timer/TIMER.h is defined: COMPA and OVF for
      all three units and CAPT for Timer 1 (Timer/TIMER.c:194-213, 387-399,
      574-586). Timer 2's capture macro has no ISR behind it. */
  predicate HasIsr(v: Vector) {
    v.CompA? || v.Ovf? || v == Capt(T1)
  }

  /** A vector taken while its unit's slot is still null would call through
      the null pointer; the driver leaves avoiding that to its callers. */
  predicate SlotsFilled(s: State, events: seq<Vector>) {
    forall i :: 0 <= i < |events| && HasIsr(events[i]) ==> events[i].unit in s.slots
  }

  /** The callbacks one taken vector runs: a compiled ISR calls its unit's
      stored callback exactly once; a vector without an ISR runs none. */
  function Isr(s: State, v: Vector): (calls: seq<Callback>)
    requires HasIsr(v) ==> v.unit in s.slots
    ensures |calls| == (if HasIsr(v) then 1 else 0)
    ensures forall c :: c in calls ==> v.unit in s.slots && c == s.slots[v.unit]
  {
    if HasIsr(v) then [s.slots[v.unit]] else []
  }

  /** The callbacks run for a sequence of taken vectors, in order. */
  function Deliver(s: State, events: seq<Vector>): seq<Callback>
    requires SlotsFilled(s, events)
    decreases |events|
  {
    if |events| == 0 then []
    else Isr(s, events[0]) + Deliver(s, events[1..])
  }

  /** The events that have an ISR, in order. */
  function Serviced(events: seq<Vector>): (r: seq<Vector>)
    ensures forall v :: v in r ==> v in events && HasIsr(v)
    decreases |events|
  {
    if |events| == 0 then []
    else (if HasIsr(events[0]) then [events[0]] else []) + Serviced(events[1..])
  }

  /** Each serviced event runs its unit's stored callback exactly once, in
      event order, and nothing else runs. */
  lemma {:induction false} DeliverOncePerEvent(s: State, events: seq<Vector>)
    requires SlotsFilled(s, events)
    ensures |Deliver(s, events)| == |Serviced(events)|
    ensures forall i :: 0 <= i < |Serviced(events)| ==>
              Serviced(events)[i].unit in s.slots
              && Deliver(s, events)[i] == s.slots[Serviced(events)[i].unit]
    decreases |events|
  {
    if |events| > 0 {
      assert SlotsFilled(s, events[1..]) by {
        forall i | 0 <= i < |events[1..]| && HasIsr(events[1..][i])
          ensures events[1..][i].unit in s.slots
        {
          assert events[1..][i] == events[i + 1];
        }
      }
      DeliverOncePerEvent(s, events[1..]);
      assert HasIsr(events[0]) ==> events[0].unit in s.slots;
    }
  }

  /** After `initTimerN` with interrupts requested, every compiled ISR of that
      unit runs the callback just registered, once. */
  lemma InitThenIsr(s: State, u: Unit, cfg: Config, v: Vector)
    requires Runnable(cfg) && cfg.interrupt != 0
    requires HasIsr(v) && v.unit == u
    ensures Isr(Init(s, u, cfg), v) == [cfg.callback]
  {
  }
}
