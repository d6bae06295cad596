/**
 One tick of the owl control loop: the key is applied first, then the
 behaviour generator of the (new) mode runs, then the positions are encoded
 and sent. The six generators are defined outside this model. Each is
 modelled as an arbitrary function of exactly the positions its call in the
 loop passes to it, so what they compute is left open; that a generator
 writes no other position is an assumption of the model.
 Anything else a generator reads (camera frames, its own phase counters, the
 clock) is folded into the choice of `Generators` value for that tick.
 */
module ControlLoop {
  import opened AxisState
  import opened ModeMachine
  import opened CommandCodec

  /** The behaviour generators, each a function of the positions it is given
      (in the argument order of the call in the loop) to their new values. */
  datatype Generators = Generators(
    pointFocus: (int, int, int) -> (int, int, int),                      // Rx, Lx, Neck
    annoyedEyeRoll: (int, int, int, int, int) -> (int, int, int, int, int), // all five
    eyeRoll: (int, int, int, int) -> (int, int, int, int),               // Rx, Ry, Lx, Ly
    chameleonEyes: (int, int, int, int) -> (int, int, int, int),         // Rx, Ry, Lx, Ly
    panEyes: (int, int) -> (int, int),                                   // Rx, Lx
    panSin: int -> int)                                                  // Neck

  /** The channels the generator call of mode `m` passes to the generator. */
  function Touched(m: Mode): set<Axis>
  {
    match m
    case Idle => {}
    case Focus => {Rx, Lx, Neck}
    case AnnoyedEyeRoll => {Rx, Ry, Lx, Ly, Neck}
    case EyeRoll => {Rx, Ry, Lx, Ly}
    case Chameleon => {Rx, Ry, Lx, Ly}
    case EyePan => {Rx, Lx}
    case NeckPan => {Neck}
  }

  /** The mode dispatch: run the generator of mode `m` on positions `a`.
      Channels the generator is not handed keep their values. */
  function Generate(m: Mode, a: Axes, g: Generators): (r: Axes)
    ensures forall x :: x !in Touched(m) ==> r.Get(x) == a.Get(x)
  {
    match m
    case Focus =>
      var t := g.pointFocus(a.rx, a.lx, a.neck);
      a.(rx := t.0, lx := t.1, neck := t.2)
    case AnnoyedEyeRoll =>
      var t := g.annoyedEyeRoll(a.rx, a.ry, a.lx, a.ly, a.neck);
      Axes(t.0, t.1, t.2, t.3, t.4)
    case EyeRoll =>
      var t := g.eyeRoll(a.rx, a.ry, a.lx, a.ly);
      a.(rx := t.0, ry := t.1, lx := t.2, ly := t.3)
    case Chameleon =>
      var t := g.chameleonEyes(a.rx, a.ry, a.lx, a.ly);
      a.(rx := t.0, ry := t.1, lx := t.2, ly := t.3)
    case EyePan =>
      var t := g.panEyes(a.rx, a.lx);
      a.(rx := t.0, lx := t.1)
    case NeckPan =>
      a.(neck := g.panSin(a.neck))
    case Idle =>
      a
  }

  /** One tick: the key switch, then the dispatch on the resulting mode.
      Generators never change the mode, only channels they are handed can
      differ from the key step's result, and in `Idle` nothing runs. */
  function Tick(s: State, key: int, centre: Axes, g: Generators): (r: State)
    ensures r.mode == Step(s, key, centre).mode
    ensures forall x :: x !in Touched(r.mode) ==> r.axes.Get(x) == Step(s, key, centre).axes.Get(x)
    ensures r.mode == Idle ==> r == Step(s, key, centre)
  {
    var t := Step(s, key, centre);
    State(t.mode, Generate(t.mode, t.axes, g))
  }

  /** The offset the probe generators below add to channel `x` in mode `m`:
      distinct for every generator and every output, zero where a mode's
      generator is not handed the channel. */
  function Offset(m: Mode, x: Axis): int
  {
    match (m, x)
    case (Focus, Rx) => 1
    case (Focus, Lx) => 2
    case (Focus, Neck) => 3
    case (AnnoyedEyeRoll, Rx) => 10
    case (AnnoyedEyeRoll, Ry) => 11
    case (AnnoyedEyeRoll, Lx) => 12
    case (AnnoyedEyeRoll, Ly) => 13
    case (AnnoyedEyeRoll, Neck) => 14
    case (EyeRoll, Rx) => 20
    case (EyeRoll, Ry) => 21
    case (EyeRoll, Lx) => 22
    case (EyeRoll, Ly) => 23
    case (Chameleon, Rx) => 30
    case (Chameleon, Ry) => 31
    case (Chameleon, Lx) => 32
    case (Chameleon, Ly) => 33
    case (EyePan, Rx) => 40
    case (EyePan, Lx) => 41
    case (NeckPan, Neck) => 50
    case _ => 0
  }

  /** Probe generators: each output is its own input plus a constant that
      identifies both the generator and the output position. */
  function Probe(): Generators
  {
    Generators(
      (a, b, c) => (a + 1, b + 2, c + 3),
      (a, b, c, d, e) => (a + 10, b + 11, c + 12, d + 13, e + 14),
      (a, b, c, d) => (a + 20, b + 21, c + 22, d + 23),
      (a, b, c, d) => (a + 30, b + 31, c + 32, d + 33),
      (a, b) => (a + 40, b + 41),
      a => a + 50)
  }

  /** The dispatch runs the generator of the mode, hands it the channels of
      the call in the loop in their order, and stores each result back into
      the channel it came from; `Touched` is exactly the channels handed over. */
  lemma TouchedIsExact(m: Mode, a: Axes, x: Axis)
    ensures Generate(m, a, Probe()).Get(x) == a.Get(x) + Offset(m, x)
    ensures x in Touched(m) <==> Generate(m, a, Probe()).Get(x) != a.Get(x)
  {
  }

  /** The key comes first: the tick is determined by the key step's result,
      so two (state, key) pairs with the same key step give the same tick. */
  lemma TickFollowsKeyStep(s1: State, k1: int, s2: State, k2: int, centre: Axes, g: Generators)
    requires Step(s1, k1, centre) == Step(s2, k2, centre)
    ensures Tick(s1, k1, centre, g) == Tick(s2, k2, centre, g)
  {
  }

  /** Generators that double each position they are handed and add the
      probe constant of their mode and output. Unlike an added constant,
      doubling tells a generator run on the key step's positions apart from
      one run on the positions before the key with the nudge added after. */
  function Doubling(): Generators
  {
    Generators(
      (a, b, c) => (2 * a + 1, 2 * b + 2, 2 * c + 3),
      (a, b, c, d, e) => (2 * a + 10, 2 * b + 11, 2 * c + 12, 2 * d + 13, 2 * e + 14),
      (a, b, c, d) => (2 * a + 20, 2 * b + 21, 2 * c + 22, 2 * d + 23),
      (a, b, c, d) => (2 * a + 30, 2 * b + 31, 2 * c + 32, 2 * d + 33),
      (a, b) => (2 * a + 40, 2 * b + 41),
      a => 2 * a + 50)
  }

  /** The key comes first: in every mode the generator is handed the
      positions as the key step left them, and its results replace them. */
  lemma GeneratorSeesKeyStep(s: State, key: int, centre: Axes, x: Axis)
    ensures var t := Step(s, key, centre);
            Tick(s, key, centre, Doubling()).axes.Get(x)
            == if x in Touched(t.mode) then 2 * t.axes.Get(x) + Offset(t.mode, x) else t.axes.Get(x)
  {
  }

  /** In neck-pan mode the generator touches only the neck: the four eye
      channels are exactly what the key left them at. */
  lemma NeckPanKeepsEyes(s: State, key: int, centre: Axes, g: Generators)
    requires Step(s, key, centre).mode == NeckPan
    ensures Tick(s, key, centre, g).axes.rx == Step(s, key, centre).axes.rx
    ensures Tick(s, key, centre, g).axes.ry == Step(s, key, centre).axes.ry
    ensures Tick(s, key, centre, g).axes.lx == Step(s, key, centre).axes.lx
    ensures Tick(s, key, centre, g).axes.ly == Step(s, key, centre).axes.ly
  {
  }

  /** The key comes first: a neck nudge in neck-pan mode is handed to the
      generator, whose result then overrides it. */
  lemma GeneratorSeesNudge(s: State, key: int, centre: Axes, g: Generators)
    requires s.mode == NeckPan
    requires key in NudgeKeys && NudgeKeys[key].0 == Neck
    ensures Tick(s, key, centre, g).axes.neck == g.panSin(s.axes.neck + NudgeKeys[key].1)
  {
  }

  /** Escape wins within a tick too: whatever the generators, the head ends
      the tick centred and idle. */
  lemma EscapeTick(s: State, centre: Axes, g: Generators)
    ensures Tick(s, Escape, centre, g) == Initial(centre)
  {
  }

  /** The states after each tick, given one key and one set of generators per tick. */
  function Run(s: State, keys: seq<int>, centre: Axes, gens: seq<Generators>): (r: seq<State>)
    requires |gens| == |keys|
    ensures |r| == |keys|
    ensures forall i :: 0 <= i < |keys| ==>
              r[i] == Tick(if i == 0 then s else r[i - 1], keys[i], centre, gens[i])
    decreases |keys|
  {
    if |keys| == 0 then []
    else
      var t := Tick(s, keys[0], centre, gens[0]);
      [t] + Run(t, keys[1..], centre, gens[1..])
  }

  /** The commands the program sends: the centring command at start-up, then
      one per tick, encoded from the positions after that tick's key and
      generator. */
  function Commands(centre: Axes, keys: seq<int>, gens: seq<Generators>): (cmds: seq<string>)
    requires |gens| == |keys|
    ensures |cmds| == |keys| + 1
    ensures cmds[0] == Encode(centre)
    ensures forall i :: 0 <= i < |keys| ==> cmds[i + 1] == Encode(Run(Initial(centre), keys, centre, gens)[i].axes)
  {
    var states := Run(Initial(centre), keys, centre, gens);
    [Encode(centre)] + seq(|states|, i requires 0 <= i < |states| => Encode(states[i].axes))
  }

  /** One command per tick plus the start-up one, and each command carries
      the complete positions of the state it was sent from. */
  lemma CommandsCarryStates(centre: Axes, keys: seq<int>, gens: seq<Generators>)
    requires |gens| == |keys|
    ensures |Commands(centre, keys, gens)| == |keys| + 1
    ensures Decode(Commands(centre, keys, gens)[0]) == Some(centre)
    ensures forall i :: 0 <= i < |keys| ==>
              Decode(Commands(centre, keys, gens)[i + 1]) == Some(Run(Initial(centre), keys, centre, gens)[i].axes)
  {
    var states := Run(Initial(centre), keys, centre, gens);
    var cmds := Commands(centre, keys, gens);
    DecodeEncode(centre);
    forall i | 0 <= i < |keys|
      ensures Decode(cmds[i + 1]) == Some(states[i].axes)
    {
      assert cmds[i + 1] == Encode(states[i].axes);
      DecodeEncode(states[i].axes);
    }
  }

  /** While no mode key is pressed the head stays idle, and the loop is just
      the key switch applied tick after tick. */
  lemma {:induction false} IdleLoopIsKeySteps(s: State, keys: seq<int>, centre: Axes, gens: seq<Generators>)
    requires s.mode == Idle && |gens| == |keys| && |keys| > 0
    requires forall i :: 0 <= i < |keys| ==> keys[i] !in ModeKeys
    ensures Run(s, keys, centre, gens)[|keys| - 1] == RunKeys(s, keys, centre)
    decreases |keys|
  {
    var t := Tick(s, keys[0], centre, gens[0]);
    assert t == Step(s, keys[0], centre);
    if |keys| > 1 {
      IdleLoopIsKeySteps(t, keys[1..], centre, gens[1..]);
    }
  }
}
