/**
 The key handling of the owl control loop: one key code per tick either
 nudges one servo by a fixed step, selects a behaviour mode, or (escape)
 stops everything and re-centres the head. Any other code, including the
 -1 that the keyboard poll returns when no key was pressed, does nothing.
 */
module ModeMachine {
  import opened AxisState

  /** The program mode. `Idle` is the source's NONE: no behaviour runs. */
  datatype Mode = Idle | NeckPan | EyePan | Chameleon | EyeRoll | AnnoyedEyeRoll | Focus

  /** Everything the control loop carries from one tick to the next. */
  datatype State = State(mode: Mode, axes: Axes)

  /** The key code the keyboard poll returns when no key was pressed. */
  const NoKey := -1

  /** The escape key: stop all behaviours and re-centre. */
  const Escape := 27

  /** The size of one manual nudge, in servo units. */
  const NudgeStep := 5

  /** The nudge keys, each with the channel it moves and the signed step.
      The left eye's tilt keys run opposite to the right eye's. */
  const NudgeKeys: map<int, (Axis, int)> := map[
    'w' as int := (Ry, NudgeStep),
    's' as int := (Ry, -NudgeStep),
    'a' as int := (Rx, -NudgeStep),
    'd' as int := (Rx, NudgeStep),
    'i' as int := (Ly, -NudgeStep),
    'k' as int := (Ly, NudgeStep),
    'j' as int := (Lx, -NudgeStep),
    'l' as int := (Lx, NudgeStep),
    'e' as int := (Neck, NudgeStep),
    'q' as int := (Neck, -NudgeStep)
  ]

  /** The mode-select keys, each with the mode it selects. */
  const ModeKeys: map<int, Mode> := map[
    'x' as int := EyePan,
    'n' as int := NeckPan,
    'c' as int := Chameleon,
    'r' as int := AnnoyedEyeRoll,
    'f' as int := Focus,
    'o' as int := EyeRoll
  ]

  /** True for the key codes the key switch has a case for. */
  predicate Recognised(key: int)
  {
    key in NudgeKeys || key in ModeKeys || key == Escape
  }

  /** Positions `a` after the nudge `n` (a channel and a signed step). */
  function Nudged(a: Axes, n: (Axis, int)): Axes
  {
    a.With(n.0, a.Get(n.0) + n.1)
  }

  /** The state at program start: no mode, every servo at its centre. */
  function Initial(centre: Axes): (s: State)
    ensures s.mode == Idle
    ensures forall x :: s.axes.Get(x) == centre.Get(x)
  {
    State(Idle, centre)
  }

  /** One pass through the key switch. `centre` holds the servos' centre
      positions, which the program takes from a header. */
  function Step(s: State, key: int, centre: Axes): (r: State)
    ensures key == Escape ==> r == Initial(centre)
    ensures key in ModeKeys ==> r == State(ModeKeys[key], s.axes)
    ensures key in NudgeKeys ==> r == State(s.mode, Nudged(s.axes, NudgeKeys[key]))
    ensures !Recognised(key) ==> r == s
  {
    var a := s.axes;
    if key == 'w' as int then State(s.mode, a.(ry := a.ry + 5))
    else if key == 's' as int then State(s.mode, a.(ry := a.ry - 5))
    else if key == 'a' as int then State(s.mode, a.(rx := a.rx - 5))
    else if key == 'd' as int then State(s.mode, a.(rx := a.rx + 5))
    else if key == 'i' as int then State(s.mode, a.(ly := a.ly - 5))
    else if key == 'k' as int then State(s.mode, a.(ly := a.ly + 5))
    else if key == 'j' as int then State(s.mode, a.(lx := a.lx - 5))
    else if key == 'l' as int then State(s.mode, a.(lx := a.lx + 5))
    else if key == 'e' as int then State(s.mode, a.(neck := a.neck + 5))
    else if key == 'q' as int then State(s.mode, a.(neck := a.neck - 5))
    else if key == 'x' as int then State(EyePan, a)
    else if key == 'n' as int then State(NeckPan, a)
    else if key == 'c' as int then State(Chameleon, a)
    else if key == 'r' as int then State(AnnoyedEyeRoll, a)
    else if key == Escape then State(Idle, centre)
    else if key == 'f' as int then State(Focus, a)
    else if key == 'o' as int then State(EyeRoll, a)
    else s
  }

  /** Escape always wins: from any mode and any positions it yields `Idle`
      at the centres, and pressing it again changes nothing. */
  lemma EscapeResets(s: State, centre: Axes)
    ensures Step(s, Escape, centre) == Initial(centre)
    ensures Step(Step(s, Escape, centre), Escape, centre) == Step(s, Escape, centre)
  {
  }

  /** A nudge key moves exactly one channel by exactly one step and keeps the mode. */
  lemma NudgeMovesOneChannel(s: State, key: int, centre: Axes)
    requires key in NudgeKeys
    ensures Step(s, key, centre).mode == s.mode
    ensures exists a :: && (Step(s, key, centre).axes.Get(a) - s.axes.Get(a) == NudgeStep
                           || Step(s, key, centre).axes.Get(a) - s.axes.Get(a) == -NudgeStep)
                        && forall b :: b != a ==> Step(s, key, centre).axes.Get(b) == s.axes.Get(b)
  {
  }

  /** Two nudge keys that move the same channel in opposite directions. */
  predicate Opposite(k1: int, k2: int)
  {
    && k1 in NudgeKeys && k2 in NudgeKeys
    && NudgeKeys[k1].0 == NudgeKeys[k2].0
    && NudgeKeys[k1].1 + NudgeKeys[k2].1 == 0
  }

  /** The five nudge pairs are opposites, in either order. */
  lemma NudgePairs()
    ensures Opposite('w' as int, 's' as int) && Opposite('s' as int, 'w' as int)
    ensures Opposite('a' as int, 'd' as int) && Opposite('d' as int, 'a' as int)
    ensures Opposite('i' as int, 'k' as int) && Opposite('k' as int, 'i' as int)
    ensures Opposite('j' as int, 'l' as int) && Opposite('l' as int, 'j' as int)
    ensures Opposite('e' as int, 'q' as int) && Opposite('q' as int, 'e' as int)
  {
  }

  /** Pressing a nudge key and then its opposite restores the exact prior state. */
  lemma OppositeNudgesCancel(s: State, k1: int, k2: int, centre: Axes)
    requires Opposite(k1, k2)
    ensures Step(Step(s, k1, centre), k2, centre) == s
  {
  }

  /** A mode key selects its mode from any mode, keeps every position, and
      pressing it again changes nothing. */
  lemma ModeKeySelects(s: State, key: int, centre: Axes)
    requires key in ModeKeys
    ensures Step(s, key, centre).mode == ModeKeys[key] != Idle
    ensures Step(s, key, centre).axes == s.axes
    ensures Step(Step(s, key, centre), key, centre) == Step(s, key, centre)
  {
  }

  /** A key leaves every state unchanged exactly when the switch has no case
      for it; in particular the "no key" code is a no-op. */
  lemma NoOpExactlyWhenUnrecognised(key: int)
    ensures (forall s: State, centre: Axes :: Step(s, key, centre) == s) <==> !Recognised(key)
    ensures !Recognised(NoKey)
  {
    if Recognised(key) {
      var centre := Axes(0, 0, 0, 0, 0);
      var s := State(if key == 'n' as int then Idle else NeckPan, Axes(1, 1, 1, 1, 1));
      var r := Step(s, key, centre);
      if key in NudgeKeys {
        var n := NudgeKeys[key];
        assert r.axes == Nudged(s.axes, n);
        assert r.axes.Get(n.0) == 1 + n.1 && n.1 != 0;
      } else if key in ModeKeys {
        assert r.mode == ModeKeys[key];
        assert ModeKeys[key] != s.mode;
      } else {
        assert r.mode == Idle;
      }
      assert r != s;
    }
  }

  /** The state after the keys `keys`, one per pass through the switch. */
  function RunKeys(s: State, keys: seq<int>, centre: Axes): (r: State)
    ensures |keys| == 0 ==> r == s
    ensures |keys| > 0 ==> r == Step(RunKeys(s, keys[..|keys| - 1], centre), keys[|keys| - 1], centre)
    decreases |keys|
  {
    if |keys| == 0 then s
    else
      var rest := keys[1..];
      assert |rest| > 0 ==> rest[..|rest| - 1] == keys[..|keys| - 1][1..];
      RunKeys(Step(s, keys[0], centre), rest, centre)
  }

  /** The total signed movement the nudge keys among `keys` ask of channel `a`. */
  function NetNudge(keys: seq<int>, a: Axis): int
    decreases |keys|
  {
    if |keys| == 0 then 0
    else (if keys[0] in NudgeKeys && NudgeKeys[keys[0]].0 == a then NudgeKeys[keys[0]].1 else 0)
         + NetNudge(keys[1..], a)
  }

  /** A run of keys with no mode key and no escape keeps the mode and moves
      each channel by the sum of the steps its nudge keys ask for. */
  lemma {:induction false} NudgesAccumulate(s: State, keys: seq<int>, centre: Axes)
    requires forall i :: 0 <= i < |keys| ==> keys[i] !in ModeKeys && keys[i] != Escape
    ensures RunKeys(s, keys, centre).mode == s.mode
    ensures forall a :: RunKeys(s, keys, centre).axes.Get(a) == s.axes.Get(a) + NetNudge(keys, a)
    decreases |keys|
  {
    if |keys| > 0 {
      var t := Step(s, keys[0], centre);
      NudgesAccumulate(t, keys[1..], centre);
      forall a
        ensures t.axes.Get(a) == s.axes.Get(a)
                + (if keys[0] in NudgeKeys && NudgeKeys[keys[0]].0 == a then NudgeKeys[keys[0]].1 else 0)
      {
      }
    }
  }

  /** Whatever keys came before, a final escape leaves the head centred and idle. */
  lemma {:induction false} EscapeLastResets(s: State, keys: seq<int>, centre: Axes)
    requires |keys| > 0 && keys[|keys| - 1] == Escape
    ensures RunKeys(s, keys, centre) == Initial(centre)
    decreases |keys|
  {
    if |keys| > 1 {
      assert keys[1..][|keys[1..]| - 1] == Escape;
      EscapeLastResets(Step(s, keys[0], centre), keys[1..], centre);
    }
  }

  /** From the start, three right-eye "right" nudges move the right pan 15
      units off centre and nothing else; an escape then re-centres. */
  lemma ThreeNudgesThenEscape(centre: Axes)
    ensures RunKeys(Initial(centre), ['d' as int, 'd' as int, 'd' as int], centre)
            == State(Idle, centre.(rx := centre.rx + 15))
    ensures RunKeys(Initial(centre), ['d' as int, 'd' as int, 'd' as int, Escape], centre)
            == Initial(centre)
  {
  }
}
