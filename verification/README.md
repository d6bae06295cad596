# Owl head control core

A Dafny model of the control loop that drives the Plymouth "owl" robotic head.
The head has five servos: right eye pan and tilt (`Rx`, `Ry`), left eye pan and
tilt (`Lx`, `Ly`) and neck pan (`Neck`). Each tick, the program reads at most one
key code. The key switch applies it:

- ten keys nudge one servo by 5 units;
- six keys select a behaviour mode;
- escape (27) returns to mode NONE and re-centres all five servos;
- every other code does nothing, including -1, the code for "no key".

The mode dispatch then runs the behaviour generator of the current mode, if there
is one. The five positions are then sent to the servo controller as one text
line, `Rx Ry Lx Ly Neck`.

Modules, in dependency order:

- `AxisState` (`axes.dfy`): the five positions as an immutable record, plain
  unbounded integers with no range.
- `ModeMachine` (`mode_machine.dfy`): the seven modes, the key switch `Step`,
  and `RunKeys`, which folds `Step` over a sequence of keys. Mode NONE is called
  `Idle` here.
- `CommandCodec` (`command_codec.dfy`): `Encode` builds the wire command.
  `Decode` is the receiving side's reading of such a line, and the round-trip
  properties are stated against it.
- `ControlLoop` (`control_loop.dfy`): the dispatch `Generate`, one tick `Tick`,
  the tick sequence `Run`, and the commands a session sends (`Commands`).

The centre positions `RxC` … `NeckC` and the six generators are defined in
headers that are not part of this model. So the centres are a `centre: Axes`
parameter. The generators are a `Generators` record of total functions. Each
function takes exactly the positions its call in the loop passes to the C++
generator, and returns their new values. The model assumes that a generator
writes no other position (see "Left out"). Anything else a generator reads
(camera frames, internal phase counters, the clock) is covered by passing a
different `Generators` value on each tick (`gens: seq<Generators>` in `Run`).

The code does not clamp positions anywhere, so the model follows the code:
nudges and escape produce exactly the values the switch computes, with no
bounds.

## Model

| member | source | states |
|---|---|---|
| `ModeMachine.Step` | Assignment_1i/main.cpp:92-148 | The key switch agrees with the key tables. Escape gives mode NONE at the centres. A mode key gives its mode with positions kept. A nudge key moves its channel by its signed step and keeps the mode. Any unlisted code leaves the state unchanged. |
| `ModeMachine.Initial` | Assignment_1i/main.cpp:41-64 | The start state is mode NONE with every channel at its centre. `EscapeResets` shows it is also the state escape produces. |
| `ModeMachine.EscapeResets` | Assignment_1i/main.cpp:135-141 | From any mode and any positions, escape yields the start state (NONE, all centred). Pressing escape twice gives the same result as pressing it once. |
| `ModeMachine.NudgeMovesOneChannel` | Assignment_1i/main.cpp:93-122 | A nudge key keeps the mode. It changes exactly one channel, by exactly +5 or -5, and leaves the other four unchanged. |
| `ModeMachine.NudgePairs` | Assignment_1i/main.cpp:93-122 | w/s, a/d, i/k, j/l and e/q each move the same channel in opposite directions, in either order. |
| `ModeMachine.OppositeNudgesCancel` | Assignment_1i/main.cpp:93-122 | A nudge followed by its opposite restores the exact prior state, mode included. |
| `ModeMachine.ModeKeySelects` | Assignment_1i/main.cpp:123-147 | A mode key selects its non-NONE mode from any mode and keeps all five positions. Pressing it again changes nothing. |
| `ModeMachine.NoOpExactlyWhenUnrecognised` | Assignment_1i/main.cpp:91-148 | A key leaves every state unchanged if and only if the switch has no case for it. The "no key" code -1 is such a key. |
| `ModeMachine.RunKeys` | Assignment_1i/main.cpp:67-148 | Successive passes through the key switch: no keys leaves the state unchanged, and a run of keys is the run without the last key followed by one step on the last key. |
| `ModeMachine.NudgesAccumulate` | Assignment_1i/main.cpp:93-122 | Over a run of keys with no mode key and no escape, the mode is kept. Each channel ends at its start value plus the sum of the steps its nudge keys ask for. |
| `ModeMachine.EscapeLastResets` | Assignment_1i/main.cpp:135-141 | Whatever keys came before, a run that ends with escape ends in the start state. |
| `ModeMachine.ThreeNudgesThenEscape` | Assignment_1i/main.cpp:99-141 | From the start state, three `d` presses put the right pan 15 units off centre and change nothing else. A following escape restores the start state. |
| `ControlLoop.Generate` | Assignment_1i/main.cpp:150-171 | A generator leaves unchanged every channel its mode's call does not pass to it. |
| `ControlLoop.TouchedIsExact` | Assignment_1i/main.cpp:150-171 | With probe generators that add a distinct constant to each output of each generator, every mode's dispatch adds exactly that mode's constants to exactly the channels its call passes, in the call's argument order. So each mode runs its own generator, and each result goes back to the channel it came from. A channel changes if and only if it is in the mode's channel set. |
| `ControlLoop.Tick` | Assignment_1i/main.cpp:92-171 | Its mode is the key step's mode. Only the channels of that mode can differ from the key step's result. In NONE, the tick equals the key step. The key-before-generator order is stated by `TickFollowsKeyStep` and `GeneratorSeesKeyStep`. |
| `ControlLoop.TickFollowsKeyStep` | Assignment_1i/main.cpp:92-171 | The key switch runs before the dispatch: two (state, key) pairs whose key steps agree give the same tick, for any generators. |
| `ControlLoop.GeneratorSeesKeyStep` | Assignment_1i/main.cpp:92-171 | In every mode, the generator receives the positions as the key step left them. With generators that double their inputs and add a distinct constant, each channel the mode's call passes ends at twice its key-step value plus that constant, and every other channel keeps its key-step value. |
| `ControlLoop.NeckPanKeepsEyes` | Assignment_1i/main.cpp:166-168 | In neck-pan mode, the four eye channels after the tick are exactly what the key left them at. |
| `ControlLoop.GeneratorSeesNudge` | Assignment_1i/main.cpp:117-168 | In neck-pan mode, a neck nudge is passed to the sweep generator, and the generator's result replaces it. |
| `ControlLoop.EscapeTick` | Assignment_1i/main.cpp:135-171 | With any generators, a tick with escape ends in the start state, because no generator runs in NONE. |
| `ControlLoop.Run` | Assignment_1i/main.cpp:67-181 | Each state of the loop is one tick applied to the previous state. |
| `ControlLoop.IdleLoopIsKeySteps` | Assignment_1i/main.cpp:150-171 | Starting in NONE with no mode key pressed, no generator ever runs. The loop's last state equals the key switch folded over the keys. |
| `ControlLoop.Commands` | Assignment_1i/main.cpp:46-179 | While the loop runs, the command stream is the centring command sent at start-up, then one command per tick encoding the positions after that tick. `CommandsCarryStates` shows each command decodes back to those positions. |
| `ControlLoop.CommandsCarryStates` | Assignment_1i/main.cpp:41-179 | While the loop runs, the program sends one command at start-up plus one per tick. The first command decodes to the centres. Each later command decodes to the full positions after that tick's key and generator. |
| `CommandCodec.NatDigits` | Assignment_1i/main.cpp:176 | The decimal digits of a natural number are never empty and contain only digits. They start with `0` only for zero. |
| `CommandCodec.Render` | Assignment_1i/main.cpp:176 | An integer renders as an optional `-` followed by digits with no leading zero, and never contains a space. |
| `CommandCodec.ParseRender` | Assignment_1i/main.cpp:176 | Parsing a rendered integer gives back the integer. |
| `CommandCodec.Encode` | Assignment_1i/main.cpp:174-177 | Splitting the command on spaces gives the renderings of Rx, Ry, Lx, Ly and Neck, in that order. The command contains exactly four separators. |
| `CommandCodec.DecodeEncode` | Assignment_1i/main.cpp:174-177 | Decoding an encoded command gives back the five positions. |
| `CommandCodec.EncodeInjective` | Assignment_1i/main.cpp:176 | Two sets of positions encode to the same command if and only if they are equal. |
| `CommandCodec.EncodeExample` | Assignment_1i/main.cpp:176 | Positions (10, 20, 30, 40, 50) encode to `"10 20 30 40 50"`. |

## Left out

- Video capture, flipping, stereo splitting, circle drawing and window display (Assignment_1i/main.cpp:52-88): camera and rendering I/O.
- The 50 ms wait in the keyboard poll (Assignment_1i/main.cpp:91): timing. The key code is an input to each tick.
- Socket set-up, sending the packet, the acknowledgement string, the console trace, and shut-down (Assignment_1i/main.cpp:33-38, 50, 178-194): network and console I/O. The model stops at the command string. On non-Windows builds, the shut-down code names a `clientSock` that is not declared in `main` (line 191). That path is outside the model.
- `ControlLoop.Commands` and `ControlLoop.CommandsCarryStates` cover only the commands sent at start-up and while the loop runs. After the loop exits, the shut-down code sends the last command once more (Assignment_1i/main.cpp:188 on Windows, :191 elsewhere). That extra command is not part of the modelled stream, because it belongs to the shut-down I/O.
- The loop's exit on a failed frame read (Assignment_1i/main.cpp:68-72): this depends on the camera. `Run` models any finite number of ticks.
- The bodies of `point_focus`, `annoyed_eye_roll`, `eye_roll`, `chameleon_eyes`, `pan_eyes` and `pan_sin`, and the centre constants: their headers (Assignment_1i/main.cpp:18-26) are not part of this model. They are parameters. No sweep, sinusoid, roll cycle or convergence behaviour is assumed.
- `ControlLoop.Generate`, `ControlLoop.Tick`, `ControlLoop.NeckPanKeepsEyes` and `ControlLoop.TouchedIsExact` state that a generator changes no channel outside its call's arguments. This holds only under the model's assumption that each generator writes only the positions it is passed. The generator headers (Assignment_1i/main.cpp:18-26) are not part of this model, and the positions are globals that header code could write directly.
- Range clamping: the code has none, so no bound on positions is stated or proved.
- 32-bit `int` width: positions are unbounded integers. Signed overflow needs about 400 million same-direction nudges, and in C++ it is undefined behaviour rather than wrap-around.
- Decoding of the controller's acknowledgement: the loop stores the reply and never reads it.
