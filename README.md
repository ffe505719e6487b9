# Music player state machine

A model of the State design pattern example in `MusicPlayer/Program.cs`: a
music player (`MusicPlayers`, the context) that holds one current state
(`PlayingState`, `PausedState` or `StoppingState`) and forwards the commands
Play, Pause and Stop to it. Each state answers each command with exactly one
console line and, for some commands, switches the player to another state.
No audio is played; the line and the state switch are the whole behaviour.

Two modules:

- `Transitions` (transitions.dfy) holds the pure view. The three state classes
  become `datatype PlayerState = Playing | Paused | Stopped` and the commands
  become `datatype Command`. `Step(s, c)` is the 3×3 table of (line written,
  next state), which is total: it has no error case. `Run` issues a sequence
  of commands one after another. The lemmas state the properties of the table.
- `Player` (player.dfy) holds the imperative view. `class MusicPlayer` has the
  mutable `state` field and an `output` log standing in for the console.
  `Play`, `Pause` and `Stop` branch on the current state exactly as the three
  handler classes do and use `WriteLine` and `ChangeState` as the handlers do.
  Each method is verified against `Step`: the new state is the table's next
  state, and exactly the table's line is appended. `Demo` is the fixed command
  sequence of the program's entry point.

That the state is always one of the three defined states holds by
construction: `PlayerState` has exactly three values and no null.

The messages are the ones the code writes. The doc comment above
`StoppingState.Pause` (Program.cs:133-134) says the song "is already paused".
The code writes "Cannot pause. The song is not playing" (Program.cs:137), and
the model follows the code.

## Model

| member | source | states |
|---|---|---|
| Transitions.Step | MusicPlayer/Program.cs:69-146 | Play always ends in Playing and Stop in Stopped. Pause ends in Paused unless issued on a stopped player, which stays Stopped. A command issued in its own destination state writes "Song is already playing/paused/stopped" and keeps the state |
| Transitions.Run | MusicPlayer/Program.cs:49-64 | issuing a sequence of commands writes exactly one line per command, the first being the current state's answer to the first command |
| Transitions.StateUnchangedIff | MusicPlayer/Program.cs:69-146 | a command leaves the state unchanged if and only if it is issued in its own destination state, or it is Pause on a stopped player |
| Transitions.MessageDeterminesOutcome | MusicPlayer/Program.cs:69-146 | two transitions that write the same line come from the same command and reach the same state; only Stop from Playing and from Paused share a line |
| Transitions.RepeatKeepsState | MusicPlayer/Program.cs:73-145 | repeating, any number of times, a command that does not change the state keeps the state and writes that command's line once per repetition |
| Transitions.IdempotentCommands | MusicPlayer/Program.cs:73-145 | Play while playing, Pause while paused and Stop while stopped, repeated n times, write n copies of the matching "Song is already ..." line and keep the state |
| Transitions.RunAppend | MusicPlayer/Program.cs:49-64 | running two command sequences back to back equals running the second from the state the first leaves, with the outputs concatenated |
| Transitions.LastCommandDecides | MusicPlayer/Program.cs:69-146 | after a non-empty sequence the player is in the last command's destination, unless that command is a Pause that reaches a stopped player |
| Transitions.StopAlwaysStops | MusicPlayer/Program.cs:88-145 | whatever came before, a final Stop leaves the player stopped |
| Player.MusicPlayer.constructor | MusicPlayer/Program.cs:37-40 | a new player is stopped and has written nothing |
| Player.MusicPlayer.ChangeState | MusicPlayer/Program.cs:43-46 | sets the current state to the given one and writes nothing |
| Player.MusicPlayer.WriteLine | MusicPlayer/Program.cs:75 | appends exactly the given line to the output and leaves the state alone |
| Player.MusicPlayer.Play | MusicPlayer/Program.cs:49-52 | dispatch to the handlers at lines 73-76, 100-104 and 127-131: the player ends Playing and exactly the table's line for (old state, Play) is appended |
| Player.MusicPlayer.Pause | MusicPlayer/Program.cs:55-58 | dispatch to the handlers at lines 80-84, 108-111 and 135-138: the player ends Paused, or stays Stopped if it was stopped, and exactly the table's line for (old state, Pause) is appended |
| Player.MusicPlayer.Stop | MusicPlayer/Program.cs:61-64 | dispatch to the handlers at lines 88-92, 115-119 and 142-145: the player ends Stopped and exactly the table's line for (old state, Stop) is appended |
| Player.Demo | MusicPlayer/Program.cs:7-18 | a new player sent Play, Stop, Pause ends Stopped, having written "Song is now playing", "Song has stopped playing", "Cannot pause. The song is not playing", which is what `Run` predicts |

## Left out

- `Console.ReadLine()` at the end of the entry point: console input, with no effect on the player.
- The real console: `Console.WriteLine` is modelled as appending to the `output` log.
- The `IMusicPLayerState` interface and the fresh state object allocated on every transition. Object identity plays no role, so a datatype value and a `match` stand for them.
- The public setter of `CurrentState` and `ChangeState` called from outside the state handlers: arbitrary assignment of the state has no behaviour beyond setting the field. `ChangeState` is modelled only as the step the handlers take.
