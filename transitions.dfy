/** The music player's finite state machine as a pure transition table.

    Each of the three state classes of the player answers each of the three
    commands with exactly one console line and, for some commands, a switch
    to a new state. `Step` is that table; `Run` folds it over a sequence of
    commands. The class in module Player is verified against these functions.
 */
module Transitions {

  /** The state object the player currently holds: PlayingState, PausedState
      or StoppingState. */
  datatype PlayerState = Playing | Paused | Stopped

  /** The three actions a caller can invoke on the player. */
  datatype Command = Play | Pause | Stop

  /** What one command does: the line it writes and the state it leaves behind. */
  datatype Transition = Transition(message: string, next: PlayerState)

  /** What a sequence of commands does: the final state and every line written. */
  datatype Outcome = Outcome(state: PlayerState, output: seq<string>)

  /** The state a command is meant to bring the player into. */
  function Destination(c: Command): PlayerState {
    match c
    case Play => Playing
    case Pause => Paused
    case Stop => Stopped
  }

  /** How the messages describe a state ("Song is already ..."). */
  function Describe(s: PlayerState): string {
    match s
    case Playing => "playing"
    case Paused => "paused"
    case Stopped => "stopped"
  }

  /** The transition table: the handler of state `s` for command `c`.
      Every command reaches its own destination, except Pause on a stopped
      player, which is refused and leaves it stopped; a command issued in its
      own destination state only reports that nothing changes. */
  function Step(s: PlayerState, c: Command): (t: Transition)
    ensures t.next == (if s == Stopped && c == Pause then Stopped else Destination(c))
    ensures s == Destination(c) ==> t == Transition("Song is already " + Describe(s), s)
  {
    match (s, c)
    case (Playing, Play) => Transition("Song is already playing", Playing)
    case (Playing, Pause) => Transition("Song is paused", Paused)
    case (Playing, Stop) => Transition("Song has stopped playing", Stopped)
    case (Paused, Play) => Transition("Resuming song playback", Playing)
    case (Paused, Pause) => Transition("Song is already paused", Paused)
    case (Paused, Stop) => Transition("Song has stopped playing", Stopped)
    case (Stopped, Play) => Transition("Song is now playing", Playing)
    case (Stopped, Pause) => Transition("Cannot pause. The song is not playing", Stopped)
    case (Stopped, Stop) => Transition("Song is already stopped", Stopped)
  }

  /** Issues the commands one after another from state `s`; exactly one line
      is written per command. */
  function Run(s: PlayerState, cmds: seq<Command>): (r: Outcome)
    ensures |r.output| == |cmds|
    ensures cmds != [] ==> r.output[0] == Step(s, cmds[0]).message
    decreases |cmds|
  {
    if cmds == [] then Outcome(s, [])
    else
      var t := Step(s, cmds[0]);
      var rest := Run(t.next, cmds[1..]);
      Outcome(rest.state, [t.message] + rest.output)
  }

  /** `n` copies of `x`. */
  function Repeat<T>(x: T, n: nat): (r: seq<T>)
    ensures |r| == n
    ensures forall i :: 0 <= i < n ==> r[i] == x
  {
    if n == 0 then [] else [x] + Repeat(x, n - 1)
  }

  /** A command is a fixed point of state `s` exactly when it is issued in its
      own destination state, or when Pause is issued on a stopped player. */
  lemma StateUnchangedIff(s: PlayerState, c: Command)
    ensures Step(s, c).next == s <==> s == Destination(c) || (s == Stopped && c == Pause)
  {
  }

  /** The line written tells the command apart and the state it led to: no two
      different commands, and no two different next states, share a message. */
  lemma MessageDeterminesOutcome(s1: PlayerState, c1: Command, s2: PlayerState, c2: Command)
    requires Step(s1, c1).message == Step(s2, c2).message
    ensures c1 == c2 && Step(s1, c1).next == Step(s2, c2).next
    ensures s1 != s2 ==> c1 == Stop && s1 != Stopped && s2 != Stopped
  {
  }

  /** Issuing a command any number of times in a state it does not change
      keeps the state and writes the same line each time. */
  lemma {:induction false} RepeatKeepsState(s: PlayerState, c: Command, n: nat)
    requires Step(s, c).next == s
    ensures Run(s, Repeat(c, n)) == Outcome(s, Repeat(Step(s, c).message, n))
  {
    if n > 0 {
      assert Repeat(c, n)[1..] == Repeat(c, n - 1);
      RepeatKeepsState(s, c, n - 1);
    }
  }

  /** Play while playing, Pause while paused and Stop while stopped, repeated
      any number of times, each write their "already" line and change nothing. */
  lemma {:induction false} IdempotentCommands(c: Command, n: nat)
    ensures Run(Destination(c), Repeat(c, n))
         == Outcome(Destination(c), Repeat("Song is already " + Describe(Destination(c)), n))
  {
    RepeatKeepsState(Destination(c), c, n);
  }

  /** Running two command sequences back to back is running the first, then
      the second from where the first left off, with the outputs concatenated. */
  lemma {:induction false} RunAppend(s: PlayerState, a: seq<Command>, b: seq<Command>)
    ensures Run(s, a + b)
         == Outcome(Run(Run(s, a).state, b).state, Run(s, a).output + Run(Run(s, a).state, b).output)
    decreases |a|
  {
    if a != [] {
      var t := Step(s, a[0]);
      assert (a + b)[0] == a[0] && (a + b)[1..] == a[1..] + b;
      RunAppend(t.next, a[1..], b);
      var mid := Run(t.next, a[1..]);
      var tail := Run(mid.state, b).output;
      assert [t.message] + (mid.output + tail) == ([t.message] + mid.output) + tail;
    } else {
      assert a + b == b;
    }
  }

  /** After a non-empty sequence the player is in the last command's
      destination, unless that command is a Pause reaching a stopped player. */
  lemma {:induction false} LastCommandDecides(s: PlayerState, cmds: seq<Command>)
    requires cmds != []
    ensures var before := Run(s, cmds[..|cmds| - 1]).state;
            var last := cmds[|cmds| - 1];
            Run(s, cmds).state == (if before == Stopped && last == Pause then Stopped else Destination(last))
  {
    var prefix, last := cmds[..|cmds| - 1], cmds[|cmds| - 1];
    assert cmds == prefix + [last];
    RunAppend(s, prefix, [last]);
  }

  /** Whatever happened before, a final Stop leaves the player stopped. */
  lemma StopAlwaysStops(s: PlayerState, cmds: seq<Command>)
    ensures Run(s, cmds + [Stop]).state == Stopped
  {
    assert (cmds + [Stop])[..|cmds + [Stop]| - 1] == cmds;
    LastCommandDecides(s, cmds + [Stop]);
  }
}
