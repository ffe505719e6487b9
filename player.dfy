/** The player itself: the context object that holds the current state and
    forwards each command to it. Console output is kept as a log of lines. */
module Player {
  import opened Transitions

  class MusicPlayer {
    /** The state object the player currently forwards commands to. */
    var state: PlayerState
    /** Every line written to the console so far, oldest first. */
    var output: seq<string>

    /** A new player starts stopped and has written nothing. */
    constructor ()
      ensures state == Stopped && output == []
    {
      state := Stopped;
      output := [];
    }

    /** Switches the current state; the handlers below use it for every transition. */
    method ChangeState(next: PlayerState)
      modifies this
      ensures state == next && output == old(output)
    {
      state := next;
    }

    /** The console write every handler performs exactly once. */
    method WriteLine(line: string)
      modifies this
      ensures output == old(output) + [line] && state == old(state)
    {
      output := output + [line];
    }

    /** Forwards Play to the current state: a stopped player starts, a paused
        one resumes, a playing one only reports it. */
    method Play()
      modifies this
      ensures state == Step(old(state), Command.Play).next == Playing
      ensures output == old(output) + [Step(old(state), Command.Play).message]
    {
      match state
      case Playing =>
        WriteLine("Song is already playing");
      case Paused =>
        WriteLine("Resuming song playback");
        ChangeState(Playing);
      case Stopped =>
        WriteLine("Song is now playing");
        ChangeState(Playing);
    }

    /** Forwards Pause to the current state: a playing player pauses, a paused
        one reports it, a stopped one refuses and stays stopped. */
    method Pause()
      modifies this
      ensures state == Step(old(state), Command.Pause).next
      ensures state == (if old(state) == Stopped then Stopped else Paused)
      ensures output == old(output) + [Step(old(state), Command.Pause).message]
    {
      match state
      case Playing =>
        WriteLine("Song is paused");
        ChangeState(Paused);
      case Paused =>
        WriteLine("Song is already paused");
      case Stopped =>
        WriteLine("Cannot pause. The song is not playing");
    }

    /** Forwards Stop to the current state: a playing or paused player stops,
        a stopped one reports it. */
    method Stop()
      modifies this
      ensures state == Step(old(state), Command.Stop).next == Stopped
      ensures output == old(output) + [Step(old(state), Command.Stop).message]
    {
      match state
      case Playing =>
        WriteLine("Song has stopped playing");
        ChangeState(Stopped);
      case Paused =>
        WriteLine("Song has stopped playing");
        ChangeState(Stopped);
      case Stopped =>
        WriteLine("Song is already stopped");
    }
  }

  /** The program's fixed scenario: a new player is sent Play, Stop, Pause.
      It ends stopped, and the refused Pause is the last line written. */
  method Demo() returns (final: PlayerState, output: seq<string>)
    ensures Outcome(final, output) == Run(Stopped, [Command.Play, Command.Stop, Command.Pause])
    ensures final == Stopped
    ensures output == ["Song is now playing", "Song has stopped playing", "Cannot pause. The song is not playing"]
  {
    var player := new MusicPlayer();
    player.Play();
    player.Stop();
    player.Pause();
    final, output := player.state, player.output;
  }
}
