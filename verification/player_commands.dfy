/**
 The store's commands as data, and runs of them: a consumer may issue any
 command in any order, one event handler at a time. A run from a
 well-formed state keeps the invariant as long as every "play list" passes
 a position of its list (or 0 for an empty list), the loop and shuffle
 flags end up flipped exactly as often as they were toggled, and the queue
 changes only through "play", "play list" and "clear player state".
 */
module PlayerCommands {
  import opened RandomDraw
  import Player

  /** One command issued by a consumer. `PlayNext` carries the outcome of
      the random draw that the handler would make while shuffling. */
  datatype Command =
    | Play(episode: Player.Episode)
    | PlayList(list: seq<Player.Episode>, index: int)
    | TogglePlay
    | SetPlayingState(playing: bool)
    | ToggleShuffle
    | ToggleLoop
    | PlayNext(draw: Draw)
    | PlayPrevious
    | ClearPlayerState

  /** The draw of a `PlayNext` is a possible outcome of `Math.random()`. */
  predicate DrawValid(c: Command) {
    c.PlayNext? ==> c.draw.Valid()
  }

  /** The command respects what the store expects of its callers: a draw
      in [0, 1), and a "play list" index that is a position of the list, or
      0 for an empty list. */
  predicate Admissible(c: Command) {
    && DrawValid(c)
    && (c.PlayList? ==> 0 <= c.index < |c.list| || (c.list == [] && c.index == 0))
  }

  /** Every `PlayNext` of the run carries a possible draw. */
  predicate AllDrawsValid(cmds: seq<Command>) {
    forall i :: 0 <= i < |cmds| ==> DrawValid(cmds[i])
  }

  /** Every command of the run respects what the store expects of its callers. */
  predicate AllAdmissible(cmds: seq<Command>) {
    forall i :: 0 <= i < |cmds| ==> Admissible(cmds[i])
  }

  /** The command replaces the queue. */
  predicate ReplacesQueue(c: Command) {
    c.Play? || c.PlayList? || c.ClearPlayerState?
  }

  /** One event handler: the command applied to the state of the last
      render. An admissible command keeps the invariant; only the commands
      that replace the queue change it. */
  function Step(s: Player.State, c: Command): (r: Player.State)
    requires DrawValid(c)
    ensures Player.WellFormed(s) && Admissible(c) ==> Player.WellFormed(r)
    ensures !ReplacesQueue(c) ==> r.queue == s.queue
    ensures c != ToggleLoop ==> r.looping == s.looping
    ensures c != ToggleShuffle ==> r.shuffling == s.shuffling
  {
    match c
    case Play(e) => Player.Play(s, e)
    case PlayList(list, index) => Player.PlayList(s, list, index)
    case TogglePlay => Player.TogglePlay(s)
    case SetPlayingState(b) => Player.SetPlayingState(s, b)
    case ToggleShuffle => Player.ToggleShuffle(s)
    case ToggleLoop => Player.ToggleLoop(s)
    case PlayNext(u) => Player.PlayNext(s, u)
    case PlayPrevious => Player.PlayPrevious(s)
    case ClearPlayerState => Player.ClearPlayerState(s)
  }

  /** The commands applied one after another. A run of admissible commands
      from a well-formed state ends in a well-formed state. */
  function Run(s: Player.State, cmds: seq<Command>): (r: Player.State)
    requires AllDrawsValid(cmds)
    ensures Player.WellFormed(s) && AllAdmissible(cmds) ==> Player.WellFormed(r)
    decreases |cmds|
  {
    if cmds == [] then s
    else
      assert DrawValid(cmds[0]);
      Run(Step(s, cmds[0]), cmds[1..])
  }

  /** Splitting a run at its first command. */
  lemma RunUnfold(s: Player.State, cmds: seq<Command>)
    requires AllDrawsValid(cmds) && cmds != []
    ensures DrawValid(cmds[0]) && AllDrawsValid(cmds[1..])
    ensures Run(s, cmds) == Run(Step(s, cmds[0]), cmds[1..])
    ensures multiset(cmds) == multiset{cmds[0]} + multiset(cmds[1..])
  {
    assert cmds == [cmds[0]] + cmds[1..];
  }

  /** After a run the loop flag is flipped exactly when "toggle loop" was
      issued an odd number of times. */
  lemma {:induction false} RunLoopingParity(s: Player.State, cmds: seq<Command>)
    requires AllDrawsValid(cmds)
    ensures Run(s, cmds).looping == (s.looping != (multiset(cmds)[ToggleLoop] % 2 == 1))
    decreases |cmds|
  {
    if cmds != [] {
      RunUnfold(s, cmds);
      RunLoopingParity(Step(s, cmds[0]), cmds[1..]);
    }
  }

  /** After a run the shuffle flag is flipped exactly when "toggle shuffle"
      was issued an odd number of times. */
  lemma {:induction false} RunShufflingParity(s: Player.State, cmds: seq<Command>)
    requires AllDrawsValid(cmds)
    ensures Run(s, cmds).shuffling == (s.shuffling != (multiset(cmds)[ToggleShuffle] % 2 == 1))
    decreases |cmds|
  {
    if cmds != [] {
      RunUnfold(s, cmds);
      RunShufflingParity(Step(s, cmds[0]), cmds[1..]);
    }
  }

  /** A run without "play", "play list" or "clear player state" leaves the
      queue as it was. */
  lemma {:induction false} RunKeepsQueue(s: Player.State, cmds: seq<Command>)
    requires AllDrawsValid(cmds)
    requires forall i :: 0 <= i < |cmds| ==> !ReplacesQueue(cmds[i])
    ensures Run(s, cmds).queue == s.queue
    decreases |cmds|
  {
    if cmds != [] {
      RunUnfold(s, cmds);
      assert !ReplacesQueue(cmds[0]);
      RunKeepsQueue(Step(s, cmds[0]), cmds[1..]);
    }
  }

  /** The walk-through of a three-episode queue: start the list at its
      second episode, step forward twice (the second step finds no next
      episode and stays put), then back twice. */
  lemma ThreeEpisodeWalk(a: Player.Episode, b: Player.Episode, c: Player.Episode)
    ensures
      var s0 := Player.Initial();
      var s1 := Player.PlayList(s0, [a, b, c], 1);
      var s2 := Player.PlayNext(s1, Draw(0, 1));
      var s3 := Player.PlayNext(s2, Draw(0, 1));
      var s4 := Player.PlayPrevious(Player.PlayPrevious(s3));
      && s1.idx == 1 && s1.playing
      && s2.idx == 2
      && s3 == s2
      && Player.PlayPrevious(s3).idx == 1
      && s4.idx == 0 && Player.CurrentEpisode(s4) == Player.Some(a)
  {
  }
}
