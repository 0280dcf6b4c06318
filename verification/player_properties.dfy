/**
 Properties that relate the store's commands and queries to one another:
 the toggles undo themselves, "play previous" undoes "play next" and back,
 the two queries say exactly when their command moves, and the shuffle pick
 is described both by the draw and by the set of positions it may reach.
 */
module PlayerProperties {
  import opened RandomDraw
  import opened Player

  /** Toggling playback twice restores the state. */
  lemma TogglePlayInvolution(s: State)
    ensures TogglePlay(TogglePlay(s)) == s
  {
  }

  /** Toggling shuffle twice restores the state. */
  lemma ToggleShuffleInvolution(s: State)
    ensures ToggleShuffle(ToggleShuffle(s)) == s
  {
  }

  /** Toggling loop twice restores the state. */
  lemma ToggleLoopInvolution(s: State)
    ensures ToggleLoop(ToggleLoop(s)) == s
  {
  }

  /** Setting the playing flag is idempotent, and setting it to the opposite
      of its value is the same as toggling it. */
  lemma SetPlayingStateIdempotent(s: State, playing: bool)
    ensures SetPlayingState(SetPlayingState(s, playing), playing) == SetPlayingState(s, playing)
    ensures SetPlayingState(s, !s.playing) == TogglePlay(s)
    ensures SetPlayingState(s, s.playing) == s
  {
  }

  /** "Has previous" holds exactly when "play previous" moves the position. */
  lemma HasPreviousIffPlayPreviousMoves(s: State)
    ensures HasPrevious(s) <==> PlayPrevious(s) != s
    ensures HasPrevious(s) <==> PlayPrevious(s).idx != s.idx
  {
  }

  /** Without shuffling, "has next" holds exactly when "play next" moves the
      position, whatever the draw. */
  lemma HasNextIffPlayNextMoves(s: State, u: Draw)
    requires u.Valid() && !s.shuffling
    ensures HasNext(s) <==> PlayNext(s, u) != s
    ensures HasNext(s) <==> PlayNext(s, u).idx != s.idx
  {
  }

  /** While shuffling there is always a next episode, even when the queue
      is empty or holds one episode. */
  lemma ShufflingAlwaysHasNext(s: State)
    requires s.shuffling
    ensures HasNext(s)
  {
  }

  /** In a well-formed state, "has previous" and an unshuffled "has next"
      promise an episode that the step then makes current, and a shuffled
      "play next" on a non-empty queue lands on some episode. On an empty
      queue a shuffled "has next" promises nothing: it holds, yet "play next"
      leaves no current episode. */
  lemma QueriesPromiseAnEpisode(s: State, u: Draw)
    requires WellFormed(s) && u.Valid()
    ensures HasPrevious(s) ==> CurrentEpisode(PlayPrevious(s)) == Some(s.queue[s.idx - 1])
    ensures !s.shuffling && HasNext(s) ==> CurrentEpisode(PlayNext(s, u)) == Some(s.queue[s.idx + 1])
    ensures s.shuffling && s.queue != [] ==> CurrentEpisode(PlayNext(s, u)).Some?
    ensures s.shuffling && s.queue == [] ==> HasNext(s) && CurrentEpisode(PlayNext(s, u)) == None
  {
  }

  /** Without shuffling, "play previous" undoes a "play next" that moved. */
  lemma PlayPreviousUndoesPlayNext(s: State, u: Draw)
    requires WellFormed(s) && u.Valid() && !s.shuffling && HasNext(s)
    ensures PlayPrevious(PlayNext(s, u)) == s
  {
  }

  /** Without shuffling, "play next" undoes a "play previous" that moved. */
  lemma PlayNextUndoesPlayPrevious(s: State, u: Draw)
    requires WellFormed(s) && u.Valid() && !s.shuffling && HasPrevious(s)
    ensures PlayNext(PlayPrevious(s), u) == s
  {
  }

  /** The outcomes a shuffled "play next" may have: only the position
      changes, and it lands in the shuffle range of the queue. */
  predicate ShuffleOutcome(s: State, r: State) {
    && r.queue == s.queue
    && SameFlags(s, r)
    && InShuffleRange(r.idx, |s.queue|)
  }

  /** Every draw gives a shuffle outcome, and every shuffle outcome is given
      by some draw: the draw parameter describes exactly the choices the
      random pick can make. */
  lemma ShuffleOutcomesExactly(s: State, r: State)
    requires s.shuffling
    ensures ShuffleOutcome(s, r) <==> exists u: Draw :: u.Valid() && PlayNext(s, u) == r
  {
    if ShuffleOutcome(s, r) {
      EveryPositionDrawable(r.idx, |s.queue|);
      var u: Draw :| u.Valid() && ScaledFloor(u, |s.queue|) == r.idx;
      assert PlayNext(s, u) == r;
    }
  }

  /** A shuffled "play next" may pick the current episode again. */
  lemma ShuffleMayRepeat(s: State)
    requires s.shuffling && WellFormed(s)
    ensures exists u: Draw :: u.Valid() && PlayNext(s, u) == s
  {
    ShuffleOutcomesExactly(s, s);
  }
}
