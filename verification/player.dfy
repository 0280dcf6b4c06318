/**
 The playback-state store of the podcast player (`PlayerContextProvider`):
 an episode queue, a position in it and three transport flags, which only the
 store's nine commands change, plus the two derived queries "has previous"
 and "has next".

 Each command is a pure function from the state an event handler saw when
 the provider last rendered to the state after that handler: the handler's
 batched `setX` calls form one transition, and every value the handler reads
 is the pre-call value.
 */
module Player {
  import opened RandomDraw

  /** A playable episode. No command reads any of its fields. */
  datatype Episode = Episode(
    title: string,
    members: string,
    thumbnail: string,
    duration: int,
    url: string)

  datatype Option<T> = None | Some(value: T)

  /** The store: `episodesList`, `currentEpisodeIndex`, `isPlaying`,
      `isLooping`, `isShuffling`. The position is an unconstrained integer
      because "play list" stores whatever index its caller passes. */
  datatype State = State(
    queue: seq<Episode>,
    idx: int,
    playing: bool,
    looping: bool,
    shuffling: bool)

  /** The store's invariant: the position is a position of the queue, or the
      queue is empty and the position is 0. */
  predicate WellFormed(s: State) {
    || 0 <= s.idx < |s.queue|
    || (s.queue == [] && s.idx == 0)
  }

  /** The episode at the current position, if there is one. */
  function CurrentEpisode(s: State): Option<Episode> {
    if 0 <= s.idx < |s.queue| then Some(s.queue[s.idx]) else None
  }

  /** The three transport flags agree. */
  predicate SameFlags(s: State, r: State) {
    && r.playing == s.playing
    && r.looping == s.looping
    && r.shuffling == s.shuffling
  }

  /** The state the provider mounts with. */
  function Initial(): (s: State)
    ensures WellFormed(s)
    ensures CurrentEpisode(s) == None
    ensures !s.playing && !s.looping && !s.shuffling
    ensures !HasPrevious(s) && !HasNext(s)
  {
    State([], 0, false, false, false)
  }

  /** "Has previous": some position lies before the current one. In a
      well-formed state that position is one of the queue. */
  function HasPrevious(s: State): (b: bool)
    ensures WellFormed(s) ==> (b <==> 0 <= s.idx - 1 < |s.queue|)
  {
    s.idx > 0
  }

  /** "Has next": shuffling is on, or some position lies after the current
      one. While shuffling this holds even for an empty or one-episode
      queue. Without shuffling, in a well-formed state, the position after
      the current one is one of the queue exactly when this holds. */
  function HasNext(s: State): (b: bool)
    ensures s.shuffling ==> b
    ensures WellFormed(s) && !s.shuffling ==> (b <==> 0 <= s.idx + 1 < |s.queue|)
  {
    s.shuffling || s.idx + 1 < |s.queue|
  }

  /** "Play": the queue becomes the one episode, which becomes current, and
      playback starts. */
  function Play(s: State, e: Episode): (r: State)
    ensures r.queue == [e] && r.idx == 0 && r.playing
    ensures CurrentEpisode(r) == Some(e)
    ensures r.looping == s.looping && r.shuffling == s.shuffling
    ensures WellFormed(r)
    ensures !HasPrevious(r) && HasNext(r) == r.shuffling
  {
    s.(queue := [e], idx := 0, playing := true)
  }

  /** "Play list": the queue becomes `list`, the position becomes `index`
      unchecked, and playback starts. The result keeps the invariant exactly
      when `index` is a position of `list` (or `list` is empty and `index`
      is 0). */
  function PlayList(s: State, list: seq<Episode>, index: int): (r: State)
    ensures r.queue == list && r.idx == index && r.playing
    ensures r.looping == s.looping && r.shuffling == s.shuffling
    ensures WellFormed(r) <==> (0 <= index < |list| || (list == [] && index == 0))
    ensures 0 <= index < |list| ==> CurrentEpisode(r) == Some(list[index])
    ensures !(0 <= index < |list|) ==> CurrentEpisode(r) == None
  {
    s.(queue := list, idx := index, playing := true)
  }

  /** "Play next". While shuffling, the position becomes the pick
      floor(u * length) of the draw u: any position of a non-empty queue,
      the current one included, or 0 for an empty queue. Otherwise the
      position advances by one when there is a next episode, and nothing
      happens at the end of the queue: there is no wrap-around. Only the
      position ever changes. */
  function PlayNext(s: State, u: Draw): (r: State)
    requires u.Valid()
    ensures r.queue == s.queue && SameFlags(s, r)
    ensures s.shuffling ==> InShuffleRange(r.idx, |s.queue|) && WellFormed(r)
    ensures !s.shuffling && s.idx + 1 < |s.queue| ==> r.idx == s.idx + 1
    ensures !s.shuffling && s.idx + 1 >= |s.queue| ==> r == s
    ensures WellFormed(s) ==> WellFormed(r)
  {
    if s.shuffling then
      s.(idx := ScaledFloor(u, |s.queue|))
    else if HasNext(s) then
      s.(idx := s.idx + 1)
    else
      s
  }

  /** "Play previous": the position steps back by one when there is a
      previous episode and stays put otherwise, so it never becomes
      negative. Only the position ever changes. */
  function PlayPrevious(s: State): (r: State)
    ensures r.queue == s.queue && SameFlags(s, r)
    ensures s.idx > 0 ==> r.idx == s.idx - 1
    ensures s.idx <= 0 ==> r == s
    ensures r.idx >= 0 <==> s.idx >= 0
    ensures WellFormed(s) ==> WellFormed(r)
  {
    if HasPrevious(s) then s.(idx := s.idx - 1) else s
  }

  /** "Toggle play": the result differs from the state in the playing flag
      and in nothing else. */
  function TogglePlay(s: State): (r: State)
    ensures r.playing != s.playing
    ensures r.(playing := s.playing) == s
    ensures WellFormed(r) <==> WellFormed(s)
  {
    s.(playing := !s.playing)
  }

  /** "Toggle shuffle": the result differs from the state in the shuffling
      flag and in nothing else. */
  function ToggleShuffle(s: State): (r: State)
    ensures r.shuffling != s.shuffling
    ensures r.(shuffling := s.shuffling) == s
    ensures WellFormed(r) <==> WellFormed(s)
  {
    s.(shuffling := !s.shuffling)
  }

  /** "Toggle loop": the result differs from the state in the looping flag
      and in nothing else. The store only keeps the flag. */
  function ToggleLoop(s: State): (r: State)
    ensures r.looping != s.looping
    ensures r.(looping := s.looping) == s
    ensures WellFormed(r) <==> WellFormed(s)
  {
    s.(looping := !s.looping)
  }

  /** "Set playing state": the playing flag becomes `playing`; nothing else
      changes. */
  function SetPlayingState(s: State, playing: bool): (r: State)
    ensures r.playing == playing
    ensures r.(playing := s.playing) == s
    ensures WellFormed(r) <==> WellFormed(s)
  {
    s.(playing := playing)
  }

  /** "Clear player state": the queue empties and the position returns to 0.
      The three flags are kept, so the store may report playing with an
      empty queue. */
  function ClearPlayerState(s: State): (r: State)
    ensures r.queue == [] && r.idx == 0 && SameFlags(s, r)
    ensures WellFormed(r) && CurrentEpisode(r) == None
    ensures !HasPrevious(r) && HasNext(r) == r.shuffling
  {
    s.(queue := [], idx := 0)
  }
}
