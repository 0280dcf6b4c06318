# Playback-state store of the podcast player, in Dafny

This project models the playback-state store of the podcastr web front-end:
the state kept by `PlayerContextProvider` (the episode queue
`episodesList`, the position `currentEpisodeIndex`, and the flags
`isPlaying`, `isLooping`, `isShuffling`), its derived queries `hasPrevious`
and `hasNext`, and its nine commands `play`, `playList`, `togglePlay`,
`setPlayingState`, `toggleShuffle`, `toggleLoop`, `playNext`,
`playPrevious` and `clearPlayerState`.

The store is an immutable `State` record. Each command is a pure function
from the state to the next state. One React event handler is one atomic
transition: its batched `setX` calls read the values captured at the last
render. The random pick of the shuffle branch, `Math.floor(Math.random() *
length)`, takes the outcome of `Math.random()` as a parameter. That outcome
is a fraction `num / den` in [0, 1).

Files:

- `random_draw.dfy`, module `RandomDraw`: the shuffle pick. It is proved to
  land in range, and every position in range is proved to be reachable by
  some draw.
- `player.dfy`, module `Player`: the state, the invariant `WellFormed`, the
  two queries and the nine commands. Each command states its effect, what
  it leaves unchanged, and whether it keeps the invariant.
- `player_properties.dfy`, module `PlayerProperties`: properties relating
  commands to each other. These cover involutions, undoing a step,
  query/command agreement, and an exact description of the shuffle
  outcomes.
- `player_commands.dfy`, module `PlayerCommands`: commands as data, runs of
  commands, invariant preservation over runs, flag parity, the queue frame,
  and a three-episode walk-through.

The invariant is: the position is a position of the queue, or the queue is
empty and the position is 0. `playList` does not check its index, so the
model keeps the position as an unbounded integer. `PlayList` states exactly
when the invariant survives.

## Model

| member | source | states |
|---|---|---|
| RandomDraw.ScaledFloor | src/providers/PlayerContext.tsx:60 | floor(u * length) for u in [0, 1) is a position of a non-empty queue, and 0 for an empty one |
| RandomDraw.EveryPositionDrawable | src/providers/PlayerContext.tsx:60 | every position of the queue is the pick of some draw, so the pick is not limited to a subset of positions |
| Player.Initial | src/providers/PlayerContext.tsx:37-41 | the mount state is well-formed, has no current episode, has all flags off, and has neither a previous nor a next episode |
| Player.HasPrevious | src/providers/PlayerContext.tsx:55 | in a well-formed state, "has previous" holds exactly when the position before the current one is a position of the queue; PlayerProperties.HasPreviousIffPlayPreviousMoves relates it to "play previous" |
| Player.HasNext | src/providers/PlayerContext.tsx:56 | "has next" always holds while shuffling; otherwise, in a well-formed state, it holds exactly when the position after the current one is a position of the queue; PlayerProperties.HasNextIffPlayNextMoves relates it to "play next" |
| Player.Play | src/providers/PlayerContext.tsx:43-47 | the queue becomes [e], e is current at position 0, and playback starts; loop and shuffle are kept; the invariant holds afterwards |
| Player.PlayList | src/providers/PlayerContext.tsx:49-53 | the queue becomes the list, the position becomes the unchecked index, and playback starts; loop and shuffle are kept; the result is well-formed if and only if the index is a position of the list (or the list is empty and the index is 0) |
| Player.PlayNext | src/providers/PlayerContext.tsx:58-65 | only the position changes; shuffling moves it into the shuffle range; otherwise it advances by one when a next episode exists and stays put at the end, with no wrap-around; the invariant is kept |
| Player.PlayPrevious | src/providers/PlayerContext.tsx:67-71 | only the position changes; it steps back by one when positive and is a no-op at 0, so it never becomes negative; the invariant is kept |
| Player.TogglePlay | src/providers/PlayerContext.tsx:73-75 | the result differs from the state in exactly the playing flag |
| Player.ToggleShuffle | src/providers/PlayerContext.tsx:77-79 | the result differs from the state in exactly the shuffling flag |
| Player.ToggleLoop | src/providers/PlayerContext.tsx:81-83 | the result differs from the state in exactly the looping flag |
| Player.SetPlayingState | src/providers/PlayerContext.tsx:85-87 | the playing flag takes the given value and nothing else changes |
| Player.ClearPlayerState | src/providers/PlayerContext.tsx:89-92 | the queue empties and the position returns to 0; the playing, looping and shuffling flags are kept; the result is well-formed |
| PlayerProperties.TogglePlayInvolution | src/providers/PlayerContext.tsx:73-75 | toggling playback twice restores the state |
| PlayerProperties.ToggleShuffleInvolution | src/providers/PlayerContext.tsx:77-79 | toggling shuffle twice restores the state |
| PlayerProperties.ToggleLoopInvolution | src/providers/PlayerContext.tsx:81-83 | toggling loop twice restores the state |
| PlayerProperties.SetPlayingStateIdempotent | src/providers/PlayerContext.tsx:73-87 | setting the playing flag twice equals setting it once; setting it to its own value changes nothing; setting it to the opposite value equals toggling it |
| PlayerProperties.HasPreviousIffPlayPreviousMoves | src/providers/PlayerContext.tsx:55 | "has previous" holds if and only if "play previous" moves the position |
| PlayerProperties.HasNextIffPlayNextMoves | src/providers/PlayerContext.tsx:56 | without shuffling, "has next" holds if and only if "play next" moves the position, whatever the draw |
| PlayerProperties.ShufflingAlwaysHasNext | src/providers/PlayerContext.tsx:56 | while shuffling, "has next" holds for every queue, including an empty one |
| PlayerProperties.QueriesPromiseAnEpisode | src/providers/PlayerContext.tsx:55-71 | in a well-formed state, "has previous" and an unshuffled "has next" promise an episode that the step makes current (queue[idx-1], queue[idx+1]); a shuffled "play next" on a non-empty queue lands on some episode; on an empty queue a shuffled "has next" holds yet "play next" leaves no current episode |
| PlayerProperties.PlayPreviousUndoesPlayNext | src/providers/PlayerContext.tsx:58-71 | without shuffling, "play previous" undoes a "play next" that moved |
| PlayerProperties.PlayNextUndoesPlayPrevious | src/providers/PlayerContext.tsx:58-71 | without shuffling, "play next" undoes a "play previous" that moved |
| PlayerProperties.ShuffleOutcomesExactly | src/providers/PlayerContext.tsx:59-61 | a shuffled "play next" yields exactly the states that differ only in a position inside the shuffle range; some draw yields each of them |
| PlayerProperties.ShuffleMayRepeat | src/providers/PlayerContext.tsx:59-61 | a shuffled "play next" may pick the current episode again |
| PlayerCommands.Step | src/providers/PlayerContext.tsx:43-92 | every admissible command (a draw in [0, 1), a "play list" index that is a position of the list or 0 for an empty list) keeps the invariant; only play, play list and clear change the queue; only the loop and shuffle toggles change those flags |
| PlayerCommands.Run | src/providers/PlayerContext.tsx:36-92 | any run of admissible commands from a well-formed state ends well-formed |
| PlayerCommands.RunLoopingParity | src/providers/PlayerContext.tsx:81-83 | after a run, the loop flag is flipped if and only if "toggle loop" was issued an odd number of times |
| PlayerCommands.RunShufflingParity | src/providers/PlayerContext.tsx:77-79 | after a run, the shuffle flag is flipped if and only if "toggle shuffle" was issued an odd number of times |
| PlayerCommands.RunKeepsQueue | src/providers/PlayerContext.tsx:43-92 | a run with no play, play list or clear leaves the queue as it was |
| PlayerCommands.ThreeEpisodeWalk | src/providers/PlayerContext.tsx:49-71 | from the mount state, starting [A, B, C] at position 1, then next, next, previous, previous, visits positions 1, 2, 2 (no next, no move), 1, 0 |

## Left out

- React plumbing is not modelled: `createContext`, `usePlayer`/`useContext`, the provider's JSX and `children` (src/providers/PlayerContext.tsx:34, 94-120). It only wires the store to the component tree.
- src/pages/_app.tsx is not modelled. It is page composition and styling.
- PlayerCommands.Run: applies each command to the state left by the previous one, that is, one command per event handler. Commands issued together from one handler all read the values captured at the same render, and that is not modelled. The invariant claim of `PlayerCommands.Run` and the claims of `PlayerCommands.RunLoopingParity`, `PlayerCommands.RunShufflingParity` and `PlayerCommands.RunKeepsQueue` hold only for one command per handler. For example, `clearPlayerState(); playNext();` from one handler, on queue [a, b] at position 0 without shuffle, ends with an empty queue at position 1.
- RandomDraw.ScaledFloor: computes floor(num * length / den) exactly. The floating-point rounding of `Math.random() * length` is not modelled. The model also does not claim the pick is uniformly distributed.
- Player.PlayList: JavaScript numbers are not modelled. The index is an integer, so a fractional or NaN index is not represented. The store also keeps the caller's array by reference, not a copy, while the model holds the queue as a value. The model therefore assumes callers never change an array after passing it in. If a caller does (for example `list.length = 1` after `playList([a, b, c], 2)`), the queue length, "has next" and the invariant change without any command. The invariant claim of `PlayerCommands.Run` and the queue frame of `PlayerCommands.RunKeepsQueue` rest on that assumption.
- Player.Episode: `duration` is kept as an integer number of seconds. No command reads any episode field.
- Looping semantics are not modelled. The store only keeps the flag. Repeat-at-end behaviour lives in the Player component, which is not part of this model.
- Whether `clearPlayerState` should also stop playback is left open. The model keeps the flag, as the code does. `Player.ClearPlayerState` states that the flags are kept, so playing with an empty queue is reachable.
