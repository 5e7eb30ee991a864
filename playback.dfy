/**
 * The playback controller's state and its transitions, as values.
 *
 * `showingPause` is the play button's label: true while it reads
 * "일시 정지" (pause), false while it reads "재생" (play). The end-of-track
 * poll reads this label back, so it is state, not decoration. `busy` is the
 * audio engine's answer to `get_busy()`; starting a track sets it, the track
 * finishing clears it, and pausing or resuming leaves it as it is.
 */
module Playback {

  datatype Player = Player(index: nat, paused: bool, showingPause: bool, busy: bool)

  /** The three states the controller presents to the user. */
  datatype Phase = Stopped | Playing | Paused

  function PhaseOf(p: Player): Phase
  {
    if p.paused then Paused else if p.showingPause then Playing else Stopped
  }

  /**
   * What every reachable player satisfies: a paused player shows the play
   * label, and a stopped player has nothing running in the engine.
   */
  predicate Consistent(p: Player)
  {
    (p.paused ==> !p.showingPause) && (PhaseOf(p) == Stopped ==> !p.busy)
  }

  /** The player at startup: first track, nothing playing. */
  const Initial: Player := Player(0, false, false, false)

  lemma InitialConsistent()
    ensures Consistent(Initial) && PhaseOf(Initial) == Stopped
  {
  }

  /** `play_music`: load the current track and start it; clears `paused`. */
  function PlayMusic(p: Player): (r: Player)
    ensures r.index == p.index && r.busy && !r.paused
    ensures r.showingPause == p.showingPause
  {
    p.(busy := true, paused := false)
  }

  /**
   * `toggle_play`. The track never changes, the engine is busy afterwards,
   * and the phase moves Stopped -> Playing, Playing -> Paused (or Playing
   * again when the track has already run out), Paused -> Playing.
   */
  function Toggle(p: Player): (r: Player)
    ensures r.index == p.index
    ensures r.busy
    ensures !p.busy ==> !r.paused && r.showingPause
    ensures p.busy && p.paused ==> !r.paused && r.showingPause
    ensures p.busy && !p.paused ==> r.paused && !r.showingPause
    ensures Consistent(p) ==> Consistent(r)
    ensures Consistent(p) ==>
      PhaseOf(r) == (if PhaseOf(p) == Playing && p.busy then Paused else Playing)
  {
    if !p.busy then PlayMusic(p).(showingPause := true)
    else if p.paused then p.(paused := false, showingPause := true)
    else p.(paused := true, showingPause := false)
  }

  /**
   * `next_song`: move cyclically to the following track of `count` and play
   * it, whatever the phase was.
   */
  function Next(p: Player, count: nat): (r: Player)
    requires p.index < count
    ensures r.index == (p.index + 1) % count && r.index < count
    ensures p.index + 1 < count ==> r.index == p.index + 1
    ensures p.index + 1 == count ==> r.index == 0
    ensures r.busy && !r.paused && r.showingPause
    ensures Consistent(r) && PhaseOf(r) == Playing
  {
    PlayMusic(p.(index := (p.index + 1) % count)).(showingPause := true)
  }

  /** `on_song_end`: back to the idle display, with `paused` cleared. */
  function SongEnd(p: Player): (r: Player)
    ensures r.index == p.index && r.busy == p.busy
    ensures !r.paused && !r.showingPause && PhaseOf(r) == Stopped
    ensures Consistent(r) <==> !p.busy
  {
    p.(paused := false, showingPause := false)
  }

  /**
   * `check_song_end`: while the button shows "pause" and the engine has gone
   * idle, the track ended by itself and the player becomes Stopped;
   * otherwise nothing changes.
   */
  function CheckEnd(p: Player): (r: Player)
    ensures r.index == p.index && r.busy == p.busy
    ensures p.showingPause && !p.busy ==> !r.paused && !r.showingPause
    ensures !(p.showingPause && !p.busy) ==> r == p
    ensures Consistent(p) ==> Consistent(r)
    ensures Consistent(p) ==>
      PhaseOf(r) == (if PhaseOf(p) == Playing && !p.busy then Stopped else PhaseOf(p))
  {
    if p.showingPause && !p.busy then SongEnd(p) else p
  }

  /** The engine finishes the track on its own. */
  function Finish(p: Player): (r: Player)
    ensures !r.busy && r.index == p.index && PhaseOf(r) == PhaseOf(p)
    ensures Consistent(p) ==> Consistent(r)
  {
    p.(busy := false)
  }

  /**
   * `xp_tick`'s award decision: a point is due while the engine is busy and
   * the player is not paused; in a consistent player that is exactly while
   * it is Playing with the engine busy.
   */
  predicate EarnsXp(p: Player)
  {
    p.busy && !p.paused
  }

  lemma EarnsXpWhilePlaying(p: Player)
    requires Consistent(p)
    ensures EarnsXp(p) <==> PhaseOf(p) == Playing && p.busy
  {
  }

  /** Toggling twice from Playing with the engine busy comes back to Playing. */
  lemma PauseResume(p: Player)
    requires Consistent(p) && PhaseOf(p) == Playing && p.busy
    ensures Toggle(Toggle(p)) == p
  {
  }

  /**
   * Whether a paused engine reports busy makes no difference to a toggle:
   * resuming and restarting the current track leave the same state.
   */
  lemma ToggleWhilePausedIgnoresBusy(p: Player)
    requires Consistent(p) && p.paused
    ensures Toggle(p) == Toggle(p.(busy := true))
  {
  }
}
