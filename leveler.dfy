/**
 * The application state of the player-and-to-do window: the module-level
 * variables of the script gathered into one object, with each event handler
 * as a method. Widgets, files and the audio library are left out; the play
 * button's label and the engine's busy flag are kept as booleans.
 */
module Leveler {
  import opened Wrappers
  import opened Text
  import opened Progression
  import opened Playback

  /** The name shown when no name has been saved: "레가". */
  const DefaultName: string := "레가"

  /**
   * `load_name`: the saved file's text, stripped, or the default name when
   * the file is missing or holds only whitespace. The result is never empty
   * and never has surrounding whitespace.
   */
  function LoadName(stored: Option<string>): (r: string)
    ensures r != [] && Trimmed(r)
    ensures stored.Some? && !Blank(stored.value) ==> r == Strip(stored.value)
    ensures stored.None? || Blank(stored.value) ==> r == DefaultName
  {
    match stored
    case None => DefaultName
    case Some(text) =>
      var n := Strip(text);
      if n != [] then n else DefaultName
  }

  /** Saving the loaded name and loading it again gives the same name. */
  lemma LoadNameStable(stored: Option<string>)
    ensures LoadName(Some(LoadName(stored))) == LoadName(stored)
  {
  }

  /**
   * A name accepted by `rename` survives a restart unchanged exactly when it
   * has no surrounding whitespace; a whitespace-only name comes back as the
   * default.
   */
  lemma RenameSurvivesReload(name: string)
    requires name != []
    ensures LoadName(Some(name)) == name <==> Trimmed(name)
    ensures Blank(name) ==> LoadName(Some(name)) == DefaultName
  {
  }

  /**
   * `list.pop(k)` on the task list: the element at `k` goes, the others keep
   * their order.
   */
  function RemoveAt(s: seq<string>, k: nat): (r: seq<string>)
    requires k < |s|
    ensures |r| == |s| - 1
    ensures forall i :: 0 <= i < k ==> r[i] == s[i]
    ensures forall i :: k <= i < |r| ==> r[i] == s[i + 1]
    ensures multiset(r) + multiset{s[k]} == multiset(s)
  {
    assert s == s[..k] + [s[k]] + s[k + 1..];
    s[..k] + s[k + 1..]
  }

  class App {
    /** The track list, found once at startup and never changed. */
    const songs: seq<string>
    var currentSongIndex: nat
    var paused: bool
    /** The play button reads "일시 정지" (pause) rather than "재생" (play). */
    var showingPause: bool
    /** The audio engine's `get_busy()`. */
    var busy: bool
    var xp: int
    var level: int
    var userName: string
    var tasks: seq<string>

    function PlayerState(): Player
      reads this
    {
      Player(currentSongIndex, paused, showingPause, busy)
    }

    function ProgressState(): Progress
      reads this
    {
      Progress(xp, level)
    }

    ghost predicate Valid()
      reads this
    {
      |songs| > 0 && currentSongIndex < |songs| && Consistent(PlayerState())
    }

    /**
     * Startup: the tracks found on disk (startup aborts when there are none),
     * the loaded progress and tasks, and the stored name file if any.
     */
    constructor (tracks: seq<string>, savedXp: int, savedLevel: int,
                 storedName: Option<string>, savedTasks: seq<string>)
      requires |tracks| > 0
      ensures Valid()
      ensures songs == tracks && PlayerState() == Initial
      ensures ProgressState() == Progression.Progress(savedXp, savedLevel)
      ensures userName == LoadName(storedName) && tasks == savedTasks
    {
      songs := tracks;
      currentSongIndex := 0;
      paused := false;
      showingPause := false;
      busy := false;
      xp, level := savedXp, savedLevel;
      userName := LoadName(storedName);
      tasks := savedTasks;
    }

    /**
     * `add_xp`: add the amount, then take 60 away and raise the level by one
     * for as long as at least 60 remain.
     */
    method AddXp(amount: int)
      modifies this`xp, this`level
      ensures ProgressState() == Award(old(ProgressState()), amount)
    {
      xp := xp + amount;
      while xp >= Threshold
        invariant Threshold * level + xp == Threshold * old(level) + old(xp) + amount
        invariant level >= old(level)
        invariant xp == old(xp) + amount || xp >= 0
        decreases xp
      {
        xp := xp - Threshold;
        level := level + 1;
      }
    }

    /** `xp_tick`: one point while the engine is busy and not paused. */
    method XpTick()
      modifies this`xp, this`level
      ensures EarnsXp(PlayerState()) ==> ProgressState() == Award(old(ProgressState()), 1)
      ensures !EarnsXp(PlayerState()) ==> ProgressState() == old(ProgressState())
    {
      if busy && !paused {
        AddXp(1);
      }
    }

    /**
     * `on_song_end`: the button goes back to "play" and `paused` is cleared.
     * Its only caller runs it once the engine has gone idle.
     */
    method OnSongEnd()
      requires Valid() && !busy
      modifies this`paused, this`showingPause
      ensures Valid() && PlayerState() == SongEnd(old(PlayerState()))
    {
      showingPause := false;
      paused := false;
    }

    /** `check_song_end`: one poll of the end-of-track timer. */
    method CheckSongEnd()
      requires Valid()
      modifies this`paused, this`showingPause
      ensures Valid() && PlayerState() == CheckEnd(old(PlayerState()))
    {
      if showingPause && !busy {
        OnSongEnd();
      }
    }

    /** `rename`: the dialog's answer replaces the name unless it was cancelled or empty. */
    method Rename(entered: Option<string>)
      modifies this`userName
      ensures entered.Some? && entered.value != [] ==> userName == entered.value
      ensures entered.None? || entered.value == [] ==> userName == old(userName)
    {
      if entered.Some? && entered.value != [] {
        userName := entered.value;
      }
    }

    /**
     * `play_music`: load and start the current track. Both callers set the
     * button to "pause" right after it.
     */
    method PlayMusic()
      modifies this`busy, this`paused
      ensures PlayerState() == Playback.PlayMusic(old(PlayerState()))
    {
      busy := true;
      paused := false;
    }

    /** `toggle_play`: the play/pause button. */
    method TogglePlay()
      requires Valid()
      modifies this`busy, this`paused, this`showingPause
      ensures Valid() && PlayerState() == Toggle(old(PlayerState()))
    {
      if !busy {
        PlayMusic();
        showingPause := true;
      } else if paused {
        paused := false;
        showingPause := true;
      } else {
        paused := true;
        showingPause := false;
      }
    }

    /** `next_song`: the next track, wrapping to the first after the last. */
    method NextSong()
      requires Valid()
      modifies this`currentSongIndex, this`busy, this`paused, this`showingPause
      ensures Valid() && PlayerState() == Next(old(PlayerState()), |songs|)
    {
      currentSongIndex := (currentSongIndex + 1) % |songs|;
      PlayMusic();
      showingPause := true;
    }

    /** The engine reaches the end of the track by itself. */
    method TrackFinishes()
      requires Valid()
      modifies this`busy
      ensures Valid() && PlayerState() == Finish(old(PlayerState()))
    {
      busy := false;
    }

    /** `add_task`: append the stripped entry text, ignoring blank text. */
    method AddTask(entry: string)
      modifies this`tasks
      ensures Blank(entry) ==> tasks == old(tasks)
      ensures !Blank(entry) ==> tasks == old(tasks) + [Strip(entry)]
    {
      var text := Strip(entry);
      if text != [] {
        tasks := tasks + [text];
      }
    }

    /**
     * `delete_selected` (both the "done" and the "delete" button): with a
     * selection, pop its first index and award 10 points; without one,
     * nothing happens. The list box mirrors `tasks`, so a selected index is
     * always in range.
     */
    method DeleteSelected(selection: seq<nat>)
      requires selection != [] ==> selection[0] < |tasks|
      modifies this`tasks, this`xp, this`level
      ensures selection == [] ==> tasks == old(tasks) && ProgressState() == old(ProgressState())
      ensures selection != [] ==>
        tasks == RemoveAt(old(tasks), selection[0]) &&
        ProgressState() == Award(old(ProgressState()), 10)
    {
      if selection != [] {
        tasks := RemoveAt(tasks, selection[0]);
        AddXp(10);
      }
    }
  }

  /**
   * Two tracks a and b: toggle plays a, toggle pauses it, toggle resumes it,
   * next plays b, next wraps round to a.
   */
  method PlaylistScenario() returns (phases: seq<Phase>, indices: seq<nat>)
    ensures phases == [Playing, Paused, Playing, Playing, Playing]
    ensures indices == [0, 0, 0, 1, 0]
  {
    var app := new App(["a.mp3", "b.mp3"], 0, 1, None, []);
    phases, indices := [], [];
    app.TogglePlay();
    phases, indices := phases + [PhaseOf(app.PlayerState())], indices + [app.currentSongIndex];
    app.TogglePlay();
    phases, indices := phases + [PhaseOf(app.PlayerState())], indices + [app.currentSongIndex];
    app.TogglePlay();
    phases, indices := phases + [PhaseOf(app.PlayerState())], indices + [app.currentSongIndex];
    app.NextSong();
    phases, indices := phases + [PhaseOf(app.PlayerState())], indices + [app.currentSongIndex];
    app.NextSong();
    phases, indices := phases + [PhaseOf(app.PlayerState())], indices + [app.currentSongIndex];
  }

  /**
   * A profile at 55 xp on level 3 completes a task: 10 points carry it to
   * level 4 with 5 xp, and the task is gone.
   */
  method CompleteTaskScenario() returns (p: Progress, left: seq<string>)
    ensures p == Progression.Progress(5, 4)
    ensures left == ["write report"]
  {
    var app := new App(["a.mp3"], 55, 3, None, ["water plants", "write report"]);
    app.DeleteSelected([0]);
    p, left := app.ProgressState(), app.tasks;
  }
}
