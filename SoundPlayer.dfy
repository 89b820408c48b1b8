/** The ambient-sound player overlay (components/SoundPlayerModal.tsx). */
module SoundPlayer {
  import opened Wrappers
  import opened Types
  import opened Constants

  /**
    The player's two state hooks. They live as long as the component stays
    mounted, and the shell keeps it mounted while closed, so closing and
    reopening keeps both fields: only the handlers below change them.
  */
  class Player {
    var isPlaying: bool
    var currentTrack: SoundTrack

    /** The current track is always one of the listed tracks. */
    predicate Valid()
      reads this
    {
      currentTrack in SOUND_TRACKS
    }

    /** Starts paused, on the first track (rain). */
    constructor ()
      ensures Valid()
      ensures !isPlaying && currentTrack == SOUND_TRACKS[0]
      ensures currentTrack.soundType == RAIN
    {
      isPlaying := false;
      currentTrack := SOUND_TRACKS[0];
    }

    /** The play/pause button: flips `isPlaying` and keeps the track. */
    method TogglePlay()
      requires Valid()
      modifies this
      ensures Valid()
      ensures isPlaying == !old(isPlaying)
      ensures currentTrack == old(currentTrack)
    {
      isPlaying := !isPlaying;
    }

    /** A click on list entry `k`: that track becomes current and plays, whatever the state was. */
    method SelectTrack(k: nat)
      requires Valid()
      requires k < |SOUND_TRACKS|
      modifies this
      ensures Valid()
      ensures currentTrack == SOUND_TRACKS[k]
      ensures isPlaying
    {
      currentTrack := SOUND_TRACKS[k];
      isPlaying := true;
    }
  }

  /** A list entry is highlighted when its type is the current track's type. */
  predicate Highlighted(current: SoundTrack, track: SoundTrack) {
    current.soundType == track.soundType
  }

  /** The equalizer bars show on the current track's entry while playing. */
  predicate ShowsEqualizer(current: SoundTrack, isPlaying: bool, track: SoundTrack) {
    Highlighted(current, track) && isPlaying
  }

  datatype Entry = Entry(track: SoundTrack, highlighted: bool, equalizer: bool)

  /**
    What the open player shows: the current track's name and icon, a spinning
    record and a pause button while playing, and one entry per track. The
    volume and skip buttons have no handler and carry no state.
  */
  datatype PlayerView = PlayerView(title: string, icon: string, spinning: bool, showsPause: bool, entries: seq<Entry>)

  /** Renders the player; a closed player renders nothing. */
  function Render(isOpen: bool, isPlaying: bool, current: SoundTrack): (v: Option<PlayerView>)
    ensures v.None? <==> !isOpen
    ensures v.Some? ==> v.value.title == current.name && v.value.icon == current.icon
    ensures v.Some? ==> v.value.spinning == isPlaying == v.value.showsPause
    ensures v.Some? ==> |v.value.entries| == |SOUND_TRACKS|
    ensures v.Some? ==> forall k :: 0 <= k < |SOUND_TRACKS| ==> v.value.entries[k].track == SOUND_TRACKS[k]
  {
    if !isOpen then None
    else
      Some(PlayerView(current.name, current.icon, isPlaying, isPlaying,
        seq(|SOUND_TRACKS|, k requires 0 <= k < |SOUND_TRACKS| =>
          Entry(SOUND_TRACKS[k], Highlighted(current, SOUND_TRACKS[k]), ShowsEqualizer(current, isPlaying, SOUND_TRACKS[k])))))
  }

  /** With the current track at position `k` of the list, entry `k` and no other is highlighted. */
  lemma ExactlyOneHighlighted(isPlaying: bool, current: SoundTrack, k: nat)
    requires k < |SOUND_TRACKS| && SOUND_TRACKS[k] == current
    ensures forall j :: 0 <= j < |SOUND_TRACKS| ==>
      (Render(true, isPlaying, current).value.entries[j].highlighted <==> j == k)
  {
    SoundTracksDistinct();
  }

  /** The equalizer shows on entry `j` exactly when `j` is the current track and the player is playing. */
  lemma EqualizerOnlyOnCurrentWhilePlaying(isPlaying: bool, current: SoundTrack, k: nat)
    requires k < |SOUND_TRACKS| && SOUND_TRACKS[k] == current
    ensures forall j :: 0 <= j < |SOUND_TRACKS| ==>
      (Render(true, isPlaying, current).value.entries[j].equalizer <==> j == k && isPlaying)
  {
    ExactlyOneHighlighted(isPlaying, current, k);
  }
}
