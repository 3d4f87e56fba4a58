/** The media player's volume and current-element bookkeeping (mediaPlayer.js). */
module Player {
  import opened Media

  class MediaPlayer {
    /** Whether `init` has given the player its container. */
    var hasContainer: bool
    var currentMedia: MediaElement?
    var globalVolume: real
    var isMuted: bool
    var volumeBeforeMute: real

    constructor ()
      ensures !hasContainer && currentMedia == null
      ensures globalVolume == 0.1 && !isMuted && volumeBeforeMute == 0.1
    {
      hasContainer := false;
      currentMedia := null;
      globalVolume := 0.1;
      isMuted := false;
      volumeBeforeMute := 0.1;
    }

    /** `init(container)`: the element lookup it receives may have come back `null`. */
    method Init(containerPresent: bool)
      modifies this`hasContainer
      ensures hasContainer == containerPresent
    {
      hasContainer := containerPresent;
    }

    /**
     * Which element `showItem` leaves current: a new video or audio element at
     * the current volume, none for an image, and the previous one for any other
     * kind. Without a container nothing happens. The prefix tests on the MIME
     * type, in the order video, audio, image, are the file's `kind`.
     */
    method ShowItem(file: MediaItem)
      modifies this`currentMedia
      ensures !hasContainer || file.kind == Other ==> currentMedia == old(currentMedia)
      ensures hasContainer && file.kind == Image ==> currentMedia == null
      ensures hasContainer && (file.kind == Video || file.kind == Audio) ==>
        currentMedia != null && fresh(currentMedia) &&
        currentMedia.tagName == file.kind && currentMedia.volume == globalVolume
    {
      if !hasContainer {
        return;
      }
      if file.kind == Video {
        currentMedia := new MediaElement(Video, globalVolume);
      } else if file.kind == Audio {
        currentMedia := new MediaElement(Audio, globalVolume);
      } else if file.kind == Image {
        currentMedia := null;
      }
    }

    /** Sets the volume, and the element's volume when a video or audio element is current. */
    method UpdateVolume(volume: real)
      modifies this`globalVolume, currentMedia
      ensures globalVolume == volume
      ensures Playable(currentMedia) ==> currentMedia.volume == volume
      ensures currentMedia != null && !Playable(currentMedia) ==> unchanged(currentMedia)
    {
      globalVolume := volume;
      if Playable(currentMedia) {
        currentMedia.volume := volume;
      }
    }

    /**
     * Muting saves the volume and zeroes it; unmuting sets the volume to the
     * saved one, whatever it was. Muting twice therefore saves 0 the second time.
     */
    method SetMuted(muted: bool)
      modifies this`isMuted, this`globalVolume, this`volumeBeforeMute, currentMedia
      ensures isMuted == muted
      ensures muted ==> volumeBeforeMute == old(globalVolume) && globalVolume == 0.0
      ensures !muted ==> volumeBeforeMute == old(volumeBeforeMute) && globalVolume == old(volumeBeforeMute)
      ensures Playable(currentMedia) ==> currentMedia.volume == globalVolume
      ensures currentMedia != null && !Playable(currentMedia) ==> unchanged(currentMedia)
    {
      isMuted := muted;
      if muted {
        volumeBeforeMute := globalVolume;
        globalVolume := 0.0;
      } else {
        globalVolume := volumeBeforeMute;
      }
      UpdateVolume(globalVolume);
    }

    function GetCurrentMedia(): (r: MediaElement?)
      reads this
      ensures r == currentMedia
    {
      currentMedia
    }

    function GetGlobalVolume(): (r: real)
      reads this
      ensures r == globalVolume
    {
      globalVolume
    }

    function IsMutedState(): (r: bool)
      reads this
      ensures r <==> isMuted
    {
      isMuted
    }

    function GetVolumeBeforeMute(): (r: real)
      reads this
      ensures r == volumeBeforeMute
    {
      volumeBeforeMute
    }
  }

  /** Muting and then unmuting gives back the volume from before. */
  method MuteThenUnmute(p: MediaPlayer)
    modifies p, p.currentMedia
    ensures !p.isMuted && p.globalVolume == old(p.globalVolume)
  {
    p.SetMuted(true);
    p.SetMuted(false);
  }

  /** Muting twice before unmuting: the second mute saves 0, so unmuting leaves the volume at 0. */
  method MuteTwiceThenUnmute(p: MediaPlayer)
    modifies p, p.currentMedia
    ensures !p.isMuted && p.globalVolume == 0.0 && p.volumeBeforeMute == 0.0
  {
    p.SetMuted(true);
    p.SetMuted(true);
    p.SetMuted(false);
  }

  /**
   * The calls the volume slider's handler makes on an unmuted player:
   * `updateVolume(v)`, then `setMuted(false)`, whose unmute puts the saved
   * volume in place for a moment, then `updateVolume(v)` again through the
   * `onVolumeChange` callback. The player ends at `v`, unmuted, with the saved
   * volume untouched.
   */
  method SliderUpdateWhileUnmuted(p: MediaPlayer, v: real)
    modifies p, p.currentMedia
    ensures p.globalVolume == v && !p.isMuted
    ensures Playable(p.currentMedia) ==> p.currentMedia.volume == v
    ensures p.volumeBeforeMute == old(p.volumeBeforeMute)
  {
    p.UpdateVolume(v);
    p.SetMuted(false);
    p.UpdateVolume(v);
  }
}
