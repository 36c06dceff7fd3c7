/**
 * The volume slider: its integer setting selects one of four speaker icons,
 * and is scaled to the playback volume of the speech synthesiser.
 *
 * The slider's value is an integer here; the loose comparison of the
 * slider's string value with numbers is not modelled.
 */
module Volume {

  /** The volume the page starts with, before the slider is moved. */
  const InitialVolume: int := 100

  /** One of the four speaker icons, from muted (0) to loud (3). */
  type Tier = t: int | 0 <= t <= 3

  /**
   * The icon shown after the slider moves to `volume`. A setting above 100
   * matches no branch of the icon chain and leaves the `current` icon shown.
   */
  function VolumeIcon(volume: int, current: Tier): (t: Tier)
    ensures volume == 0 ==> t == 0
    ensures 1 <= volume <= 33 ==> t == 1
    ensures 34 <= volume <= 66 ==> t == 2
    ensures 67 <= volume <= 100 ==> t == 3
    ensures volume > 100 ==> t == current
    // below zero the chain's second test already succeeds
    ensures volume < 0 ==> t == 1
  {
    if volume == 0 then 0
    else if volume < 34 then 1
    else if volume < 67 then 2
    else if volume <= 100 then 3
    else current
  }

  /**
   * On the slider's range the icon is the volume scaled to three levels and
   * rounded up: an independent closed form of the chain of comparisons.
   */
  lemma VolumeIconClosedForm(volume: int, current: Tier)
    requires 0 <= volume <= 100
    ensures VolumeIcon(volume, current) == (3 * volume + 99) / 100
  {
  }

  /** A louder setting within the slider's range never shows a quieter icon. */
  lemma VolumeIconMonotone(v1: int, v2: int, current: Tier)
    requires 0 <= v1 <= v2 <= 100
    ensures VolumeIcon(v1, current) <= VolumeIcon(v2, current)
  {
  }

  /** Within the slider's range the icon does not depend on the one shown before. */
  lemma VolumeIconForgetsCurrent(volume: int, c1: Tier, c2: Tier)
    requires volume <= 100
    ensures VolumeIcon(volume, c1) == VolumeIcon(volume, c2)
  {
  }

  /**
   * The speech volume for a slider setting: the setting taken as a
   * percentage of full volume.
   */
  function PlaybackVolume(volume: int): (r: real)
    ensures r * 100.0 == volume as real
    ensures 0 <= volume <= 100 ==> 0.0 <= r <= 1.0
  {
    volume as real / 100.0
  }

  /** The playback volume grows with the slider setting and is full at the start. */
  lemma PlaybackVolumeMonotone(v1: int, v2: int)
    requires v1 <= v2
    ensures PlaybackVolume(v1) <= PlaybackVolume(v2)
    ensures PlaybackVolume(InitialVolume) == 1.0
    ensures PlaybackVolume(0) == 0.0
  {
  }
}
