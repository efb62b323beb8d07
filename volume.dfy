/** The state every volume shares, whatever its kind: the opened and online flags and the
    per-direction IO counters, with the open/close lifecycle, the online/offline switch
    and the statistics operations of the Python `Volume` base class. The concrete
    volumes hold one of these as their `base` and gate every entry point on it. */
module VolumeBase {
  import opened IoTypes

  class Volume {
    var isOpened: bool
    var isOnline: bool
    var stats: PerDir<nat>

    /** A new volume is online, not opened, with both counters at zero. */
    constructor ()
      ensures !isOpened && isOnline && stats == ZeroCounts
    {
      isOpened := false;
      isOnline := true;
      stats := ZeroCounts;
    }

    /** Opening twice is refused with NOT_OPEN_EXC; the volume stays opened either way. */
    method Open() returns (r: Status)
      modifies this`isOpened
      ensures isOpened
      ensures r == (if old(isOpened) then ErrNotOpenExc else Success)
    {
      if isOpened {
        return ErrNotOpenExc;
      }
      isOpened := true;
      return Success;
    }

    /** Closing an unopened volume changes nothing; closing an opened one clears the flag. */
    method Close()
      modifies this`isOpened
      ensures !isOpened
    {
      if !isOpened {
        return;
      }
      isOpened := false;
    }

    method Offline()
      modifies this`isOnline
      ensures !isOnline
    {
      isOnline := false;
    }

    method Online()
      modifies this`isOnline
      ensures isOnline
    {
      isOnline := true;
    }

    method ResetStats()
      modifies this`stats
      ensures stats == ZeroCounts
    {
      stats := ZeroCounts;
    }

    method IncStats(d: IoDir)
      modifies this`stats
      ensures stats == Inc(old(stats), d)
    {
      stats := Inc(stats, d);
    }
  }
}
