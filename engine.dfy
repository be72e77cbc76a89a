/** The compass engine: the module-level state of the watch app and the
    handlers that change it. Each handler is a method of `QiblaEngine` whose
    frame names the fields it assigns. */
module Engine {
  import opened CInt
  import opened Trig
  import opened Bearing
  import opened Damping
  import opened Settings

  /** The latitude and longitude a dictionary carries, where it carries them,
      are coordinates in range. */
  predicate GeoKeysInRange(d: map<int, int>)
  {
    GeoInRange(Overlay(Initial, d).geoLat, Overlay(Initial, d).geoLon)
  }

  /** Overlaying in-range keys on in-range settings keeps them in range. */
  lemma OverlayKeepsGeoInRange(s: Settings, d: map<int, int>)
    requires GeoInRange(s.geoLat, s.geoLon) && GeoKeysInRange(d)
    ensures GeoInRange(Overlay(s, d).geoLat, Overlay(s, d).geoLon)
  {
  }

  /** The initial direction of the damped north arrow, three quarters of a
      turn counter-clockwise. */
  const INITIAL_DAMPED_NORTH: int := -TRIG_MAX_ANGLE * 3 / 4

  class QiblaEngine {
    /** The SDK's lookup tables. */
    const lookups: Lookups

    var northDirection: int
    var dampedNorthDirection: int
    var dampedQiblaDirection: int
    var qiblaNorthOffsetCw: int

    var settingGeoLat: int
    var settingGeoLon: int
    var settingDst: int
    var dontWhineAboutSettingsFreshness: bool
    var settingsFresh: bool

    /** The persistent store, keyed like the messages. */
    var store: map<int, int>

    ghost predicate Valid()
      reads this
    {
      && LookupsValid(lookups)
      && GeoInRange(settingGeoLat, settingGeoLon)
      && GeoKeysInRange(store)
    }

    function Current(): Settings
      reads this
    {
      Settings(settingDst, settingGeoLat, settingGeoLon)
    }

    /** Line 100: the arrows are drawn when no setting holds the sentinel. */
    predicate ArrowsShown()
      reads this
    {
      SettingsOk(Current())
    }

    /** Line 135: the "No Phone Connection" banner. */
    predicate WarningShown()
      reads this
    {
      !settingsFresh && !dontWhineAboutSettingsFreshness
    }

    /** The statics as initialised, over the given tables and the store left
        by earlier runs. */
    constructor (tables: Lookups, flash: map<int, int>)
      requires LookupsValid(tables) && GeoKeysInRange(flash)
      ensures Valid()
      ensures lookups == tables && store == flash
      ensures northDirection == 0 && dampedNorthDirection == INITIAL_DAMPED_NORTH
      ensures dampedQiblaDirection == 0 && qiblaNorthOffsetCw == 0
      ensures Current() == Initial && !ArrowsShown()
      ensures dontWhineAboutSettingsFreshness && !settingsFresh && !WarningShown()
    {
      lookups := tables;
      northDirection := 0;
      dampedNorthDirection := INITIAL_DAMPED_NORTH;
      dampedQiblaDirection := 0;
      qiblaNorthOffsetCw := 0;
      settingGeoLat := UNSET;
      settingGeoLon := UNSET;
      settingDst := UNSET;
      dontWhineAboutSettingsFreshness := true;
      settingsFresh := false;
      store := flash;
    }

    /** `update_indicator_directions`: the damped arrow jumps to the sensed
        north and the qibla arrow follows at the fixed offset. */
    method UpdateIndicatorDirections()
      modifies this`dampedNorthDirection, this`dampedQiblaDirection
      ensures dampedNorthDirection == northDirection
      ensures dampedQiblaDirection == dampedNorthDirection - qiblaNorthOffsetCw
    {
      dampedNorthDirection := northDirection;
      dampedQiblaDirection := dampedNorthDirection - qiblaNorthOffsetCw;
    }

    /** `update_indicator_directions_animated`, one animation tick: the damped
        arrow moves by the damping step of the raw difference, and the qibla
        arrow follows at the fixed offset. Within half a turn the arrow moves
        toward north, without overshooting, by at most a twentieth of the
        difference; it does not move when the two agree. */
    method UpdateIndicatorDirectionsAnimated()
      modifies this`dampedNorthDirection, this`dampedQiblaDirection
      ensures dampedNorthDirection == old(dampedNorthDirection) + Step(northDirection - old(dampedNorthDirection))
      ensures dampedQiblaDirection == dampedNorthDirection - qiblaNorthOffsetCw
      ensures old(northDirection == dampedNorthDirection) ==> dampedNorthDirection == old(dampedNorthDirection)
      ensures Abs(northDirection - old(dampedNorthDirection)) <= HALF_TURN ==>
        && Abs(dampedNorthDirection - old(dampedNorthDirection)) <= Abs(northDirection - old(dampedNorthDirection)) / 20
        && Abs(northDirection - dampedNorthDirection) <= Abs(northDirection - old(dampedNorthDirection))
        && (old(dampedNorthDirection) <= northDirection ==> old(dampedNorthDirection) <= dampedNorthDirection <= northDirection)
        && (northDirection <= old(dampedNorthDirection) ==> northDirection <= dampedNorthDirection <= old(dampedNorthDirection))
    {
      var delta := northDirection - dampedNorthDirection;
      if Abs(delta) <= HALF_TURN {
        StepBounded(delta);
      }
      dampedNorthDirection := dampedNorthDirection + Step(delta);
      dampedQiblaDirection := dampedNorthDirection - qiblaNorthOffsetCw;
    }

    /** `compass_heading_handler`: the sensed north is a quarter turn minus the
        magnetic heading, whether or not the compass reports itself valid;
        nothing else changes. */
    method CompassHeadingHandler(magneticHeading: int, isCompassValid: bool)
      modifies this`northDirection
      ensures northDirection == TRIG_MAX_ANGLE / 4 - magneticHeading
    {
      northDirection := TRIG_MAX_ANGLE / 4 - magneticHeading;
    }

    /** `calculate_qibla_north_offset`: the offset for the current latitude and
        longitude, computed without overflow. */
    method CalculateQiblaNorthOffset()
      requires Valid()
      modifies this`qiblaNorthOffsetCw
      ensures qiblaNorthOffsetCw == ExactBearing(lookups, settingGeoLat, settingGeoLon)
      ensures CwOffset(lookups, settingGeoLat, settingGeoLon, W64) == Some(qiblaNorthOffsetCw)
    {
      qiblaNorthOffsetCw := QiblaNorthCwOffset(lookups, settingGeoLat, settingGeoLon);
    }

    /** `load_settings`: every key in the store overwrites its setting; a key
        missing from the store leaves the setting as it was. Freshness is
        untouched. */
    method LoadSettings()
      requires Valid()
      modifies this`settingDst, this`settingGeoLat, this`settingGeoLon
      ensures Valid()
      ensures Current() == Overlay(old(Current()), store)
    {
      OverlayKeepsGeoInRange(Current(), store);
      if AM_DST in store {
        settingDst := store[AM_DST];
      }
      if AM_GEO_LAT in store {
        settingGeoLat := store[AM_GEO_LAT];
      }
      if AM_GEO_LON in store {
        settingGeoLon := store[AM_GEO_LON];
      }
    }

    /** `persist_settings`: the three settings are written to the store; a
        later load gives them back unchanged. */
    method PersistSettings()
      requires Valid()
      modifies this`store
      ensures Valid()
      ensures store == Persisted(old(store), Current())
      ensures forall s :: Overlay(s, store) == Current()
    {
      store := store[AM_DST := settingDst];
      store := store[AM_GEO_LAT := settingGeoLat];
      store := store[AM_GEO_LON := settingGeoLon];
      forall s {
        LoadAfterPersist(old(store), Current(), s);
      }
    }

    /** `in_received_handler`: each key of the message overwrites its setting,
        absent keys keep theirs; the settings become fresh, which clears the
        warning; the offset is recomputed for the new coordinates; and the
        store then holds the three current settings. */
    method InReceivedHandler(message: map<int, int>)
      requires Valid() && GeoKeysInRange(message)
      modifies this`settingDst, this`settingGeoLat, this`settingGeoLon
      modifies this`settingsFresh, this`qiblaNorthOffsetCw, this`store
      ensures Valid()
      ensures Current() == Overlay(old(Current()), message)
      ensures settingsFresh && !WarningShown()
      ensures qiblaNorthOffsetCw == QiblaNorthCwOffset(lookups, settingGeoLat, settingGeoLon)
      ensures store == Persisted(old(store), Current())
      ensures forall s :: Overlay(s, store) == Current()
    {
      OverlayKeepsGeoInRange(Current(), message);
      if AM_DST in message {
        settingDst := message[AM_DST];
      }
      if AM_GEO_LAT in message {
        settingGeoLat := message[AM_GEO_LAT];
      }
      if AM_GEO_LON in message {
        settingGeoLon := message[AM_GEO_LON];
      }
      settingsFresh := true;
      CalculateQiblaNorthOffset();
      PersistSettings();
    }

    /** `start_whining_about_freshness`, run once by the 1500 ms timer: from
        now on the warning shows exactly while no settings have arrived. */
    method StartWhiningAboutFreshness()
      modifies this`dontWhineAboutSettingsFreshness
      ensures !dontWhineAboutSettingsFreshness
      ensures WarningShown() <==> !settingsFresh
    {
      dontWhineAboutSettingsFreshness := false;
    }
  }
}
