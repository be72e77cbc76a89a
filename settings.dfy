/** The three integer settings the phone sends and the watch persists, keyed
    by the AppMessage keys. Both an incoming message and the persistent store
    are dictionaries from key to integer; -1 marks a setting never received. */
module Settings {

  /** The `AMKeys` enumeration. */
  const AM_DST: int := 0
  const AM_GEO_LAT: int := 1
  const AM_GEO_LON: int := 2

  const UNSET: int := -1

  datatype Settings = Settings(dst: int, geoLat: int, geoLon: int)

  /** The settings at start-up, before anything is loaded or received. */
  const Initial: Settings := Settings(UNSET, UNSET, UNSET)

  /** Each key present in the dictionary overwrites its own setting; an absent
      key leaves it as it was. `load_settings` applies the store this way and
      `in_received_handler` a message. */
  function Overlay(s: Settings, d: map<int, int>): Settings
  {
    Settings(
      if AM_DST in d then d[AM_DST] else s.dst,
      if AM_GEO_LAT in d then d[AM_GEO_LAT] else s.geoLat,
      if AM_GEO_LON in d then d[AM_GEO_LON] else s.geoLon)
  }

  /** `persist_settings`: the store with all three keys written. */
  function Persisted(store: map<int, int>, s: Settings): (r: map<int, int>)
    ensures r.Keys == store.Keys + {AM_DST, AM_GEO_LAT, AM_GEO_LON}
    ensures r[AM_DST] == s.dst && r[AM_GEO_LAT] == s.geoLat && r[AM_GEO_LON] == s.geoLon
    ensures forall k :: k in store && k !in {AM_DST, AM_GEO_LAT, AM_GEO_LON} ==> r[k] == store[k]
  {
    store[AM_DST := s.dst][AM_GEO_LAT := s.geoLat][AM_GEO_LON := s.geoLon]
  }

  /** The condition for drawing the arrows: no setting holds the sentinel. */
  predicate SettingsOk(s: Settings)
  {
    s.dst != UNSET && s.geoLat != UNSET && s.geoLon != UNSET
  }

  /** Loading after persisting restores every setting, whatever the settings
      were in between. */
  lemma LoadAfterPersist(store: map<int, int>, s: Settings, meanwhile: Settings)
    ensures Overlay(meanwhile, Persisted(store, s)) == s
  {
  }

  /** A present key decides its setting, an absent key keeps the old value;
      no key reaches another key's setting. */
  lemma OverlayPerKey(s: Settings, d: map<int, int>)
    ensures AM_DST in d ==> Overlay(s, d).dst == d[AM_DST]
    ensures AM_DST !in d ==> Overlay(s, d).dst == s.dst
    ensures AM_GEO_LAT in d ==> Overlay(s, d).geoLat == d[AM_GEO_LAT]
    ensures AM_GEO_LAT !in d ==> Overlay(s, d).geoLat == s.geoLat
    ensures AM_GEO_LON in d ==> Overlay(s, d).geoLon == d[AM_GEO_LON]
    ensures AM_GEO_LON !in d ==> Overlay(s, d).geoLon == s.geoLon
  {
  }

  /** A dictionary without the three keys changes nothing, and applying the
      same dictionary twice is the same as applying it once. */
  lemma OverlayIdempotent(s: Settings, d: map<int, int>)
    ensures (forall k :: k in d ==> k !in {AM_DST, AM_GEO_LAT, AM_GEO_LON}) ==> Overlay(s, d) == s
    ensures Overlay(Overlay(s, d), d) == Overlay(s, d)
  {
  }

  /** Starting from the sentinels, the arrows can be drawn only once every one
      of the three keys has arrived with a value other than -1. */
  lemma SettingsOkNeedsEveryKey(d: map<int, int>)
    ensures SettingsOk(Overlay(Initial, d))
        <==> (forall k :: k in {AM_DST, AM_GEO_LAT, AM_GEO_LON} ==> k in d && d[k] != UNSET)
  {
  }

  /** The settings after the messages arrive in order, each one overlaid by
      `in_received_handler`. */
  function AfterMessages(s: Settings, msgs: seq<map<int, int>>): Settings
    decreases |msgs|
  {
    if msgs == [] then s else AfterMessages(Overlay(s, msgs[0]), msgs[1..])
  }

  /** The value of `key` in the last message that carries it, or `default`
      when none does. */
  function LastValue(msgs: seq<map<int, int>>, key: int, default: int): int
    decreases |msgs|
  {
    if msgs == [] then default
    else if key in msgs[|msgs| - 1] then msgs[|msgs| - 1][key]
    else LastValue(msgs[..|msgs| - 1], key, default)
  }

  /** Receiving two batches of messages is receiving the first batch, then
      the second. */
  lemma {:induction false} AfterMessagesAppend(s: Settings, a: seq<map<int, int>>, b: seq<map<int, int>>)
    ensures AfterMessages(s, a + b) == AfterMessages(AfterMessages(s, a), b)
    decreases |a|
  {
    if a == [] {
      assert a + b == b;
    } else {
      assert (a + b)[0] == a[0];
      assert (a + b)[1..] == a[1..] + b;
      AfterMessagesAppend(Overlay(s, a[0]), a[1..], b);
    }
  }

  /** After any sequence of messages each setting holds the value of the last
      message that carried its key, or its earlier value when none did. */
  lemma {:induction false} LastMessageWins(s: Settings, msgs: seq<map<int, int>>)
    ensures AfterMessages(s, msgs)
        == Settings(LastValue(msgs, AM_DST, s.dst),
                    LastValue(msgs, AM_GEO_LAT, s.geoLat),
                    LastValue(msgs, AM_GEO_LON, s.geoLon))
    decreases |msgs|
  {
    if msgs != [] {
      var init, last := msgs[..|msgs| - 1], msgs[|msgs| - 1];
      assert msgs == init + [last];
      AfterMessagesAppend(s, init, [last]);
      LastMessageWins(s, init);
      assert AfterMessages(AfterMessages(s, init), [last])
          == Overlay(AfterMessages(s, init), last);
    }
  }
}
