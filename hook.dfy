/** The progress hook that the integration hands to the download library: it reads the
    sensor's published attributes, applies one status event, and delivers the new map to
    the first downloader sensor in the shared entity list. The host's thread-safe handoff
    to its event loop is modelled as a direct call, so each call here sees the state that
    the previous delivery published. */
module Hook {
  import opened Values
  import Paths
  import opened Progress
  import opened Sensor

  /** The entity id under which the host publishes the downloader sensor's state. */
  const SensorEntityId: string := "sensor." + Domain + "_downloader"

  /** The objects one hook call may change: the first downloader sensor, if there is one. */
  function Targets(data: map<string, map<string, seq<Entity>>>): set<object>
  {
    match FirstDownloader(Registered(data))
    case None => {}
    case Some(s) => {s}
  }

  /** The map-building half of `progress_hook`: a copy of the published attributes, then
      one update of the event's key, exactly as Progress.Step specifies. */
  method Reduce(published: Attributes, ev: Event) returns (attr: Attributes)
    ensures attr == Step(published, ev)
  {
    attr := published;
    var filename := Paths.LastSegment(ev.path);
    if ev.status == Finished {
      attr := attr - {filename};
    } else if ev.status == Downloading {
      attr := attr[filename := FileProgress(RecordOf(ev.fields))];
    } else if ev.status == Failed {
      attr := attr - {filename};
    }
  }

  /** The copy of the published attributes keeps the host's attributes, so the map handed to
      the sensor, and the value it reports, counts them beside the files: with only the
      friendly name published, one downloading file gives the value 2. */
  lemma HostKeysInflateCount()
    ensures var published := map["friendly_name" := HostAttr(Str("Downloader"))];
            var ev := Event("/media/clip.mp4", Downloading, map[]);
            |Step(published, ev)| == 2 && Files(Step(published, ev)) == {"clip.mp4"}
  {
    var published := map["friendly_name" := HostAttr(Str("Downloader"))];
    var ev := Event("/media/clip.mp4", Downloading, map[]);
    assert ev.path == "/media" + [Paths.Sep] + "clip.mp4";
    Paths.LastSegmentAfterSeparator("/media", "clip.mp4");
    var key := Key(ev);
    assert key == "clip.mp4";
    var r := published[key := FileProgress(RecordOf(ev.fields))];
    assert EffectOf(ev) == Some(Upserted(RecordOf(ev.fields)));
    assert Step(published, ev) == r;
    assert r.Keys == {"friendly_name", "clip.mp4"};
    assert Files(r) == {"clip.mp4"};
  }

  /** The reducer the sensor's value evidently calls for: drop the host's attributes from the
      copy before applying the event. It tracks the same files as Reduce, and the size of
      its result is exactly the number of in-flight files. */
  method ReduceInFlight(published: Attributes, ev: Event) returns (attr: Attributes)
    ensures attr == Step(InFlight(published), ev)
    ensures HostKeys(attr) == {} && Files(attr) == Files(Step(published, ev))
    ensures |attr| == |Files(attr)|
  {
    attr := Reduce(InFlight(published), ev);
    StepFilesAndHostKeys(InFlight(published), ev);
    StepFilesAndHostKeys(published, ev);
    CountSplits(attr);
  }

  /** The delivery half of `progress_hook`: the loop over the entity list that hands the map
      to the first downloader sensor and stops. No other object changes. */
  method Deliver(hass: Hass, attr: Attributes)
    modifies Targets(hass.data)
    ensures match FirstDownloader(Registered(hass.data))
      case None => true
      case Some(s) => s.attributes == attr && s.nativeValue == |attr| && s.Valid()
  {
    var entities := Registered(hass.data);
    var i := 0;
    while i < |entities|
      invariant 0 <= i <= |entities|
      invariant FirstDownloader(entities[i..]) == FirstDownloader(entities)
    {
      if entities[i].Downloader? {
        entities[i].sensor.UpdateProgress(attr);
        return;
      }
      assert entities[i..][1..] == entities[i + 1..];
      i := i + 1;
    }
  }

  /** `progress_hook(d)` as written. `states` is the host's state registry (entity id ->
      published attributes). With no published state the call changes nothing; otherwise the
      first downloader in the entity list, and no other object, gets the reduced map, and its
      value is that map's size, host attributes included. */
  method ProgressHook(hass: Hass, states: map<string, Attributes>, ev: Event)
    modifies Targets(hass.data)
    ensures SensorEntityId !in states ==> unchanged(Targets(hass.data))
    ensures SensorEntityId in states ==>
      match FirstDownloader(Registered(hass.data))
      case None => true
      case Some(s) => s.attributes == Step(states[SensorEntityId], ev) && s.Valid() &&
                      s.nativeValue == |Files(s.attributes)| + |HostKeys(s.attributes)|
  {
    if SensorEntityId !in states {
      return;
    }
    var attr := Reduce(states[SensorEntityId], ev);
    CountSplits(attr);
    Deliver(hass, attr);
  }

  /** `progress_hook(d)` with the corrected reducer: the sensor receives the same files as
      with ProgressHook, and its value is exactly the number of in-flight files. */
  method ProgressHookInFlight(hass: Hass, states: map<string, Attributes>, ev: Event)
    modifies Targets(hass.data)
    ensures SensorEntityId !in states ==> unchanged(Targets(hass.data))
    ensures SensorEntityId in states ==>
      match FirstDownloader(Registered(hass.data))
      case None => true
      case Some(s) => s.attributes == Step(InFlight(states[SensorEntityId]), ev) && s.Valid() &&
                      Files(s.attributes) == Files(Step(states[SensorEntityId], ev)) &&
                      s.nativeValue == |Files(s.attributes)|
  {
    if SensorEntityId !in states {
      return;
    }
    var attr := ReduceInFlight(states[SensorEntityId], ev);
    Deliver(hass, attr);
  }
}
