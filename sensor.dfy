/** The sensor platform: the downloader sensor whose value is the number of in-flight files
    and whose attributes are the progress map, and its registration in the integration's
    shared data so that the progress hook can find it. */
module Sensor {
  import opened Values
  import Progress

  /** The integration's domain. It is defined in const.py, which is not part of this model;
      Home Assistant requires a custom integration's domain to equal its folder name. */
  const Domain: string := "yt_dlp"

  /** The key of the entity list inside the domain's entry of the shared data. */
  const EntitiesKey: string := "entities"

  class DownloaderSensor {
    /** The config entry the sensor belongs to (only its id is kept). */
    const entryId: string
    const name: string
    const uniqueId: string

    /** `_attr_native_value`: the number of keys of the attribute map, that is, the in-flight
        files plus any host attributes the map was copied with (Progress.CountSplits). */
    var nativeValue: int
    /** `_attr_extra_state_attributes`: file name -> progress, plus copied host attributes. */
    var attributes: Progress.Attributes

    /** The count invariant: the value is the number of keys of the attribute map. */
    ghost predicate Valid()
      reads this
    {
      nativeValue == |attributes|
    }

    constructor (entryId: string)
      ensures Valid()
      ensures nativeValue == 0 && attributes == map[]
      ensures this.entryId == entryId && name == "Downloader" && uniqueId == Domain + "_downloader"
    {
      this.entryId := entryId;
      name := "Downloader";
      uniqueId := Domain + "_downloader";
      nativeValue := 0;
      attributes := map[];
    }

    /** `update_progress`: take the new map and count its keys. Whatever map it is given,
        the count invariant holds afterwards. */
    method UpdateProgress(a: Progress.Attributes)
      modifies this
      ensures Valid()
      ensures attributes == a && nativeValue == |a|
    {
      nativeValue := |a|;
      attributes := a;
    }
  }

  /** An entry of the shared entity list: the downloader sensor, or some other entity. */
  datatype Entity = Downloader(sensor: DownloaderSensor) | OtherEntity(entityId: string)

  /** The part of `hass.data` this integration uses: domain -> key -> entity list. */
  class Hass {
    var data: map<string, map<string, seq<Entity>>>
  }

  /** `hass.data.get(DOMAIN, {}).get("entities", [])`. */
  function Registered(data: map<string, map<string, seq<Entity>>>): seq<Entity>
  {
    if Domain in data && EntitiesKey in data[Domain] then data[Domain][EntitiesKey] else []
  }

  /** The sensor the progress hook delivers to: the first downloader in the entity list. */
  function FirstDownloader(entities: seq<Entity>): (r: Option<DownloaderSensor>)
    ensures r.Some? <==> exists i :: 0 <= i < |entities| && entities[i].Downloader?
    ensures r.Some? ==> exists i :: 0 <= i < |entities| && entities[i] == Downloader(r.value) &&
                          forall j :: 0 <= j < i ==> !entities[j].Downloader?
  {
    if entities == [] then None
    else if entities[0].Downloader? then Some(entities[0].sensor)
    else
      var r := FirstDownloader(entities[1..]);
      assert forall i :: 1 <= i < |entities| ==> entities[i] == entities[1..][i - 1];
      r
  }

  /** `async_setup_entry` of the sensor platform: create the sensor and append it to the
      shared entity list, creating the domain entry and the list when they are absent. */
  method SetupEntry(hass: Hass, entryId: string) returns (sensor: DownloaderSensor)
    modifies hass
    ensures fresh(sensor) && sensor.Valid() && sensor.attributes == map[] && sensor.entryId == entryId
    ensures Domain in hass.data && EntitiesKey in hass.data[Domain]
    ensures Registered(hass.data) == Registered(old(hass.data)) + [Downloader(sensor)]
    // other domains are untouched
    ensures forall d :: d != Domain ==> (d in hass.data <==> d in old(hass.data))
    ensures forall d :: d != Domain && d in hass.data ==> hass.data[d] == old(hass.data)[d]
    // other keys of the domain's entry are untouched
    ensures Domain in old(hass.data) ==>
      hass.data[Domain] - {EntitiesKey} == old(hass.data)[Domain] - {EntitiesKey}
    ensures Domain !in old(hass.data) ==> hass.data[Domain].Keys == {EntitiesKey}
  {
    sensor := new DownloaderSensor(entryId);
    if Domain !in hass.data {
      hass.data := hass.data[Domain := map[]];
    }
    if EntitiesKey !in hass.data[Domain] {
      hass.data := hass.data[Domain := hass.data[Domain][EntitiesKey := []]];
    }
    var entities := hass.data[Domain][EntitiesKey];
    hass.data := hass.data[Domain := hass.data[Domain][EntitiesKey := entities + [Downloader(sensor)]]];
  }
}
