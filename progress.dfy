/** The progress reducer of `progress_hook`: how one status event of the download library
    turns the sensor's attribute map into the next one. The map is a copy of the sensor's
    published attributes, so beside the file-name entries it also holds whatever attributes
    the host published with the state (such as its friendly name). */
module Progress {
  import opened Values
  import Paths

  /** One in-flight download as shown in the sensor's attributes. */
  datatype Record = Record(speed: Value, downloaded: Value, total: Value, eta: Value)

  /** A value of the attribute map: the progress of one file, or an attribute the host
      published with the state. */
  datatype Attr = FileProgress(rec: Record) | HostAttr(v: Value)

  /** The attribute map: bare file name -> progress, plus the host's own attributes. */
  type Attributes = map<string, Attr>

  /** The keys that hold file progress: the in-flight files. */
  function Files(attrs: Attributes): set<string>
  {
    set k | k in attrs && attrs[k].FileProgress?
  }

  /** The keys that hold host attributes. */
  function HostKeys(attrs: Attributes): set<string>
  {
    set k | k in attrs && attrs[k].HostAttr?
  }

  /** The size of the map, which the sensor reports as its value, is the number of in-flight
      files plus the number of host attributes. */
  lemma CountSplits(attrs: Attributes)
    ensures |attrs| == |Files(attrs)| + |HostKeys(attrs)|
  {
    assert attrs.Keys == Files(attrs) + HostKeys(attrs);
    assert Files(attrs) !! HostKeys(attrs);
  }

  /** A status event: the output path from `info_dict.filename`, the `status` string, and
      the remaining fields of the event dictionary. */
  datatype Event = Event(path: string, status: string, fields: map<string, Value>)

  const Downloading: string := "downloading"
  const Finished: string := "finished"
  const Failed: string := "error"

  /** The map key of an event: the last segment of its path (see Paths.LastSegment). */
  function Key(ev: Event): string
  {
    Paths.LastSegment(ev.path)
  }

  /** The record a `downloading` event stores, with the defaults for missing fields. */
  function RecordOf(fields: map<string, Value>): Record
  {
    Record(Get(fields, "speed", Num(0.0)),
           Get(fields, "downloaded_bytes", Num(0.0)),
           Get(fields, "total_bytes", Str("Unknown")),
           Get(fields, "eta", Num(0.0)))
  }

  /** What an event does to the entry of its file. */
  datatype Effect = Upserted(rec: Record) | Removed

  /** Only the file entries of a map: what the sensor's value was meant to count. */
  function InFlight(attrs: Attributes): (r: Attributes)
    ensures r.Keys == Files(attrs) && HostKeys(r) == {}
    ensures forall k :: k in r ==> r[k] == attrs[k]
  {
    map k | k in Files(attrs) :: attrs[k]
  }

  /** One event applied to the attribute map. */
  function Step(attrs: Attributes, ev: Event): (r: Attributes)
    // downloading: the key is present with the event's fields, or the defaults 0, 0, "Unknown", 0
    ensures ev.status == Downloading ==>
      Key(ev) in r && r[Key(ev)].FileProgress? &&
      r[Key(ev)].rec.speed == (if "speed" in ev.fields then ev.fields["speed"] else Num(0.0)) &&
      r[Key(ev)].rec.downloaded == (if "downloaded_bytes" in ev.fields then ev.fields["downloaded_bytes"] else Num(0.0)) &&
      r[Key(ev)].rec.total == (if "total_bytes" in ev.fields then ev.fields["total_bytes"] else Str("Unknown")) &&
      r[Key(ev)].rec.eta == (if "eta" in ev.fields then ev.fields["eta"] else Num(0.0))
    // finished / error: the key is absent, whether or not it was there before
    ensures ev.status == Finished || ev.status == Failed ==> Key(ev) !in r
    // any other status: nothing happens
    ensures ev.status !in {Downloading, Finished, Failed} ==> r == attrs
    // nothing but the event's own key changes
    ensures forall k :: k != Key(ev) ==> (k in r <==> k in attrs)
    ensures forall k :: k != Key(ev) && k in r ==> r[k] == attrs[k]
    // the number of keys moves by at most one
    ensures ev.status == Downloading ==> |r| == if Key(ev) in attrs then |attrs| else |attrs| + 1
    ensures ev.status == Finished || ev.status == Failed ==>
      |r| == if Key(ev) in attrs then |attrs| - 1 else |attrs|
  {
    Apply(attrs, Key(ev), EffectOf(ev))
  }

  /** Across one event the in-flight files change only at the event's key, and host
      attributes are never added: a `downloading`, `finished` or `error` event whose file
      name equals a host attribute's key overwrites or removes that attribute. */
  lemma StepFilesAndHostKeys(attrs: Attributes, ev: Event)
    ensures ev.status == Downloading ==> Files(Step(attrs, ev)) == Files(attrs) + {Key(ev)}
    ensures ev.status == Finished || ev.status == Failed ==>
      Files(Step(attrs, ev)) == Files(attrs) - {Key(ev)}
    ensures ev.status in {Downloading, Finished, Failed} ==>
      HostKeys(Step(attrs, ev)) == HostKeys(attrs) - {Key(ev)}
    ensures ev.status !in {Downloading, Finished, Failed} ==>
      Files(Step(attrs, ev)) == Files(attrs) && HostKeys(Step(attrs, ev)) == HostKeys(attrs)
  {
    var r := Step(attrs, ev);
    if ev.status in {Downloading, Finished, Failed} {
      forall k ensures k in Files(r) <==> k in (if ev.status == Downloading then Files(attrs) + {Key(ev)} else Files(attrs) - {Key(ev)}) {
        if k != Key(ev) {
          assert k in r <==> k in attrs;
        }
      }
      forall k ensures k in HostKeys(r) <==> k in HostKeys(attrs) - {Key(ev)} {
        if k != Key(ev) {
          assert k in r <==> k in attrs;
        }
      }
    }
  }

  /** What an event does to its own key. The source tests `finished`, then `downloading`,
      then `error`; the first and the last both pop the key. */
  function EffectOf(ev: Event): Option<Effect>
  {
    if ev.status == Finished then Some(Removed)
    else if ev.status == Downloading then Some(Upserted(RecordOf(ev.fields)))
    else if ev.status == Failed then Some(Removed)
    else None
  }

  /** An effect applied to one key: `attr[key] = rec`, `attr.pop(key, None)`, or nothing. */
  function Apply(attrs: Attributes, key: string, eff: Option<Effect>): Attributes
  {
    match eff
    case None => attrs
    case Some(Upserted(rec)) => attrs[key := FileProgress(rec)]
    case Some(Removed) => RemoveSize(attrs, key); attrs - {key}
  }

  /** `dict.pop(key, None)` shrinks the map by one exactly when the key was there. */
  lemma RemoveSize(attrs: Attributes, key: string)
    ensures |attrs - {key}| == if key in attrs then |attrs| - 1 else |attrs|
  {
    assert (attrs - {key}).Keys == attrs.Keys - {key};
  }

  /** The attribute map after a sequence of events, applied in order. */
  function Run(attrs: Attributes, evs: seq<Event>): Attributes
  {
    if evs == [] then attrs else Step(Run(attrs, evs[..|evs| - 1]), evs[|evs| - 1])
  }

  /** The effect of the last `downloading`, `finished` or `error` event whose key is k,
      or None when no such event is in the sequence. */
  function LastEffect(k: string, evs: seq<Event>): Option<Effect>
  {
    if evs == [] then None
    else
      var ev := evs[|evs| - 1];
      if Key(ev) == k && EffectOf(ev).Some? then EffectOf(ev) else LastEffect(k, evs[..|evs| - 1])
  }

  /** After any sequence of events, a file is tracked exactly when its last effective event
      was `downloading`, with that event's record; a file no event touched keeps its entry. */
  lemma {:induction false} RunAtKey(attrs: Attributes, evs: seq<Event>, k: string)
    ensures match LastEffect(k, evs)
      case None => (k in Run(attrs, evs) <==> k in attrs) &&
                   (k in attrs ==> Run(attrs, evs)[k] == attrs[k])
      case Some(Upserted(rec)) => k in Run(attrs, evs) && Run(attrs, evs)[k] == FileProgress(rec)
      case Some(Removed) => k !in Run(attrs, evs)
  {
    if evs != [] {
      RunAtKey(attrs, evs[..|evs| - 1], k);
    }
  }

  /** Events for different files give the same map in either order, provided each is applied
      to the map the other produced. The hook does not guarantee that: see StaleSnapshotLosesUpdate. */
  lemma StepCommutes(attrs: Attributes, e1: Event, e2: Event)
    requires Key(e1) != Key(e2)
    ensures Step(Step(attrs, e1), e2) == Step(Step(attrs, e2), e1)
  {
    ApplyCommutes(attrs, Key(e1), EffectOf(e1), Key(e2), EffectOf(e2));
  }

  /** Two hooks that read the same published map and deliver their results one after the
      other: the last delivery wins, so the first file's update is lost. A file that
      finished stays in the map after the other file's delivery. */
  lemma StaleSnapshotLosesUpdate(published: Attributes, e1: Event, e2: Event)
    requires Key(e1) != Key(e2) && Key(e1) in published
    requires e1.status == Finished
    ensures Key(e1) !in Step(Step(published, e1), e2)
    ensures Key(e1) in Step(published, e2)
  {
  }

  /** Effects on two different keys commute. */
  lemma ApplyCommutes(attrs: Attributes, k1: string, f1: Option<Effect>, k2: string, f2: Option<Effect>)
    requires k1 != k2
    ensures Apply(Apply(attrs, k1, f1), k2, f2) == Apply(Apply(attrs, k2, f2), k1, f1)
  {
  }

  /** For one file, order matters: `downloading` then `finished` leaves it untracked,
      `finished` then `downloading` leaves it tracked. */
  lemma SameKeyOrderMatters(attrs: Attributes, path: string, fields: map<string, Value>)
    ensures var d := Event(path, Downloading, fields);
            var f := Event(path, Finished, map[]);
            Key(d) !in Step(Step(attrs, d), f) && Key(d) in Step(Step(attrs, f), d)
  {
  }

  /** Two downloads in different directories that produce the same file name share one
      entry: the `finished` event of one removes the entry of the other. */
  lemma FileNamesAlias(attrs: Attributes, fields: map<string, Value>)
    ensures var a := Event("/music/a/song.mp3", Downloading, fields);
            var b := Event("/music/b/song.mp3", Finished, map[]);
            Key(a) == Key(b) && Key(a) !in Step(Step(attrs, a), b)
  {
    assert "/music/a/song.mp3" == "/music/a" + [Paths.Sep] + "song.mp3";
    assert "/music/b/song.mp3" == "/music/b" + [Paths.Sep] + "song.mp3";
    Paths.LastSegmentAfterSeparator("/music/a", "song.mp3");
    Paths.LastSegmentAfterSeparator("/music/b", "song.mp3");
  }
}
