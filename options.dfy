/** The option dictionary the `download` service hands to the download library: a fixed set
    of defaults, the audio-only overrides, and then every field of the service call except
    three reserved keys, which stay the plugin's own. */
module Options {
  import opened Values

  type Options = map<string, Value>

  /** The service-call keys that never reach the options. */
  const Reserved: set<string> := {"url", "progress_hooks", "paths"}

  /** The plugin's hook list: its one progress callback. */
  const Hooks: Value := List([Callback])

  /** The three title clean-up rules. They are only handed to the library's ModifyMetadata
      post-processor, which applies them; here they are opaque strings. */
  const TitleRules: seq<Value> := [
    Dict(map["regex" := Str(@"\s*\(Official\s+(Video|Audio|Music\s+Video|Lyric\s+Video)\)\s*$"), "replace" := Str("")]),
    Dict(map["regex" := Str(@"\s*\[Official\s+(Video|Audio|Music\s+Video|Lyric\s+Video)\]\s*$"), "replace" := Str("")]),
    Dict(map["regex" := Str(@"\s*[-|]\s*[^-|]+$"), "replace" := Str("")])
  ]

  const MetadataCleanup: Value := Dict(map["key" := Str("ModifyMetadata"), "title" := List(TitleRules)])

  const AudioExtraction: Value :=
    Dict(map["key" := Str("FFmpegExtractAudio"), "preferredcodec" := Str("mp3"), "preferredquality" := Str("192")])

  /** Output locations: the configured directory, and `temp` for intermediate files. */
  function PathsFor(home: string): Value
  {
    Dict(map["home" := Str(home), "temp" := Str("temp")])
  }

  /** The option dictionary as first written, before any override. */
  function Defaults(home: string): Options
  {
    map[
      "ignoreerrors" := Bool(true),
      "noplaylist" := Bool(true),
      "progress_hooks" := Hooks,
      "paths" := PathsFor(home),
      "outtmpl" := Str("%(title)s.%(ext)s"),
      "extractor_args" := Dict(map["youtube" := Dict(map["player_client" := List([Str("android"), Str("mweb")])])]),
      "postprocessors" := List([MetadataCleanup])
    ]
  }

  /** `call.data.get("audio_only", False)`, tested with Python truthiness. */
  predicate AudioOnly(data: map<string, Value>)
  {
    Truthy(Get(data, "audio_only", Bool(false)))
  }

  /** The options before the caller's fields are laid over them: the defaults, and for
      audio-only a format selection plus the audio extraction step appended to the list. */
  function Preset(home: string, audioOnly: bool): (r: Options)
    ensures r.Keys == Defaults(home).Keys + (if audioOnly then {"format"} else {})
    ensures "url" !in r && r["progress_hooks"] == Hooks && r["paths"] == PathsFor(home)
    ensures "format" in r <==> audioOnly
    ensures audioOnly ==> r["format"] == Str("bestaudio/best")
    ensures r["postprocessors"] ==
      List(if audioOnly then [MetadataCleanup, AudioExtraction] else [MetadataCleanup])
    ensures forall k :: k in r && k != "format" && k != "postprocessors" ==> r[k] == Defaults(home)[k]
  {
    var base := Defaults(home);
    assert [MetadataCleanup] + [AudioExtraction] == [MetadataCleanup, AudioExtraction];
    if audioOnly then
      base["format" := Str("bestaudio/best")]
          ["postprocessors" := List(base["postprocessors"].items + [AudioExtraction])]
    else
      base
  }

  /** A base dictionary with the caller's fields laid over it, reserved keys excepted. */
  function Overlay(base: Options, extra: map<string, Value>): (r: Options)
    ensures r.Keys == base.Keys + (extra.Keys - Reserved)
    ensures forall k :: k in extra && k !in Reserved ==> r[k] == extra[k]
    ensures forall k :: k in base && (k !in extra || k in Reserved) ==> r[k] == base[k]
  {
    map k | k in base.Keys + (extra.Keys - Reserved) ::
      if k in extra && k !in Reserved then extra[k] else base[k]
  }

  /** Laying one more field over: a reserved key changes nothing, any other key is set. */
  lemma OverlayOne(base: Options, extra: map<string, Value>, k: string, v: Value)
    ensures Overlay(base, extra[k := v]) ==
      if k in Reserved then Overlay(base, extra) else Overlay(base, extra)[k := v]
  {
  }

  /** What the caller's fields can and cannot change in the preset options. */
  lemma OverlayOfPreset(home: string, audioOnly: bool, data: map<string, Value>)
    ensures var opts := Overlay(Preset(home, audioOnly), data);
      && "url" !in opts
      && opts["progress_hooks"] == Hooks && opts["paths"] == PathsFor(home)
      && (forall k :: k in data && k !in Reserved ==> k in opts && opts[k] == data[k])
      && (forall k :: k in opts && k !in data ==> opts[k] == Preset(home, audioOnly)[k])
      && opts.Keys == Preset(home, audioOnly).Keys + (data.Keys - Reserved)
  {
  }

  /** Lines 75-112 of `download`: write the defaults, then apply the audio-only overrides
      in place when `audio_only` is truthy. */
  method BuildPreset(home: string, audioOnly: Value) returns (opts: Options)
    ensures opts == Preset(home, Truthy(audioOnly))
  {
    opts := Defaults(home);
    if Truthy(audioOnly) {
      opts := opts["format" := Str("bestaudio/best")];
      var postprocessors := opts["postprocessors"].items;
      opts := opts["postprocessors" := List(postprocessors + [AudioExtraction])];
    }
  }

  /** The pass-through loop of `download`: every field of the call except the reserved
      ones is written into the options, one key at a time. */
  method PassThrough(preset: Options, data: map<string, Value>) returns (opts: Options)
    ensures opts == Overlay(preset, data)
  {
    opts := preset;
    var pending := data.Keys;
    while pending != {}
      invariant pending <= data.Keys
      invariant opts == Overlay(preset, data - pending)
      decreases pending
    {
      var k :| k in pending;
      assert data - (pending - {k}) == (data - pending)[k := data[k]];
      OverlayOne(preset, data - pending, k, data[k]);
      if k !in Reserved {
        opts := opts[k := data[k]];
      }
      pending := pending - {k};
    }
    assert data - {} == data;
  }

  /** The option-building part of the `download` service: returns the URL and the options
      handed to the library. The plugin's own values win on the reserved keys, the caller's
      values win on every other key it supplies (`audio_only` included), and the defaults
      stand where the caller is silent. */
  method Download(home: string, data: map<string, Value>) returns (url: string, opts: Options)
    requires "url" in data && data["url"].Str?
    ensures url == data["url"].s
    ensures opts == Overlay(Preset(home, AudioOnly(data)), data)
    ensures "url" !in opts
    ensures opts["progress_hooks"] == Hooks && opts["paths"] == PathsFor(home)
    ensures forall k :: k in data && k !in Reserved ==> k in opts && opts[k] == data[k]
    ensures forall k :: k in opts && k !in data ==> opts[k] == Preset(home, AudioOnly(data))[k]
    ensures opts.Keys == Preset(home, AudioOnly(data)).Keys + (data.Keys - Reserved)
  {
    url := data["url"].s;
    var audioOnly := Get(data, "audio_only", Bool(false));
    var preset := BuildPreset(home, audioOnly);
    opts := PassThrough(preset, data);
    OverlayOfPreset(home, AudioOnly(data), data);
  }
}
