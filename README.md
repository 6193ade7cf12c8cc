# yt_dlp for Home Assistant: verified model of the progress reducer, option builder and downloader sensor

This project models the three pieces of sequential logic in the `yt_dlp` Home Assistant
integration.

- **The progress hook** (`progress_hook` in `custom_components/yt_dlp/__init__.py`). The download
  library calls it once for each status event. The hook copies the published attributes of the
  downloader sensor. These hold the file entries (file name -> {speed, downloaded, total, eta}),
  and they also hold the attributes the host publishes with any state, such as the friendly name. It files the event under the
  last `/`-separated segment of the reported path. A `downloading` event upserts that entry, using
  the defaults 0, 0, `"Unknown"` and 0 for missing fields. A `finished` or `error` event removes the
  entry, and any other status does nothing. The hook then delivers the new map to the first
  downloader sensor in the integration's entity list. If the sensor has no published state, the
  hook returns and changes nothing.
- **The option builder** (the first part of the `download` service). It writes a fixed option
  dictionary: error tolerance, single-video mode, the hook list, output paths, a file-name template,
  the extractor client hint and the title clean-up post-processor. If `audio_only` is truthy, it
  also selects best audio and appends an mp3/192 extraction step. Then it lays every field of the
  service call over the dictionary, except `url`, `progress_hooks` and `paths`.
- **The downloader sensor** (`custom_components/yt_dlp/sensor.py`). This is a class whose attributes
  are the map it was last given and whose value is that map's number of keys. Because the map is a
  copy of the published attributes, the value is the number of in-flight files plus the number of
  host attributes (see "## Findings"). Its platform setup
  appends it to the shared entity list, creating the domain entry and the list first if they are
  absent.

Files:

- `values.dfy`: the dynamically typed values (`Value`), Python truthiness and `dict.get`.
- `paths.dfy`: `str.split("/")` and the last path segment.
- `progress.dfy`: the reducer `Step` as a function on maps, and `Run` over event sequences.
- `sensor.dfy`: the `DownloaderSensor` class, the entity list in the shared data, and `SetupEntry`.
- `hook.dfy`: the hook as imperative methods. `Reduce` builds the map by copying and then updating
  it. `Deliver` is the loop over the entity list. `ProgressHook` does the state lookup and combines
  the two. `ReduceInFlight` and `ProgressHookInFlight` are the corrected variants described under
  "## Findings".
- `options.dfy`: the specification functions `Defaults`, `Preset` and `Overlay`. The methods
  `BuildPreset`, `PassThrough` and `Download` build the options step by step, as the source does.

Behaviour worth noting:

- `audio_only` is tested with Python truthiness (`if audio_only:`). A non-empty string such as
  `"false"` therefore selects audio-only mode.
- The metadata clean-up step is the first entry of the default `postprocessors` list. A caller who
  passes its own `postprocessors` replaces the whole list, clean-up step included, because only
  `url`, `progress_hooks` and `paths` are protected.
- The integration's domain is defined in `const.py`, which is not part of this model. The model
  uses `"yt_dlp"`, because Home Assistant requires a custom integration's domain to equal its folder
  name.
- Each hook call reads the state that the host last published and delivers a whole new map. Two
  hook calls that read the same published state before either delivery runs lose one of the two
  updates (`Progress.StaleSnapshotLosesUpdate`).

## Model

| member | source | states |
|---|---|---|
| Paths.Split | custom_components/yt_dlp/__init__.py:46 | `path.split("/")` gives at least one piece. No piece contains `/`. A path without `/` is its own single piece. |
| Paths.JoinSplit | custom_components/yt_dlp/__init__.py:46 | Joining the pieces with `/` gives back the original path, so splitting loses nothing. |
| Paths.LastSegment | custom_components/yt_dlp/__init__.py:46 | The file-name key never contains `/`. |
| Paths.LastSegmentIsLongestSuffix | custom_components/yt_dlp/__init__.py:46 | The key is a suffix of the reported path. It is either the whole path or preceded by a `/`. |
| Paths.SuffixWithoutSeparatorUnique | custom_components/yt_dlp/__init__.py:46 | Any `/`-free suffix that is the whole path or preceded by `/` is exactly the key. |
| Paths.LastSegmentIsLastPiece | custom_components/yt_dlp/__init__.py:46 | The key equals `path.split("/")[-1]`. |
| Paths.LastSegmentAfterSeparator | custom_components/yt_dlp/__init__.py:46 | For `dir + "/" + name` with a `/`-free name, the key is `name`, whatever `dir` is. |
| Progress.CountSplits | custom_components/yt_dlp/__init__.py:45 | The size of the copied map is the number of file entries plus the number of host attributes. |
| Progress.InFlight | custom_components/yt_dlp/__init__.py:45 | Keeping only the file entries gives a map whose keys are exactly the in-flight files, with no host attribute and the same values. |
| Progress.Step | custom_components/yt_dlp/__init__.py:45-60 | `downloading`: the key is present as file progress, with each field taken from the event or defaulted to 0, 0, `"Unknown"` or 0. `finished`/`error`: the key is absent, whether or not it was there before. Any other status: the map is unchanged. Every other key keeps its presence and value. The size grows by one only for a new key and shrinks by one only for a removed key. |
| Progress.StepFilesAndHostKeys | custom_components/yt_dlp/__init__.py:45-60 | `downloading` adds the key to the in-flight files. `finished`/`error` removes it. Either way the host attributes lose that key and gain nothing. Any other status changes neither set. |
| Progress.RunAtKey | custom_components/yt_dlp/__init__.py:45-60 | After any sequence of events, a file is present exactly when its last effective event was `downloading`, and then it holds that event's record. A file that no event touched keeps its entry. |
| Progress.StepCommutes | custom_components/yt_dlp/__init__.py:45-60 | Two events for different files give the same map in either order, when each is applied to the map the other produced. |
| Progress.StaleSnapshotLosesUpdate | custom_components/yt_dlp/__init__.py:40-66 | If two hook calls read the same published map and the last delivery wins, a file that finished in the first call is still present after the second call's delivery. |
| Progress.SameKeyOrderMatters | custom_components/yt_dlp/__init__.py:48-57 | For one file the order matters: `downloading` then `finished` leaves it absent, and the reverse order leaves it present. |
| Progress.FileNamesAlias | custom_components/yt_dlp/__init__.py:46-49 | Two paths in different directories with the same file name share one entry. The `finished` event of one removes the other's entry. |
| Hook.Reduce | custom_components/yt_dlp/__init__.py:45-60 | Copying the published map and then updating it in place gives exactly `Step(published, event)`. |
| Hook.HostKeysInflateCount | custom_components/yt_dlp/__init__.py:45-57 | With only the friendly name published, one downloading file gives a map of size 2 that holds one file. |
| Hook.ReduceInFlight | custom_components/yt_dlp/__init__.py:45-60 | Dropping host attributes before the event gives a map with no host attribute and the same in-flight files as `Reduce`. Its size is the number of in-flight files. |
| Hook.Deliver | custom_components/yt_dlp/__init__.py:63-67 | Only the first downloader sensor in the entity list may change. It receives the map, and its value is the map's size. |
| Hook.ProgressHook | custom_components/yt_dlp/__init__.py:36-67 | With no published sensor state, nothing changes. Otherwise only the first downloader sensor in the entity list may change. It receives `Step(published, event)`, and its value is the number of in-flight files plus the number of host attributes. |
| Hook.ProgressHookInFlight | custom_components/yt_dlp/__init__.py:36-67 | The corrected hook: same lookup and delivery, but the sensor receives only file entries. It tracks the same files as `ProgressHook`, and its value is exactly the number of in-flight files. |
| Sensor.FirstDownloader | custom_components/yt_dlp/__init__.py:63-67 | A delivery target exists exactly when the entity list holds a downloader sensor. When it exists, it is the earliest one: every entry before it is another kind of entity. |
| Sensor.DownloaderSensor.constructor | custom_components/yt_dlp/sensor.py:34-40 | A new sensor has value 0 and an empty attribute map, so the count invariant holds. It is named `Downloader` with unique id `<domain>_downloader`. |
| Sensor.DownloaderSensor.UpdateProgress | custom_components/yt_dlp/sensor.py:52-56 | The attributes become the given map and the value becomes its number of keys. The count invariant holds after every update, whatever map is given. |
| Sensor.SetupEntry | custom_components/yt_dlp/sensor.py:18-28 | A fresh sensor satisfying the invariant is appended at the end of the entity list, and the existing entries stay in order. The domain entry and its `entities` list are created when absent. Other domains and other keys of the domain entry are unchanged. |
| Options.Preset | custom_components/yt_dlp/__init__.py:75-112 | Before the overlay, `progress_hooks` is the plugin's hook list and `paths` is home = configured directory, temp = `"temp"`. There is no `url`. Without audio-only there is no `format` and the one postprocessor is ModifyMetadata. With audio-only, `format` is `bestaudio/best` and FFmpegExtractAudio (mp3, 192) is appended after ModifyMetadata. All other entries are the defaults. |
| Options.Overlay | custom_components/yt_dlp/__init__.py:114-117 | The keys are the base keys plus the caller's unreserved keys. A caller's unreserved key has the caller's value. Every other key keeps the base value. |
| Options.OverlayOne | custom_components/yt_dlp/__init__.py:115-117 | Writing one more caller field leaves the result unchanged for a reserved key and sets that key otherwise. |
| Options.OverlayOfPreset | custom_components/yt_dlp/__init__.py:75-117 | The final options never have `url`. They always have the plugin's `progress_hooks` and `paths`. Every unreserved caller key has the caller's value, and every key the caller did not supply has the preset value. |
| Options.BuildPreset | custom_components/yt_dlp/__init__.py:72-112 | Writing the defaults and then applying the audio-only overrides in place, when `audio_only` is truthy, gives `Preset`. |
| Options.PassThrough | custom_components/yt_dlp/__init__.py:114-117 | The key-by-key loop over the call data gives `Overlay(preset, data)`. |
| Options.Download | custom_components/yt_dlp/__init__.py:69-117 | It returns the call's URL and the overlaid preset. Reserved keys keep the plugin's values, and every other caller key, `audio_only` included, keeps the caller's value. The key set is the preset's keys plus the caller's unreserved keys. |

## Left out

- `custom_components/yt_dlp/config_flow.py`: the setup and reconfigure forms consist of host flow API calls and a directory probe.
- Creating the download directory (`os.path.isdir`/`os.makedirs` on executor threads) and forwarding the entry to the sensor platform: these are filesystem and host calls.
- The `YoutubeDL(...).download` call, the logging and re-raising of its exceptions, and `hass.async_add_executor_job`: these are a foreign library and thread-pool plumbing. `Options.Download` stops at the arguments it would hand to the library.
- `hass.loop.call_soon_threadsafe`: the handoff to the event loop is modelled as a direct call to `UpdateProgress`. Each modelled hook call therefore reads the state that the previous delivery published. In the program, a hook can read a state before an earlier handoff has run, and then one update is lost. `Progress.StaleSnapshotLosesUpdate` exhibits this for two deliveries, but no interleaving of hook calls is modelled.
- The title clean-up regular expressions: the library applies them, so they are opaque strings in the options.
- The service schema: `Options.Download` requires a string `url`, which the schema guarantees. The check that the URL has a scheme uses `urllib.parse.urlparse` and is not modelled. Service registration and `async_unload_entry` are host registry calls and are not modelled either.
- `async_add_entities`, `async_write_ha_state`, `device_info`, all logging, and the unused `ansi_escape` pattern: these are host calls or have no effect on state.
- The host's own attributes are modelled as opaque values under their keys. Which attributes the host adds to a published state is decided by the host and is not modelled.
- Hook.ProgressHook: the event is assumed to carry `info_dict.filename` and `status`. If either is missing, the hook raises a `KeyError`, and that is not modelled.
- Two concurrent downloads with the same file name share one entry. The model makes no per-download isolation claim, and `Progress.FileNamesAlias` exhibits the aliasing.
- Numbers in events and call data are reals. NaN and infinities are not represented, and the integration only copies these values.
- `hass.data` is modelled as domain -> key -> entity list. Entries of other shapes that the host or other integrations keep there are not represented.

## Findings

| source | as written | input that shows it | evidently intended | confidence | as-written member | corrected member |
|---|---|---|---|---|---|---|
| custom_components/yt_dlp/__init__.py:45 | `attr = dict(state.attributes)` copies every published attribute. `update_progress` then sets the value to `len(attributes)` (sensor.py:54), so the host's attributes are counted as downloads. | Published attributes `{friendly_name: "Downloader"}` and one `downloading` event for `/media/clip.mp4` give a map of size 2 that holds one file, so the sensor reports 2 downloads. | The value is the number of in-flight files: only file entries are copied into the new map. | medium, not executed. It depends on the host adding its own attributes such as the friendly name to the published state. | Hook.HostKeysInflateCount | Hook.ReduceInFlight |
