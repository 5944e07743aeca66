# PyAis vessel counter: a Dafny model of `on_message`

PyAis listens to MQTT topics that carry decoded AIS messages (JSON objects with
an `mmsi`, an optional `name` and an optional message `type`). For every
message on a configured topic it:

1. drops it if the message type is in the configured ignore set;
2. drops it if the MMSI is missing or falsy;
3. resolves a display name (the inline `name`, else the name cached under
   `str(mmsi)`, else `"Unknown"`), and caches a real name under a key the cache
   does not hold yet;
4. appends `(mmsi, now)` to the topic's list, rebuilds the list keeping only
   entries younger than 60 minutes, and counts the distinct MMSIs left;
5. posts `{name, mmsi, vesselsInLastHour}` to the topic's Home Assistant sensor.

The model keeps this handler and its two module-level maps: `mmsi_data`
(topic -> list of sightings) and `mmsi_name_lookup` (`str(mmsi)` -> name).

- `wrappers.dfy`: module `Wrappers`, with `Option`.
- `payloads.dfy`: module `Payloads`, the decoded payload. An MMSI is a JSON
  number or string (`Num` / `Text`). It also holds Python truthiness and
  `str(mmsi)` (`Key`, with a decimal spelling for numbers).
- `windows.dfy`: module `Windows`, the list rebuild (`Evict`) and the distinct
  count (`Count`).
- `names.dfy`: module `Names`, name resolution (`Resolve`) and the
  insert-if-absent cache update (`Remember`).
- `aggregator.dfy`: module `Aggregator`. `Step` is the handler as a function of
  the old state. `Run` folds `Step` over a sequence of deliveries. The class
  `Tracker` holds the two maps as fields, and its method `OnMessage` updates
  them in place. It is proved to compute exactly `Step`.

Each call reads the wall clock twice: once for the entry's timestamp
(`pyais.py:121`) and once for the cutoff (`pyais.py:158`). The model takes both
readings as integer seconds, `stamp` and `clock`, and does not assume any order
between them. So the properties that need the new entry to survive eviction are
stated under `stamp > clock - 3600`.

With the default empty `IGNORE_TYPES`, `set(map(int, [""]))` raises on every
message, and the broad `except` swallows the error. So a deployment without
that variable records nothing. The model expresses this with
`IgnoreTypes.Unparsable`, and `UnparsableIgnoreFreezesState` proves the
consequence.

The code differs from the system's design description in these ways, and the
model follows the code:

- There is no throttle.
- There is no external name lookup and no rate-limit token.
- There is no `shipname` field.
- A later inline name never replaces a cached one.
- The design's eviction example has sightings of A at t0 and t0 + 10 min and of
  B at t0 + 61 min, and expects a count of 1. Under the code the cutoff is
  t0 + 1 min, so the second A survives and the count is 2 (`EvictionScenario`).

The MMSI is kept raw in the window but keyed as `str(mmsi)` in the cache. So
the number 123 and the string "123" are two vessels in the count but share one
cache entry (`KeyConflatesNumberAndText`, `MixedMmsiScenario`). Distinct numbers
never share a key (`NumericKeysInjective`).

## Model

| member | source | states |
|---|---|---|
| Payloads.NumericKeysInjective | pyais.py:137 | two numeric MMSIs whose `str()` cache keys are equal are the same number |
| Payloads.KeyConflatesNumberAndText | pyais.py:137-155 | a number and the string of its digits are different window values but the same cache key |
| Names.Lookup | pyais.py:137 | `get(key, None)` is present exactly when the key is cached, with the cached value |
| Names.Resolve | pyais.py:136-142 | the name is the truthy inline name, else the truthy cached name, else "Unknown"; it is never empty |
| Names.Remember | pyais.py:144-146 | the cache gains at most the message's key, only when the name is not "Unknown" and the key is absent; no entry is removed or overwritten |
| Names.RememberKeepsClean | pyais.py:136-146 | a cache holding only non-empty names other than "Unknown" keeps that property after an update |
| Names.FallbackMeansMiss | pyais.py:136-146 | over a clean cache, "Unknown" results only from an inline "Unknown", or from no inline name and no cache entry |
| Names.InlineNameDoesNotOverwrite | pyais.py:136-146 | a new inline name that differs from the cached one is published, but the cache keeps the old one |
| Windows.Evict | pyais.py:157-159 | the rebuilt list holds exactly the entries of the old list whose timestamp is after the cutoff |
| Windows.EvictLeavesFresh | pyais.py:157-159 | every remaining entry is strictly younger than the cutoff; an entry exactly 60 minutes old is gone |
| Windows.EvictAppend | pyais.py:159 | the rebuild filters a concatenation part by part, so survivors keep their relative order |
| Windows.EvictKeepsFresh | pyais.py:159 | a list whose entries are all after the cutoff is unchanged by the rebuild |
| Windows.EvictIdempotent | pyais.py:159 | rebuilding twice with one cutoff equals rebuilding once |
| Windows.EvictNewest | pyais.py:155-159 | a new entry after the cutoff survives as the last element, behind the filtered old entries |
| Windows.EvictStale | pyais.py:155-159 | a new entry at or before the cutoff is dropped along with the other stale entries |
| Windows.CountBounds | pyais.py:164-166 | the distinct-MMSI count is at most the list length, and at least 1 on a non-empty list |
| Windows.CountAppend | pyais.py:155-166 | appending a sighting raises the count by one exactly when its MMSI is not already in the list |
| Aggregator.Step | pyais.py:105-174 | a message is posted exactly on a configured topic, when the payload decodes, the ignore set parses and lacks its type, and the MMSI is truthy; every dropped message leaves both maps unchanged |
| Aggregator.StepKeepsNames | pyais.py:144-146 | one message never removes or overwrites a cached name, and keeps a clean cache clean |
| Aggregator.StepWindows | pyais.py:150-166 | only the message's topic window changes. After a post, that window is fresh, the posted count is its distinct MMSIs and at most its length, and the new sighting, when inside the window, is last and makes the count at least 1 |
| Aggregator.RunKeepsNames | pyais.py:145-146 | a cached name stays unchanged through any later sequence of messages |
| Aggregator.RunKeepsClean | pyais.py:145-146 | starting from a clean cache, "Unknown" and "" are never stored by any sequence of messages |
| Aggregator.UnparsableIgnoreFreezesState | pyais.py:124-174 | when the ignore set cannot be parsed, no sequence of messages changes the state |
| Aggregator.RunLeavesQuietTopic | pyais.py:150-159 | a topic that receives no message keeps its window, stale entries included |
| Aggregator.IgnoredTypeDropped | pyais.py:123-133 | a message whose type is ignored is dropped with no change, whatever its MMSI, because the type test comes first |
| Aggregator.EvictionScenario | pyais.py:150-166 | A at t0, A at t0 + 10 min, B at t0 + 61 min: the window keeps the second A and B, and the count posted is 2 |
| Aggregator.MixedMmsiScenario | pyais.py:135-166 | MMSI n, then the string of n without a name: the second message takes the first one's cached name, and the count is 2 |
| Aggregator.Tracker.constructor | pyais.py:56-58 | the process starts with empty window and name maps (a clean cache) |
| Aggregator.Tracker.OnMessage | pyais.py:105-174 | the new maps and the returned post are exactly `Step` of the old maps. A drop changes nothing, no cached name is lost or overwritten, other topics' windows are untouched, and a posted window is fresh with the posted count as its distinct MMSIs |

## Left out

- MQTT client setup, subscription and `loop_forever` (`pyais.py:176-204`) are transport I/O. Messages arrive one at a time as `OnMessage` calls.
- `post_to_home_assistant` (`pyais.py:88-103`) is an HTTP call. The model returns the post as a `Post` record (the topic stands for its sensor URL).
- `load_mmsi_data` and `save_mmsi_data` (`pyais.py:60-86`, called at 148 and 162) are file I/O and JSON encoding, so the model starts from empty maps. Serialising `datetime` values fails inside `save_mmsi_data` and the error is swallowed there, so no persistence round trip can be stated.
- The state a loaded file would give is left out, for example timestamps that are strings. With such entries the comparison at line 159 raises after the append.
- Environment, timezone and URL-map construction (`pyais.py:18-54`) and `get_local_time` are process configuration. The configured topics are a set of strings, because a configured topic's URL is never empty. The ignore set is given already parsed, or as `Unparsable`.
- Logging is left out throughout.
- JSON decoding (`pyais.py:117`) is left out. `Payload.Malformed` covers every payload whose decoding or field access raises.
- JSON values outside the modelled types are left out: MMSIs that are floats, booleans, lists or objects; names that are not strings; types that are floats or booleans. Python equates `True` with `1` and `5.0` with `5` in sets. A list or object MMSI would raise at line 165 after the maps were changed. A type that is a string or null is never in the ignore set and is modelled as `None`.
- The wall clock is injected as two integers in seconds. Sub-second resolution is not modelled; the comparisons keep the same form at any resolution.
- Tracker.OnMessage: builds the topic's new list in a local variable and stores it once. The code instead creates the map entry, appends to the stored list in place, and reassigns it. No exception can occur between these steps in the model, so the resulting maps are the same.
