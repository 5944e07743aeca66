/**
 * Display-name resolution and the MMSI-to-name cache of pyais.py
 * (`mmsi_name_lookup`): inline name first, then the cache, then "Unknown";
 * a resolved name enters the cache only under a key the cache lacks.
 */
module Names {
  import opened Wrappers
  import opened Payloads

  /** The name published when neither the message nor the cache supplies one. */
  const Fallback: string := "Unknown"

  /** `mmsi_name_lookup.get(key, None)`. */
  function Lookup(names: map<string, string>, key: string): (r: Option<string>)
    ensures r.Some? <==> key in names
    ensures r.Some? ==> r.value == names[key]
  {
    if key in names then Some(names[key]) else None
  }

  /**
   * The display name: the inline name when it is truthy, otherwise the cached
   * name when that is truthy, otherwise "Unknown". It is never empty.
   */
  function Resolve(inline: Option<string>, names: map<string, string>, key: string): (r: string)
    ensures r != ""
    ensures Truthy(inline) ==> r == inline.value
    ensures !Truthy(inline) && key in names && names[key] != "" ==> r == names[key]
    ensures !Truthy(inline) && (key !in names || names[key] == "") ==> r == Fallback
  {
    if Truthy(inline) then inline.value
    else
      var cached := Lookup(names, key);
      if Truthy(cached) then cached.value else Fallback
  }

  /**
   * The cache after `name` was resolved for `key`: a new entry only when the
   * name is not "Unknown" and the key is absent; nothing is ever overwritten
   * or removed.
   */
  function Remember(names: map<string, string>, key: string, name: string): (r: map<string, string>)
    ensures names.Keys <= r.Keys <= names.Keys + {key}
    ensures forall k :: k in names ==> r[k] == names[k]
    ensures key in r <==> key in names || name != Fallback
    ensures key !in names && name != Fallback ==> r[key] == name
  {
    if name != Fallback && key !in names then names[key := name] else names
  }

  /** Every cached name is non-empty and not the fallback. */
  ghost predicate Clean(names: map<string, string>) {
    forall k :: k in names ==> names[k] != "" && names[k] != Fallback
  }

  /** Remembering a resolved name keeps the cache clean: "Unknown" is never stored. */
  lemma RememberKeepsClean(names: map<string, string>, key: string, inline: Option<string>)
    requires Clean(names)
    ensures Clean(Remember(names, key, Resolve(inline, names, key)))
  {
  }

  /**
   * Over a clean cache, "Unknown" is resolved only when the message itself
   * names the vessel "Unknown" or when it has no name and the cache lacks the key.
   */
  lemma FallbackMeansMiss(inline: Option<string>, names: map<string, string>, key: string)
    requires Clean(names)
    requires Resolve(inline, names, key) == Fallback
    ensures Truthy(inline) ==> inline.value == Fallback
    ensures !Truthy(inline) ==> key !in names
  {
  }

  /**
   * A later inline name differing from the cached one is published but does
   * not replace the cache entry.
   */
  lemma InlineNameDoesNotOverwrite(names: map<string, string>, key: string, inline: string)
    requires key in names && inline != "" && inline != names[key]
    ensures Resolve(Some(inline), names, key) == inline
    ensures Remember(names, key, Resolve(Some(inline), names, key)) == names
  {
  }

}
