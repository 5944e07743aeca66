/**
 * The message handler `on_message` of pyais.py over its module state:
 * `mmsi_data` (topic -> window) and `mmsi_name_lookup` (str(mmsi) -> name).
 * `Step` is the handler as a function of the old state; `Tracker.OnMessage`
 * is the handler as it runs, updating the two maps in place.
 */
module Aggregator {
  import opened Wrappers
  import opened Payloads
  import opened Windows
  import opened Names

  /**
   * The configured `IGNORE_TYPES` after `set(map(int, ...))`. `Unparsable` is
   * the case where one of the comma-separated pieces is not an integer, among
   * them the default empty value, for which `int("")` raises on every message.
   */
  datatype IgnoreTypes = Unparsable | Parsed(types: set<int>)

  /** The configuration `on_message` consults: the topics of `TOPIC_TO_SENSOR` and the ignore set. */
  datatype Config = Config(topics: set<string>, ignore: IgnoreTypes)

  /** The module state: `mmsi_data` and `mmsi_name_lookup`. */
  datatype State = State(windows: map<string, seq<Sighting>>, names: map<string, string>)

  /** What is posted to Home Assistant: the topic's sensor, the name, the MMSI and the vessel count. */
  datatype Post = Post(topic: string, name: string, mmsi: Mmsi, count: nat)

  datatype Outcome = Outcome(state: State, post: Option<Post>)

  /** One delivered message with the two clock readings taken while handling it. */
  datatype Delivery = Delivery(topic: string, payload: Payload, stamp: int, clock: int)

  /** `mmsi_data[topic]`, or the empty list the handler creates for an unseen topic. */
  function WindowOf(windows: map<string, seq<Sighting>>, topic: string): seq<Sighting> {
    if topic in windows then windows[topic] else []
  }

  /**
   * The conditions under which a message is recorded and posted, stated flat:
   * a configured topic, a decodable object, a parsable ignore set that does
   * not hold the message type, and a truthy MMSI.
   */
  predicate Admits(c: Config, topic: string, p: Payload) {
    && topic in c.topics
    && p.Fields?
    && c.ignore.Parsed?
    && (p.msgType.None? || p.msgType.value !in c.ignore.types)
    && HasMmsi(p.mmsi)
  }

  /**
   * One call of `on_message`. `stamp` is the reading that timestamps the new
   * entry, `clock` the later reading the cutoff is computed from.
   */
  function Step(c: Config, s: State, topic: string, p: Payload, stamp: int, clock: int): (o: Outcome)
    ensures o.post.Some? <==> Admits(c, topic, p)
    ensures o.post.None? ==> o.state == s
  {
    if topic !in c.topics then Outcome(s, None)
    else if p.Malformed? then Outcome(s, None)
    else if c.ignore.Unparsable? then Outcome(s, None)
    else if p.msgType.Some? && p.msgType.value in c.ignore.types then Outcome(s, None)
    else if !HasMmsi(p.mmsi) then Outcome(s, None)
    else
      var id := p.mmsi.value;
      var name := Resolve(p.name, s.names, Key(id));
      var w := Evict(WindowOf(s.windows, topic) + [Sighting(id, stamp)], clock - WindowLength);
      Outcome(State(s.windows[topic := w], Remember(s.names, Key(id), name)),
              Some(Post(topic, name, id, Count(w))))
  }

  /**
   * The name cache only grows: no entry is removed or overwritten, and a
   * clean cache stays clean ("Unknown" is never stored).
   */
  lemma StepKeepsNames(c: Config, s: State, topic: string, p: Payload, stamp: int, clock: int)
    ensures var o := Step(c, s, topic, p, stamp, clock);
      && s.names.Keys <= o.state.names.Keys
      && (forall k :: k in s.names ==> o.state.names[k] == s.names[k])
      && (Clean(s.names) ==> Clean(o.state.names))
  {
  }

  /**
   * The window update: only the message's topic changes; after a post its
   * window is fresh with respect to the cutoff, the posted count is its number
   * of distinct MMSIs and at most its length, and when the new sighting is
   * itself within the window it is the last entry and the count is positive.
   */
  lemma StepWindows(c: Config, s: State, topic: string, p: Payload, stamp: int, clock: int)
    ensures var o := Step(c, s, topic, p, stamp, clock);
      && o.state.windows.Keys == s.windows.Keys + (if o.post.Some? then {topic} else {})
      && (forall t :: t in s.windows && t != topic ==> o.state.windows[t] == s.windows[t])
      && (o.post.Some? ==>
            var w := o.state.windows[topic];
            && o.post.value.topic == topic
            && o.post.value.mmsi == p.mmsi.value
            && o.post.value.name != ""
            && o.post.value.count == Count(w) <= |w|
            && FreshAfter(w, clock - WindowLength)
            && (stamp > clock - WindowLength ==>
                  1 <= o.post.value.count && w[|w| - 1] == Sighting(p.mmsi.value, stamp)))
  {
    if Admits(c, topic, p) {
      var old_w := WindowOf(s.windows, topic) + [Sighting(p.mmsi.value, stamp)];
      var w := Evict(old_w, clock - WindowLength);
      EvictLeavesFresh(old_w, clock - WindowLength);
      CountBounds(w);
      if stamp > clock - WindowLength {
        EvictNewest(WindowOf(s.windows, topic), Sighting(p.mmsi.value, stamp), clock - WindowLength);
      }
    }
  }

  /** The state after handling a sequence of deliveries in order. */
  function Run(c: Config, s: State, ds: seq<Delivery>): State
    decreases |ds|
  {
    if ds == [] then s
    else
      var d := ds[0];
      Run(c, Step(c, s, d.topic, d.payload, d.stamp, d.clock).state, ds[1..])
  }

  /** A cached name survives every later message unchanged. */
  lemma {:induction false} RunKeepsNames(c: Config, s: State, ds: seq<Delivery>, key: string)
    requires key in s.names
    ensures key in Run(c, s, ds).names
    ensures Run(c, s, ds).names[key] == s.names[key]
    decreases |ds|
  {
    if ds != [] {
      var d := ds[0];
      StepKeepsNames(c, s, d.topic, d.payload, d.stamp, d.clock);
      RunKeepsNames(c, Step(c, s, d.topic, d.payload, d.stamp, d.clock).state, ds[1..], key);
    }
  }

  /** From a clean cache (the empty one at start-up), "Unknown" or "" is never stored. */
  lemma {:induction false} RunKeepsClean(c: Config, s: State, ds: seq<Delivery>)
    requires Clean(s.names)
    ensures Clean(Run(c, s, ds).names)
    decreases |ds|
  {
    if ds != [] {
      var d := ds[0];
      StepKeepsNames(c, s, d.topic, d.payload, d.stamp, d.clock);
      RunKeepsClean(c, Step(c, s, d.topic, d.payload, d.stamp, d.clock).state, ds[1..]);
    }
  }

  /**
   * With an ignore set that does not parse (the default empty `IGNORE_TYPES`),
   * no message ever changes the state.
   */
  lemma {:induction false} UnparsableIgnoreFreezesState(c: Config, s: State, ds: seq<Delivery>)
    requires c.ignore.Unparsable?
    ensures Run(c, s, ds) == s
    decreases |ds|
  {
    if ds != [] {
      UnparsableIgnoreFreezesState(c, s, ds[1..]);
    }
  }

  /** A topic that receives no message keeps its window, stale entries included. */
  lemma {:induction false} RunLeavesQuietTopic(c: Config, s: State, ds: seq<Delivery>, t: string)
    requires t in s.windows
    requires forall i :: 0 <= i < |ds| ==> ds[i].topic != t
    ensures t in Run(c, s, ds).windows && Run(c, s, ds).windows[t] == s.windows[t]
    decreases |ds|
  {
    if ds != [] {
      var d := ds[0];
      StepWindows(c, s, d.topic, d.payload, d.stamp, d.clock);
      RunLeavesQuietTopic(c, Step(c, s, d.topic, d.payload, d.stamp, d.clock).state, ds[1..], t);
    }
  }

  /**
   * An ignored message type is dropped whatever else the message holds,
   * a missing MMSI included: the type test comes first.
   */
  lemma IgnoredTypeDropped(c: Config, s: State, topic: string, p: Payload, stamp: int, clock: int)
    requires p.Fields? && c.ignore.Parsed? && p.msgType.Some? && p.msgType.value in c.ignore.types
    ensures Step(c, s, topic, p, stamp, clock) == Outcome(s, None)
  {
  }

  /** The recording path of `Step` written out, for calculating concrete runs. */
  lemma StepRecords(c: Config, s: State, topic: string, p: Payload, stamp: int, clock: int,
                    name: string, w: seq<Sighting>)
    requires Admits(c, topic, p)
    requires name == Resolve(p.name, s.names, Key(p.mmsi.value))
    requires w == Evict(WindowOf(s.windows, topic) + [Sighting(p.mmsi.value, stamp)], clock - WindowLength)
    ensures Step(c, s, topic, p, stamp, clock)
         == Outcome(State(s.windows[topic := w], Remember(s.names, Key(p.mmsi.value), name)),
                    Some(Post(topic, name, p.mmsi.value, Count(w))))
  {
  }

  /**
   * Sightings of A at t0 and t0 + 10 min and of B at t0 + 61 min on one topic:
   * the cutoff of the third call is t0 + 1 min, so only the first A entry is
   * evicted, the window keeps the second A and B, and the count posted is 2.
   */
  lemma EvictionScenario(t0: int)
    ensures
      var c := Config({"ais"}, Parsed({}));
      var a := Fields(Some(Text("A")), None, None);
      var b := Fields(Some(Text("B")), None, None);
      var s1 := Step(c, State(map[], map[]), "ais", a, t0, t0).state;
      var s2 := Step(c, s1, "ais", a, t0 + 600, t0 + 600).state;
      var o3 := Step(c, s2, "ais", b, t0 + 3660, t0 + 3660);
      && o3.state.windows["ais"] == [Sighting(Text("A"), t0 + 600), Sighting(Text("B"), t0 + 3660)]
      && o3.post == Some(Post("ais", Fallback, Text("B"), 2))
  {
    var c := Config({"ais"}, Parsed({}));
    var a := Fields(Some(Text("A")), None, None);
    var sa, sa' := Sighting(Text("A"), t0), Sighting(Text("A"), t0 + 600);
    var s1 := Step(c, State(map[], map[]), "ais", a, t0, t0).state;
    assert "ais" in s1.windows && s1.windows["ais"] == [sa] && s1.names == map[] by {
      EvictNewest([], sa, t0 - 3600);
      StepRecords(c, State(map[], map[]), "ais", a, t0, t0, Fallback, [sa]);
    }
    var s2 := Step(c, s1, "ais", a, t0 + 600, t0 + 600).state;
    assert "ais" in s2.windows && s2.windows["ais"] == [sa, sa'] && s2.names == map[] by {
      EvictNewest([sa], sa', t0 - 3000);
      StepRecords(c, s1, "ais", a, t0 + 600, t0 + 600, Fallback, [sa, sa']);
    }
    EvictionScenarioLast(t0, s2);
  }

  /** The third call of `EvictionScenario`, on the window [A at t0, A at t0 + 10 min]. */
  lemma EvictionScenarioLast(t0: int, s: State)
    requires "ais" in s.windows && s.names == map[]
    requires s.windows["ais"] == [Sighting(Text("A"), t0), Sighting(Text("A"), t0 + 600)]
    ensures
      var o := Step(Config({"ais"}, Parsed({})), s, "ais", Fields(Some(Text("B")), None, None), t0 + 3660, t0 + 3660);
      && o.state.windows["ais"] == [Sighting(Text("A"), t0 + 600), Sighting(Text("B"), t0 + 3660)]
      && o.post == Some(Post("ais", Fallback, Text("B"), 2))
  {
    var sa, sa', sb := Sighting(Text("A"), t0), Sighting(Text("A"), t0 + 600), Sighting(Text("B"), t0 + 3660);
    EvictionScenarioWindow(sa, sa', sb, t0 + 60);
    StepRecords(Config({"ais"}, Parsed({})), s, "ais", Fields(Some(Text("B")), None, None),
                t0 + 3660, t0 + 3660, Fallback, [sa', sb]);
  }

  /** The window arithmetic of the third call: one stale entry, two vessels left. */
  lemma EvictionScenarioWindow(x: Sighting, y: Sighting, z: Sighting, cutoff: int)
    requires x.at <= cutoff < y.at && cutoff < z.at && y.mmsi != z.mmsi
    ensures Evict([x, y] + [z], cutoff) == [y, z]
    ensures Count([y, z]) == 2
  {
    assert Evict([x, y], cutoff) == [y] by {
      assert [x, y][1..] == [y];
    }
    EvictNewest([x, y], z, cutoff);
    CountAppend([y], z);
    assert [y] + [z] == [y, z];
    assert Vessels([y]) == {y.mmsi};
  }

  /**
   * A numeric MMSI n and then the string spelling n (say 123 and "123"): the
   * second message takes its name from the cache entry written by the first,
   * and the window counts them as two vessels.
   */
  lemma MixedMmsiScenario(n: int, t0: int)
    requires n != 0
    ensures
      var c := Config({"ais"}, Parsed({}));
      var s1 := Step(c, State(map[], map[]), "ais", Fields(Some(Num(n)), Some("POLARIS"), None), t0, t0).state;
      Step(c, s1, "ais", Fields(Some(Text(Decimal(n))), None, None), t0 + 1, t0 + 1).post
        == Some(Post("ais", "POLARIS", Text(Decimal(n)), 2))
  {
    var c := Config({"ais"}, Parsed({}));
    var sn, st := Sighting(Num(n), t0), Sighting(Text(Decimal(n)), t0 + 1);
    var s1 := Step(c, State(map[], map[]), "ais", Fields(Some(Num(n)), Some("POLARIS"), None), t0, t0).state;
    assert "ais" in s1.windows && s1.windows["ais"] == [sn] && s1.names == map[Decimal(n) := "POLARIS"] by {
      EvictNewest([], sn, t0 - 3600);
      StepRecords(c, State(map[], map[]), "ais", Fields(Some(Num(n)), Some("POLARIS"), None), t0, t0, "POLARIS", [sn]);
    }
    EvictNewest([sn], st, t0 + 1 - 3600);
    CountAppend([sn], st);
    assert [sn] + [st] == [sn, st];
    assert Vessels([sn]) == {Num(n)};
    assert Count([sn, st]) == 2;
    StepRecords(c, s1, "ais", Fields(Some(Text(Decimal(n))), None, None), t0 + 1, t0 + 1, "POLARIS", [sn, st]);
  }

  /** The running handler: the configuration and the two module-level maps. */
  class Tracker {
    const config: Config
    var windows: map<string, seq<Sighting>>
    var names: map<string, string>

    function Snapshot(): State
      reads this
    {
      State(windows, names)
    }

    /** The state at start-up, before any file is loaded: both maps empty. */
    constructor (config: Config)
      ensures this.config == config
      ensures windows == map[] && names == map[]
      ensures Clean(names)
    {
      this.config := config;
      windows := map[];
      names := map[];
    }

    /** `on_message`: filter, resolve the name, update cache and window, return the post. */
    method OnMessage(topic: string, payload: Payload, stamp: int, clock: int) returns (post: Option<Post>)
      modifies this
      ensures Outcome(Snapshot(), post) == Step(config, old(Snapshot()), topic, payload, stamp, clock)
      ensures post.None? ==> windows == old(windows) && names == old(names)
      ensures forall k :: k in old(names) ==> k in names && names[k] == old(names)[k]
      ensures old(Clean(names)) ==> Clean(names)
      ensures forall t :: t in old(windows) && t != topic ==> t in windows && windows[t] == old(windows)[t]
      ensures post.Some? ==>
        && topic in windows
        && FreshAfter(windows[topic], clock - WindowLength)
        && post.value.count == Count(windows[topic])
    {
      post := None;
      ghost var before := Snapshot();
      if topic !in config.topics {
        return;
      }
      if payload.Malformed? {
        return;
      }
      if config.ignore.Unparsable? {
        return;
      }
      var mmsi, inline, msgType := payload.mmsi, payload.name, payload.msgType;
      if msgType.Some? && msgType.value in config.ignore.types {
        return;
      }
      if !HasMmsi(mmsi) {
        return;
      }
      var key := Key(mmsi.value);
      var name: string;
      if Truthy(inline) {
        name := inline.value;
      } else {
        var cached := Lookup(names, key);
        if Truthy(cached) {
          name := cached.value;
        } else {
          name := Fallback;
        }
      }
      assert name == Resolve(inline, before.names, key);
      if name != Fallback && key !in names {
        names := names[key := name];
      }
      assert names == Remember(before.names, key, name);
      // the topic's list: created empty on first use, appended to, rebuilt by eviction
      var w := if topic in windows then windows[topic] else [];
      w := w + [Sighting(mmsi.value, stamp)];
      w := Evict(w, clock - WindowLength);
      windows := windows[topic := w];
      post := Some(Post(topic, name, mmsi.value, Count(w)));
      StepKeepsNames(config, before, topic, payload, stamp, clock);
      StepWindows(config, before, topic, payload, stamp, clock);
    }
  }

}
