/** Runtime configuration of queues: what the coordinator applies, what the dashboard shows, and what the
    setters do to it. A dynamic queue has a prefix and sub-queues `prefix#suffix`. */
module QueueConfig {
  import opened Redis
  import opened QC = QueueControl

  datatype QueueConcurrency = Fixed(limit: nat) | Dynamic(fallback: nat)

  datatype QueueKind = Static | Prefixed

  /** `key` is the key of a static queue or the prefix of a dynamic one. */
  datatype Queue = Queue(key: string, kind: QueueKind, concurrency: QueueConcurrency)

  type Stored = map<string, RuntimeConfig>

  const DEFAULT_CONFIG := RuntimeConfig(None, Active)

  function DefaultConcurrency(c: QueueConcurrency): nat {
    match c case Fixed(limit) => limit case Dynamic(fallback) => fallback
  }

  function StoredRuntimeDefault(c: QueueConcurrency): RuntimeConfig {
    RuntimeConfig(if c.Dynamic? then Some(DefaultConcurrency(c)) else None, Active)
  }

  function EffectiveRuntimeConfig(c: QueueConcurrency, config: RuntimeConfig): RuntimeConfig {
    match c
    case Fixed(limit) => config.(concurrency := Some(limit))
    case Dynamic(fallback) =>
      config.(concurrency := if config.concurrency.Some? then config.concurrency else Some(fallback))
  }

  /** Fills in the concurrency; the state is never inherited this way. */
  function WithDefaults(config: RuntimeConfig, defaults: RuntimeConfig): RuntimeConfig {
    config.(concurrency := if config.concurrency.Some? then config.concurrency else defaults.concurrency)
  }

  function ConfigOrDefault(stored: Stored, key: string, defaults: RuntimeConfig): RuntimeConfig {
    if key in stored then WithDefaults(stored[key], defaults) else defaults
  }

  // ---- the coordinator ----

  function RuntimeQueueConfig(stored: Stored, key: string, base: string, defaults: RuntimeConfig): RuntimeConfig {
    if key == base then ConfigOrDefault(stored, key, defaults)
    else ConfigOrDefault(stored, key, ConfigOrDefault(stored, base, defaults))
  }

  /** What is applied to the queue's permits. */
  function Applied(q: Queue, stored: Stored, key: string): RuntimeConfig {
    EffectiveRuntimeConfig(q.concurrency, RuntimeQueueConfig(stored, key, q.key, StoredRuntimeDefault(q.concurrency)))
  }

  function LimitOf(config: RuntimeConfig): nat {
    match config.concurrency case Some(c) => c case None => 1
  }

  // ---- the dashboard ----

  datatype CatalogQueue = CatalogQueue(key: string, concurrency: nat, dynamicConcurrency: bool, dynamic: bool)

  type Catalog = seq<CatalogQueue>

  function CatalogOf(queues: seq<Queue>): (r: Catalog)
    ensures |r| == |queues|
    ensures forall i :: 0 <= i < |r| ==> r[i] == InCatalog(queues[i])
  {
    seq(|queues|, i requires 0 <= i < |queues| => InCatalog(queues[i]))
  }

  function InCatalog(q: Queue): CatalogQueue {
    CatalogQueue(q.key, DefaultConcurrency(q.concurrency), q.concurrency.Dynamic?, q.kind == Prefixed)
  }

  function Find(catalog: Catalog, key: string): Option<CatalogQueue> {
    if catalog == [] then None
    else if catalog[0].key == key then Some(catalog[0])
    else Find(catalog[1..], key)
  }

  /** `split_once('#')`, or the whole key. */
  function BaseQueueKey(key: string): string {
    if key == "" || key[0] == '#' then "" else [key[0]] + BaseQueueKey(key[1..])
  }

  function UsesDynamicConcurrency(catalog: Catalog, key: string): bool {
    match Find(catalog, BaseQueueKey(key)) case Some(q) => q.dynamicConcurrency case None => false
  }

  function DefaultQueueRuntimeConfig(catalog: Catalog, key: string): RuntimeConfig {
    RuntimeConfig(Some(match Find(catalog, BaseQueueKey(key)) case Some(q) => q.concurrency case None => 1), Active)
  }

  function MergeQueueRuntimeConfig(catalog: Catalog, key: string, config: RuntimeConfig,
                                   defaults: RuntimeConfig): RuntimeConfig
  {
    WithDefaults(if UsesDynamicConcurrency(catalog, key) then config else config.(concurrency := None), defaults)
  }

  function QueueRuntimeConfigFromMap(catalog: Catalog, stored: Stored, key: string): RuntimeConfig {
    var base := BaseQueueKey(key);
    var baseDefault := DefaultQueueRuntimeConfig(catalog, base);
    var baseConfig :=
      if base in stored then MergeQueueRuntimeConfig(catalog, base, stored[base], baseDefault) else baseDefault;
    if key == base then baseConfig
    else if key in stored then MergeQueueRuntimeConfig(catalog, key, stored[key], baseConfig)
    else baseConfig
  }

  datatype ConcurrencyStatus = FixedStatus | DefaultStatus(default: nat) | Override(default: nat)

  function QueueConcurrencyStatus(catalog: Catalog, stored: Stored, key: string): ConcurrencyStatus {
    if !UsesDynamicConcurrency(catalog, key) then FixedStatus
    else
      var base := BaseQueueKey(key);
      var configured := LimitOf(DefaultQueueRuntimeConfig(catalog, base));
      var direct := if key in stored then stored[key].concurrency else None;
      if key == base then
        if direct.Some? && direct.value != configured then Override(configured) else DefaultStatus(configured)
      else
        var config := QueueRuntimeConfigFromMap(catalog, stored, base);
        var inherited := match config.concurrency case Some(c) => c case None => configured;
        if direct.Some? && direct.value != inherited then Override(inherited) else DefaultStatus(inherited)
  }

  // ---- the levels ----

  /** What is in force for a key, level by level. A fixed limit always holds; a dynamic one is the key's own, else
      the prefix's, else the default. The state is the key's own, else the prefix's, else active. */
  lemma WhatIsInForce(q: Queue, stored: Stored, key: string)
    ensures Applied(q, stored, key).concurrency == Some(
              match q.concurrency
              case Fixed(limit) => limit
              case Dynamic(fallback) =>
                if key in stored && stored[key].concurrency.Some? then stored[key].concurrency.value
                else if q.key in stored && stored[q.key].concurrency.Some? then stored[q.key].concurrency.value
                else fallback)
    ensures Applied(q, stored, key).state ==
              if key in stored then stored[key].state else if q.key in stored then stored[q.key].state else Active
  {
  }

  /** A key that nobody registered is shown with the limit 1, fixed, and active unless a state is stored. */
  lemma UnknownKeys(catalog: Catalog, stored: Stored, key: string)
    requires Find(catalog, BaseQueueKey(key)) == None && Find(catalog, BaseQueueKey(BaseQueueKey(key))) == None
    ensures QueueRuntimeConfigFromMap(catalog, stored, key).concurrency == Some(1)
    ensures key !in stored && BaseQueueKey(key) !in stored ==>
              QueueRuntimeConfigFromMap(catalog, stored, key).state == Active
    ensures QueueConcurrencyStatus(catalog, stored, key) == FixedStatus
    ensures RawQueueFromCatalog(catalog, key) == Queue(key, Static, Fixed(1))
  {
  }

  // ---- the two agree ----

  predicate IsKeyOf(q: Queue, key: string) {
    key == q.key || (q.kind == Prefixed && q.key + "#" <= key)
  }

  ghost predicate UniquelyRegistered(queues: seq<Queue>, q: Queue) {
    q in queues && forall other :: other in queues && other.key == q.key ==> other == q
  }

  lemma {:induction false} FindsTheQueue(queues: seq<Queue>, q: Queue)
    requires UniquelyRegistered(queues, q)
    ensures Find(CatalogOf(queues), q.key) == Some(InCatalog(q))
  {
    assert CatalogOf(queues)[1..] == CatalogOf(queues[1..]);
    if queues[0].key != q.key {
      FindsTheQueue(queues[1..], q);
    }
  }

  lemma {:induction false} BaseOfChild(base: string, rest: string)
    requires '#' !in base && (rest == "" || rest[0] == '#')
    ensures BaseQueueKey(base + rest) == base
  {
    if base != "" {
      assert (base + rest)[1..] == base[1..] + rest;
      BaseOfChild(base[1..], rest);
    } else {
      assert base + rest == rest;
    }
  }

  lemma BaseIsTheKey(q: Queue, key: string)
    requires '#' !in q.key && IsKeyOf(q, key)
    ensures BaseQueueKey(key) == q.key && BaseQueueKey(q.key) == q.key
  {
    var rest := key[|q.key|..];
    assert key == q.key + rest;
    assert key != q.key ==> rest[0] == key[|q.key|] == (q.key + "#")[|q.key|];
    BaseOfChild(q.key, rest);
    BaseOfChild(q.key, "");
    assert q.key + "" == q.key;
  }

  lemma AgreeWithoutHash(queues: seq<Queue>, q: Queue, stored: Stored, key: string)
    requires UniquelyRegistered(queues, q) && '#' !in q.key && IsKeyOf(q, key)
    ensures QueueRuntimeConfigFromMap(CatalogOf(queues), stored, key) == Applied(q, stored, key)
  {
    FindsTheQueue(queues, q);
    BaseIsTheKey(q, key);
  }

  lemma {:induction false} BaseWithoutHash(key: string)
    ensures '#' !in BaseQueueKey(key)
  {
    if key != "" && key[0] != '#' {
      BaseWithoutHash(key[1..]);
    }
  }

  /** The dashboard shows what the coordinator applies, whatever is stored, exactly when the registered key
      has no hash sign: a key that has one makes the dashboard look at a shorter base key. */
  lemma ResolversAgreeIffNoHash(queues: seq<Queue>, q: Queue)
    requires UniquelyRegistered(queues, q)
    ensures (forall stored, key :: IsKeyOf(q, key) ==>
               QueueRuntimeConfigFromMap(CatalogOf(queues), stored, key) == Applied(q, stored, key))
       <==> '#' !in q.key
  {
    if '#' !in q.key {
      forall stored, key | IsKeyOf(q, key)
        ensures QueueRuntimeConfigFromMap(CatalogOf(queues), stored, key) == Applied(q, stored, key)
      {
        AgreeWithoutHash(queues, q, stored, key);
      }
    } else {
      var base := BaseQueueKey(q.key);
      BaseWithoutHash(q.key);
      var stored: Stored := map[base := RuntimeConfig(None, Paused)];
      assert QueueRuntimeConfigFromMap(CatalogOf(queues), stored, q.key).state == Paused;
      assert Applied(q, stored, q.key).state == Active;
    }
  }

  /** What a key would run with if nothing were stored for itself. */
  function Inherited(q: Queue, stored: Stored, key: string): RuntimeConfig {
    Applied(q, stored - {key}, key)
  }

  /** Override is shown exactly when the limit in force differs from the inherited one, and the default
      shown beside it is the inherited limit. */
  lemma StatusIsHonest(queues: seq<Queue>, q: Queue, stored: Stored, key: string)
    requires UniquelyRegistered(queues, q) && '#' !in q.key && IsKeyOf(q, key)
    ensures var status := QueueConcurrencyStatus(CatalogOf(queues), stored, key);
            && (status.FixedStatus? <==> q.concurrency.Fixed?)
            && (status.Override? <==> Applied(q, stored, key).concurrency != Inherited(q, stored, key).concurrency)
            && (!status.FixedStatus? ==> Some(status.default) == Inherited(q, stored, key).concurrency)
  {
    FindsTheQueue(queues, q);
    BaseIsTheKey(q, key);
    AgreeWithoutHash(queues, q, stored, q.key);
  }

  /** The queue that the dashboard's forms hand to the setters. */
  function RawQueueFromCatalog(catalog: Catalog, key: string): Queue {
    var base := BaseQueueKey(key);
    match Find(catalog, base)
    case None => Queue(key, Static, Fixed(1))
    case Some(q) =>
      Queue(if q.dynamic then base else key, if q.dynamic then Prefixed else Static,
            if q.dynamicConcurrency then Dynamic(q.concurrency) else Fixed(q.concurrency))
  }

  /** It is the registered queue, so a setter called from the dashboard does what a worker's would. */
  lemma RawQueueIsTheRegistered(queues: seq<Queue>, q: Queue, key: string)
    requires UniquelyRegistered(queues, q) && '#' !in q.key && IsKeyOf(q, key)
    ensures RawQueueFromCatalog(CatalogOf(queues), key) == q
  {
    FindsTheQueue(queues, q);
    BaseIsTheKey(q, key);
  }

  // ---- the setters ----

  function RuntimeConcurrencyResetDefault(q: Queue, stored: Stored, key: string): nat {
    var configured := DefaultConcurrency(q.concurrency);
    if q.kind == Static || key == q.key then configured
    else
      match ConfigOrDefault(stored, q.key, StoredRuntimeDefault(q.concurrency)).concurrency
      case Some(c) => c
      case None => configured
  }

  function Existing(stored: Stored, key: string): RuntimeConfig {
    if key in stored then stored[key] else DEFAULT_CONFIG
  }

  class QueueConfigs {
    var stored: Stored

    /** A queue with fixed concurrency is refused. */
    method SetQueueConcurrency(q: Queue, key: string, concurrency: nat) returns (ok: bool)
      modifies this
      ensures ok == q.concurrency.Dynamic?
      ensures !ok ==> stored == old(stored)
      ensures ok ==> stored == AfterSetConcurrency(q, old(stored), key, concurrency)
    {
      if q.concurrency.Fixed? {
        return false;
      }
      ok := true;
      var fallback := RuntimeConcurrencyResetDefault(q, stored, key);
      if concurrency == fallback && key !in stored {
        return;
      }
      var config := Existing(stored, key);
      config := config.(concurrency := if concurrency != fallback then Some(concurrency) else None);
      stored := stored[key := config];
    }

    method SetQueueState(q: Queue, key: string, state: QueueState)
      modifies this
      ensures stored == AfterSetState(q, old(stored), key, state)
    {
      var config := Existing(stored, key);
      if q.concurrency.Fixed? {
        config := config.(concurrency := None);
      }
      stored := stored[key := config.(state := state)];
    }
  }

  function AfterSetConcurrency(q: Queue, stored: Stored, key: string, concurrency: nat): Stored {
    var fallback := RuntimeConcurrencyResetDefault(q, stored, key);
    if concurrency == fallback && key !in stored then stored
    else stored[key :=
      Existing(stored, key).(concurrency := if concurrency == fallback then None else Some(concurrency))]
  }

  function AfterSetState(q: Queue, stored: Stored, key: string, state: QueueState): Stored {
    stored[key := RuntimeConfig(if q.concurrency.Fixed? then None else Existing(stored, key).concurrency, state)]
  }

  /** The new limit is in force. The state is kept exactly when the queue had a stored config, or nothing
      had to be stored, or the inherited state is Active: a fresh config does not inherit a pause. */
  lemma SetConcurrencyTakesEffect(q: Queue, stored: Stored, key: string, concurrency: nat)
    requires q.concurrency.Dynamic? && IsKeyOf(q, key)
    ensures var stored' := AfterSetConcurrency(q, stored, key, concurrency);
            && Applied(q, stored', key).concurrency == Some(concurrency)
            && (Applied(q, stored', key).state == Applied(q, stored, key).state
                <==> key in stored || concurrency == RuntimeConcurrencyResetDefault(q, stored, key)
                     || Inherited(q, stored, key).state == Active)
  {
  }

  /** An override is stored only for a limit that is not inherited anyway; setting the inherited limit clears the
      override, and stores nothing where nothing is stored. The limits at all other keys stay as they are. */
  lemma OverridesOnlyWhenNeeded(q: Queue, stored: Stored, key: string, concurrency: nat)
    requires q.concurrency.Dynamic? && IsKeyOf(q, key)
    ensures var stored' := AfterSetConcurrency(q, stored, key, concurrency);
            var inherited := Inherited(q, stored, key).concurrency;
            && (Some(concurrency) == inherited && key !in stored ==> stored' == stored)
            && (Some(concurrency) != inherited || key in stored ==>
                  key in stored' && stored'[key].concurrency ==
                    if Some(concurrency) == inherited then None else Some(concurrency))
            && (forall k :: k != key ==> (k in stored' <==> k in stored) && (k in stored ==> stored'[k] == stored[k]))
  {
  }

  /** Setting a state stores it, keeps a dynamic queue's override and clears a fixed one's. */
  lemma SetStateStores(q: Queue, stored: Stored, key: string, state: QueueState)
    ensures var stored' := AfterSetState(q, stored, key, state);
            && key in stored' && stored'[key].state == state
            && (q.concurrency.Fixed? || key !in stored ==> stored'[key].concurrency == None)
            && (q.concurrency.Dynamic? && key in stored ==> stored'[key].concurrency == stored[key].concurrency)
            && (forall k :: k != key ==> (k in stored' <==> k in stored) && (k in stored ==> stored'[k] == stored[k]))
  {
  }

  lemma SetStateTakesEffect(q: Queue, stored: Stored, key: string, state: QueueState)
    requires IsKeyOf(q, key)
    ensures var stored' := AfterSetState(q, stored, key, state);
            Applied(q, stored', key) == Applied(q, stored, key).(state := state)
  {
  }

  /** A change at the prefix reaches exactly the sub-queues without a limit of their own; a change at a
      sub-queue reaches no other key. */
  lemma WhoFollows(q: Queue, stored: Stored, key: string, other: string, concurrency: nat)
    requires q.concurrency.Dynamic? && IsKeyOf(q, key) && IsKeyOf(q, other) && other != key
    ensures var stored' := AfterSetConcurrency(q, stored, key, concurrency);
            Applied(q, stored', other).concurrency ==
              if key == q.key && (other !in stored || stored[other].concurrency == None) then Some(concurrency)
              else Applied(q, stored, other).concurrency
  {
  }
}
