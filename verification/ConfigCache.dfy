/** The configuration log shared by all workers (server/api/db/config.js:21-62) and the copy that each
    worker keeps in memory (server/api/config/index.js:7-54). */
module ConfigCache {
  import opened Options

  type Value = string

  type Config = map<string, Value>

  /** A change in the log; None stands for null, the removal of the key. */
  datatype Entry = Entry(key: string, value: Option<Value>, time: int)

  /** An element of what load delivers. */
  datatype Setting = Setting(key: string, value: Option<Value>)

  function At(c: Config, k: string): Option<Value> {
    if k in c then Some(c[k]) else None
  }

  function Put(c: Config, k: string, value: Option<Value>): Config {
    match value
    case None => c - {k}
    case Some(v) => c[k := v]
  }

  // ---------- the log ----------

  predicate Logged(log: seq<Entry>, k: string) {
    exists e :: e in log && e.key == k
  }

  ghost predicate IsLatest(log: seq<Entry>, e: Entry) {
    e in log && forall f :: f in log && f.key == e.key ==> f.time <= e.time
  }

  /** $sort by time and $group by key with $last: every logged key once, in any order, with a value that no
      later entry replaces. */
  ghost predicate IsSnapshot(cfg: seq<Setting>, log: seq<Entry>) {
    && (forall s :: s in cfg ==> IsCurrent(log, s))
    && (forall i, j :: 0 <= i < j < |cfg| ==> cfg[i].key != cfg[j].key)
    && (forall k :: Logged(log, k) ==> exists s :: s in cfg && s.key == k)
  }

  ghost predicate IsCurrent(log: seq<Entry>, s: Setting) {
    exists e :: IsLatest(log, e) && s == Setting(e.key, e.value)
  }

  class ConfigDb {
    var log: seq<Entry>

    constructor ()
      ensures log == []
    {
      log := [];
    }

    method Set(key: string, value: Option<Value>, now: int)
      modifies this
      ensures log == old(log) + [Entry(key, value, now)]
    {
      log := log + [Entry(key, value, now)];
    }

    /** Of entries with the same key and time either may come last. */
    method Load() returns (cfg: seq<Setting>)
      ensures IsSnapshot(cfg, log)
    {
      var last: map<string, Entry> := map[];
      for i := 0 to |log|
        invariant forall k :: k in last ==> IsLatest(log[..i], last[k]) && last[k].key == k
        invariant forall k :: Logged(log[..i], k) ==> k in last
      {
        var e := log[i];
        assert log[..i + 1] == log[..i] + [e];
        if e.key !in last || last[e.key].time < e.time {
          last := last[e.key := e];
        } else if last[e.key].time == e.time {
          if * {
            last := last[e.key := e];
          }
        }
      }
      assert log[..|log|] == log;
      cfg := List(last);
      forall s | s in cfg ensures IsCurrent(log, s) {
        assert s == Setting(last[s.key].key, last[s.key].value);
      }
    }

    /** $project */
    static method List(last: map<string, Entry>) returns (cfg: seq<Setting>)
      requires forall k :: k in last ==> last[k].key == k
      ensures forall s :: s in cfg <==> s.key in last && s.value == last[s.key].value
      ensures forall i, j :: 0 <= i < j < |cfg| ==> cfg[i].key != cfg[j].key
      ensures forall k :: k in last ==> Setting(k, last[k].value) in cfg
    {
      cfg := [];
      var rest := last.Keys;
      while rest != {}
        invariant rest <= last.Keys
        invariant forall s :: s in cfg <==> s.key in last.Keys - rest && s.value == last[s.key].value
        invariant forall i, j :: 0 <= i < j < |cfg| ==> cfg[i].key != cfg[j].key
        decreases |rest|
      {
        var k :| k in rest;
        forall i | 0 <= i < |cfg| ensures cfg[i].key != k {
          assert cfg[i] in cfg;
        }
        cfg, rest := cfg + [Setting(k, last[k].value)], rest - {k};
      }
    }
  }

  // ---------- a worker's copy ----------

  /** The effect of one load on a copy. */
  function Updated(c: Config, cfg: seq<Setting>): Config {
    if cfg == [] then c else Put(Updated(c, cfg[..|cfg| - 1]), cfg[|cfg| - 1].key, cfg[|cfg| - 1].value)
  }

  class Cache {
    var config: Config

    constructor (defaults: Config)
      ensures config == defaults
    {
      config := defaults;
    }

    /** update_config, from the callback of load on. */
    method UpdateConfig(cfg: seq<Setting>)
      modifies this
      ensures config == Updated(old(config), cfg)
    {
      for i := 0 to |cfg|
        invariant config == Updated(old(config), cfg[..i])
      {
        assert cfg[..i + 1][..i] == cfg[..i];
        var key, value := cfg[i].key, cfg[i].value;
        if value == None && key in config {
          config := config - {key};
        } else if value != None && (key !in config || config[key] != value.value) {
          config := config[key := value.value];
        }
      }
      assert cfg[..|cfg|] == cfg;
    }

    /** set changes the log only. */
    method Set(db: ConfigDb, key: string, value: Option<Value>, now: int)
      modifies db
      ensures db.log == old(db.log) + [Entry(key, value, now)]
    {
      db.Set(key, value, now);
    }

    /** del: the copy changes at once, without waiting for the log. */
    method Del(db: ConfigDb, key: string, now: int)
      modifies this, db
      ensures config == old(config) - {key}
      ensures db.log == old(db.log) + [Entry(key, None, now)]
    {
      db.Set(key, None, now);
      config := config - {key};
    }

    method Get(key: string) returns (value: Option<Value>)
      ensures value == At(config, key)
    {
      value := if key in config then Some(config[key]) else None;
    }
  }

  // ---------- the log replayed ----------

  /** The latest change of a key by time. Saves of different workers may land in another order. */
  function Newest(log: seq<Entry>, k: string): (r: Option<Entry>)
    ensures r.Some? ==> IsLatest(log, r.value) && r.value.key == k
    ensures r.None? ==> !Logged(log, k)
  {
    if log == [] then None
    else
      var front, last := log[..|log| - 1], log[|log| - 1];
      assert log == front + [last];
      var r := Newest(front, k);
      if last.key == k && (r.None? || r.value.time <= last.time) then Some(last) else r
  }

  /** The value of a key under the defaults and all changes. */
  function ValueOf(defaults: Config, log: seq<Entry>, k: string): Option<Value> {
    match Newest(log, k)
    case None => At(defaults, k)
    case Some(e) => e.value
  }

  /** The defaults overridden by the latest logged value of each key. */
  function Replayed(defaults: Config, log: seq<Entry>): Config {
    map k | k in defaults.Keys + (set e | e in log :: e.key) && ValueOf(defaults, log, k).Some?
      :: ValueOf(defaults, log, k).value
  }

  /** The latest changes of each key agree on its value: no tie is left that a load could break either way.
      Ties among changes that a later one replaces do not matter. */
  ghost predicate Decided(log: seq<Entry>) {
    forall e, f :: IsLatest(log, e) && IsLatest(log, f) && e.key == f.key ==> e.value == f.value
  }

  lemma ReplayedAt(defaults: Config, log: seq<Entry>, k: string)
    ensures At(Replayed(defaults, log), k) == ValueOf(defaults, log, k)
  {
  }

  lemma ReplayedAtLatest(defaults: Config, log: seq<Entry>, e: Entry)
    requires Decided(log) && IsLatest(log, e)
    ensures At(Replayed(defaults, log), e.key) == e.value
  {
    ReplayedAt(defaults, log, e.key);
    assert Logged(log, e.key);
    assert IsLatest(log, Newest(log, e.key).value);
  }

  lemma ReplayedAtUnlogged(defaults: Config, log: seq<Entry>, k: string)
    requires !Logged(log, k)
    ensures At(Replayed(defaults, log), k) == At(defaults, k)
  {
    ReplayedAt(defaults, log, k);
    assert Newest(log, k) == None;
  }

  lemma {:induction false} UpdatedAt(c: Config, cfg: seq<Setting>, k: string)
    requires forall i, j :: 0 <= i < j < |cfg| ==> cfg[i].key != cfg[j].key
    ensures (forall s :: s in cfg ==> s.key != k) ==> At(Updated(c, cfg), k) == At(c, k)
    ensures forall s :: s in cfg && s.key == k ==> At(Updated(c, cfg), k) == s.value
  {
    if cfg != [] {
      var front, last := cfg[..|cfg| - 1], cfg[|cfg| - 1];
      assert cfg == front + [last];
      UpdatedAt(c, front, k);
      forall s | s in front ensures s.key != last.key {
        var i :| 0 <= i < |front| && front[i] == s;
        assert cfg[i] == s;
      }
      assert At(Updated(c, cfg), k) == if last.key == k then last.value else At(Updated(c, front), k);
    }
  }

  /** A load leaves keys alone that are not in the log. */
  lemma UnloggedIsKept(c: Config, log: seq<Entry>, cfg: seq<Setting>, k: string)
    requires IsSnapshot(cfg, log) && !Logged(log, k)
    ensures At(Updated(c, cfg), k) == At(c, k)
  {
    UpdatedAt(c, cfg, k);
    forall s | s in cfg ensures s.key != k {
      assert IsCurrent(log, s);
    }
  }

  /** After a load of the log, a logged key has its replayed value and any other key what it had before. */
  lemma SnapshotAt(c: Config, defaults: Config, log: seq<Entry>, cfg: seq<Setting>, k: string)
    requires Decided(log) && IsSnapshot(cfg, log)
    ensures At(Updated(c, cfg), k) == if Logged(log, k) then At(Replayed(defaults, log), k) else At(c, k)
  {
    if Logged(log, k) {
      UpdatedAt(c, cfg, k);
      var s :| s in cfg && s.key == k;
      assert IsCurrent(log, s);
      var e :| IsLatest(log, e) && s == Setting(e.key, e.value);
      ReplayedAtLatest(defaults, log, e);
    } else {
      UnloggedIsKept(c, log, cfg, k);
    }
  }

  lemma SameConfig(c: Config, d: Config)
    requires forall k :: At(c, k) == At(d, k)
    ensures c == d
  {
    forall k ensures k in c <==> k in d {
      assert At(c, k) == At(d, k);
    }
    forall k | k in c ensures c[k] == d[k] {
      assert At(c, k) == At(d, k);
    }
  }

  /** A load makes a copy equal to the replayed log if and only if the copy had its default wherever the log
      says nothing. */
  lemma UpdateIsReplayIff(c: Config, defaults: Config, log: seq<Entry>, cfg: seq<Setting>)
    requires Decided(log) && IsSnapshot(cfg, log)
    ensures Updated(c, cfg) == Replayed(defaults, log)
        <==> forall k :: !Logged(log, k) ==> At(c, k) == At(defaults, k)
  {
    forall k ensures At(Updated(c, cfg), k) == if Logged(log, k) then At(Replayed(defaults, log), k) else At(c, k) {
      SnapshotAt(c, defaults, log, cfg, k);
    }
    forall k | !Logged(log, k) ensures At(Replayed(defaults, log), k) == At(defaults, k) {
      ReplayedAtUnlogged(defaults, log, k);
    }
    if forall k :: !Logged(log, k) ==> At(c, k) == At(defaults, k) {
      SameConfig(Updated(c, cfg), Replayed(defaults, log));
    }
  }

  // ---------- when loads agree ----------

  /** Any latest change of a key can be the one that a load delivers. */
  lemma SnapshotWith(log: seq<Entry>, e: Entry) returns (cfg: seq<Setting>)
    requires IsLatest(log, e)
    ensures IsSnapshot(cfg, log) && Setting(e.key, e.value) in cfg
  {
    cfg := [];
    var rest := set f | f in log :: f.key;
    while rest != {}
      invariant forall k :: k in rest ==> Logged(log, k)
      invariant forall s :: s in cfg ==> IsCurrent(log, s) && s.key !in rest
      invariant forall i, j :: 0 <= i < j < |cfg| ==> cfg[i].key != cfg[j].key
      invariant forall k :: Logged(log, k) ==> k in rest || exists s :: s in cfg && s.key == k
      invariant e.key in rest || Setting(e.key, e.value) in cfg
      decreases |rest|
    {
      var k :| k in rest;
      var f := if k == e.key then e else Newest(log, k).value;
      assert IsLatest(log, f) && f.key == k;
      cfg := NextSetting(log, cfg, rest, f);
      rest := rest - {k};
    }
  }

  lemma NextSetting(log: seq<Entry>, cfg: seq<Setting>, rest: set<string>, f: Entry) returns (cfg': seq<Setting>)
    requires IsLatest(log, f) && f.key in rest
    requires forall s :: s in cfg ==> IsCurrent(log, s) && s.key !in rest
    requires forall i, j :: 0 <= i < j < |cfg| ==> cfg[i].key != cfg[j].key
    ensures cfg' == cfg + [Setting(f.key, f.value)]
    ensures forall s :: s in cfg' ==> IsCurrent(log, s) && s.key !in rest - {f.key}
    ensures forall i, j :: 0 <= i < j < |cfg'| ==> cfg'[i].key != cfg'[j].key
    ensures forall s :: s in cfg ==> s in cfg'
    ensures Setting(f.key, f.value) in cfg'
  {
    var s := Setting(f.key, f.value);
    assert IsCurrent(log, s);
    cfg' := cfg + [s];
    forall i | 0 <= i < |cfg| ensures cfg[i].key != s.key {
      assert cfg[i] in cfg;
    }
  }

  /** All loads of the log have the same effect on the copy c. */
  ghost predicate LoadsAgree(c: Config, log: seq<Entry>) {
    forall cfg, cfg' :: IsSnapshot(cfg, log) && IsSnapshot(cfg', log) ==> Updated(c, cfg) == Updated(c, cfg')
  }

  /** Exactly when two loads of one log cannot differ, whatever the copy is. */
  lemma LoadsAgreeIff(c: Config, log: seq<Entry>)
    ensures LoadsAgree(c, log) <==> Decided(log)
  {
    if Decided(log) {
      forall cfg, cfg' | IsSnapshot(cfg, log) && IsSnapshot(cfg', log) ensures Updated(c, cfg) == Updated(c, cfg') {
        forall k ensures At(Updated(c, cfg), k) == At(Updated(c, cfg'), k) {
          SnapshotAt(c, c, log, cfg, k);
          SnapshotAt(c, c, log, cfg', k);
        }
        SameConfig(Updated(c, cfg), Updated(c, cfg'));
      }
    } else {
      var e, f :| IsLatest(log, e) && IsLatest(log, f) && e.key == f.key && e.value != f.value;
      var cfg := SnapshotWith(log, e);
      var cfg' := SnapshotWith(log, f);
      UpdatedAt(c, cfg, e.key);
      UpdatedAt(c, cfg', e.key);
      assert At(Updated(c, cfg), e.key) == e.value && At(Updated(c, cfg'), e.key) == f.value;
    }
  }

  // ---------- a worker's life ----------

  /** What happens to a copy: the delivery of the log's first n entries, or a local removal. */
  datatype Step = Loaded(n: nat, cfg: seq<Setting>) | Removed(key: string)

  function After(defaults: Config, steps: seq<Step>): Config {
    if steps == [] then defaults
    else
      var c := After(defaults, steps[..|steps| - 1]);
      match steps[|steps| - 1]
      case Loaded(_, cfg) => Updated(c, cfg)
      case Removed(key) => c - {key}
  }

  /** Loads deliver what the log held at some moment, up to its first n entries, in any order. */
  ghost predicate Genuine(steps: seq<Step>, log: seq<Entry>, n: nat)
    requires n <= |log|
  {
    forall s :: s in steps && s.Loaded? ==> s.n <= n && IsSnapshot(s.cfg, log[..s.n])
  }

  lemma LoggedLater(log: seq<Entry>, m: nat, n: nat, k: string)
    requires m <= n <= |log| && Logged(log[..m], k)
    ensures Logged(log[..n], k)
  {
    var e :| e in log[..m] && e.key == k;
    assert e in log[..n];
  }

  /** Only a local removal touches a key that is not in the log. */
  lemma {:induction false} UnloggedKey(defaults: Config, log: seq<Entry>, steps: seq<Step>, n: nat, k: string)
    requires n <= |log| && Genuine(steps, log, n) && !Logged(log[..n], k)
    ensures At(After(defaults, steps), k) == if Removed(k) in steps then None else At(defaults, k)
  {
    if steps != [] {
      var front, last := steps[..|steps| - 1], steps[|steps| - 1];
      assert steps == front + [last];
      UnloggedKey(defaults, log, front, n, k);
      if last.Loaded? {
        assert last in steps;
        if Logged(log[..last.n], k) {
          LoggedLater(log, last.n, n, k);
        }
        UnloggedIsKept(After(defaults, front), log[..last.n], last.cfg, k);
      }
    }
  }

  /** No removal is outstanding that a load of the first n entries cannot repair. */
  ghost predicate Settled(defaults: Config, log: seq<Entry>, steps: seq<Step>, n: nat)
    requires n <= |log|
  {
    forall k :: Removed(k) in steps && k in defaults ==> Logged(log[..n], k)
  }

  /** Whatever loads of earlier logs a worker has seen, in whatever order and with whatever ties, and whatever
      it removed: a load of the first n entries, if these are decided, makes its copy equal to the replay of
      those entries if and only if every default that it removed locally is in the log by then. */
  lemma CacheEqualsReplayIff(defaults: Config, log: seq<Entry>, steps: seq<Step>, n: nat, cfg: seq<Setting>)
    requires n <= |log| && Decided(log[..n]) && Genuine(steps, log, n) && IsSnapshot(cfg, log[..n])
    ensures After(defaults, steps + [Loaded(n, cfg)]) == Replayed(defaults, log[..n])
        <==> Settled(defaults, log, steps, n)
  {
    var c := After(defaults, steps);
    assert (steps + [Loaded(n, cfg)])[..|steps|] == steps;
    UpdateIsReplayIff(c, defaults, log[..n], cfg);
    forall k | !Logged(log[..n], k) ensures At(c, k) == if Removed(k) in steps then None else At(defaults, k) {
      UnloggedKey(defaults, log, steps, n, k);
    }
    if Settled(defaults, log, steps, n) {
      assert forall k :: !Logged(log[..n], k) ==> At(c, k) == At(defaults, k);
    } else {
      var k :| Removed(k) in steps && k in defaults && !Logged(log[..n], k);
      assert At(c, k) != At(defaults, k);
    }
  }

  /** Workers that have loaded the same decided log agree, whatever their pasts. */
  lemma WorkersConverge(
    defaults: Config, log: seq<Entry>, n: nat,
    steps: seq<Step>, cfg: seq<Setting>, steps': seq<Step>, cfg': seq<Setting>)
    requires n <= |log| && Decided(log[..n])
    requires Genuine(steps, log, n) && IsSnapshot(cfg, log[..n]) && Settled(defaults, log, steps, n)
    requires Genuine(steps', log, n) && IsSnapshot(cfg', log[..n]) && Settled(defaults, log, steps', n)
    ensures After(defaults, steps + [Loaded(n, cfg)]) == After(defaults, steps' + [Loaded(n, cfg')])
  {
    CacheEqualsReplayIff(defaults, log, steps, n, cfg);
    CacheEqualsReplayIff(defaults, log, steps', n, cfg');
  }

  /** Loading the same log again changes nothing, whatever the copy was. */
  lemma ReloadIsIdempotent(c: Config, log: seq<Entry>, cfg: seq<Setting>, cfg': seq<Setting>)
    requires Decided(log) && IsSnapshot(cfg, log) && IsSnapshot(cfg', log)
    ensures Updated(Updated(c, cfg), cfg') == Updated(c, cfg)
  {
    var once := Updated(c, cfg);
    forall k ensures At(Updated(once, cfg'), k) == At(once, k) {
      SnapshotAt(c, c, log, cfg, k);
      SnapshotAt(once, c, log, cfg', k);
    }
    SameConfig(Updated(once, cfg'), once);
  }

  /** A delivery that comes after a newer one takes back the keys it knows, and only those. */
  lemma LateDelivery(defaults: Config, log: seq<Entry>, m: nat, n: nat, cfg: seq<Setting>, k: string)
    requires m <= n <= |log| && Decided(log[..m]) && IsSnapshot(cfg, log[..m])
    ensures At(Updated(Replayed(defaults, log[..n]), cfg), k)
         == At(Replayed(defaults, if Logged(log[..m], k) then log[..m] else log[..n]), k)
  {
    SnapshotAt(Replayed(defaults, log[..n]), defaults, log[..m], cfg, k);
  }

  // ---------- saves in and out of order ----------

  /** Every change carried out in the order in which it landed in the log. */
  function CarriedOut(defaults: Config, log: seq<Entry>): Config {
    if log == [] then defaults
    else Put(CarriedOut(defaults, log[..|log| - 1]), log[|log| - 1].key, log[|log| - 1].value)
  }

  /** The saves of each key landed in the order of their times. */
  ghost predicate Chronological(log: seq<Entry>) {
    forall i, j :: 0 <= i < j < |log| && log[i].key == log[j].key ==> log[i].time <= log[j].time
  }

  /** The replay is what the changes do one after the other, if each key's saves landed in time order. */
  lemma {:induction false} ReplayInOrder(defaults: Config, log: seq<Entry>)
    requires Chronological(log)
    ensures Replayed(defaults, log) == CarriedOut(defaults, log)
  {
    if log == [] {
      SameConfig(Replayed(defaults, log), defaults);
    } else {
      var front, last := log[..|log| - 1], log[|log| - 1];
      assert log == front + [last];
      ReplayInOrder(defaults, front);
      forall k ensures At(Replayed(defaults, log), k) == At(CarriedOut(defaults, log), k) {
        ReplayedNext(defaults, front, last, k);
      }
      SameConfig(Replayed(defaults, log), CarriedOut(defaults, log));
    }
  }

  lemma ReplayedNext(defaults: Config, front: seq<Entry>, last: Entry, k: string)
    requires Chronological(front + [last])
    ensures At(Replayed(defaults, front + [last]), k) == At(Put(Replayed(defaults, front), last.key, last.value), k)
  {
    var log := front + [last];
    assert log[..|log| - 1] == front;
    ReplayedAt(defaults, log, k);
    ReplayedAt(defaults, front, k);
    var r := Newest(front, k);
    if last.key == k && r.Some? {
      var i :| 0 <= i < |front| && front[i] == r.value;
      assert log[i] == r.value && log[|front|] == last;
    }
  }

  /** Two workers' saves that land the other way round: the later time wins, as load has it. */
  lemma SavesOutOfOrder(defaults: Config)
    ensures var log := [Entry("tax", Some("12"), 2), Entry("tax", Some("11"), 1)];
      && Decided(log) && !Chronological(log)
      && At(Replayed(defaults, log), "tax") == Some("12") && At(CarriedOut(defaults, log), "tax") == Some("11")
  {
    var log := [Entry("tax", Some("12"), 2), Entry("tax", Some("11"), 1)];
    assert IsLatest(log, log[0]);
    ReplayedAtLatest(defaults, log, log[0]);
    assert log[..1] == [log[0]];
  }

  /** An undecided log: two loads of it differ, and with them two workers. */
  lemma TiesDiverge(defaults: Config)
    ensures var e, f := Entry("tax", Some("11"), 1), Entry("tax", Some("12"), 1);
      && !Decided([e, f])
      && IsSnapshot([Setting("tax", e.value)], [e, f]) && IsSnapshot([Setting("tax", f.value)], [e, f])
      && Updated(defaults, [Setting("tax", e.value)]) != Updated(defaults, [Setting("tax", f.value)])
  {
    var e, f := Entry("tax", Some("11"), 1), Entry("tax", Some("12"), 1);
    var log := [e, f];
    assert e in log && f in log;
    assert IsLatest(log, e) && IsLatest(log, f);
    assert IsCurrent(log, Setting("tax", e.value)) && IsCurrent(log, Setting("tax", f.value));
    assert At(Updated(defaults, [Setting("tax", e.value)]), "tax") == Some("11");
    assert At(Updated(defaults, [Setting("tax", f.value)]), "tax") == Some("12");
  }

  /** A removal whose save is lost: this worker never gets its default back, while the others keep it,
      however long the log grows without that key. */
  lemma LostRemoval(defaults: Config, k: string, log: seq<Entry>, n: nat, cfg: seq<Setting>)
    requires k in defaults && n <= |log| && !Logged(log[..n], k) && IsSnapshot(cfg, log[..n])
    ensures var mine, others := After(defaults, [Removed(k), Loaded(n, cfg)]), After(defaults, [Loaded(n, cfg)]);
      && k !in mine && At(others, k) == At(Replayed(defaults, log[..n]), k) == At(defaults, k)
      && (Decided(log[..n]) ==> others == Replayed(defaults, log[..n]))
  {
    assert Removed(k) in [Removed(k), Loaded(n, cfg)];
    UnloggedKey(defaults, log, [Removed(k), Loaded(n, cfg)], n, k);
    UnloggedKey(defaults, log, [Loaded(n, cfg)], n, k);
    ReplayedAtUnlogged(defaults, log[..n], k);
    if Decided(log[..n]) {
      CacheEqualsReplayIff(defaults, log, [], n, cfg);
      assert [] + [Loaded(n, cfg)] == [Loaded(n, cfg)];
    }
  }

  /** Such a worker exists: the database loses the very first change. */
  lemma LostFirstRemoval()
    ensures var defaults := map["poll_max" := "50"];
      && IsSnapshot([], []) && After(defaults, [Removed("poll_max"), Loaded(0, [])]) == map[]
      && Replayed(defaults, []) == defaults
  {
    var defaults: Config := map["poll_max" := "50"];
    var log: seq<Entry> := [];
    assert log[..0] == [];
    assert IsSnapshot([], log[..0]);
    SameConfig(Replayed(defaults, []), defaults) by {
      forall k ensures At(Replayed(defaults, []), k) == At(defaults, k) {
        ReplayedAtUnlogged(defaults, [], k);
      }
    }
    assert [Removed("poll_max"), Loaded(0, [])][..1] == [Removed("poll_max")];
    assert [Removed("poll_max")][..0] == [];
  }
}
