/**
 * The launcher's main routine: one worker per accepted profile, a fixed
 * pause after each spawn that is not for the last profile, then waiting for
 * every worker, or on Ctrl+C terminating and joining each one in turn.
 * Workers are handles: a handle is the worker's position in the process list.
 */
module Supervisor {
  import opened Wrappers
  import opened Paths
  import opened ConfigValidator
  import opened ConfigLoader

  /** Seconds the launcher waits after a spawn before looking at the next profile. */
  const PacingSeconds := 30

  /** What the launcher does, in order. */
  datatype Event =
    | Spawn(config: Config)   // create and start a worker with this configuration
    | Sleep(seconds: nat)     // `time.sleep`
    | Join(handle: nat)       // wait for a worker to exit
    | Terminate(handle: nat)  // signal a worker to stop

  /** The merged configuration of every profile, in profile order. */
  function MergeAll(globals: Config, profiles: seq<Config>): (configs: seq<Config>)
    ensures |configs| == |profiles|
    ensures forall i :: 0 <= i < |profiles| ==> configs[i] == Merge(globals, profiles[i])
  {
    seq(|profiles|, i requires 0 <= i < |profiles| => Merge(globals, profiles[i]))
  }

  /** The first k configurations that `ok` accepts, in order. */
  function Accepted(configs: seq<Config>, ok: Config -> bool, k: nat): (spawned: seq<Config>)
    requires k <= |configs|
    ensures |spawned| <= k

  {
    if k == 0 then []
    else Accepted(configs, ok, k - 1) + (if ok(configs[k - 1]) then [configs[k - 1]] else [])
  }

  /** Events for the i-th configuration (1-based, as `enumerate(..., 1)`). */
  function Step(configs: seq<Config>, ok: Config -> bool, i: nat): seq<Event>
    requires 1 <= i <= |configs|
  {
    var cfg := configs[i - 1];
    if !ok(cfg) then []
    else if i < |configs| then [Spawn(cfg), Sleep(PacingSeconds)]
    else [Spawn(cfg)]
  }

  /** Events of the launch loop after its first k configurations. */
  function Plan(configs: seq<Config>, ok: Config -> bool, k: nat): seq<Event>
    requires k <= |configs|
  {
    if k == 0 then [] else Plan(configs, ok, k - 1) + Step(configs, ok, k)
  }

  /** The configurations handed to workers, in spawn order. */
  function Spawns(events: seq<Event>): seq<Config> {
    if events == [] then []
    else (if events[0].Spawn? then [events[0].config] else []) + Spawns(events[1..])
  }

  /** The number of pauses among the events. */
  function Sleeps(events: seq<Event>): nat {
    if events == [] then 0
    else (if events[0].Sleep? then 1 else 0) + Sleeps(events[1..])
  }

  lemma {:induction false} SpawnsAppend(a: seq<Event>, b: seq<Event>)
    ensures Spawns(a + b) == Spawns(a) + Spawns(b)
  {
    if a == [] {
      assert a + b == b;
    } else {
      var head := if a[0].Spawn? then [a[0].config] else [];
      assert (a + b)[0] == a[0] && (a + b)[1..] == a[1..] + b;
      assert Spawns(a + b) == head + Spawns(a[1..] + b);
      SpawnsAppend(a[1..], b);
    }
  }

  lemma {:induction false} SleepsAppend(a: seq<Event>, b: seq<Event>)
    ensures Sleeps(a + b) == Sleeps(a) + Sleeps(b)
  {
    if a == [] {
      assert a + b == b;
    } else {
      assert (a + b)[0] == a[0] && (a + b)[1..] == a[1..] + b;
      assert Sleeps(a + b) == (if a[0].Sleep? then 1 else 0) + Sleeps(a[1..] + b);
      SleepsAppend(a[1..], b);
    }
  }

  /** One step spawns its configuration when accepted, and pauses only if it is not the last. */
  lemma StepCounts(configs: seq<Config>, ok: Config -> bool, i: nat)
    requires 1 <= i <= |configs|
    ensures Spawns(Step(configs, ok, i)) == if ok(configs[i - 1]) then [configs[i - 1]] else []
    ensures Sleeps(Step(configs, ok, i)) == if ok(configs[i - 1]) && i < |configs| then 1 else 0
  {
    var cfg := configs[i - 1];
    if ok(cfg) {
      var pause := Sleep(PacingSeconds);
      assert Spawns([pause]) == [] && Sleeps([pause]) == 1 by {
        assert [pause][1..] == [];
      }
      assert [Spawn(cfg)][1..] == [];
      assert [Spawn(cfg), pause][1..] == [pause];
    }
  }

  /** One step is empty, a spawn, or a spawn followed by a 30-second pause. */
  lemma StepShape(configs: seq<Config>, ok: Config -> bool, i: nat)
    requires 1 <= i <= |configs|
    ensures var step := Step(configs, ok, i);
      && (step == [] <==> !ok(configs[i - 1]))
      && |step| <= 2
      && (step != [] ==> step[0] == Spawn(configs[i - 1]))
      && (|step| == 2 <==> ok(configs[i - 1]) && i < |configs|)
      && (|step| == 2 ==> step[1] == Sleep(PacingSeconds))
  {
  }

  /** Every configuration that passes the check is handed to a worker. */
  lemma {:induction false} AcceptedComplete(configs: seq<Config>, ok: Config -> bool, k: nat, j: nat)
    requires j < k <= |configs| && ok(configs[j])
    ensures configs[j] in Accepted(configs, ok, k)
  {
    if j < k - 1 {
      AcceptedComplete(configs, ok, k - 1, j);
    }
  }

  /** Every configuration handed to a worker passed the check. */
  lemma {:induction false} AcceptedPass(configs: seq<Config>, ok: Config -> bool, k: nat)
    requires k <= |configs|
    ensures forall j :: 0 <= j < |Accepted(configs, ok, k)| ==> ok(Accepted(configs, ok, k)[j])
  {
    if k > 0 {
      AcceptedPass(configs, ok, k - 1);
      var before := Accepted(configs, ok, k - 1);
      var last := if ok(configs[k - 1]) then [configs[k - 1]] else [];
      assert Accepted(configs, ok, k) == before + last;
      forall j | 0 <= j < |before + last| ensures ok((before + last)[j]) {
        if j < |before| { assert (before + last)[j] == before[j]; }
      }
    }
  }

  /**
   * Every configuration handed to a worker passes all four checks of
   * `Validate`, so its cookie file resolves inside the cookies directory.
   */
  lemma AcceptedWithinRoot(configs: seq<Config>, k: nat, root: Root)
    requires k <= |configs|
    ensures forall c :: c in Accepted(configs, Admissible, k) ==>
      && Validate(c, root) == Accept
      && CookieFileKey in c && Within(root, Resolve(root, c[CookieFileKey]))
  {
    var spawned := Accepted(configs, Admissible, k);
    AcceptedPass(configs, Admissible, k);
    forall c | c in spawned
      ensures Validate(c, root) == Accept && CookieFileKey in c && Within(root, Resolve(root, c[CookieFileKey]))
    {
      var j :| 0 <= j < |spawned| && spawned[j] == c;
      assert Admissible(c);
    }
  }

  /** The workers started are exactly the accepted configurations, in profile order. */
  lemma {:induction false} PlanSpawnsAccepted(configs: seq<Config>, ok: Config -> bool, k: nat)
    requires k <= |configs|
    ensures Spawns(Plan(configs, ok, k)) == Accepted(configs, ok, k)
  {
    if k > 0 {
      var before, step := Plan(configs, ok, k - 1), Step(configs, ok, k);
      assert Plan(configs, ok, k) == before + step;
      PlanSpawnsAccepted(configs, ok, k - 1);
      SpawnsAppend(before, step);
      StepCounts(configs, ok, k);
    }
  }

  /**
   * One pause per accepted configuration that is not the last one: a skipped
   * profile adds no pause, and the last profile never adds one.
   */
  lemma {:induction false} PlanSleeps(configs: seq<Config>, ok: Config -> bool, k: nat)
    requires k <= |configs|
    ensures k < |configs| ==> Sleeps(Plan(configs, ok, k)) == |Accepted(configs, ok, k)|
    ensures k == |configs| && k > 0 ==>
      Sleeps(Plan(configs, ok, k)) + (if ok(configs[k - 1]) then 1 else 0) == |Accepted(configs, ok, k)|
  {
    if k > 0 {
      PlanSleeps(configs, ok, k - 1);
      SleepsAppend(Plan(configs, ok, k - 1), Step(configs, ok, k));
      StepCounts(configs, ok, k);
    }
  }

  /** The launch loop only spawns and pauses; every pause lasts 30 seconds and comes straight after a spawn. */
  predicate PausesFollowSpawns(events: seq<Event>) {
    && (forall j :: 0 <= j < |events| ==>
         (events[j].Spawn? || events[j].Sleep?) && (events[j].Sleep? ==> events[j].seconds == PacingSeconds))
    && (|events| > 0 ==> !events[0].Sleep?)
    && (forall j :: 0 < j < |events| && events[j].Sleep? ==> events[j - 1].Spawn?)
  }

  lemma PausesFollowSpawnsAppend(a: seq<Event>, b: seq<Event>)
    requires PausesFollowSpawns(a) && PausesFollowSpawns(b)
    requires b != [] ==> b[0].Spawn?
    ensures PausesFollowSpawns(a + b)
  {
    var ab := a + b;
    forall j | 0 <= j < |ab|
      ensures (ab[j].Spawn? || ab[j].Sleep?) && (ab[j].Sleep? ==> ab[j].seconds == PacingSeconds)
    {
      if j < |a| { assert ab[j] == a[j]; } else { assert ab[j] == b[j - |a|]; }
    }
    if b != [] {
      assert ab[|a|] == b[0];
    }
    forall j | 0 < j < |ab| && ab[j].Sleep?
      ensures ab[j - 1].Spawn?
    {
      if j < |a| {
        assert ab[j] == a[j] && ab[j - 1] == a[j - 1];
      } else {
        assert ab[j] == b[j - |a|] && ab[j - 1] == b[j - |a| - 1];
      }
    }
  }

  /** The whole launch loop keeps every pause right after a spawn. */
  lemma {:induction false} PlanPausesFollowSpawns(configs: seq<Config>, ok: Config -> bool, k: nat)
    requires k <= |configs|
    ensures PausesFollowSpawns(Plan(configs, ok, k))
  {
    if k > 0 {
      PlanPausesFollowSpawns(configs, ok, k - 1);
      StepShape(configs, ok, k);
      PausesFollowSpawnsAppend(Plan(configs, ok, k - 1), Step(configs, ok, k));
    }
  }

  /** No configuration accepted means no event at all: nothing spawned, nothing paced. */
  lemma {:induction false} PlanEmptyIff(configs: seq<Config>, ok: Config -> bool, k: nat)
    requires k <= |configs|
    ensures |Plan(configs, ok, k)| == 0 <==> |Accepted(configs, ok, k)| == 0
  {
    if k > 0 {
      PlanEmptyIff(configs, ok, k - 1);
      assert |Step(configs, ok, k)| == 0 <==> !ok(configs[k - 1]);
      assert |Plan(configs, ok, k)| == |Plan(configs, ok, k - 1)| + |Step(configs, ok, k)|;
      assert |Accepted(configs, ok, k)| == |Accepted(configs, ok, k - 1)| + (if ok(configs[k - 1]) then 1 else 0);
    }
  }

  /**
   * Whatever is accepted or skipped, a spawn that is not the launch loop's
   * final event is followed straight away by a 30-second pause; before the
   * last profile the loop's events so far always end with a pause.
   */
  lemma {:induction false} PlanSpawnsPaced(configs: seq<Config>, ok: Config -> bool, k: nat)
    requires k <= |configs|
    ensures var plan := Plan(configs, ok, k);
      && (k < |configs| && plan != [] ==> plan[|plan| - 1] == Sleep(PacingSeconds))
      && forall j :: 0 <= j < |plan| - 1 && plan[j].Spawn? ==> plan[j + 1] == Sleep(PacingSeconds)
  {
    if k > 0 {
      PlanSpawnsPaced(configs, ok, k - 1);
      StepShape(configs, ok, k);
      var before, step := Plan(configs, ok, k - 1), Step(configs, ok, k);
      var plan := before + step;
      assert Plan(configs, ok, k) == plan;
      assert before != [] ==> plan[|before| - 1] == Sleep(PacingSeconds);
      forall j | 0 <= j < |plan| - 1 && plan[j].Spawn?
        ensures plan[j + 1] == Sleep(PacingSeconds)
      {
        if j + 1 < |before| {
          assert plan[j] == before[j] && plan[j + 1] == before[j + 1];
        } else if |before| <= j {
          assert plan[j] == step[j - |before|] && plan[j + 1] == step[j + 1 - |before|];
        }
      }
    }
  }

  /** When the last profile is accepted the launch loop ends with its spawn, not with a pause. */
  lemma LastProfileNotPaced(configs: seq<Config>, ok: Config -> bool)
    requires |configs| > 0 && ok(configs[|configs| - 1])
    ensures var plan := Plan(configs, ok, |configs|);
      |plan| > 0 && plan[|plan| - 1] == Spawn(configs[|configs| - 1])
  {
  }

  /** With every profile accepted the plan alternates spawn, pause, spawn, ..., spawn. */
  lemma {:induction false} AllAcceptedPlanAlternates(configs: seq<Config>, ok: Config -> bool, k: nat)
    requires k <= |configs|
    requires forall i :: 0 <= i < |configs| ==> ok(configs[i])
    ensures var plan := Plan(configs, ok, k);
      && |plan| + (if k == |configs| && k > 0 then 1 else 0) == 2 * k
      && forall h :: 0 <= h < k ==>
           plan[2 * h] == Spawn(configs[h]) && (2 * h + 1 < |plan| ==> plan[2 * h + 1] == Sleep(PacingSeconds))
  {
    if k > 0 {
      AllAcceptedPlanAlternates(configs, ok, k - 1);
      var before := Plan(configs, ok, k - 1);
      var step := Step(configs, ok, k);
      assert |before| == 2 * (k - 1);
      var plan := before + step;
      assert plan[2 * (k - 1)] == step[0];
      forall h | 0 <= h < k - 1
        ensures plan[2 * h] == before[2 * h] && plan[2 * h + 1] == before[2 * h + 1]
      {
      }
    }
  }

  /** With every profile accepted, every profile gets a worker, in order. */
  lemma {:induction false} AllAcceptedSpawnsAll(configs: seq<Config>, ok: Config -> bool, k: nat)
    requires k <= |configs|
    requires forall i :: 0 <= i < |configs| ==> ok(configs[i])
    ensures var spawned := Accepted(configs, ok, k);
      |spawned| == k && forall i :: 0 <= i < k ==> spawned[i] == configs[i]
  {
    if k > 0 {
      AllAcceptedSpawnsAll(configs, ok, k - 1);
    }
  }

  /** A discovered file's merged configuration carries the shared URL and that file, and is accepted. */
  lemma DiscoveredConfigAccepted(globals: Config, file: string)
    requires UrlKey in globals && '/' !in file && Text.IsJsonName(file)
    ensures var cfg := Merge(globals, map[CookieFileKey := file]);
      && UrlKey in cfg && CookieFileKey in cfg
      && cfg[UrlKey] == globals[UrlKey] && cfg[CookieFileKey] == file
      && Admissible(cfg)
  {
    var cfg := Merge(globals, map[CookieFileKey := file]);
    assert UrlKey != CookieFileKey;
  }

  /**
   * Discovered profiles: a listing entry never contains `/`, so every
   * discovered `.json` file passes validation and gets a worker whose
   * configuration carries the shared URL and that file's name.
   */
  lemma DiscoveredProfilesAllSpawn(globals: Config, files: seq<string>)
    requires UrlKey in globals
    requires forall f :: f in files ==> '/' !in f && Text.IsJsonName(f)
    ensures var spawned := Accepted(MergeAll(globals, ProfilesOf(files)), Admissible, |files|);
      && |spawned| == |files|
      && forall i :: 0 <= i < |files| ==>
           UrlKey in spawned[i] && CookieFileKey in spawned[i]
           && spawned[i][UrlKey] == globals[UrlKey] && spawned[i][CookieFileKey] == files[i]
  {
    var configs := MergeAll(globals, ProfilesOf(files));
    forall i | 0 <= i < |configs|
      ensures var cfg := configs[i];
        && UrlKey in cfg && CookieFileKey in cfg
        && cfg[UrlKey] == globals[UrlKey] && cfg[CookieFileKey] == files[i]
        && Admissible(cfg)
    {
      assert files[i] in files;
      assert configs[i] == Merge(globals, map[CookieFileKey := files[i]]);
      DiscoveredConfigAccepted(globals, files[i]);
    }
    AllAcceptedSpawnsAll(configs, Admissible, |files|);
  }

  /**
   * With discovered profiles the launch loop alternates: the worker for the
   * i-th file, a 30-second pause, the worker for the next file, ..., ending
   * with the worker for the last file.
   */
  lemma DiscoveredPlanAlternates(globals: Config, files: seq<string>)
    requires UrlKey in globals
    requires forall f :: f in files ==> '/' !in f && Text.IsJsonName(f)
    ensures var configs := MergeAll(globals, ProfilesOf(files));
      var plan := Plan(configs, Admissible, |files|);
      && |plan| + (if |files| > 0 then 1 else 0) == 2 * |files|
      && forall h :: 0 <= h < |files| ==>
           && plan[2 * h] == Spawn(Merge(globals, map[CookieFileKey := files[h]]))
           && (2 * h + 1 < |plan| ==> plan[2 * h + 1] == Sleep(PacingSeconds))
  {
    var configs := MergeAll(globals, ProfilesOf(files));
    forall i | 0 <= i < |configs| ensures Admissible(configs[i]) {
      assert files[i] in files;
      assert configs[i] == Merge(globals, map[CookieFileKey := files[i]]);
      DiscoveredConfigAccepted(globals, files[i]);
    }
    AllAcceptedPlanAlternates(configs, Admissible, |files|);
  }

  /**
   * What a successful load hands to the launch loop: global settings with the
   * cleaned shared URL, and one profile per `.json` entry of the listing.
   */
  lemma LoadedSettings(env: Env, listing: seq<string>)
    ensures var loaded := LoadInstancesFromEnv(env, true, Some(listing));
      loaded.Ok? ==>
        && UrlKey in loaded.value.globals
        && loaded.value.globals[UrlKey] == CleanEnvValue(GetEnv(env, UrlVar)).value
        && loaded.value.profiles == ProfilesOf(JsonFiles(listing))
        && JsonFiles(listing) != []
  {
  }

  /**
   * From the environment to the workers: when loading succeeds and no
   * directory entry contains `/`, each `.json` file of the listing gets one
   * worker, in listing order, whose configuration holds the shared URL and
   * that file.
   */
  lemma LoadedProfilesAllSpawn(env: Env, listing: seq<string>)
    requires forall f :: f in listing ==> '/' !in f
    ensures var loaded := LoadInstancesFromEnv(env, true, Some(listing));
      loaded.Ok? ==>
        var files := JsonFiles(listing);
        var spawned := Accepted(MergeAll(loaded.value.globals, loaded.value.profiles), Admissible, |files|);
        && |spawned| == |files| > 0
        && forall i :: 0 <= i < |files| ==>
             && UrlKey in spawned[i] && CookieFileKey in spawned[i]
             && spawned[i][UrlKey] == CleanEnvValue(GetEnv(env, UrlVar)).value
             && spawned[i][CookieFileKey] == files[i]
  {
    var loaded := LoadInstancesFromEnv(env, true, Some(listing));
    LoadedSettings(env, listing);
    if loaded.Ok? {
      var files := JsonFiles(listing);
      assert forall f :: f in files ==> '/' !in f && Text.IsJsonName(f);
      DiscoveredProfilesAllSpawn(loaded.value.globals, files);
    }
  }

  /** The body of the launch loop up to the spawn: merge one profile and validate the result. */
  method Admit(globals: Config, profile: Config, root: Root) returns (finalConfig: Config, accepted: bool)
    ensures finalConfig == Merge(globals, profile)
    ensures accepted <==> Admissible(finalConfig)
  {
    finalConfig := Merge(globals, profile);
    var verdict := Validate(finalConfig, root);
    accepted := verdict == Accept;
  }

  /** The launch loop's bookkeeping for its i-th configuration. */
  lemma PlanStep(configs: seq<Config>, ok: Config -> bool, i: nat)
    requires 1 <= i <= |configs|
    ensures Plan(configs, ok, i) == Plan(configs, ok, i - 1) + Step(configs, ok, i)
    ensures Accepted(configs, ok, i) ==
      Accepted(configs, ok, i - 1) + if ok(configs[i - 1]) then [configs[i - 1]] else []
  {
  }

  /** The launch loop of `main`: validate each merged profile, spawn, pause unless last. */
  method LaunchAll(globals: Config, profiles: seq<Config>, root: Root) returns (processes: seq<Config>, events: seq<Event>)
    ensures processes == Accepted(MergeAll(globals, profiles), Admissible, |profiles|)
    ensures events == Plan(MergeAll(globals, profiles), Admissible, |profiles|)
  {
    ghost var configs, ok := MergeAll(globals, profiles), Admissible;
    processes, events := [], [];
    for i := 1 to |profiles| + 1
      invariant processes == Accepted(configs, ok, i - 1)
      invariant events == Plan(configs, ok, i - 1)
    {
      var finalConfig, accepted := Admit(globals, profiles[i - 1], root);
      assert configs[i - 1] == finalConfig;
      PlanStep(configs, ok, i);
      if !accepted {
        continue;
      }
      processes, events := StartWorker(processes, events, finalConfig, i, |profiles|);
    }
  }

  /** Lines 111-119: append and start the worker, then pause unless this is the last profile. */
  method StartWorker(processes: seq<Config>, events: seq<Event>, finalConfig: Config, i: nat, total: nat)
    returns (processes': seq<Config>, events': seq<Event>)
    ensures processes' == processes + [finalConfig]
    ensures events' == events + if i < total then [Spawn(finalConfig), Sleep(PacingSeconds)] else [Spawn(finalConfig)]
  {
    processes' := processes + [finalConfig];
    events' := events + [Spawn(finalConfig)];
    if i < total {
      events' := events' + [Sleep(PacingSeconds)];
      assert events' == events + [Spawn(finalConfig), Sleep(PacingSeconds)];
    }
  }

  /** Joins of handles 0 .. n-1, in order. */
  function Joins(n: nat): (events: seq<Event>)
    ensures |events| == n
    ensures forall j :: 0 <= j < n ==> events[j] == Join(j)
  {
    if n == 0 then [] else Joins(n - 1) + [Join(n - 1)]
  }

  /** The interrupt sweep: terminate then join each handle, one handle after another. */
  function Sweep(n: nat): (events: seq<Event>)
    ensures |events| == 2 * n
    ensures forall h :: 0 <= h < n ==> events[2 * h] == Terminate(h) && events[2 * h + 1] == Join(h)
    ensures forall j :: 0 <= j < |events| ==> events[j].Terminate? || events[j].Join?
  {
    if n == 0 then [] else Sweep(n - 1) + [Terminate(n - 1), Join(n - 1)]
  }

  /** Ctrl+C arrives while waiting in the join of handle `interruptAt`; a later one never arrives. */
  predicate InterruptedAt(n: nat, interruptAt: Option<nat>) {
    interruptAt.Some? && interruptAt.value < n
  }

  /**
   * The supervision phase of `main` for n workers: the joins completed before
   * the Ctrl+C, then the sweep over every handle.
   */
  function Supervision(n: nat, interruptAt: Option<nat>): (events: seq<Event>)
    ensures |events| == if InterruptedAt(n, interruptAt) then interruptAt.value + 2 * n else n
  {
    if InterruptedAt(n, interruptAt) then Joins(interruptAt.value) + Sweep(n) else Joins(n)
  }

  /**
   * Every worker is joined; after a Ctrl+C every worker is also terminated;
   * without one the phase only joins; and it never spawns or pauses.
   */
  lemma SupervisionCovers(n: nat, interruptAt: Option<nat>)
    ensures var events := Supervision(n, interruptAt);
      && (forall h :: 0 <= h < n ==> Join(h) in events)
      && (InterruptedAt(n, interruptAt) ==> forall h :: 0 <= h < n ==> Terminate(h) in events)
      && (!InterruptedAt(n, interruptAt) ==> forall j :: 0 <= j < |events| ==> events[j].Join?)
      && forall j :: 0 <= j < |events| ==> events[j].Terminate? || events[j].Join?
  {
    var events := Supervision(n, interruptAt);
    if InterruptedAt(n, interruptAt) {
      var joins, sweep := Joins(interruptAt.value), Sweep(n);
      assert events == joins + sweep;
      forall h | 0 <= h < n ensures Join(h) in events && Terminate(h) in events {
        assert events[|joins| + 2 * h] == sweep[2 * h];
        assert events[|joins| + 2 * h + 1] == sweep[2 * h + 1];
      }
      forall j | 0 <= j < |events| ensures events[j].Terminate? || events[j].Join? {
        if j < |joins| {
          assert events[j] == joins[j];
        } else {
          assert events[j] == sweep[j - |joins|];
        }
      }
    } else {
      forall h | 0 <= h < n ensures Join(h) in events {
        assert events[h] == Join(h);
      }
    }
  }

  /**
   * The `try` block: join the workers in list order until a Ctrl+C arrives
   * during the join of handle `interruptAt`.
   */
  method JoinAll(n: nat, interruptAt: Option<nat>) returns (events: seq<Event>, interrupted: bool)
    ensures interrupted <==> InterruptedAt(n, interruptAt)
    ensures events == if interrupted then Joins(interruptAt.value) else Joins(n)
  {
    events, interrupted := [], false;
    var h := 0;
    while h < n && !interrupted
      invariant 0 <= h <= n
      invariant interrupted ==> interruptAt == Some(h) && h < n
      invariant !interrupted && interruptAt.Some? ==> h <= interruptAt.value
      invariant events == Joins(h)
      decreases n - h, if interrupted then 0 else 1
    {
      if interruptAt == Some(h) {
        interrupted := true;
      } else {
        events := events + [Join(h)];
        h := h + 1;
      }
    }
  }

  /** The `except KeyboardInterrupt` block: terminate and then join each worker, in list order. */
  method TerminateAll(n: nat) returns (events: seq<Event>)
    ensures events == Sweep(n)
  {
    events := [];
    for h := 0 to n
      invariant events == Sweep(h)
    {
      events := events + [Terminate(h), Join(h)];
    }
  }

  /** Join every worker; on Ctrl+C terminate and join each one, in list order. */
  method Supervise(n: nat, interruptAt: Option<nat>) returns (events: seq<Event>, interrupted: bool)
    ensures interrupted <==> InterruptedAt(n, interruptAt)
    ensures events == Supervision(n, interruptAt)
  {
    events, interrupted := JoinAll(n, interruptAt);
    if interrupted {
      var sweep := TerminateAll(n);
      events := events + sweep;
    }
  }

  datatype RunOutcome =
    | Halted(reason: LoadError)  // configuration error: nothing spawned
    | NothingLaunched            // every profile was skipped
    | AllExited                  // every worker was joined
    | Interrupted                // Ctrl+C: every worker terminated and joined

  /**
   * `main`, from loading the settings to the end of supervision. The
   * environment, the cookies directory and the moment of a Ctrl+C are inputs.
   */
  method Run(env: Env, dirExists: bool, listing: Option<seq<string>>, root: Root, interruptAt: Option<nat>)
    returns (outcome: RunOutcome, events: seq<Event>)
    ensures var loaded := LoadInstancesFromEnv(env, dirExists, listing);
      loaded.Err? ==> outcome == Halted(loaded.error) && events == []
    ensures var loaded := LoadInstancesFromEnv(env, dirExists, listing);
      loaded.Ok? ==>
        var configs := MergeAll(loaded.value.globals, loaded.value.profiles);
        var spawned := Accepted(configs, Admissible, |configs|);
        var plan := Plan(configs, Admissible, |configs|);
        && Spawns(events) == spawned
        && (spawned == [] ==> outcome == NothingLaunched && events == [])
        && (spawned != [] ==>
              && events == plan + Supervision(|spawned|, interruptAt)
              && outcome == if InterruptedAt(|spawned|, interruptAt) then Interrupted else AllExited)
  {
    var loaded := LoadInstancesFromEnv(env, dirExists, listing);
    if loaded.Err? {
      return Halted(loaded.error), [];
    }
    var globals, profiles := loaded.value.globals, loaded.value.profiles;
    var processes;
    processes, events := LaunchAll(globals, profiles, root);
    PlanSpawnsAccepted(MergeAll(globals, profiles), Admissible, |profiles|);
    PlanEmptyIff(MergeAll(globals, profiles), Admissible, |profiles|);
    if processes == [] {
      return NothingLaunched, events;
    }
    var supervision, interrupted := Supervise(|processes|, interruptAt);
    SupervisionSpawnsNothing(|processes|, interruptAt);
    SpawnsAppend(events, supervision);
    events := events + supervision;
    outcome := if interrupted then Interrupted else AllExited;
  }

  /** The supervision phase starts no worker. */
  lemma SupervisionSpawnsNothing(n: nat, interruptAt: Option<nat>)
    ensures Spawns(Supervision(n, interruptAt)) == []
  {
    SupervisionCovers(n, interruptAt);
    NoSpawnEventNoSpawns(Supervision(n, interruptAt));
  }

  lemma {:induction false} NoSpawnEventNoSpawns(events: seq<Event>)
    requires forall j :: 0 <= j < |events| ==> !events[j].Spawn?
    ensures Spawns(events) == []
  {
    if events != [] {
      assert forall j :: 0 <= j < |events[1..]| ==> events[1..][j] == events[j + 1];
      NoSpawnEventNoSpawns(events[1..]);
    }
  }
}
