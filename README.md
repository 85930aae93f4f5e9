# Camoufox instance launcher, modelled in Dafny

`run_camoufox.py` starts one Camoufox browser worker per cookie file.

1. It reads the shared target URL and the optional headless mode and proxy from the environment. `_clean_env_value` strips each value and treats a blank one as absent.
2. It lists the cookies directory and turns every `*.json` entry into a profile `{"cookie_file": name}`.
3. It merges each profile over the global settings and checks the merged configuration:
   - both keys are present;
   - the cookie file is a bare file name;
   - the name ends in `.json`;
   - the file resolves inside the cookies directory.
4. It starts a worker for each configuration that passes. After every accepted profile other than the last profile of the list, it pauses 30 seconds, even when every later profile is then skipped.
5. It then joins every worker. A Ctrl+C during the joins makes it terminate and join each worker in turn.

The model is split into these modules:

- `Text`: Python's `str.strip`, `str.lower`, `str.endswith` and `os.path.basename`.
- `Paths`: a lexical `Path.resolve` and the "lies under the cookies root" test.
- `ConfigValidator`: the merge of the global settings with a profile, and the four checks.
- `ConfigLoader`: `_clean_env_value` and `load_instances_from_env`. The environment is a map. Whether the cookies directory exists is a flag. The directory listing is an optional sequence of names; `None` stands for a listing that raised.
- `Supervisor`: the rest of `main`, as methods that produce the sequence of `Event`s the launcher performs. The events are `Spawn(config)`, `Sleep(seconds)`, `Join(handle)` and `Terminate(handle)`. A handle is a worker's position in the `processes` list.
  - The launch loop is `LaunchAll`. It is proved equal to the specification `Plan`, and the list of workers it starts is proved equal to `Accepted`. Both specifications filter the merged configurations with `Admissible`, the checks that decide acceptance; `Validate`'s contract proves it accepts exactly those configurations.
  - The join phase and the interrupt sweep are `JoinAll` and `TerminateAll`. `Supervise` combines them into `Supervision`.
  - The moment of a Ctrl+C is an input: the handle whose join it interrupts.

Three consequences of the code, proved here:

- **The containment check never fails.** Resolution is modelled lexically, without symbolic links. Under that model, once the basename check (line 91) and the `.json` check (line 97) have passed, the containment check at line 105 can no longer fail. `Validate` therefore never returns `Reject(OutsideRoot)`. `ParentEscapes` shows that the test itself does reject a `..` name.
- **Every discovered file is started, with a pause between spawns.** Under lexical resolution (no symbolic links), this holds because a directory entry never contains `/`. So when loading succeeds, every `.json` file of the listing gets one worker, in listing order, whose configuration holds the shared URL and that file (`LoadedProfilesAllSpawn`). For discovered profiles the launch events alternate spawn, pause, …, spawn (`DiscoveredPlanAlternates`). Whatever is accepted or skipped, a spawn that is not the last launch event is followed at once by a 30-second pause (`PlanSpawnsPaced`).
- **Pacing follows the profile index, not the spawn count.** The test is `i < len(instance_profiles)`. A profile after the last accepted one that is rejected still leaves that spawn's 30-second pause in place. Under lexical resolution (no symbolic links), this can only happen with profiles that do not come from discovery. `PlanSleeps` states the exact count.

Two details of `main` are easy to misread; the model follows the code:

- **Ctrl+C is caught only during the joins.** The `try` at line 127 covers the join loop only. A Ctrl+C during the 30-second pauses is not caught by `main`, so no sweep happens. The model places the interrupt in the join phase only.
- **The sweep interleaves terminate and join.** For each handle in list order, the code terminates that worker and then joins it (lines 132-134). It does not terminate every worker before joining any.

## Model

| member | source | states |
|---|---|---|
| Text.Strip | run_camoufox.py:13 | the result is the slice of the input between its leading and trailing Python whitespace. It neither starts nor ends with whitespace. It is empty exactly when the input is all whitespace |
| Text.StripOfUnique | run_camoufox.py:13 | at most one string is a strip of a given input, so `Strip` is the only strip |
| Text.StripIdempotent | run_camoufox.py:13 | stripping a stripped string changes nothing |
| Text.IsJsonNameIff | run_camoufox.py:45 | `name.lower().endswith('.json')` holds exactly when the name has at least five characters and they end in `.json` in any letter case |
| Text.IsJsonName | run_camoufox.py:97 | `name.lower().endswith('.json')`; characterized by `Text.IsJsonNameIff` |
| Text.Basename | run_camoufox.py:91 | `os.path.basename` is the suffix of the path after its last `/`: it contains no `/`, when the path has a `/` the character just before the result is that `/`, and when it has none the result is the whole path |
| Text.BasenameFixedIff | run_camoufox.py:91 | `basename(name) == name` exactly when the name contains no `/` |
| Paths.SplitJoin | run_camoufox.py:104 | splitting a name at `/` and joining the pieces gives the name back |
| Paths.Resolve | run_camoufox.py:104 | `(cookies_root / name).resolve()` is a resolved path; `Paths.ResolvePlainName` gives its value for a plain name |
| Paths.Within | run_camoufox.py:105 | `cookies_root in p.parents or p == cookies_root` is "the root is a prefix of p"; `Paths.ResolvePlainName` and `Paths.ParentEscapes` show both outcomes |
| Paths.Normalize | run_camoufox.py:104 | a resolved path has no empty, `.` or `..` component |
| Paths.NormalizeWithoutParentStaysWithin | run_camoufox.py:104-105 | a walk with no `..` component stays under its starting directory |
| Paths.RelativeWithoutParentStaysWithin | run_camoufox.py:104-105 | a relative name with no `..` component resolves under the cookies root |
| Paths.ResolvePlainName | run_camoufox.py:103-105 | `(cookies_root / name).resolve()` for a plain file name is the root's child of that name, and it passes the containment test |
| Paths.ParentEscapes | run_camoufox.py:105 | `..` resolves outside any root other than `/`, so the containment test can reject |
| ConfigValidator.Merge | run_camoufox.py:83-84 | `global_settings.copy()` updated with the profile; its properties are `ConfigValidator.MergeOverrides` |
| ConfigValidator.Admissible | run_camoufox.py:86-101 | both keys present, no `/` in the cookie file, and a `.json` name; `ConfigValidator.Validate` accepts exactly these configurations |
| ConfigValidator.MergeOverrides | run_camoufox.py:83-84 | the merged configuration has the keys of both; profile values win, and global values are kept otherwise |
| ConfigValidator.Validate | run_camoufox.py:86-109 | the first failing check decides the reason: a missing key, then a directory part, then a non-`.json` name. The containment check never rejects once the first three pass. A configuration is accepted exactly when all three hold, and an accepted cookie file resolves inside the cookies root |
| ConfigLoader.CleanEnvValue | run_camoufox.py:10-14 | an absent value stays absent. A present value becomes absent exactly when it is all whitespace; otherwise it becomes its non-empty strip |
| ConfigLoader.CleanEnvValueIdempotent | run_camoufox.py:10-14 | cleaning a cleaned value changes nothing |
| ConfigLoader.JsonFiles | run_camoufox.py:45 | every kept entry is from the listing and is a `.json` name; the result is no longer than the listing |
| ConfigLoader.JsonFilesComplete | run_camoufox.py:45 | every `.json` entry of the listing is kept |
| ConfigLoader.JsonFilesAppend | run_camoufox.py:45 | the filter distributes over concatenation, so it keeps listing order |
| ConfigLoader.JsonFilesEmptyIff | run_camoufox.py:45-47 | no cookie file is found exactly when no entry is a `.json` name |
| ConfigLoader.ProfilesOf | run_camoufox.py:56 | one `{"cookie_file": f}` profile per file, in order |
| ConfigLoader.GlobalSettings | run_camoufox.py:28-35 | the globals hold the URL and the cleaned headless mode (default `virtual`). They hold a proxy exactly when the cleaned proxy is present, and no other key |
| ConfigLoader.LoadInstancesFromEnv | run_camoufox.py:17-61 | each error occurs exactly under its condition, in the code's order: a missing or blank URL, no directory, a failed listing, no `.json` entry. Otherwise the result is the global settings and one profile per `.json` entry, and it is non-empty |
| Supervisor.MergeAll | run_camoufox.py:82-84 | the i-th merged configuration is the globals updated with the i-th profile |
| Supervisor.Accepted | run_camoufox.py:82-114 | the configurations that pass, in profile order; at most one per profile. Soundness is `Supervisor.AcceptedPass`, completeness `Supervisor.AcceptedComplete` |
| Supervisor.Step | run_camoufox.py:111-119 | one iteration's events; their shape and counts are `Supervisor.StepShape` and `Supervisor.StepCounts` |
| Supervisor.Plan | run_camoufox.py:82-119 | the launch loop's events; its properties are the `Supervisor.Plan*` lemmas |
| Supervisor.StepCounts | run_camoufox.py:111-119 | one loop iteration spawns its configuration exactly when it is accepted, and pauses exactly when it is accepted and not the last |
| Supervisor.StepShape | run_camoufox.py:111-119 | an iteration's events are nothing, a spawn, or a spawn followed by a 30-second pause |
| Supervisor.AcceptedPass | run_camoufox.py:86-113 | every configuration handed to a worker passed validation |
| Supervisor.AcceptedComplete | run_camoufox.py:86-113 | every configuration that passes the checks is handed to a worker, whatever the other profiles are |
| Supervisor.AcceptedWithinRoot | run_camoufox.py:103-113 | every configuration handed to a worker is accepted by `Validate`, and its cookie file resolves inside the cookies root |
| Supervisor.PlanSpawnsAccepted | run_camoufox.py:82-114 | the workers spawned are exactly the accepted configurations, in profile order |
| Supervisor.PlanSleeps | run_camoufox.py:116-119 | the loop pauses once per accepted profile, except for the last profile when it is accepted |
| Supervisor.PlanPausesFollowSpawns | run_camoufox.py:111-119 | the loop only spawns and pauses. Every pause lasts 30 seconds and comes straight after a spawn |
| Supervisor.PlanSpawnsPaced | run_camoufox.py:111-119 | for any mix of accepted and skipped profiles, a spawn that is not the loop's final event is followed straight away by a 30-second pause, and before the last profile the events so far end with a pause |
| Supervisor.PlanEmptyIff | run_camoufox.py:82-123 | the loop does nothing at all exactly when no configuration is accepted |
| Supervisor.LastProfileNotPaced | run_camoufox.py:117 | when the last profile is accepted, the loop ends with its spawn and not with a pause |
| Supervisor.AllAcceptedPlanAlternates | run_camoufox.py:82-119 | with every profile accepted, the events alternate spawn and 30-second pause, ending with the last spawn |
| Supervisor.AllAcceptedSpawnsAll | run_camoufox.py:82-114 | with every profile accepted, every profile gets a worker, in order |
| Supervisor.DiscoveredConfigAccepted | run_camoufox.py:83-109 | a discovered file's merged configuration carries the shared URL and that file, and it is accepted |
| Supervisor.DiscoveredProfilesAllSpawn | run_camoufox.py:56-114 | every discovered file gets a worker, in listing order, whose configuration carries the shared URL and that file |
| Supervisor.DiscoveredPlanAlternates | run_camoufox.py:56-119 | with discovered profiles the launch events are the worker for each file in order, separated by 30-second pauses, ending with the last worker |
| Supervisor.LoadedSettings | run_camoufox.py:22-61 | a successful load yields globals holding the cleaned shared URL and one profile per `.json` entry, at least one |
| Supervisor.LoadedProfilesAllSpawn | run_camoufox.py:17-114 | from the environment: when loading succeeds and no entry contains `/`, each `.json` file gets exactly one worker, in listing order, holding the cleaned shared URL and that file |
| Supervisor.Admit | run_camoufox.py:83-109 | the merged configuration of one profile, and whether `Validate` accepts it, which is exactly `Admissible` |
| Supervisor.StartWorker | run_camoufox.py:111-119 | appends the worker, spawns it, and pauses 30 seconds exactly when the profile is not the last |
| Supervisor.LaunchAll | run_camoufox.py:81-119 | the workers started and the events of the launch loop are those of the specification `Accepted` and `Plan` over `Admissible` |
| Supervisor.Joins | run_camoufox.py:128-129 | the join loop joins handles 0 … n-1 in order |
| Supervisor.Sweep | run_camoufox.py:132-134 | the sweep terminates and then joins each handle, handle after handle. It does nothing else |
| Supervisor.Supervision | run_camoufox.py:127-134 | without an interrupt, the phase has one event per worker. After an interrupt at handle h, it has h joins and then two events per worker |
| Supervisor.SupervisionCovers | run_camoufox.py:127-134 | every worker is joined. After a Ctrl+C every worker is also terminated. Without one the phase only joins, and it only ever terminates or joins |
| Supervisor.SupervisionSpawnsNothing | run_camoufox.py:127-134 | supervision starts no worker |
| Supervisor.JoinAll | run_camoufox.py:127-129 | reports an interrupt exactly when the Ctrl+C falls within the joins. The events are the joins completed before it |
| Supervisor.TerminateAll | run_camoufox.py:130-134 | performs exactly the sweep |
| Supervisor.Supervise | run_camoufox.py:127-134 | reports an interrupt exactly when one falls within the joins, and its events are `Supervision` |
| Supervisor.Run | run_camoufox.py:64-135 | a load error stops before any worker. The workers spawned are exactly the accepted configurations. With none accepted nothing happens. Otherwise the launch events are followed by supervision, and the outcome says whether a Ctrl+C interrupted it |

## Left out

- Logging and log messages, `setup_logging` and the two `os.makedirs` calls (lines 68-72). They have no effect on which workers start. Because `main` creates the cookies directory at line 70 before loading, `Supervisor.Run` with `dirExists == false` (outcome `Halted(MissingCookiesDir)`) is not reachable from `main`; that outcome belongs to `load_instances_from_env` called on its own.
- `run_browser_instance` and the browser work of each worker. A worker is its configuration; `multiprocessing.Process`, `start`, `join` and `terminate` are events, not processes.
- Concurrency: workers exiting in another order, or a worker that never exits. A join is an event that completes.
- A Ctrl+C outside the join loop, for example during a 30-second pause. Python lets it escape `main`, and the model has no event for it. A second Ctrl+C during the sweep is left out as well.
- Paths.Resolve: symbolic links are not followed, and `resolve()` is modelled lexically. A link inside the cookies directory that points outside it would be rejected by line 105 and is not modelled.
- Paths.Resolve: paths are POSIX only. Windows separators and drive letters are not modelled.
- Text.Lower: only ASCII letters are lowered. Python's full Unicode case mapping (for example the Kelvin sign lowering to `k`) is not modelled.
- Text.IsSpace: the set of characters Python's `str.isspace` accepts is written out. It is not derived from the Unicode database.
- ConfigValidator.Validate: the basename test `os.path.basename(c) != c` is written as `'/' in c`. `Text.BasenameFixedIff` proves the two equal.
- Supervisor.Accepted: its own contract states only the length bound. That accepted configurations passed validation is stated by `Supervisor.AcceptedPass`.
- `cookies_dir()` and `logs_dir()` are not part of this model. The resolved cookies directory is an input `root`.
- `multiprocessing.freeze_support` and the `__main__` guard.
