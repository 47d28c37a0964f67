/**
  The multi-user heartbeat scheduler: one recurring job per user, keyed by
  `"heartbeat_" + user id`, and a table of per-user enabled flags.

  The job store of the underlying timer library is modelled as a map from
  job id to `Job`; the interval trigger is abstract, so the time a job fires
  next (`nextRun`) is a value the caller supplies and the job owns. The user
  registry and the per-user configuration are inputs: a sequence of user
  records with a status, and a map from user id to its heartbeat settings.
 */
module Scheduler {
  import opened Wrappers

  type Instant = int

  const JOB_PREFIX: string := "heartbeat_"

  /** Interval used when a caller gives none. */
  const DEFAULT_INTERVAL_MINUTES: int := 15

  datatype Job = Job(userId: string, intervalMinutes: int, nextRun: Instant)

  /** The scheduler's whole state: the job store and the enabled flags. */
  datatype Table = Table(jobs: map<string, Job>, userStates: map<string, bool>)

  datatype UserStatus = UserStatus(enabled: bool, nextRun: Option<Instant>, jobExists: bool)

  datatype RegistryStatus = Active | Inactive
  datatype UserRecord = UserRecord(userId: string, status: RegistryStatus)
  datatype UserConfig = UserConfig(heartbeatIntervalMinutes: int, heartbeatEnabled: bool)

  function JobId(userId: string): string
  {
    JOB_PREFIX + userId
  }

  /** Job ids are injective in the user id: two users never share a job. */
  lemma JobIdInjective(u: string, v: string)
    ensures JobId(u) == JobId(v) <==> u == v
  {
    if JobId(u) == JobId(v) {
      assert u == JobId(u)[|JOB_PREFIX|..];
    }
  }

  lemma JobIdsDistinct()
    ensures forall u, v {:trigger JobId(u), JobId(v)} :: u != v ==> JobId(u) != JobId(v)
  {
    forall u, v | u != v ensures JobId(u) != JobId(v) {
      JobIdInjective(u, v);
    }
  }

  /** Every job is stored under the id derived from its own user. */
  ghost predicate WellKeyed(t: Table)
  {
    forall id :: id in t.jobs ==> id == JobId(t.jobs[id].userId)
  }

  /** The job the store holds for user `u`, if any. */
  function JobIn(t: Table, u: string): Option<Job>
  {
    if JobId(u) in t.jobs then Some(t.jobs[JobId(u)]) else None
  }

  /** `is_enabled`: a user without a flag counts as enabled. */
  function EnabledIn(t: Table, u: string): bool
  {
    if u in t.userStates then t.userStates[u] else true
  }

  /** The ids of all jobs in the store that run for user `u`. */
  function JobsOfUser(t: Table, u: string): set<string>
  {
    set id | id in t.jobs && t.jobs[id].userId == u
  }

  /** In a well-keyed store each user has at most one job, the one under
      `JobId(u)`. */
  lemma AtMostOneJobPerUser(t: Table, u: string)
    requires WellKeyed(t)
    ensures JobsOfUser(t, u) == if JobId(u) in t.jobs then {JobId(u)} else {}
  {
    forall id | id in JobsOfUser(t, u) ensures id == JobId(u) {
      assert id == JobId(t.jobs[id].userId);
    }
    if JobId(u) in t.jobs {
      assert t.jobs[JobId(u)].userId == u by {
        JobIdInjective(u, t.jobs[JobId(u)].userId);
      }
    }
  }

  /** `add_user`: the job under `JobId(u)` is replaced (never duplicated) by
      one with the new interval, and `u`'s flag is set; nothing about any
      other user changes. */
  function Added(t: Table, u: string, intervalMinutes: int, enabled: bool, nextRun: Instant): (r: Table)
    ensures JobIn(r, u) == Some(Job(u, intervalMinutes, nextRun))
    ensures EnabledIn(r, u) == enabled
    ensures forall v :: v != u ==> JobIn(r, v) == JobIn(t, v) && EnabledIn(r, v) == EnabledIn(t, v)
    ensures r.jobs.Keys == t.jobs.Keys + {JobId(u)}
    ensures WellKeyed(t) ==> WellKeyed(r)
  {
    JobIdsDistinct();
    Table(t.jobs[JobId(u) := Job(u, intervalMinutes, nextRun)], t.userStates[u := enabled])
  }

  /** `remove_user`: `u`'s job (if any) and flag are dropped; `u` then counts
      as enabled again, and no other user is affected. */
  function Removed(t: Table, u: string): (r: Table)
    ensures JobIn(r, u) == None && u !in r.userStates && EnabledIn(r, u)
    ensures forall v :: v != u ==> JobIn(r, v) == JobIn(t, v) && EnabledIn(r, v) == EnabledIn(t, v)
    ensures r.jobs.Keys == t.jobs.Keys - {JobId(u)}
    ensures JobId(u) !in t.jobs && u !in t.userStates ==> r == t
    ensures WellKeyed(t) ==> WellKeyed(r)
  {
    JobIdsDistinct();
    var jobs := if JobId(u) in t.jobs then t.jobs - {JobId(u)} else t.jobs;
    Table(jobs, t.userStates - {u})
  }

  /** `pause_user`: only the flag changes; the job store is untouched. */
  function Paused(t: Table, u: string): (r: Table)
    ensures r.jobs == t.jobs && !EnabledIn(r, u)
    ensures forall v :: v != u ==> EnabledIn(r, v) == EnabledIn(t, v)
  {
    Table(t.jobs, t.userStates[u := false])
  }

  /** `resume_user`: only the flag changes; the job store is untouched. */
  function Resumed(t: Table, u: string): (r: Table)
    ensures r.jobs == t.jobs && EnabledIn(r, u)
    ensures forall v :: v != u ==> EnabledIn(r, v) == EnabledIn(t, v)
  {
    Table(t.jobs, t.userStates[u := true])
  }

  /** `get_user_status`. */
  function StatusIn(t: Table, u: string): (s: UserStatus)
    ensures s.jobExists <==> JobIn(t, u).Some?
    ensures s.enabled == EnabledIn(t, u)
    ensures s.nextRun == if JobIn(t, u).Some? then Some(JobIn(t, u).value.nextRun) else None
  {
    var id := JobId(u);
    UserStatus(EnabledIn(t, u), if id in t.jobs then Some(t.jobs[id].nextRun) else None, id in t.jobs)
  }

  /** A pause followed by a resume leaves the same job, with the same
      `nextRun`, as before the pause, and the user enabled. */
  lemma PauseThenResume(t: Table, u: string)
    ensures Resumed(Paused(t, u), u).jobs == t.jobs
    ensures JobIn(Resumed(Paused(t, u), u), u) == JobIn(t, u)
    ensures StatusIn(Resumed(Paused(t, u), u), u) == StatusIn(t, u).(enabled := true)
  {
  }

  /** Re-adding a user replaces its job: the number of jobs does not grow and
      the user still has exactly one job. */
  lemma ReAddReplaces(t: Table, u: string, i1: int, e1: bool, n1: Instant, i2: int, e2: bool, n2: Instant)
    requires WellKeyed(t)
    ensures var once := Added(t, u, i1, e1, n1);
      var twice := Added(once, u, i2, e2, n2);
      |twice.jobs| == |once.jobs| && JobsOfUser(twice, u) == {JobId(u)} &&
      JobIn(twice, u) == Some(Job(u, i2, n2)) && EnabledIn(twice, u) == e2
  {
    var once := Added(t, u, i1, e1, n1);
    var twice := Added(once, u, i2, e2, n2);
    assert twice.jobs.Keys == once.jobs.Keys;
    AtMostOneJobPerUser(twice, u);
  }

  /** `user_registry.list_users(status="active")`. */
  function ActiveUsers(users: seq<UserRecord>): (active: seq<UserRecord>)
    ensures forall r :: r in active <==> r in users && r.status == Active
    ensures |active| <= |users|
  {
    if users == [] then []
    else
      var rest := ActiveUsers(users[..|users| - 1]);
      var last := users[|users| - 1];
      assert users == users[..|users| - 1] + [last];
      if last.status == Active then rest + [last] else rest
  }

  /** The job the scheduler's start-up installs for user `u`. */
  function ConfiguredJob(u: string, c: UserConfig, firstRun: int -> Instant): Job
  {
    Job(u, c.heartbeatIntervalMinutes, firstRun(c.heartbeatIntervalMinutes))
  }

  /** The loop of `start`: `add_user` for each listed user, in order, with the
      interval and enabled flag of that user's configuration (`configOf`
      stands for the per-user configuration store); `firstRun` stands for the
      interval trigger's first fire time. */
  function Started(t: Table, users: seq<UserRecord>, configOf: string -> UserConfig,
                   firstRun: int -> Instant): Table
  {
    if users == [] then t
    else
      var last := users[|users| - 1];
      var before := Started(t, users[..|users| - 1], configOf, firstRun);
      var c := configOf(last.userId);
      Added(before, last.userId, c.heartbeatIntervalMinutes, c.heartbeatEnabled, firstRun(c.heartbeatIntervalMinutes))
  }

  /** Starting one more user is one more `add_user` on the table so far. */
  lemma StartedStep(t: Table, users: seq<UserRecord>, configOf: string -> UserConfig,
                    firstRun: int -> Instant, i: nat)
    requires i < |users|
    ensures var c := configOf(users[i].userId);
      Started(t, users[..i + 1], configOf, firstRun) ==
      Added(Started(t, users[..i], configOf, firstRun), users[i].userId,
            c.heartbeatIntervalMinutes, c.heartbeatEnabled, firstRun(c.heartbeatIntervalMinutes))
  {
    assert users[..i + 1][..i] == users[..i];
  }

  /** After start-up every listed user has the job and flag of its
      configuration, and every other user keeps its job and flag. */
  lemma {:induction false} StartedSchedules(t: Table, users: seq<UserRecord>, configOf: string -> UserConfig,
                                            firstRun: int -> Instant, u: string)
    ensures (exists r :: r in users && r.userId == u) ==>
      JobIn(Started(t, users, configOf, firstRun), u) == Some(ConfiguredJob(u, configOf(u), firstRun)) &&
      EnabledIn(Started(t, users, configOf, firstRun), u) == configOf(u).heartbeatEnabled
    ensures (forall r :: r in users ==> r.userId != u) ==>
      JobIn(Started(t, users, configOf, firstRun), u) == JobIn(t, u) &&
      EnabledIn(Started(t, users, configOf, firstRun), u) == EnabledIn(t, u)
    ensures WellKeyed(t) ==> WellKeyed(Started(t, users, configOf, firstRun))
    decreases |users|
  {
    if users != [] {
      var init := users[..|users| - 1];
      var last := users[|users| - 1];
      assert users == init + [last];
      forall r | r in init ensures r in users { }
      StartedSchedules(t, init, configOf, firstRun, u);
      if last.userId != u && exists r :: r in users && r.userId == u {
        var r :| r in users && r.userId == u;
        assert r in init;
      }
    }
  }

  /** Started from an empty scheduler, exactly the active users get a job,
      each with its configured interval and enabled flag. */
  lemma StartJobsExactlyActive(users: seq<UserRecord>, configOf: string -> UserConfig,
                               firstRun: int -> Instant, u: string)
    ensures var t := Started(Table(map[], map[]), ActiveUsers(users), configOf, firstRun);
      && (JobIn(t, u).Some? <==> exists r :: r in users && r.status == Active && r.userId == u)
      && (JobIn(t, u).Some? ==> JobIn(t, u) == Some(ConfiguredJob(u, configOf(u), firstRun)) &&
                                EnabledIn(t, u) == configOf(u).heartbeatEnabled)
      && WellKeyed(t)
  {
    StartedSchedules(Table(map[], map[]), ActiveUsers(users), configOf, firstRun, u);
  }

  /** The scheduler object: the job store and the flag table are its two
      fields, updated in place by its methods. */
  class HeartbeatScheduler {
    var jobs: map<string, Job>
    var userStates: map<string, bool>

    function Snapshot(): Table
      reads this
    {
      Table(jobs, userStates)
    }

    ghost predicate Valid()
      reads this
    {
      WellKeyed(Snapshot())
    }

    constructor ()
      ensures Valid() && jobs == map[] && userStates == map[]
    {
      jobs := map[];
      userStates := map[];
    }

    /** The enable gate at the top of `heartbeat_job`: it reports whether the
        heartbeat goes on to the decision engine (`true`) or returns early. */
    method HeartbeatJob(userId: string) returns (proceeds: bool)
      ensures proceeds == EnabledIn(Snapshot(), userId)
    {
      proceeds := IsEnabled(userId);
    }

    /** `add_user`; the interval and the flag default as in the source. */
    method AddUser(userId: string, nextRun: Instant, intervalMinutes: int := DEFAULT_INTERVAL_MINUTES,
                   enabled: bool := true)
      requires Valid()
      modifies this
      ensures Valid()
      ensures Snapshot() == Added(old(Snapshot()), userId, intervalMinutes, enabled, nextRun)
    {
      var jobId := JobId(userId);
      jobs := jobs[jobId := Job(userId, intervalMinutes, nextRun)];
      userStates := userStates[userId := enabled];
    }

    method RemoveUser(userId: string)
      requires Valid()
      modifies this
      ensures Valid()
      ensures Snapshot() == Removed(old(Snapshot()), userId)
    {
      var jobId := JobId(userId);
      if jobId in jobs {
        jobs := jobs - {jobId};
      }
      userStates := userStates - {userId};
    }

    method PauseUser(userId: string)
      requires Valid()
      modifies this
      ensures Valid()
      ensures Snapshot() == Paused(old(Snapshot()), userId)
    {
      userStates := userStates[userId := false];
    }

    method ResumeUser(userId: string)
      requires Valid()
      modifies this
      ensures Valid()
      ensures Snapshot() == Resumed(old(Snapshot()), userId)
    {
      userStates := userStates[userId := true];
    }

    method IsEnabled(userId: string) returns (enabled: bool)
      ensures enabled == EnabledIn(Snapshot(), userId)
    {
      enabled := if userId in userStates then userStates[userId] else true;
    }

    method GetUserStatus(userId: string) returns (status: UserStatus)
      ensures status == StatusIn(Snapshot(), userId)
    {
      var jobId := JobId(userId);
      var enabled := IsEnabled(userId);
      var nextRun := if jobId in jobs then Some(jobs[jobId].nextRun) else None;
      status := UserStatus(enabled, nextRun, jobId in jobs);
    }

    /** `start`: one `add_user` per active user of the registry, with that
        user's configured interval and enabled flag. */
    method Start(users: seq<UserRecord>, configOf: string -> UserConfig, firstRun: int -> Instant)
      requires Valid()
      modifies this
      ensures Valid()
      ensures Snapshot() == Started(old(Snapshot()), ActiveUsers(users), configOf, firstRun)
    {
      var active := ActiveUsers(users);
      var i := 0;
      while i < |active|
        invariant 0 <= i <= |active|
        invariant Valid()
        invariant Snapshot() == Started(old(Snapshot()), active[..i], configOf, firstRun)
      {
        var user := active[i];
        StartedStep(old(Snapshot()), active, configOf, firstRun, i);
        var config := configOf(user.userId);
        AddUser(user.userId, firstRun(config.heartbeatIntervalMinutes),
                config.heartbeatIntervalMinutes, config.heartbeatEnabled);
        i := i + 1;
      }
      assert active[..i] == active;
    }
  }
}
