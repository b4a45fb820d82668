/** Finding and recovering silent jobs: src/domain/orphan/orphan-recovery.ts,
    src/domain/orphan/orphan-scanner.ts, and the job list it is fed by
    src/store/control-plane-store.ts. */
module Orphans {
  import opened Prelude
  import opened Leases

  type TaskId = string

  datatype Stage = Plan | Dev | Acceptance | Integrating | Publishing

  datatype Reason = LeaseExpired | HeartbeatTimeout

  datatype Config = Config(heartbeatIntervalSeconds: int, maxRecoveryAttempts: int)

  const DEFAULT_CONFIG := Config(30, 3)
  const HEARTBEAT_THRESHOLD_MULTIPLIER := 5

  datatype JobInfo = JobInfo(
    job: JobId, task: TaskId, stage: Stage, expiresAt: int, lastHeartbeatAt: Option<int>, retryCount: int)

  datatype Decision = Retry(stage: Stage) | Block(resume: Stage)

  datatype Recovery = Recovery(job: JobId, task: TaskId, decision: Decision, reason: Reason)

  // ---------------------------------------------------------------- recovery rules

  function DetectOrphan(cfg: Config, expiresAt: int, lastHeartbeatAt: Option<int>, now: int): Option<Reason> {
    if expiresAt < now then Some(LeaseExpired)
    else if lastHeartbeatAt.Some?
         && now - lastHeartbeatAt.value > cfg.heartbeatIntervalSeconds * HEARTBEAT_THRESHOLD_MULTIPLIER * 1000
    then Some(HeartbeatTimeout)
    else None
  }

  function MaxRetriesForStage(cfg: Config, stage: Stage): int {
    match stage
    case Integrating | Publishing => 0
    case Plan => Min(2, cfg.maxRecoveryAttempts)
    case Dev => Min(3, cfg.maxRecoveryAttempts)
    case Acceptance => Min(1, cfg.maxRecoveryAttempts)
  }

  function Min(a: int, b: int): int {
    if a <= b then a else b
  }

  function DetermineRecoveryAction(cfg: Config, stage: Stage, retryCount: int): Decision {
    if stage.Integrating? || stage.Publishing? then Block(stage)
    else if stage.Acceptance? then Block(Acceptance)
    else if retryCount < MaxRetriesForStage(cfg, stage) then Retry(stage)
    else Block(stage)
  }

  // ---------------------------------------------------------------- the silence threshold

  /** How long a job may stay silent: the shorter of its lease and five heartbeat intervals. */
  function Patience(cfg: Config, duration: int): int {
    Min(duration, cfg.heartbeatIntervalSeconds * HEARTBEAT_THRESHOLD_MULTIPLIER * 1000)
  }

  /** In every run from an empty manager the two tests together flag a leased job exactly when its
      silence, measured on the run, exceeds the threshold. Lease takeover opens at the expiry
      itself, one instant before the scanner calls the lease expired. */
  lemma {:induction false} FlaggedIffSilent(cfg: Config, d: int, run: Run, n: nat, j: JobId, now: int)
    requires n <= |run| && j in After(map[], d, run, n)
    ensures var l := After(map[], d, run, n)[j];
            var heard := LastSignOfLife(map[], d, run, n, j);
      && heard.Some?
      && (DetectOrphan(cfg, l.expiresAt, Some(l.lastHeartbeatAt), now).Some?
          <==> now - heard.value > d || now - heard.value > 5000 * cfg.heartbeatIntervalSeconds)
      && (Expired(l, now) <==> now - heard.value >= d)
  {
    LeaseReflectsLastSign(d, run, n, j);
  }

  // ---------------------------------------------------------------- one scan

  /** What the scan does about one job, if anything. */
  function Treat(cfg: Config, now: int, info: JobInfo): Option<Recovery> {
    match DetectOrphan(cfg, info.expiresAt, info.lastHeartbeatAt, now)
    case None => None
    case Some(reason) =>
      Some(Recovery(info.job, info.task, DetermineRecoveryAction(cfg, info.stage, info.retryCount), reason))
  }

  /** A job is retried by a scan if it is a plan job retried less than twice or a dev job retried less than
      three times, and either less often than the configured limit. */
  predicate RetriedByScan(cfg: Config, info: JobInfo) {
    && (info.stage.Plan? || info.stage.Dev?)
    && info.retryCount < cfg.maxRecoveryAttempts
    && info.retryCount < if info.stage.Plan? then 2 else 3
  }

  /** `r` is what a scan at `now` does about `info`: a silent job is retried or blocked where it stands. */
  predicate Answers(cfg: Config, now: int, info: JobInfo, r: Recovery) {
    && (now > info.expiresAt
        || (info.lastHeartbeatAt.Some? && now - info.lastHeartbeatAt.value > 5000 * cfg.heartbeatIntervalSeconds))
    && r == Recovery(info.job, info.task, if RetriedByScan(cfg, info) then Retry(info.stage) else Block(info.stage),
                     if now > info.expiresAt then LeaseExpired else HeartbeatTimeout)
  }

  lemma TreatAnswers(cfg: Config, now: int, info: JobInfo, r: Recovery)
    ensures Treat(cfg, now, info) == Some(r) <==> Answers(cfg, now, info, r)
  {}

  /** By default a job may be silent for two and a half minutes. */
  lemma DefaultPatience(now: int, info: JobInfo)
    requires now <= info.expiresAt
    ensures Treat(DEFAULT_CONFIG, now, info).Some? <==>
      info.lastHeartbeatAt.Some? && now - info.lastHeartbeatAt.value > 150000
    ensures RetriedByScan(DEFAULT_CONFIG, info) <==>
      (info.stage.Plan? && info.retryCount < 2) || (info.stage.Dev? && info.retryCount < 3)
  {}

  function Recoveries(cfg: Config, now: int, infos: seq<JobInfo>): seq<Recovery> {
    if infos == [] then []
    else
      var last := infos[|infos| - 1];
      var before := Recoveries(cfg, now, infos[..|infos| - 1]);
      if Treat(cfg, now, last).Some? then before + [Treat(cfg, now, last).value] else before
  }

  lemma {:induction false} RecoveriesTreat(cfg: Config, now: int, infos: seq<JobInfo>)
    ensures forall r :: r in Recoveries(cfg, now, infos) <==>
      exists i :: 0 <= i < |infos| && Treat(cfg, now, infos[i]) == Some(r)
    ensures |Recoveries(cfg, now, infos)| <= |infos|
  {
    if infos != [] {
      var before, last := infos[..|infos| - 1], infos[|infos| - 1];
      RecoveriesTreat(cfg, now, before);
      forall r ensures r in Recoveries(cfg, now, infos) <==>
        exists i :: 0 <= i < |infos| && Treat(cfg, now, infos[i]) == Some(r)
      {
        if r in Recoveries(cfg, now, before) {
          var i :| 0 <= i < |before| && Treat(cfg, now, before[i]) == Some(r);
          assert infos[i] == before[i];
        }
        if i :| 0 <= i < |infos| && Treat(cfg, now, infos[i]) == Some(r) {
          assert i < |before| ==> infos[i] == before[i];
        }
      }
    }
  }

  /** Every silent job is treated, as its stage and its retries decide, and no other. */
  lemma EveryOrphanTreatedOnce(cfg: Config, now: int, infos: seq<JobInfo>)
    ensures forall r :: r in Recoveries(cfg, now, infos) <==>
      exists i :: 0 <= i < |infos| && Answers(cfg, now, infos[i], r)
    ensures |Recoveries(cfg, now, infos)| <= |infos|
  {
    RecoveriesTreat(cfg, now, infos);
    forall r ensures r in Recoveries(cfg, now, infos) <==> exists i :: 0 <= i < |infos| && Answers(cfg, now, infos[i], r) {
      if r in Recoveries(cfg, now, infos) {
        var i :| 0 <= i < |infos| && Treat(cfg, now, infos[i]) == Some(r);
        TreatAnswers(cfg, now, infos[i], r);
      }
      if i :| 0 <= i < |infos| && Answers(cfg, now, infos[i], r) {
        TreatAnswers(cfg, now, infos[i], r);
      }
    }
  }

  /** No task is acted on twice where none is listed twice. */
  lemma {:induction false} TasksTreatedOnce(cfg: Config, now: int, infos: seq<JobInfo>)
    requires forall i, j :: 0 <= i < j < |infos| ==> infos[i].task != infos[j].task
    ensures var r := Recoveries(cfg, now, infos);
      forall i, j :: 0 <= i < j < |r| ==> r[i].task != r[j].task
  {
    if infos != [] {
      var before, last := infos[..|infos| - 1], infos[|infos| - 1];
      TasksTreatedOnce(cfg, now, before);
      RecoveriesTreat(cfg, now, before);
      var r := Recoveries(cfg, now, before);
      forall i | 0 <= i < |r| ensures r[i].task != last.task {
        assert r[i] in r;
        var k :| 0 <= k < |before| && Treat(cfg, now, before[k]) == Some(r[i]);
        assert infos[k] == before[k];
      }
    }
  }

  class OrphanScanner {
    const config: Config
    var isScanning: bool
    /** The retry and block calls the scans have made, oldest first. */
    var recovered: seq<Recovery>

    constructor (config: Config := DEFAULT_CONFIG)
      ensures !isScanning && recovered == [] && this.config == config
    {
      this.config := config;
      isScanning := false;
      recovered := [];
    }

    method Scan(activeJobs: seq<JobInfo>, now: int)
      returns (scanned: nat, orphansDetected: nat, actions: seq<Recovery>)
      modifies this
      ensures isScanning == old(isScanning)
      ensures old(isScanning) ==> scanned == 0 && actions == []
      ensures !old(isScanning) ==> scanned == |activeJobs| && actions == Recoveries(config, now, activeJobs)
      ensures !old(isScanning) ==> forall r :: r in actions <==>
        exists i :: 0 <= i < |activeJobs| && Answers(config, now, activeJobs[i], r)
      ensures orphansDetected == |actions|
      ensures recovered == old(recovered) + actions
    {
      if isScanning {
        return 0, 0, [];
      }
      isScanning := true;
      scanned, orphansDetected, actions := |activeJobs|, 0, [];
      for i := 0 to |activeJobs|
        invariant actions == Recoveries(config, now, activeJobs[..i])
        invariant orphansDetected == |actions|
        invariant recovered == old(recovered) + actions
      {
        assert activeJobs[..i + 1][..i] == activeJobs[..i];
        var info := activeJobs[i];
        var check := DetectOrphan(config, info.expiresAt, info.lastHeartbeatAt, now);
        if check.Some? {
          orphansDetected := orphansDetected + 1;
          var decision := DetermineRecoveryAction(config, info.stage, info.retryCount);
          var action := Recovery(info.job, info.task, decision, check.value);
          recovered := recovered + [action];
          actions := actions + [action];
        }
      }
      assert activeJobs[..|activeJobs|] == activeJobs;
      EveryOrphanTreatedOnce(config, now, activeJobs);
      isScanning := false;
    }
  }
}
