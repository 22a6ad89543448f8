// The BackupPolicy API: what a policy asks for and what is reported back on it.

module Api {
  datatype Option<+T> = None | Some(value: T)

  // Who takes the backups. Unset is the empty string; Other is any string outside the two
  // values the CRD admits.
  datatype Mode = Unset | ScheduleMode | BucketOnlyMode | Other(text: string)

  datatype Phase = NoPhase | Pending | Ready | Failed

  // A cron expression per k8up job; the empty string is a field left out.
  datatype ScheduleSpec = ScheduleSpec(backup: string, prune: string, check: string)

  datatype RetentionKey = KeepLast | KeepHourly | KeepDaily | KeepWeekly | KeepMonthly | KeepYearly

  datatype Retention = Retention(
    keepLast: int,
    keepHourly: int,
    keepDaily: int,
    keepWeekly: int,
    keepMonthly: int,
    keepYearly: int)
  {
    predicate IsZero() {
      this == Retention(0, 0, 0, 0, 0, 0)
    }

    function Count(key: RetentionKey): int {
      match key
      case KeepLast => keepLast
      case KeepHourly => keepHourly
      case KeepDaily => keepDaily
      case KeepWeekly => keepWeekly
      case KeepMonthly => keepMonthly
      case KeepYearly => keepYearly
    }
  }

  datatype Spec = Spec(
    mode: Mode,
    schedule: ScheduleSpec,
    bucketClassName: string,
    bucketAccessClassName: string,
    retention: Retention)

  // What the CRD's enum and minimum markers let through.
  predicate CrdValid(spec: Spec) {
    && !spec.mode.Other?
    && forall key :: spec.retention.Count(key) >= 0
  }

  // What a policy can be rejected for, in the order the reasons are reported.
  datatype Requirement = BucketClass | BucketAccessClass | BackupSchedule

  // The status message by its content; the wording is not modelled. Each constructor stands for
  // one format string, and Silent for the empty message.
  datatype Message =
    | Silent
    | Rejected(unmet: seq<Requirement>)
    | AwaitingBucket(cosiError: string)
    | AwaitingCredentials(cosiError: string)
    | ServesBucket(id: string)
    | BacksUpTo(id: string, endpoint: string)

  datatype Status = Status(
    phase: Phase,
    observedGeneration: nat,
    message: Message,
    bucket: string,
    endpoint: string,
    credentialsSecret: string,
    schedule: string)
}
