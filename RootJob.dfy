/**
 * The job base class (src/lib/RootJob.ts): the readonly fields its constructor copies from
 * the options a subclass passes. Dates are millisecond timestamps; the SDK's job interval
 * is kept as the value given.
 */
module RootJobs {
  import opened Wrappers

  /** A schedule interval of the SDK, kept opaque. */
  datatype JobInterval = JobInterval(value: int)

  /** What a subclass passes to the constructor; `None` is an omitted property. */
  datatype JobOptions = JobOptions(
    tag: string,
    resourceId: string,
    start: int,
    jobInterval: JobInterval,
    end: Option<int>,
    enabled: Option<bool>)

  /** The readonly fields of a constructed job. */
  datatype RootJob = RootJob(
    tag: string,
    resourceId: string,
    start: int,
    jobInterval: JobInterval,
    end: Option<int>,
    enabled: bool,
    name: string)

  /**
   * The constructor: every option is copied as given, the end date stays absent when
   * omitted, `enabled` defaults to true and the name is the tag.
   */
  function NewJob(o: JobOptions): (j: RootJob)
    ensures j.tag == o.tag && j.resourceId == o.resourceId
    ensures j.start == o.start && j.jobInterval == o.jobInterval && j.end == o.end
    ensures j.enabled <==> o.enabled != Some(false)
    ensures j.name == j.tag
  {
    RootJob(o.tag, o.resourceId, o.start, o.jobInterval, o.end, o.enabled.GetOr(true), o.tag)
  }

  /** Omitting `enabled` builds the same job as passing `true`. */
  lemma OmittedEnabledIsTrue(o: JobOptions)
    ensures NewJob(o.(enabled := None)) == NewJob(o.(enabled := Some(true)))
  {
  }
}
