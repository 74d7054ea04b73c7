/**
 * The request and response schemas of the scheduler module: the two trigger
 * variants a job may be created with, their conversion into the scheduling
 * library's trigger objects, the job creation payload (a union of the two
 * variants selected by `trigger_name`) and the job view returned to clients.
 *
 * Validation of a raw payload is modelled as the validation library performs
 * it for these declarations: a discriminator chooses the variant, missing
 * fields take their declared defaults, explicit nulls are refused except where
 * the default is itself null.  Fields arrive already typed; coercion of
 * strings into integers or datetimes is not modelled.
 */
module Schemas {
  import opened Wrappers
  import Values

  /** An aware datetime.  The schemas only copy it, so a count of seconds will do. */
  type Instant = int

  const DateTag: string := "date"
  const IntervalTag: string := "interval"

  /** `DateJobTrigger`: fire once at `runDate`; its `trigger_name` is always "date". */
  datatype DateJobTrigger = DateJobTrigger(runDate: Instant)

  /**
   * `IntervalJobTrigger`: the five period components are plain integers.  No
   * sign constraint is imposed (the non-negativity check is still to do), so
   * negative and all-zero periods are accepted.
   */
  datatype IntervalJobTrigger = IntervalJobTrigger(
    weeks: int, days: int, hours: int, minutes: int, seconds: int,
    startDate: Option<Instant>, endDate: Option<Instant>)

  /** `DateJobTrigger | IntervalJobTrigger`, discriminated by `trigger_name`. */
  datatype JobTrigger = DateVariant(date: DateJobTrigger) | IntervalVariant(interval: IntervalJobTrigger)

  /** The `trigger_name` literal each variant carries. */
  function TriggerName(t: JobTrigger): (tag: string)
    ensures tag == DateTag <==> t.DateVariant?
    ensures tag == IntervalTag <==> t.IntervalVariant?
  {
    match t
    case DateVariant(_) => DateTag
    case IntervalVariant(_) => IntervalTag
  }

  // ---------------------------------------------------------------------------
  // The scheduling library's triggers, represented by the keyword arguments
  // their constructors receive.  What the library derives from them (the
  // interval as a time span, the next fire time) is not part of this model.

  datatype DateTrigger = DateTrigger(runDate: Instant)

  datatype IntervalTrigger = IntervalTrigger(
    weeks: int, days: int, hours: int, minutes: int, seconds: int,
    startDate: Option<Instant>, endDate: Option<Instant>)

  datatype LibraryTrigger = OnDate(dateTrigger: DateTrigger) | OnInterval(intervalTrigger: IntervalTrigger)

  /** `DateJobTrigger.to_apscheduler_trigger`: the library trigger fires at the schema's run date. */
  function DateToApscheduler(t: DateJobTrigger): (r: DateTrigger)
    ensures r.runDate == t.runDate
  {
    DateTrigger(runDate := t.runDate)
  }

  /** `IntervalJobTrigger.to_apscheduler_trigger`: every field is passed by name, none is altered. */
  function IntervalToApscheduler(t: IntervalJobTrigger): (r: IntervalTrigger)
    ensures FromApschedulerTrigger(OnInterval(r)) == IntervalVariant(t)
  {
    IntervalTrigger(
      weeks := t.weeks, days := t.days, hours := t.hours, minutes := t.minutes,
      seconds := t.seconds, startDate := t.startDate, endDate := t.endDate)
  }

  /** Conversion of whichever variant a job carries. */
  function ToApschedulerTrigger(t: JobTrigger): (r: LibraryTrigger)
    ensures r.OnDate? <==> t.DateVariant?
    ensures t.DateVariant? ==> r.dateTrigger.runDate == t.date.runDate
  {
    match t
    case DateVariant(d) => OnDate(DateToApscheduler(d))
    case IntervalVariant(i) => OnInterval(IntervalToApscheduler(i))
  }

  /** Reads a library trigger's constructor arguments back into a schema trigger. */
  function FromApschedulerTrigger(lt: LibraryTrigger): JobTrigger {
    match lt
    case OnDate(d) => DateVariant(DateJobTrigger(d.runDate))
    case OnInterval(i) =>
      IntervalVariant(IntervalJobTrigger(i.weeks, i.days, i.hours, i.minutes, i.seconds, i.startDate, i.endDate))
  }

  /** No field is altered by the conversion: reading the arguments back gives the schema trigger. */
  lemma ConversionRoundTrip(t: JobTrigger)
    ensures FromApschedulerTrigger(ToApschedulerTrigger(t)) == t
  {
  }

  /** Distinct schema triggers become distinct library triggers, and the variant is kept. */
  lemma ConversionInjective(t: JobTrigger, u: JobTrigger)
    ensures ToApschedulerTrigger(t) == ToApschedulerTrigger(u) ==> t == u
    ensures ToApschedulerTrigger(t).OnDate? <==> t.DateVariant?
  {
    ConversionRoundTrip(t);
    ConversionRoundTrip(u);
  }

  // ---------------------------------------------------------------------------
  // Validation of raw payloads.

  /** A field of a raw payload: left out, explicitly null, or given. */
  datatype Field<+T> = Missing | Null | Given(value: T)

  datatype ValidationError =
    | DiscriminatorMissing
    | InvalidDiscriminator
    | FieldRequired(field: string)
    | NoneNotAllowed(field: string)

  datatype RawTrigger = RawTrigger(
    triggerName: Field<string>,
    runDate: Field<Instant>,
    weeks: Field<int>, days: Field<int>, hours: Field<int>, minutes: Field<int>, seconds: Field<int>,
    startDate: Field<Instant>, endDate: Field<Instant>)

  /** An `int` field declared with default 0. */
  function PeriodField(f: Field<int>, name: string): (r: Result<int, ValidationError>)
    ensures f.Missing? ==> r == Success(0)
    ensures f.Null? ==> r == Failure(NoneNotAllowed(name))
    ensures f.Given? ==> r == Success(f.value)
  {
    match f
    case Missing => Success(0)
    case Null => Failure(NoneNotAllowed(name))
    case Given(v) => Success(v)
  }

  /** A datetime field declared with default `None`, which makes it nullable. */
  function OptionalInstant(f: Field<Instant>): (r: Option<Instant>)
    ensures r.Some? <==> f.Given?
    ensures r.Some? ==> r.value == f.value
  {
    match f
    case Given(v) => Some(v)
    case _ => None
  }

  /** Validation of the `date` variant: `run_date` is required and not nullable. */
  function ParseDateTrigger(raw: RawTrigger): (r: Result<DateJobTrigger, ValidationError>)
    ensures r.Success? <==> raw.runDate.Given?
    ensures r.Success? ==> r.value.runDate == raw.runDate.value
  {
    match raw.runDate
    case Missing => Failure(FieldRequired("run_date"))
    case Null => Failure(NoneNotAllowed("run_date"))
    case Given(d) => Success(DateJobTrigger(d))
  }

  /** Validation of the `interval` variant, field by field in declaration order. */
  function ParseIntervalTrigger(raw: RawTrigger): (r: Result<IntervalJobTrigger, ValidationError>)
    ensures r.Success? <==>
      !raw.weeks.Null? && !raw.days.Null? && !raw.hours.Null? && !raw.minutes.Null? && !raw.seconds.Null?
    ensures r.Success? ==>
      && r.value.weeks == PeriodField(raw.weeks, "weeks").value
      && r.value.days == PeriodField(raw.days, "days").value
      && r.value.hours == PeriodField(raw.hours, "hours").value
      && r.value.minutes == PeriodField(raw.minutes, "minutes").value
      && r.value.seconds == PeriodField(raw.seconds, "seconds").value
      && r.value.startDate == OptionalInstant(raw.startDate)
      && r.value.endDate == OptionalInstant(raw.endDate)
  {
    var weeks := PeriodField(raw.weeks, "weeks");
    var days := PeriodField(raw.days, "days");
    var hours := PeriodField(raw.hours, "hours");
    var minutes := PeriodField(raw.minutes, "minutes");
    var seconds := PeriodField(raw.seconds, "seconds");
    if weeks.Failure? then Failure(weeks.error)
    else if days.Failure? then Failure(days.error)
    else if hours.Failure? then Failure(hours.error)
    else if minutes.Failure? then Failure(minutes.error)
    else if seconds.Failure? then Failure(seconds.error)
    else Success(IntervalJobTrigger(
      weeks.value, days.value, hours.value, minutes.value, seconds.value,
      OptionalInstant(raw.startDate), OptionalInstant(raw.endDate)))
  }

  /**
   * The discriminated union: `trigger_name` selects the variant to validate
   * against; a missing or unknown tag is refused before any other field is
   * looked at, and fields of the other variant are ignored.
   */
  function ParseTrigger(raw: RawTrigger): (r: Result<JobTrigger, ValidationError>)
    ensures raw.triggerName.Missing? ==> r == Failure(DiscriminatorMissing)
    ensures raw.triggerName != Given(DateTag) && raw.triggerName != Given(IntervalTag) ==> r.Failure?
    ensures r.Success? ==> raw.triggerName == Given(TriggerName(r.value))
    ensures raw.triggerName == Given(DateTag) ==>
      (r.Success? <==> raw.runDate.Given?)
    ensures raw.triggerName == Given(IntervalTag) ==>
      (r.Success? <==> ParseIntervalTrigger(raw).Success?)
    ensures raw.triggerName == Given(DateTag) && r.Success? ==>
      r.value == DateVariant(ParseDateTrigger(raw).value)
    ensures raw.triggerName == Given(IntervalTag) && r.Success? ==>
      r.value == IntervalVariant(ParseIntervalTrigger(raw).value)
  {
    match raw.triggerName
    case Missing => Failure(DiscriminatorMissing)
    case Null => Failure(InvalidDiscriminator)
    case Given(tag) =>
      if tag == DateTag then
        var d := ParseDateTrigger(raw);
        if d.Failure? then Failure(d.error) else Success(DateVariant(d.value))
      else if tag == IntervalTag then
        var i := ParseIntervalTrigger(raw);
        if i.Failure? then Failure(i.error) else Success(IntervalVariant(i.value))
      else Failure(InvalidDiscriminator)
  }

  /** A payload carrying only the tag. */
  function TagOnly(tag: string): RawTrigger {
    RawTrigger(Given(tag), Missing, Missing, Missing, Missing, Missing, Missing, Missing, Missing)
  }

  /** Every period component defaults to 0 and both bounds default to absent. */
  lemma IntervalDefaults()
    ensures ParseTrigger(TagOnly(IntervalTag)) == Success(IntervalVariant(IntervalJobTrigger(0, 0, 0, 0, 0, None, None)))
  {
  }

  /** A date payload without its run date is refused as missing a required field. */
  lemma DateRequiresRunDate()
    ensures ParseTrigger(TagOnly(DateTag)) == Failure(FieldRequired("run_date"))
  {
  }

  /**
   * Nothing checks the sign of the period: any integers, negative or all zero,
   * are accepted and reach the library trigger unchanged.
   */
  lemma AnyPeriodAccepted(weeks: int, days: int, hours: int, minutes: int, seconds: int)
    ensures
      var raw := RawTrigger(Given(IntervalTag), Missing, Given(weeks), Given(days), Given(hours),
                            Given(minutes), Given(seconds), Missing, Missing);
      var r := ParseTrigger(raw);
      && r.Success?
      && ToApschedulerTrigger(r.value)
         == OnInterval(IntervalTrigger(weeks, days, hours, minutes, seconds, None, None))
  {
  }

  /** The payload a client would send for a trigger: every field given, absent bounds as null. */
  function ToRaw(t: JobTrigger): RawTrigger {
    match t
    case DateVariant(d) =>
      RawTrigger(Given(DateTag), Given(d.runDate), Missing, Missing, Missing, Missing, Missing, Missing, Missing)
    case IntervalVariant(i) =>
      RawTrigger(Given(IntervalTag), Missing, Given(i.weeks), Given(i.days), Given(i.hours),
                 Given(i.minutes), Given(i.seconds), NullableOf(i.startDate), NullableOf(i.endDate))
  }

  function NullableOf(o: Option<Instant>): Field<Instant> {
    match o
    case Some(v) => Given(v)
    case None => Null
  }

  /** Validation accepts every trigger's own payload and gives the trigger back. */
  lemma ParseTriggerRoundTrip(t: JobTrigger)
    ensures ParseTrigger(ToRaw(t)) == Success(t)
  {
  }

  // ---------------------------------------------------------------------------
  // `JobIn` and `JobOut`.

  /** `JobIn`: `args` is `dict | None`, and defaults to an empty dictionary. */
  datatype JobIn = JobIn(jobName: string, jobTrigger: JobTrigger, args: Option<map<string, Values.Value>>)

  datatype RawJobIn = RawJobIn(jobName: Field<string>, jobTrigger: Field<RawTrigger>, args: Field<map<string, Values.Value>>)

  function ParseJobIn(raw: RawJobIn): (r: Result<JobIn, ValidationError>)
    ensures r.Success? <==>
      raw.jobName.Given? && raw.jobTrigger.Given? && ParseTrigger(raw.jobTrigger.value).Success?
    ensures r.Success? ==>
      && r.value.jobName == raw.jobName.value
      && r.value.jobTrigger == ParseTrigger(raw.jobTrigger.value).value
      && (raw.args.Missing? ==> r.value.args == Some(map[]))
      && (raw.args.Null? ==> r.value.args == None)
      && (raw.args.Given? ==> r.value.args == Some(raw.args.value))
  {
    match raw.jobName
    case Missing => Failure(FieldRequired("job_name"))
    case Null => Failure(NoneNotAllowed("job_name"))
    case Given(name) =>
      match raw.jobTrigger
      case Missing => Failure(FieldRequired("job_trigger"))
      case Null => Failure(NoneNotAllowed("job_trigger"))
      case Given(rt) =>
        var t := ParseTrigger(rt);
        if t.Failure? then Failure(t.error)
        else
          var args := match raw.args
            case Missing => Some(map[])
            case Null => None
            case Given(d) => Some(d);
          Success(JobIn(name, t.value, args))
  }

  /** `JobOut`, read from a scheduled job's attributes; `next_run_time` is required. */
  datatype JobOut = JobOut(id: string, name: string, nextRunTime: Instant)

  function JobOutFromOrm(id: string, name: string, nextRunTime: Option<Instant>): (r: Result<JobOut, ValidationError>)
    ensures r.Success? <==> nextRunTime.Some?
    ensures r.Success? ==> r.value.id == id && r.value.name == name && r.value.nextRunTime == nextRunTime.value
    ensures r.Failure? ==> r.error == NoneNotAllowed("next_run_time")
  {
    match nextRunTime
    case Some(t) => Success(JobOut(id, name, t))
    case None => Failure(NoneNotAllowed("next_run_time"))
  }
}
