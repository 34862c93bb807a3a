/**
  The collaborators of the job factory, as plain values: the job type with the
  constructor shapes and writable properties reflection would find on it, the
  scheduler's firing bundle, the message bus handle, configuration values, job
  instances and the exceptions that can escape.
*/
module Quartz {
  import opened Wrappers
  import opened Uris

  /** An opaque handle on the shared message bus (IBus). */
  datatype Bus = Bus(id: nat)

  /** A DateTimeOffset in UTC ticks. */
  datatype Timestamp = Timestamp(utcTicks: int)

  /** A loosely typed JobDataMap value. */
  datatype Value =
    | NullValue
    | TextValue(text: string)
    | IntValue(n: int)
    | UriValue(uri: Uri)

  /** The declared type of a writable job property. */
  datatype PropertyKind = UriProperty | StringProperty | IntProperty | ObjectProperty

  /**
    A constructor of a job class: the property values it leaves on the new
    instance, or the exception its body throws.
  */
  datatype Constructor = Constructor(initial: map<string, Value>, fault: Option<string>)

  /**
    A job class as reflection sees it: its names, the constructor taking an IBus
    and the parameterless constructor (each may be missing), and its writable
    properties by name, as the property cache finds them.
  */
  datatype JobType = JobType(
    fullName: string,
    typeName: string,
    busConstructor: Option<Constructor>,
    defaultConstructor: Option<Constructor>,
    properties: map<string, PropertyKind>)

  datatype JobDetail = JobDetail(jobType: JobType, jobDataMap: map<string, Value>)

  datatype Trigger = Trigger(jobDataMap: map<string, Value>)

  /** What the scheduler hands over when a trigger fires; the job detail may be null. */
  datatype TriggerFiredBundle = TriggerFiredBundle(
    jobDetail: Option<JobDetail>,
    trigger: Trigger,
    scheduledFireTimeUtc: Option<Timestamp>,
    fireTimeUtc: Option<Timestamp>,
    nextFireTimeUtc: Option<Timestamp>,
    prevFireTimeUtc: Option<Timestamp>)

  datatype Scheduler = Scheduler(context: map<string, Value>)

  /**
    A job instance: its class, the bus its constructor received (None for the
    parameterless constructor) and the current values of its properties.
  */
  datatype Job = Job(jobType: JobType, constructedWith: Option<Bus>, properties: map<string, Value>)

  datatype Exception =
    | SchedulerException(message: string, cause: Option<Exception>)
    | TargetInvocationException(inner: Exception)
    | UriFormatException(text: string)
    | NullReferenceException
    | InvalidCastException(property: string)
    | ConstructorException(reason: string)

  function DigitChar(d: nat): char
    requires d < 10
  {
    "0123456789"[d]
  }

  /**
    Decimal digits of a natural number. The contract states only what
    IntTextIsNoUri needs: the text is non-empty and all digits, so has no ':'.
  */
  function DigitsOf(n: nat): (s: string)
    ensures |s| > 0 && forall i :: 0 <= i < |s| ==> '0' <= s[i] <= '9'
  {
    if n < 10 then [DigitChar(n)] else DigitsOf(n / 10) + [DigitChar(n % 10)]
  }

  function IntText(n: int): string {
    if n < 0 then "-" + DigitsOf(-n) else DigitsOf(n)
  }

  /** `value.ToString()`: None stands for the NullReferenceException on a null value. */
  function ToText(v: Value): (r: Option<string>)
    ensures r.None? <==> v.NullValue?
    ensures v.TextValue? ==> r == Some(v.text)
  {
    match v
    case NullValue => None
    case TextValue(s) => Some(s)
    case IntValue(n) => Some(IntText(n))
    case UriValue(u) => Some(UriText(u))
  }

  /** The text of an integer never parses as a URI: it starts with a digit or a minus sign. */
  lemma IntTextIsNoUri(n: int)
    ensures ParseUri(IntText(n)).None?
  {
  }
}
