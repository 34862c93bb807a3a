/**
  MassTransitJobFactory<T>: the factory for one job class. It chooses how to
  construct the job, merges the four configuration sources into one job data
  map and binds the entries onto the job's writable properties.
*/
module TypedJobFactories {
  import opened Wrappers
  import opened Uris
  import opened Quartz

  /** The reserved job data key that carries the serialized firing times. */
  const PayloadHeadersKey: string := "PayloadMessageHeadersAsJson"

  /** The header names of MessageHeaders.Quartz. */
  const ScheduledHeader: string := "MT-Quartz-Scheduled"
  const SentHeader: string := "MT-Quartz-Sent"
  const NextScheduledHeader: string := "MT-Quartz-NextScheduled"
  const PreviousSentHeader: string := "MT-Quartz-PreviousSent"

  type HeaderMap = map<string, Timestamp>

  /** The compiled construction function: which constructor it calls. */
  datatype Strategy = ServiceBusConstructor(ctor: Constructor) | DefaultConstructor(ctor: Constructor)

  function UnsupportedConstructorMessage(t: JobType): string {
    "The job class does not have a supported constructor: " + t.typeName
  }

  function ProblemMessage(fullName: string): string {
    "Problem instantiating class '" + fullName + "'"
  }

  /**
    CreateConstructor: the constructor taking the bus wins over the
    parameterless one; a class with neither is refused.
  */
  function CreateConstructor(t: JobType): (r: Result<Strategy, Exception>)
    ensures r.Ok? <==> t.busConstructor.Some? || t.defaultConstructor.Some?
    ensures r.Ok? && r.value.ServiceBusConstructor? ==> t.busConstructor == Some(r.value.ctor)
    ensures r.Ok? && r.value.DefaultConstructor? ==>
      t.busConstructor.None? && t.defaultConstructor == Some(r.value.ctor)
    ensures r.Err? ==> r.error == SchedulerException(UnsupportedConstructorMessage(t), None)
  {
    if t.busConstructor.Some? then Ok(ServiceBusConstructor(t.busConstructor.value))
    else if t.defaultConstructor.Some? then Ok(DefaultConstructor(t.defaultConstructor.value))
    else Err(SchedulerException(UnsupportedConstructorMessage(t), None))
  }

  /** Calling the compiled construction function `_factory(_bus)`. */
  function Invoke(t: JobType, s: Strategy, bus: Bus): (r: Result<Job, Exception>)
    ensures r.Err? <==> s.ctor.fault.Some?
    ensures r.Err? ==> r.error == ConstructorException(s.ctor.fault.value)
    ensures r.Ok? ==> r.value.jobType == t && r.value.properties == s.ctor.initial
    ensures r.Ok? ==> r.value.constructedWith == (if s.ServiceBusConstructor? then Some(bus) else None)
  {
    match s.ctor.fault
    case Some(reason) => Err(ConstructorException(reason))
    case None =>
      match s
      case ServiceBusConstructor(c) => Ok(Job(t, Some(bus), c.initial))
      case DefaultConstructor(c) => Ok(Job(t, None, c.initial))
  }

  /** The parameterless strategy builds the same job whatever bus it is handed. */
  lemma DefaultConstructorIgnoresBus(t: JobType, s: Strategy, b1: Bus, b2: Bus)
    requires s.DefaultConstructor?
    ensures Invoke(t, s, b1) == Invoke(t, s, b2)
  {
  }

  /**
    The firing-time header map: one entry per timestamp of the bundle that is
    present, under its header name, and nothing for an absent one.
  */
  function PayloadHeaders(b: TriggerFiredBundle): (h: HeaderMap)
    ensures h.Keys <= {ScheduledHeader, SentHeader, NextScheduledHeader, PreviousSentHeader}
    ensures ScheduledHeader in h <==> b.scheduledFireTimeUtc.Some?
    ensures SentHeader in h <==> b.fireTimeUtc.Some?
    ensures NextScheduledHeader in h <==> b.nextFireTimeUtc.Some?
    ensures PreviousSentHeader in h <==> b.prevFireTimeUtc.Some?
    ensures ScheduledHeader in h ==> h[ScheduledHeader] == b.scheduledFireTimeUtc.value
    ensures SentHeader in h ==> h[SentHeader] == b.fireTimeUtc.value
    ensures NextScheduledHeader in h ==> h[NextScheduledHeader] == b.nextFireTimeUtc.value
    ensures PreviousSentHeader in h ==> h[PreviousSentHeader] == b.prevFireTimeUtc.value
  {
    HeaderNamesDistinct();
    var h1 := if b.scheduledFireTimeUtc.Some? then map[ScheduledHeader := b.scheduledFireTimeUtc.value] else map[];
    var h2 := if b.fireTimeUtc.Some? then h1[SentHeader := b.fireTimeUtc.value] else h1;
    var h3 := if b.nextFireTimeUtc.Some? then h2[NextScheduledHeader := b.nextFireTimeUtc.value] else h2;
    if b.prevFireTimeUtc.Some? then h3[PreviousSentHeader := b.prevFireTimeUtc.value] else h3
  }

  lemma HeaderNamesDistinct()
    ensures |{ScheduledHeader, SentHeader, NextScheduledHeader, PreviousSentHeader}| == 4
  {
  }

  /**
    The job data map of one firing: scheduler context, then job detail, then
    trigger, each overwriting the one before on a shared key, and last the
    reserved header entry.
  */
  function MergedJobData(context: map<string, Value>, detail: map<string, Value>,
                         trigger: map<string, Value>, headerText: string): (m: map<string, Value>)
    ensures m.Keys == context.Keys + detail.Keys + trigger.Keys + {PayloadHeadersKey}
    ensures m[PayloadHeadersKey] == TextValue(headerText)
    ensures forall k :: k in trigger && k != PayloadHeadersKey ==> m[k] == trigger[k]
    ensures forall k :: k in detail && k !in trigger && k != PayloadHeadersKey ==> m[k] == detail[k]
    ensures forall k :: k in context && k !in detail && k !in trigger && k != PayloadHeadersKey ==>
      m[k] == context[k]
  {
    (context + detail + trigger)[PayloadHeadersKey := TextValue(headerText)]
  }

  /**
    Whether `property.Set` accepts the value for a property of this kind: an
    assumed rule, since the setter's code is not part of this model. A Uri
    property is only reached after the parse in Coerce, with a UriValue.
  */
  predicate Assignable(kind: PropertyKind, v: Value) {
    match kind
    case ObjectProperty => true
    case StringProperty => v.NullValue? || v.TextValue?
    case IntProperty => v.IntValue?
    case UriProperty => v.NullValue? || v.UriValue?
  }

  /**
    The value a property receives for a job data entry: for a Uri property the
    entry's text parsed as a URI, for every other property the raw value, which
    the setter must accept.
  */
  function Coerce(kind: PropertyKind, name: string, v: Value): (r: Result<Value, Exception>)
    ensures !kind.UriProperty? ==> (r.Ok? <==> Assignable(kind, v))
    ensures !kind.UriProperty? && r.Ok? ==> r.value == v
    ensures kind.UriProperty? && r.Ok? ==>
      r.value.UriValue? && WellFormed(r.value.uri) && ToText(v) == Some(UriText(r.value.uri))
    ensures kind.UriProperty? && v.TextValue? ==> (r.Ok? <==> ParseUri(v.text).Some?)
    ensures kind.UriProperty? && v.UriValue? && WellFormed(v.uri) ==> r == Ok(v)
    ensures kind.UriProperty? && v.NullValue? ==> r == Err(NullReferenceException)
  {
    if kind.UriProperty? then
      match ToText(v)
      case None => Err(NullReferenceException)
      case Some(text) =>
        assert v.UriValue? && WellFormed(v.uri) ==> ParseUri(text) == Some(v.uri) by {
          if v.UriValue? && WellFormed(v.uri) { UriRoundTrip(v.uri); }
        }
        match ParseUri(text)
        case None => Err(UriFormatException(text))
        case Some(u) => Ok(UriValue(u))
    else if Assignable(kind, v) then Ok(v)
    else Err(InvalidCastException(name))
  }

  /** The entry under `k` names a property and cannot be bound onto it. */
  ghost predicate BindingFails(props: map<string, PropertyKind>, data: map<string, Value>, k: string) {
    k in data && k in props && Coerce(props[k], k, data[k]).Err?
  }

  /**
    `after` is `before` with every entry of `data` that names a property bound
    onto it, and every other property left as constructed.
  */
  ghost predicate BoundJob(props: map<string, PropertyKind>, data: map<string, Value>, before: Job, after: Job) {
    && after.jobType == before.jobType
    && after.constructedWith == before.constructedWith
    && after.properties.Keys == before.properties.Keys + (data.Keys * props.Keys)
    && (forall k :: k in data && k in props ==>
          Coerce(props[k], k, data[k]).Ok? && after.properties[k] == Coerce(props[k], k, data[k]).value)
    && (forall k :: k in before.properties && !(k in data && k in props) ==>
          after.properties[k] == before.properties[k])
  }

  /**
    What SetObjectProperties may return: the bound job when no entry fails, and
    otherwise the exception of one failing entry.
  */
  ghost predicate SetPropertiesOutcome(props: map<string, PropertyKind>, data: map<string, Value>,
                                       job: Job, r: Result<Job, Exception>) {
    && (r.Ok? <==> forall k :: !BindingFails(props, data, k))
    && (r.Ok? ==> BoundJob(props, data, job, r.value))
    && (r.Err? ==> exists k :: BindingFails(props, data, k) && r.error == Coerce(props[k], k, data[k]).error)
  }

  /** The catch block of NewJob: wrap the failure naming the job class. */
  function Wrap(bundle: TriggerFiredBundle, cause: Exception): (r: Result<Job, Exception>)
    ensures r.Err?
    ensures bundle.jobDetail.Some? ==>
      r.error == SchedulerException(ProblemMessage(bundle.jobDetail.value.jobType.fullName), Some(cause))
    ensures bundle.jobDetail.None? ==> r.error == NullReferenceException
  {
    match bundle.jobDetail
    case None => Err(NullReferenceException)
    case Some(detail) => Err(SchedulerException(ProblemMessage(detail.jobType.fullName), Some(cause)))
  }

  /** A binding result as NewJob returns it: a failure is wrapped. */
  function Wrapped(bundle: TriggerFiredBundle, inner: Result<Job, Exception>): Result<Job, Exception> {
    if inner.Ok? then inner else Wrap(bundle, inner.error)
  }

  /** The job data map NewJob builds for a firing. */
  function JobDataFor(bundle: TriggerFiredBundle, detail: JobDetail, scheduler: Scheduler,
                      encode: HeaderMap -> string): map<string, Value> {
    MergedJobData(scheduler.context, detail.jobDataMap, bundle.trigger.jobDataMap, encode(PayloadHeaders(bundle)))
  }

  /**
    What NewJob of the factory for `t` may return for a firing: a bundle
    without job detail ends in a NullReferenceException from the catch block; a
    failing constructor and a failing binding are wrapped naming the class; and
    otherwise the job is the constructed one with the merged job data bound.
  */
  ghost predicate Instantiated(t: JobType, bus: Bus, encode: HeaderMap -> string,
                               bundle: TriggerFiredBundle, scheduler: Scheduler, r: Result<Job, Exception>)
    requires CreateConstructor(t).Ok?
  {
    match bundle.jobDetail
    case None => r == Err(NullReferenceException)
    case Some(detail) =>
      match Invoke(t, CreateConstructor(t).value, bus)
      case Err(cause) => r == Wrap(bundle, cause)
      case Ok(job) =>
        exists inner :: SetPropertiesOutcome(t.properties, JobDataFor(bundle, detail, scheduler, encode), job, inner)
                        && r == Wrapped(bundle, inner)
  }

  /** A successful binding step inside a firing, named so that lemmas can use it. */
  lemma BoundInFiring(t: JobType, bus: Bus, encode: HeaderMap -> string,
                      bundle: TriggerFiredBundle, scheduler: Scheduler, r: Result<Job, Exception>)
      returns (job: Job)
    requires CreateConstructor(t).Ok? && Instantiated(t, bus, encode, bundle, scheduler, r) && r.Ok?
    ensures bundle.jobDetail.Some?
    ensures Invoke(t, CreateConstructor(t).value, bus) == Ok(job)
    ensures BoundJob(t.properties, JobDataFor(bundle, bundle.jobDetail.value, scheduler, encode), job, r.value)
  {
    var detail := bundle.jobDetail.value;
    job := Invoke(t, CreateConstructor(t).value, bus).value;
    var inner :| SetPropertiesOutcome(t.properties, JobDataFor(bundle, detail, scheduler, encode), job, inner)
                 && r == Wrapped(bundle, inner);
  }

  /**
    A job built through the constructor taking the bus holds exactly the
    factory's bus; one built through the parameterless constructor holds none.
  */
  lemma JobHoldsFactoryBus(t: JobType, bus: Bus, encode: HeaderMap -> string,
                           bundle: TriggerFiredBundle, scheduler: Scheduler, r: Result<Job, Exception>)
    requires CreateConstructor(t).Ok? && Instantiated(t, bus, encode, bundle, scheduler, r) && r.Ok?
    ensures r.value.jobType == t
    ensures r.value.constructedWith == if t.busConstructor.Some? then Some(bus) else None
  {
    var job := BoundInFiring(t, bus, encode, bundle, scheduler, r);
  }

  /**
    A property named in several configuration sources receives the value of
    the one with the highest precedence: trigger over job detail over scheduler
    context.
  */
  lemma BoundValueFollowsPrecedence(t: JobType, bus: Bus, encode: HeaderMap -> string,
                                    bundle: TriggerFiredBundle, scheduler: Scheduler,
                                    r: Result<Job, Exception>, k: string)
    requires CreateConstructor(t).Ok? && Instantiated(t, bus, encode, bundle, scheduler, r) && r.Ok?
    requires k in t.properties && k != PayloadHeadersKey
    ensures k in bundle.trigger.jobDataMap ==>
      Coerce(t.properties[k], k, bundle.trigger.jobDataMap[k]) == Ok(r.value.properties[k])
    ensures k !in bundle.trigger.jobDataMap && k in bundle.jobDetail.value.jobDataMap ==>
      Coerce(t.properties[k], k, bundle.jobDetail.value.jobDataMap[k]) == Ok(r.value.properties[k])
    ensures k !in bundle.trigger.jobDataMap && k !in bundle.jobDetail.value.jobDataMap && k in scheduler.context ==>
      Coerce(t.properties[k], k, scheduler.context[k]) == Ok(r.value.properties[k])
  {
    var job := BoundInFiring(t, bus, encode, bundle, scheduler, r);
  }

  /** A property named like the reserved entry receives the freshly serialized firing times. */
  lemma HeaderEntryBound(t: JobType, bus: Bus, encode: HeaderMap -> string,
                         bundle: TriggerFiredBundle, scheduler: Scheduler, r: Result<Job, Exception>)
    requires CreateConstructor(t).Ok? && Instantiated(t, bus, encode, bundle, scheduler, r) && r.Ok?
    requires PayloadHeadersKey in t.properties
    ensures Coerce(t.properties[PayloadHeadersKey], PayloadHeadersKey,
                   TextValue(encode(PayloadHeaders(bundle)))) == Ok(r.value.properties[PayloadHeadersKey])
  {
    var job := BoundInFiring(t, bus, encode, bundle, scheduler, r);
  }

  /**
    Configuration entries that name no property change nothing, and a property
    that no entry names keeps the value its constructor gave it.
  */
  lemma UnboundPropertiesKeepConstructedValues(t: JobType, bus: Bus, encode: HeaderMap -> string,
                                               bundle: TriggerFiredBundle, scheduler: Scheduler,
                                               r: Result<Job, Exception>, k: string)
    requires CreateConstructor(t).Ok? && Instantiated(t, bus, encode, bundle, scheduler, r) && r.Ok?
    requires k !in t.properties || k !in JobDataFor(bundle, bundle.jobDetail.value, scheduler, encode)
    ensures k in r.value.properties <==> k in CreateConstructor(t).value.ctor.initial
    ensures k in r.value.properties ==> r.value.properties[k] == CreateConstructor(t).value.ctor.initial[k]
  {
    var job := BoundInFiring(t, bus, encode, bundle, scheduler, r);
  }

  /**
    Text under a Uri property that does not parse as a URI fails the whole
    firing with the wrapped scheduler exception: no job is returned.
  */
  lemma InvalidUriFailsFiring(t: JobType, bus: Bus, encode: HeaderMap -> string,
                              bundle: TriggerFiredBundle, scheduler: Scheduler,
                              r: Result<Job, Exception>, k: string)
    requires CreateConstructor(t).Ok? && Instantiated(t, bus, encode, bundle, scheduler, r)
    requires bundle.jobDetail.Some?
    requires k in t.properties && t.properties[k] == UriProperty
    requires k in JobDataFor(bundle, bundle.jobDetail.value, scheduler, encode)
    requires JobDataFor(bundle, bundle.jobDetail.value, scheduler, encode)[k].TextValue?
    requires ParseUri(JobDataFor(bundle, bundle.jobDetail.value, scheduler, encode)[k].text).None?
    ensures r.Err? && r.error.SchedulerException?
    ensures r.error.message == ProblemMessage(bundle.jobDetail.value.jobType.fullName) && r.error.cause.Some?
  {
    var data := JobDataFor(bundle, bundle.jobDetail.value, scheduler, encode);
    assert BindingFails(t.properties, data, k);
    if r.Ok? {
      var job := BoundInFiring(t, bus, encode, bundle, scheduler, r);
      assert false;
    }
  }

  /** A constructor that throws fails the firing with its exception as the cause. */
  lemma ConstructorFaultFailsFiring(t: JobType, bus: Bus, encode: HeaderMap -> string,
                                    bundle: TriggerFiredBundle, scheduler: Scheduler, r: Result<Job, Exception>)
    requires CreateConstructor(t).Ok? && Instantiated(t, bus, encode, bundle, scheduler, r)
    requires bundle.jobDetail.Some? && CreateConstructor(t).value.ctor.fault.Some?
    ensures r == Err(SchedulerException(ProblemMessage(bundle.jobDetail.value.jobType.fullName),
                                        Some(ConstructorException(CreateConstructor(t).value.ctor.fault.value))))
  {
  }

  class TypedJobFactory {
    const jobType: JobType
    const bus: Bus
    const factory: Strategy
    const propertyCache: map<string, PropertyKind>
    /** JsonConvert.SerializeObject on the header map, left uninterpreted. */
    const encode: HeaderMap -> string

    ghost predicate Valid() {
      CreateConstructor(jobType) == Ok(factory) && propertyCache == jobType.properties
    }

    /** The constructor for a class that has a supported constructor; see CreateJobFactory. */
    constructor (jobType: JobType, bus: Bus, encode: HeaderMap -> string)
      requires CreateConstructor(jobType).Ok?
      ensures Valid()
      ensures this.jobType == jobType && this.bus == bus && this.encode == encode
    {
      this.jobType := jobType;
      this.bus := bus;
      this.factory := CreateConstructor(jobType).value;
      this.propertyCache := jobType.properties;
      this.encode := encode;
    }

    /** Adds the firing times one by one to a fresh dictionary and serializes it. */
    method CreatePayloadHeaderString(bundle: TriggerFiredBundle) returns (s: string)
      ensures s == encode(PayloadHeaders(bundle))
    {
      HeaderNamesDistinct();
      var timeHeaders: HeaderMap := map[];
      if bundle.scheduledFireTimeUtc.Some? {
        timeHeaders := timeHeaders[ScheduledHeader := bundle.scheduledFireTimeUtc.value];
      }
      if bundle.fireTimeUtc.Some? {
        assert SentHeader !in timeHeaders;
        timeHeaders := timeHeaders[SentHeader := bundle.fireTimeUtc.value];
      }
      if bundle.nextFireTimeUtc.Some? {
        assert NextScheduledHeader !in timeHeaders;
        timeHeaders := timeHeaders[NextScheduledHeader := bundle.nextFireTimeUtc.value];
      }
      if bundle.prevFireTimeUtc.Some? {
        assert PreviousSentHeader !in timeHeaders;
        timeHeaders := timeHeaders[PreviousSentHeader := bundle.prevFireTimeUtc.value];
      }
      s := encode(timeHeaders);
    }

    /**
      Visits the job data keys in some order and assigns every entry that names
      a property; the first entry that cannot be bound aborts the binding.
    */
    method SetObjectProperties(job: Job, jobData: map<string, Value>) returns (r: Result<Job, Exception>)
      ensures SetPropertiesOutcome(propertyCache, jobData, job, r)
    {
      var keys := jobData.Keys;
      var bound := job.properties;
      ghost var visited: set<string> := {};
      while keys != {}
        invariant keys + visited == jobData.Keys && keys !! visited
        invariant forall k :: k in visited ==> !BindingFails(propertyCache, jobData, k)
        invariant bound.Keys == job.properties.Keys + (visited * propertyCache.Keys)
        invariant forall k :: k in visited && k in propertyCache ==>
          Coerce(propertyCache[k], k, jobData[k]).Ok? && bound[k] == Coerce(propertyCache[k], k, jobData[k]).value
        invariant forall k :: k in job.properties && !(k in visited && k in propertyCache) ==>
          bound[k] == job.properties[k]
        decreases keys
      {
        var key :| key in keys;
        if key in propertyCache {
          var converted := Coerce(propertyCache[key], key, jobData[key]);
          if converted.Err? {
            assert BindingFails(propertyCache, jobData, key);
            return Err(converted.error);
          }
          bound := bound[key := converted.value];
        }
        keys := keys - {key};
        visited := visited + {key};
      }
      r := Ok(job.(properties := bound));
    }

    /** Builds, configures and returns a job for one firing, wrapping any failure. */
    method NewJob(bundle: TriggerFiredBundle, scheduler: Scheduler) returns (r: Result<Job, Exception>)
      requires Valid()
      ensures Instantiated(jobType, bus, encode, bundle, scheduler, r)
    {
      var built := Invoke(jobType, factory, bus);
      if built.Err? {
        r := Wrap(bundle, built.error);
        return;
      }
      var job := built.value;

      var jobData: map<string, Value> := map[];
      jobData := jobData + scheduler.context;
      if bundle.jobDetail.None? {
        // bundle.JobDetail.JobDataMap throws, and so does the catch block
        r := Err(NullReferenceException);
        return;
      }
      var detail := bundle.jobDetail.value;
      jobData := jobData + detail.jobDataMap;
      jobData := jobData + bundle.trigger.jobDataMap;
      var headers := CreatePayloadHeaderString(bundle);
      jobData := jobData[PayloadHeadersKey := TextValue(headers)];
      assert jobData == JobDataFor(bundle, detail, scheduler, encode);

      var inner := SetObjectProperties(job, jobData);
      r := Wrapped(bundle, inner);
    }
  }
}
