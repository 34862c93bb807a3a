/**
  MassTransitJobFactory: the IJobFactory the scheduler calls. It resolves the
  typed factory of the fired job's class through a cache that is filled on first
  use and never shrinks, and delegates the firing to it.
*/
module JobFactories {
  import opened Wrappers
  import opened Quartz
  import opened TypedJobFactories

  const NullJobDetailMessage: string := "JobDetail was null"

  class MassTransitJobFactory {
    const bus: Bus
    const encode: HeaderMap -> string
    var typeFactories: map<JobType, TypedJobFactory>

    /** Every cached factory is the valid factory of its key, built on this factory's bus. */
    ghost predicate Valid()
      reads this
    {
      forall t :: t in typeFactories ==>
        && typeFactories[t].jobType == t
        && typeFactories[t].bus == bus
        && typeFactories[t].encode == encode
        && typeFactories[t].Valid()
    }

    constructor (bus: Bus, encode: HeaderMap -> string)
      ensures Valid()
      ensures this.bus == bus && this.encode == encode && typeFactories == map[]
    {
      this.bus := bus;
      this.encode := encode;
      typeFactories := map[];
    }

    /**
      Activator.CreateInstance of MassTransitJobFactory<T>: an exception thrown
      by its constructor reaches the caller wrapped in a TargetInvocationException.
    */
    method CreateJobFactory(t: JobType) returns (r: Result<TypedJobFactory, Exception>)
      ensures r.Ok? <==> CreateConstructor(t).Ok?
      ensures r.Err? ==> r.error == TargetInvocationException(CreateConstructor(t).error)
      ensures r.Ok? ==> fresh(r.value) && r.value.Valid()
      ensures r.Ok? ==> r.value.jobType == t && r.value.bus == bus && r.value.encode == encode
    {
      match CreateConstructor(t)
      case Err(e) =>
        r := Err(TargetInvocationException(e));
      case Ok(_) =>
        var f := new TypedJobFactory(t, bus, encode);
        r := Ok(f);
    }

    /**
      ConcurrentDictionary.GetOrAdd, sequentially: a cached factory is returned
      as it is; otherwise a new one is created and stored, unless its creation
      throws, in which case nothing is stored.
    */
    method GetOrAdd(t: JobType) returns (r: Result<TypedJobFactory, Exception>)
      requires Valid()
      modifies this
      ensures Valid()
      ensures t in old(typeFactories) ==> typeFactories == old(typeFactories) && r == Ok(typeFactories[t])
      ensures t !in old(typeFactories) && CreateConstructor(t).Err? ==>
        typeFactories == old(typeFactories) && r == Err(TargetInvocationException(CreateConstructor(t).error))
      ensures t !in old(typeFactories) && CreateConstructor(t).Ok? ==>
        r.Ok? && fresh(r.value) && typeFactories == old(typeFactories)[t := r.value]
    {
      if t in typeFactories {
        r := Ok(typeFactories[t]);
        return;
      }
      r := CreateJobFactory(t);
      if r.Ok? {
        typeFactories := typeFactories[t := r.value];
      }
    }

    /**
      Fails when the bundle has no job detail; otherwise fires the job through
      the cached (or newly cached) factory of its class.
    */
    method NewJob(bundle: TriggerFiredBundle, scheduler: Scheduler) returns (r: Result<Job, Exception>)
      requires Valid()
      modifies this
      ensures Valid()
      ensures bundle.jobDetail.None? ==>
        r == Err(SchedulerException(NullJobDetailMessage, None)) && typeFactories == old(typeFactories)
      ensures bundle.jobDetail.Some? && bundle.jobDetail.value.jobType in old(typeFactories) ==>
        typeFactories == old(typeFactories)
      ensures bundle.jobDetail.Some? && CreateConstructor(bundle.jobDetail.value.jobType).Err? ==>
        typeFactories == old(typeFactories)
        && r == Err(TargetInvocationException(CreateConstructor(bundle.jobDetail.value.jobType).error))
      ensures bundle.jobDetail.Some? && CreateConstructor(bundle.jobDetail.value.jobType).Ok? ==>
        var t := bundle.jobDetail.value.jobType;
        && t in typeFactories
        && typeFactories == old(typeFactories)[t := typeFactories[t]]
        && (t !in old(typeFactories) ==> fresh(typeFactories[t]))
        && Instantiated(t, bus, encode, bundle, scheduler, r)
    {
      if bundle.jobDetail.None? {
        r := Err(SchedulerException(NullJobDetailMessage, None));
        return;
      }
      var t := bundle.jobDetail.value.jobType;
      var factory := GetOrAdd(t);
      if factory.Err? {
        r := Err(factory.error);
        return;
      }
      r := factory.value.NewJob(bundle, scheduler);
    }
  }
}
