# MassTransit Quartz job factory, modelled in Dafny

This project models the job factory that MassTransit's Quartz integration gives
to the Quartz scheduler. When a trigger fires, the scheduler hands over a
`TriggerFiredBundle`. The factory returns a configured job instance.

- `MassTransitJobFactory` (module `JobFactories`) is the type-level resolver.
  It rejects a bundle without a job detail. It keeps a cache from job class to
  typed factory. The cache is filled on first use, never shrinks, and stores
  nothing when creating the factory throws.
- `MassTransitJobFactory<T>` (class `TypedJobFactory`, module `TypedJobFactories`)
  is the factory for one class. It picks a constructor: the one taking the bus
  wins over the parameterless one, and a class with neither is refused. It merges
  the scheduler context, job detail and trigger job data maps with last-writer-wins
  precedence. It adds the reserved `PayloadMessageHeadersAsJson` entry, which
  holds the serialized firing times. It binds every entry that names a writable
  property. A Uri property gets the entry's text parsed as a URI. Any failure is
  wrapped in one `SchedulerException` that names the class, except that a
  bundle without a job detail ends in a NullReferenceException.
- Reflection is replaced by a registry. A job class is a `JobType` value that
  carries its two possible constructor shapes and its writable properties with
  their declared kinds. A job instance is a value: its class, the bus its
  constructor received, and a map from property name to value.
- Module `Uris` is a small stand-in for `System.Uri`, with a parse and a print
  proved inverse. Module `Quartz` holds the scheduler-side records. The JSON
  serializer is an uninterpreted function `encode` that the resolver is built with.

Three behaviours of the code that a reader might not expect:

- A job class without a supported constructor does not reach the scheduler as
  the bare "does not have a supported constructor" exception. `Activator.CreateInstance`
  wraps it in a `TargetInvocationException`. It is raised again on every firing,
  because nothing is cached for that class.
- A typed factory called directly with a bundle that has no job detail throws a
  `NullReferenceException`. It comes from its own catch block, which reads the
  job detail again.
- Binding visits the job data keys in dictionary order, which the code does not
  fix. So when several entries fail, the model promises only that the cause is the
  exception of one of them.

## Model

| member | source | states |
|---|---|---|
| JobFactories.MassTransitJobFactory.constructor | src/MassTransit.QuartzIntegration/MassTransitJobFactory.cs:34-38 | A new resolver holds the given bus and starts with an empty cache |
| JobFactories.MassTransitJobFactory.NewJob | src/MassTransit.QuartzIntegration/MassTransitJobFactory.cs:40-50 | A bundle without a job detail fails with "JobDetail was null" and leaves the cache alone. A cached class reuses its factory and the cache is unchanged. A class without a supported constructor fails with the wrapped error and nothing is stored. Otherwise the cache gains exactly the entry for that class, other entries stay unchanged, and the result is what that factory's NewJob promises |
| JobFactories.MassTransitJobFactory.GetOrAdd | src/MassTransit.QuartzIntegration/MassTransitJobFactory.cs:48 | Returns the cached factory when there is one. Otherwise it stores the newly created factory under its class only, or stores nothing when creation throws |
| JobFactories.MassTransitJobFactory.CreateJobFactory | src/MassTransit.QuartzIntegration/MassTransitJobFactory.cs:56-61 | Succeeds exactly when the class has a supported constructor. A fresh, valid factory for that class uses the resolver's bus. Otherwise the constructor's error comes back wrapped in a TargetInvocationException |
| TypedJobFactories.TypedJobFactory.constructor | src/MassTransit.QuartzIntegration/MassTransitJobFactory.cs:73-79 | The typed factory keeps the bus, the chosen construction strategy and the class's writable properties |
| TypedJobFactories.CreateConstructor | src/MassTransit.QuartzIntegration/MassTransitJobFactory.cs:126-138 | Succeeds iff one of the two constructors exists. The bus-taking constructor is chosen whenever it exists. The parameterless one is chosen only when the bus-taking one is missing. Otherwise the error is a SchedulerException naming the class |
| TypedJobFactories.Invoke | src/MassTransit.QuartzIntegration/MassTransitJobFactory.cs:140-154 | The compiled construction fails iff the constructor throws. The job built has the constructor's initial values. Its bus is the factory's bus for the bus strategy and none for the parameterless one |
| TypedJobFactories.DefaultConstructorIgnoresBus | src/MassTransit.QuartzIntegration/MassTransitJobFactory.cs:140-146 | The parameterless strategy builds the same job whatever bus it is given |
| TypedJobFactories.PayloadHeaders | src/MassTransit.QuartzIntegration/MassTransitJobFactory.cs:162-172 | Each of Scheduled/Sent/NextScheduled/PreviousSent is a key iff the scheduled/fire/next/previous time is present, and it maps to that time. No other key appears |
| TypedJobFactories.HeaderNamesDistinct | src/MassTransit.QuartzIntegration/MassTransitJobFactory.cs:164-172 | The four header names are pairwise distinct, so no Dictionary.Add can hit a duplicate key |
| TypedJobFactories.TypedJobFactory.CreatePayloadHeaderString | src/MassTransit.QuartzIntegration/MassTransitJobFactory.cs:162-175 | Building the dictionary step by step and serializing it gives the encoding of the header map above |
| TypedJobFactories.MergedJobData | src/MassTransit.QuartzIntegration/MassTransitJobFactory.cs:87-91 | Keys are the union of context, detail and trigger keys plus the reserved key. Each key takes the value of the last source holding it. The reserved key holds the fresh header text |
| TypedJobFactories.Coerce | src/MassTransit.QuartzIntegration/MassTransitJobFactory.cs:116-121 | A non-Uri property gets the raw value, and fails iff its setter rejects the value. A Uri property gets a well-formed URI that prints as the value's text. For text it succeeds iff the text parses. A null value fails with NullReferenceException. An existing well-formed URI is kept as it is |
| TypedJobFactories.TypedJobFactory.SetObjectProperties | src/MassTransit.QuartzIntegration/MassTransitJobFactory.cs:109-124 | Succeeds iff no entry that names a property fails to convert. It then assigns exactly those entries, converted, and leaves every other property as constructed. Otherwise it returns the exception of one failing entry |
| TypedJobFactories.Wrap | src/MassTransit.QuartzIntegration/MassTransitJobFactory.cs:97-101 | Every failure inside NewJob becomes a SchedulerException "Problem instantiating class '<full name>'" carrying the original cause, except that a bundle without a job detail ends in a NullReferenceException |
| TypedJobFactories.TypedJobFactory.NewJob | src/MassTransit.QuartzIntegration/MassTransitJobFactory.cs:81-103 | The result is the constructed job with the merged job data bound. A failure of construction or binding is wrapped naming the class. A bundle without a job detail gives a NullReferenceException |
| TypedJobFactories.BoundInFiring | src/MassTransit.QuartzIntegration/MassTransitJobFactory.cs:83-95 | A successful firing returns the constructed job with the merged job data bound onto it |
| TypedJobFactories.JobHoldsFactoryBus | src/MassTransit.QuartzIntegration/MassTransitJobFactory.cs:85 | A returned job has the factory's class. It holds exactly the factory's bus when built through the bus-taking constructor, and no bus otherwise |
| TypedJobFactories.BoundValueFollowsPrecedence | src/MassTransit.QuartzIntegration/MassTransitJobFactory.cs:87-93 | A property named by several sources receives the converted value of the trigger, else the job detail, else the scheduler context |
| TypedJobFactories.HeaderEntryBound | src/MassTransit.QuartzIntegration/MassTransitJobFactory.cs:91-93 | A property named PayloadMessageHeadersAsJson receives the freshly serialized firing times |
| TypedJobFactories.UnboundPropertiesKeepConstructedValues | src/MassTransit.QuartzIntegration/MassTransitJobFactory.cs:109-124 | An entry naming no property changes nothing. A property that no entry names keeps its constructed value, and no new property appears |
| TypedJobFactories.InvalidUriFailsFiring | src/MassTransit.QuartzIntegration/MassTransitJobFactory.cs:116-121 | Text under a Uri property that does not parse fails the whole firing with the wrapped SchedulerException, and no job is returned |
| TypedJobFactories.ConstructorFaultFailsFiring | src/MassTransit.QuartzIntegration/MassTransitJobFactory.cs:83-101 | A throwing job constructor fails the firing, with its exception as the cause |
| Uris.ParseUri | src/MassTransit.QuartzIntegration/MassTransitJobFactory.cs:119 | A parsed URI is well-formed and prints back as the parsed text |
| Uris.UriRoundTrip | src/MassTransit.QuartzIntegration/MassTransitJobFactory.cs:119 | Parsing the printed text of a well-formed URI gives the same URI back |
| Uris.ParseUriRejectsOnlyNonUris | src/MassTransit.QuartzIntegration/MassTransitJobFactory.cs:119 | Parsing fails exactly when no well-formed URI prints as the text |
| Quartz.ToText | src/MassTransit.QuartzIntegration/MassTransitJobFactory.cs:119 | value.ToString() fails exactly on null. On text it is the text itself |
| Quartz.IntTextIsNoUri | src/MassTransit.QuartzIntegration/MassTransitJobFactory.cs:119 | The text of an integer never parses as a URI |

## Left out

- Reflection and expression compilation (`GetConstructor`, `Expression.Lambda(...).Compile()`, `Activator.CreateInstance`, `ReadWritePropertyCache<T>`). These are replaced by the `JobType` registry of constructor shapes and property kinds. A job constructor is reduced to the property values it leaves, or the exception it throws, whatever bus it receives: a constructor that throws on some buses only, or stores the bus in a writable property, is not represented.
- JSON serialization (line 174) and the ISO 8601 round-trip date text it produces. The serializer is the uninterpreted `encode` function, so no decode/encode round trip is stated.
- `System.Uri` internals. Parsing only checks an absolute `scheme ":" rest` form. It does not model implicit file paths, host/authority validation, or the normalisation `ToString` applies.
- Property setters: the code of `ReadWriteProperty<T>.Set` is not part of this model. Which values a non-Uri property accepts (`Assignable`: any value for object, null or text for string, an integer for int) is an assumption about that setter, not something the code shown promises. A value the assumed rule rejects is modelled as failing the firing with `InvalidCastException`; if the real setter instead stores null for a reference-typed property, such a firing would succeed. Declared types are reduced to Uri, string, int and object.
- Thread safety of `ConcurrentDictionary`. `GetOrAdd` is modelled sequentially, so the transient duplicate factory a race can create is not represented.
- `ReturnJob` (lines 52-54 and 105-107): both are empty no-ops.
- `IScheduler`, `TriggerFiredBundle` and `IBus` are plain records and an opaque handle. Timestamps are UTC ticks, without offsets.
- MessageHeaders.cs is not part of this model. The four Quartz header names are modelled as the constants `MT-Quartz-Scheduled`, `MT-Quartz-Sent`, `MT-Quartz-NextScheduled` and `MT-Quartz-PreviousSent`. Only their distinctness matters to the proofs.
- TypedJobFactories.TypedJobFactory.constructor: requires that the class has a supported constructor. The throwing path of the C# constructor is modelled by `CreateJobFactory`, which checks `CreateConstructor` first.
- A job detail whose type does not implement `IJob` is not modelled. Quartz refuses such a type before it reaches the factory.
- KebabCaseEndpointNameFormatter.cs only replaces '_' with '-' in the output of a snake-case formatter that is not part of this model. DefaultEndpointDefinition.cs holds only constant defaults and an empty `Configure`.
