/**
 * DefaultAsyncTrace: one span event recorded on behalf of asynchronous work,
 * the fire/timeout state held in an AtomicInteger, the optional timeout task
 * that a winning fire cancels, the async id, and the storage the span is
 * handed to. Storage.store and TimerTask.cancel are outside this model; their
 * calls are logged (the store log is ghost, the sink being external).
 */
module AsyncTraces {
  import opened Wrappers
  import opened JavaText
  import opened TraceModel
  import opened AsyncState

  /** DefaultAsyncTrace.NON_REGIST: the async id before one is assigned. */
  const NON_REGIST: Int32 := -1

  /** Identity of a Storage sink. */
  type StorageId = nat

  /** StringUtils.drop: the message cut down to at most `limit` characters. */
  function Drop(message: string, limit: nat): (r: string)
    ensures |r| <= limit && r <= message
    ensures |message| <= limit ==> r == message
  {
    if |message| <= limit then message else message[..limit]
  }

  /** The annotation recordApi adds: none for a null descriptor. */
  function ApiAnnotation(descriptor: Option<MethodDescriptor>): (a: Option<Annotation>)
    ensures a.Some? <==> descriptor.Some?
    ensures a.Some? ==> (a.value.key == Api <==> descriptor.value.apiId == 0)
    ensures a.Some? ==> (a.value.key == Api || a.value.key == ApiDid)
  {
    match descriptor
    case None => None
    case Some(d) =>
      if d.apiId == 0 then Some(Annotation(Api, Text(d.fullName)))
      else Some(Annotation(ApiDid, Number(d.apiId)))
  }

  /** The annotation recordException adds: only for a Throwable, with its message dropped. */
  function ExceptionAnnotation(result: CallResult, dropLimit: nat): (a: Option<Annotation>)
    ensures a.Some? <==> result.Throwable?
    ensures a.Some? ==>
      && a.value.key == Exception && a.value.value.Text?
      && |a.value.value.text| <= dropLimit && a.value.value.text <= result.message
  {
    match result
    case NonThrowable => None
    case Throwable(message) => Some(Annotation(Exception, Text(Drop(message, dropLimit))))
  }

  function AddOptional(span: SpanEvent, a: Option<Annotation>): (r: SpanEvent)
    ensures r.annotations == span.annotations + (if a.Some? then [a.value] else [])
    ensures r == span.(annotations := r.annotations)
  {
    match a
    case None => span
    case Some(x) => span.(annotations := span.annotations + [x])
  }

  /** java.util.concurrent.atomic.AtomicInteger, each operation one indivisible step. */
  class AtomicInteger {
    var value: int

    constructor (initial: int)
      ensures value == initial
    {
      value := initial;
    }

    method Get() returns (v: int)
      ensures v == value
    {
      v := value;
    }

    method CompareAndSet(expected: int, update: int) returns (swapped: bool)
      modifies this
      ensures (swapped, value) == AsyncState.CompareAndSet(old(value), expected, update)
    {
      swapped := value == expected;
      if swapped {
        value := update;
      }
    }
  }

  class DefaultAsyncTrace {
    const state: AtomicInteger
    var asyncId: Int32
    var spanEvent: SpanEvent
    var storage: Option<StorageId>
    var timeoutTask: Option<TaskId>
    /** TimerTask.cancel calls made, in order. */
    var cancelCalls: seq<TaskId>
    /** Storage.store calls made, in order, with the sink and the span handed over. */
    ghost var storeCalls: seq<(StorageId, SpanEvent)>

    /**
     * The state is one of the three, and the timeout task has been cancelled
     * at most once, and only after a fire won.
     */
    ghost predicate Valid()
      reads this, state
    {
      && (state.value == STATE_INIT || IsTerminal(state.value))
      && |cancelCalls| <= 1
      && (cancelCalls != [] ==> state.value == STATE_FIRE)
    }

    /** The completion state as a value of the state machine. */
    ghost function Machine(): Guard
      reads this, state
    {
      Guard(state.value, timeoutTask, cancelCalls)
    }

    constructor (spanEvent: SpanEvent)
      ensures Valid() && fresh(state)
      ensures state.value == STATE_INIT && asyncId == NON_REGIST
      ensures this.spanEvent == spanEvent && storage == None && timeoutTask == None
      ensures cancelCalls == [] && storeCalls == []
    {
      state := new AtomicInteger(STATE_INIT);
      asyncId := NON_REGIST;
      this.spanEvent := spanEvent;
      storage := None;
      timeoutTask := None;
      cancelCalls := [];
      storeCalls := [];
    }

    method SetStorage(storage: Option<StorageId>)
      modifies this`storage
      ensures this.storage == storage
    {
      this.storage := storage;
    }

    method SetTimeoutTask(timeoutTask: Option<TaskId>)
      modifies this`timeoutTask
      ensures this.timeoutTask == timeoutTask
    {
      this.timeoutTask := timeoutTask;
    }

    method SetAsyncId(asyncId: Int32)
      modifies this`asyncId
      ensures this.asyncId == asyncId
    {
      this.asyncId := asyncId;
    }

    method GetAsyncId() returns (id: Int32)
      ensures id == asyncId
    {
      id := asyncId;
    }

    method MarkBeforeTime(now: int)
      modifies this`spanEvent
      ensures spanEvent == old(spanEvent).(startTime := now)
    {
      spanEvent := spanEvent.(startTime := now);
    }

    method GetBeforeTime() returns (t: int)
      ensures t == spanEvent.startTime
    {
      t := spanEvent.startTime;
    }

    method MarkAfterTime(now: int)
      modifies this`spanEvent
      ensures spanEvent == old(spanEvent).(endTime := now)
    {
      spanEvent := spanEvent.(endTime := now);
    }

    /**
     * traceBlockEnd / logSpan: hands the span to storage once. With no storage
     * set the call throws NullPointerException, which logSpan catches, so
     * nothing is stored; a failure inside the sink is caught the same way and
     * never reaches the caller.
     */
    method TraceBlockEnd()
      modifies this`storeCalls
      ensures storeCalls == old(storeCalls) + (if storage.Some? then [(storage.value, spanEvent)] else [])
    {
      if storage.Some? {
        storeCalls := storeCalls + [(storage.value, spanEvent)];
      }
    }

    /** Appends one annotation; everything else in the span stays as it was. */
    method RecordAttribute(key: AnnotationKey, value: AnnotationValue)
      modifies this`spanEvent
      ensures spanEvent.annotations == old(spanEvent.annotations) + [Annotation(key, value)]
      ensures spanEvent == old(spanEvent).(annotations := spanEvent.annotations)
    {
      spanEvent := spanEvent.(annotations := spanEvent.annotations + [Annotation(key, value)]);
    }

    /** Nothing for a null descriptor, else API with the full name when apiId is 0, else API_DID. */
    method RecordApi(descriptor: Option<MethodDescriptor>)
      modifies this`spanEvent
      ensures spanEvent == AddOptional(old(spanEvent), ApiAnnotation(descriptor))
      ensures descriptor.None? ==> spanEvent == old(spanEvent)
      ensures descriptor.Some? && descriptor.value.apiId == 0 ==>
        spanEvent.annotations == old(spanEvent.annotations) + [Annotation(Api, Text(descriptor.value.fullName))]
      ensures descriptor.Some? && descriptor.value.apiId != 0 ==>
        spanEvent.annotations == old(spanEvent.annotations) + [Annotation(ApiDid, Number(descriptor.value.apiId))]
    {
      if descriptor.None? {
        return;
      }
      if descriptor.value.apiId == 0 {
        RecordAttribute(Api, Text(descriptor.value.fullName));
      } else {
        RecordAttribute(ApiDid, Number(descriptor.value.apiId));
      }
    }

    /** One EXCEPTION annotation with the dropped message for a Throwable, nothing otherwise. */
    method RecordException(result: CallResult, dropLimit: nat)
      modifies this`spanEvent
      ensures spanEvent == AddOptional(old(spanEvent), ExceptionAnnotation(result, dropLimit))
      ensures result.NonThrowable? ==> spanEvent == old(spanEvent)
      ensures result.Throwable? ==>
        spanEvent.annotations == old(spanEvent.annotations) + [Annotation(Exception, Text(Drop(result.message, dropLimit)))]
    {
      if result.Throwable? {
        var drop := Drop(result.message, dropLimit);
        RecordAttribute(Exception, Text(drop));
      }
    }

    method RecordServiceType(serviceType: ServiceType)
      modifies this`spanEvent
      ensures spanEvent == old(spanEvent).(serviceType := serviceType)
    {
      spanEvent := spanEvent.(serviceType := serviceType);
    }

    method RecordRpcName(rpcName: string)
      modifies this`spanEvent
      ensures spanEvent == old(spanEvent).(rpc := rpcName)
    {
      spanEvent := spanEvent.(rpc := rpcName);
    }

    method RecordDestinationId(destinationId: string)
      modifies this`spanEvent
      ensures spanEvent == old(spanEvent).(destinationId := destinationId)
    {
      spanEvent := spanEvent.(destinationId := destinationId);
    }

    method RecordEndPoint(endPoint: string)
      modifies this`spanEvent
      ensures spanEvent == old(spanEvent).(endPoint := endPoint)
    {
      spanEvent := spanEvent.(endPoint := endPoint);
    }

    method GetState() returns (s: int)
      ensures s == state.value
    {
      s := state.Get();
    }

    /** INIT becomes TIMEOUT; from FIRE or TIMEOUT nothing changes. */
    method Timeout()
      requires Valid()
      modifies state
      ensures Valid()
      ensures Machine() == Step(old(Machine()), TimeoutCall).0
      ensures state.value == (if old(state.value) == STATE_INIT then STATE_TIMEOUT else old(state.value))
    {
      var swapped := state.CompareAndSet(STATE_INIT, STATE_TIMEOUT);
    }

    /**
     * Wins iff the state was INIT, leaving it FIRE; then, and only then, the
     * timeout task is cancelled if one is set. A losing fire changes nothing.
     */
    method Fire() returns (won: bool)
      requires Valid()
      modifies this`cancelCalls, state
      ensures Valid()
      ensures (Machine(), won) == Step(old(Machine()), FireCall)
      ensures won <==> old(state.value) == STATE_INIT
      ensures state.value == (if won then STATE_FIRE else old(state.value))
      ensures cancelCalls == old(cancelCalls) + (if won && timeoutTask.Some? then [timeoutTask.value] else [])
    {
      assert cancelCalls + [] == cancelCalls;
      won := state.CompareAndSet(STATE_INIT, STATE_FIRE);
      if won {
        if timeoutTask.Some? {
          cancelCalls := cancelCalls + [timeoutTask.value];
        }
      }
    }
  }
}
