/** The logging service: one sequential message handler over three process-wide fields — whether
    logging is on, the audit log (absent until logging first starts) and the record counter.
    `Step` is the handler as a function of the state and one message; the class `Service` holds the
    fields and updates them in place, each method proved to do what `Step` says. */
module LoggingService {
  import opened JavaTypes
  import opened JavaText
  import opened AicsVersion
  import opened Intents

  // ---------------------------------------------------------------------------------------------
  // Messages and effects

  const CHECK_INTENT: Int32 := 1
  const START_LOGGING: Int32 := 2
  const STOP_LOGGING: Int32 := 3
  const GET_COUNT: Int32 := 4
  const SAVE_LOG: Int32 := 5

  /** Callers with a UID below this are system processes. */
  const FIRST_APPLICATION_UID: Int32 := 10000

  /** A reply channel (`Message.replyTo`), identified abstractly. */
  type Channel = nat

  /** A handler message: its command code, its first integer argument, its bundle and its reply
      channel, which may be absent. The bundle is never absent: a message sent without one hands
      out an empty bundle. */
  datatype Message = Message(what: Int32, arg1: Int32, data: Bundle, replyTo: Option<Channel>)

  /** What handling one message does beyond the state change: nothing, one message sent on a reply
      channel, or one log handed to storage. */
  datatype Effect = Silent | Reply(to: Channel, message: Message) | Persist(snapshot: AuditLog)

  /** The audit log: the version header it was created with and its records in append order. */
  datatype AuditLog = AuditLog(version: FormatVersion, records: seq<Record>)
  {
    function Append(r: Record): AuditLog
    {
      AuditLog(version, records + [r])
    }
  }

  /** What the device supplies: the platform release string and the package manager, if any. */
  datatype Host = Host(release: string, pm: Option<PackageManager>)

  /** The three process-wide fields. */
  datatype CaptureState = CaptureState(logging: bool, log: Option<AuditLog>, logCount: Int32)

  const INITIAL := CaptureState(false, None, 0)

  /** A message together with the clock readings taken while it is handled. */
  datatype Delivery = Delivery(msg: Message, clock: ClockReads)

  /** A control message with an empty bundle and no reply channel. */
  function Command(what: Int32): Message
  {
    Message(what, 0, EMPTY_BUNDLE, None)
  }

  // ---------------------------------------------------------------------------------------------
  // The handler as a function

  /** The number of records in the log as a Java `int`: 0 without a log. */
  function RecordCount(log: Option<AuditLog>): Int32
  {
    match log
    case None => 0
    case Some(l) => ToInt32(|l.records|)
  }

  /** The counter agrees with the log. */
  predicate CountConsistent(s: CaptureState)
  {
    s.logCount == RecordCount(s.log)
  }

  /** The state after starting to log, whatever came before; the header is taken from the release
      string split as the code splits it. */
  function Started(release: string): CaptureState
  {
    CaptureState(true, Some(AuditLog(ReleaseVersionAsWritten(release), [])), 0)
  }

  /** The record an event message makes when logging is on: `None` without an intent, for an
      unknown `intentType`, or when the receiver lookup throws. */
  function EventRecord(msg: Message, pm: Option<PackageManager>, clock: ClockReads): (r: Option<Record>)
    ensures r.Some? ==> msg.data.intent.Some?
    ensures r.Some? ==> IsRecordedKind(GetInt(msg.data, "intentType", -1))
    ensures r.Some? ==> KindOf(r.value) == GetInt(msg.data, "intentType", -1)
  {
    match msg.data.intent
    case None => None
    case Some(intent) => Classify(GetInt(msg.data, "intentType", -1), msg.data, intent, pm, clock)
  }

  /** The record appended for an event in state `s`: none unless logging is on and a log exists. */
  function Admitted(s: CaptureState, msg: Message, pm: Option<PackageManager>, clock: ClockReads): Option<Record>
  {
    if s.logging && s.log.Some? then EventRecord(msg, pm, clock) else None
  }

  /** The one case that returns before acknowledging: logging is on, a log exists and the bundle
      holds no intent. */
  predicate AckWithheld(s: CaptureState, msg: Message)
  {
    s.logging && s.log.Some? && msg.data.intent.None?
  }

  /** An event message: append the admitted record and count it, then echo the message to its
      reply channel unless the acknowledgement is withheld. */
  function LogIntentStep(s: CaptureState, msg: Message, pm: Option<PackageManager>, clock: ClockReads): (CaptureState, Effect)
  {
    var next :=
      match Admitted(s, msg, pm, clock)
      case Some(r) => s.(log := Some(s.log.value.Append(r)), logCount := ToInt32(s.logCount + 1))
      case None => s;
    (next, if msg.replyTo.Some? && !AckWithheld(s, msg) then Reply(msg.replyTo.value, msg) else Silent)
  }

  /** A count request: a fresh `GET_COUNT` message carrying the counter, when there is a channel. */
  function CountReply(s: CaptureState, msg: Message): Effect
  {
    match msg.replyTo
    case Some(ch) => Reply(ch, Message(GET_COUNT, s.logCount, EMPTY_BUNDLE, None))
    case None => Silent
  }

  /** A save request: the log is handed to storage when it exists. */
  function SaveEffect(s: CaptureState): Effect
  {
    match s.log
    case Some(l) => Persist(l)
    case None => Silent
  }

  /** One message through the handler's dispatch; unknown command codes are ignored. */
  function Step(s: CaptureState, msg: Message, host: Host, clock: ClockReads): (CaptureState, Effect)
  {
    if msg.what == CHECK_INTENT then LogIntentStep(s, msg, host.pm, clock)
    else if msg.what == START_LOGGING then (Started(host.release), Silent)
    else if msg.what == STOP_LOGGING then (s.(logging := false), Silent)
    else if msg.what == GET_COUNT then (s, CountReply(s, msg))
    else if msg.what == SAVE_LOG then (s, SaveEffect(s))
    else (s, Silent)
  }

  /** The state after handling a sequence of messages in order. */
  function Run(s: CaptureState, host: Host, ds: seq<Delivery>): CaptureState
    decreases |ds|
  {
    if ds == [] then s else Run(Step(s, ds[0].msg, host, ds[0].clock).0, host, ds[1..])
  }

  // ---------------------------------------------------------------------------------------------
  // Properties of the handler

  /** Starting resets everything: logging on, counter 0, a new empty log with the version the
      release string yields, whatever the state before. As the release string is split, any release
      free of line terminators yields the all-zero header. */
  lemma StartResets(s: CaptureState, msg: Message, host: Host, clock: ClockReads)
    requires msg.what == START_LOGGING
    ensures Step(s, msg, host, clock).0.logging
    ensures Step(s, msg, host, clock).0.logCount == 0
    ensures Step(s, msg, host, clock).0.log == Some(AuditLog(ReleaseVersionAsWritten(host.release), []))
    ensures (forall i :: 0 <= i < |host.release| ==> !IsLineTerminator(host.release[i])) ==>
      Step(s, msg, host, clock).0.log == Some(AuditLog(UNKNOWN_VERSION, []))
    ensures Step(s, msg, host, clock).1 == Silent
  {
    if forall i :: 0 <= i < |host.release| ==> !IsLineTerminator(host.release[i]) {
      AsWrittenAlwaysUnknown(host.release);
    }
  }

  /** Stopping clears only the flag; the log and the counter stay as they were. */
  lemma StopKeepsLog(s: CaptureState, msg: Message, host: Host, clock: ClockReads)
    requires msg.what == STOP_LOGGING
    ensures !Step(s, msg, host, clock).0.logging
    ensures Step(s, msg, host, clock).0.log == s.log
    ensures Step(s, msg, host, clock).0.logCount == s.logCount
    ensures Step(s, msg, host, clock).1 == Silent
  {
  }

  /** Count requests, save requests and unknown codes change none of the three fields. A count
      request replies exactly when there is a channel; a save hands over the log exactly when one
      exists. */
  lemma QueriesKeepState(s: CaptureState, msg: Message, host: Host, clock: ClockReads)
    requires msg.what !in {CHECK_INTENT, START_LOGGING, STOP_LOGGING}
    ensures Step(s, msg, host, clock).0 == s
    ensures msg.what == GET_COUNT ==> (Step(s, msg, host, clock).1.Reply? <==> msg.replyTo.Some?)
    ensures msg.what == SAVE_LOG ==> (Step(s, msg, host, clock).1.Persist? <==> s.log.Some?)
    ensures msg.what == SAVE_LOG && s.log.Some? ==> Step(s, msg, host, clock).1 == Persist(s.log.value)
    ensures msg.what != GET_COUNT && msg.what != SAVE_LOG ==> Step(s, msg, host, clock).1 == Silent
  {
  }

  /** A count reply carries the number of records in the current log (0 without one). */
  lemma GetCountReportsRecords(s: CaptureState, msg: Message, host: Host, clock: ClockReads)
    requires CountConsistent(s)
    requires msg.what == GET_COUNT && msg.replyTo.Some?
    ensures Step(s, msg, host, clock).1 == Reply(msg.replyTo.value, Message(GET_COUNT, RecordCount(s.log), EMPTY_BUNDLE, None))
  {
  }

  /** An event leaves the state untouched exactly when it is not admitted: logging off, no log,
      no intent in the bundle, an unknown type, or a receiver lookup that throws. */
  lemma EventDroppedIff(s: CaptureState, msg: Message, host: Host, clock: ClockReads)
    requires msg.what == CHECK_INTENT
    ensures Step(s, msg, host, clock).0 == s <==> Admitted(s, msg, host.pm, clock).None?
  {
    var r := Admitted(s, msg, host.pm, clock);
    if r.Some? {
      var next := Step(s, msg, host, clock).0;
      assert |next.log.value.records| == |s.log.value.records| + 1;
    }
  }

  /** An event that is admitted appends exactly its record at the end of the log and adds one to
      the counter; the flag and the version header do not change. */
  lemma AcceptedAppendsOne(s: CaptureState, msg: Message, host: Host, clock: ClockReads, r: Record)
    requires msg.what == CHECK_INTENT
    requires Admitted(s, msg, host.pm, clock) == Some(r)
    ensures Step(s, msg, host, clock).0.log == Some(AuditLog(s.log.value.version, s.log.value.records + [r]))
    ensures Step(s, msg, host, clock).0.logCount == ToInt32(s.logCount + 1)
    ensures Step(s, msg, host, clock).0.logging == s.logging
  {
  }

  /** An event with a reply channel is echoed back on it, once and unchanged — whether it was
      recorded, dropped or of an unknown type — except when logging is on, a log exists and the
      bundle holds no intent (as the empty bundle of a message sent without data does). */
  lemma AckUnlessWithheld(s: CaptureState, msg: Message, host: Host, clock: ClockReads)
    requires msg.what == CHECK_INTENT
    ensures Step(s, msg, host, clock).1.Reply? <==> msg.replyTo.Some? && !AckWithheld(s, msg)
    ensures Step(s, msg, host, clock).1.Reply? ==> Step(s, msg, host, clock).1 == Reply(msg.replyTo.value, msg)
    ensures !Step(s, msg, host, clock).1.Reply? ==> Step(s, msg, host, clock).1 == Silent
    ensures s.logging && s.log.Some? && msg.data == EMPTY_BUNDLE ==> Step(s, msg, host, clock).1 == Silent
  {
  }

  /** Between two starts the log is append-only: it stays present, keeps its version, keeps every
      record it had and gains at most one. */
  lemma AppendOnlyUntilRestart(s: CaptureState, msg: Message, host: Host, clock: ClockReads)
    requires msg.what != START_LOGGING
    ensures s.log.None? ==> Step(s, msg, host, clock).0.log.None?
    ensures s.log.Some? ==> Step(s, msg, host, clock).0.log.Some?
    ensures s.log.Some? ==> Step(s, msg, host, clock).0.log.value.version == s.log.value.version
    ensures s.log.Some? ==> s.log.value.records <= Step(s, msg, host, clock).0.log.value.records
    ensures s.log.Some? ==> |Step(s, msg, host, clock).0.log.value.records| <= |s.log.value.records| + 1
  {
  }

  /** Every message keeps the counter equal to the number of records in the log, modulo the
      wrap-around of a Java `int`. */
  lemma StepKeepsCountConsistent(s: CaptureState, msg: Message, host: Host, clock: ClockReads)
    requires CountConsistent(s)
    ensures CountConsistent(Step(s, msg, host, clock).0)
  {
    if msg.what == CHECK_INTENT && Admitted(s, msg, host.pm, clock).Some? {
      IncrementWraps(|s.log.value.records|);
    }
  }

  /** From process start, after any sequence of messages the counter equals the number of records
      in the current log, and is 0 while no log exists. */
  lemma {:induction false} RunKeepsCountConsistent(s: CaptureState, host: Host, ds: seq<Delivery>)
    requires CountConsistent(s)
    ensures CountConsistent(Run(s, host, ds))
    decreases |ds|
  {
    if ds != [] {
      StepKeepsCountConsistent(s, ds[0].msg, host, ds[0].clock);
      RunKeepsCountConsistent(Step(s, ds[0].msg, host, ds[0].clock).0, host, ds[1..]);
    }
  }

  /** Three messages in a row. */
  lemma RunThree(s: CaptureState, host: Host, d0: Delivery, d1: Delivery, d2: Delivery)
    ensures Run(s, host, [d0, d1, d2]) ==
      Step(Step(Step(s, d0.msg, host, d0.clock).0, d1.msg, host, d1.clock).0, d2.msg, host, d2.clock).0
  {
    var ds := [d0, d1, d2];
    var s1 := Step(s, d0.msg, host, d0.clock).0;
    var s2 := Step(s1, d1.msg, host, d1.clock).0;
    var s3 := Step(s2, d2.msg, host, d2.clock).0;
    assert ds[1..] == [d1, d2] && ds[1..][1..] == [d2] && ds[1..][1..][1..] == [];
    assert Run(s2, host, [d2]) == s3;
  }

  /** Handling `START, A, STOP` records exactly A, and a save then hands over a log of exactly A;
      continuing with `B, START, C` drops B and leaves a log of exactly C. */
  lemma OrderingScenario(s0: CaptureState, host: Host, a: Message, b: Message, c: Message,
                         ca: ClockReads, cb: ClockReads, cc: ClockReads, ra: Record, rc: Record)
    requires a.what == CHECK_INTENT && b.what == CHECK_INTENT && c.what == CHECK_INTENT
    requires EventRecord(a, host.pm, ca) == Some(ra)
    requires EventRecord(c, host.pm, cc) == Some(rc)
    ensures var v := ReleaseVersionAsWritten(host.release);
            var stopped := Run(s0, host, [Delivery(Command(START_LOGGING), ca), Delivery(a, ca), Delivery(Command(STOP_LOGGING), ca)]);
            && stopped.log == Some(AuditLog(v, [ra]))
            && Step(stopped, Command(SAVE_LOG), host, ca).1 == Persist(AuditLog(v, [ra]))
            && Run(stopped, host, [Delivery(b, cb), Delivery(Command(START_LOGGING), cb), Delivery(c, cc)]).log
               == Some(AuditLog(v, [rc]))
  {
    var v := ReleaseVersionAsWritten(host.release);
    var s1 := Step(s0, Command(START_LOGGING), host, ca).0;
    var s2 := Step(s1, a, host, ca).0;
    var s3 := Step(s2, Command(STOP_LOGGING), host, ca).0;
    assert s2.log == Some(AuditLog(v, [] + [ra]));
    RunThree(s0, host, Delivery(Command(START_LOGGING), ca), Delivery(a, ca), Delivery(Command(STOP_LOGGING), ca));
    var s4 := Step(s3, b, host, cb).0;
    var s5 := Step(s4, Command(START_LOGGING), host, cb).0;
    var s6 := Step(s5, c, host, cc).0;
    assert s6.log == Some(AuditLog(v, [] + [rc]));
    RunThree(s3, host, Delivery(b, cb), Delivery(Command(START_LOGGING), cb), Delivery(c, cc));
    assert [] + [ra] == [ra] && [] + [rc] == [rc];
  }

  // ---------------------------------------------------------------------------------------------
  // The service object

  class Service {
    var logging: bool
    var log: Option<AuditLog>
    var logCount: Int32
    /** The service's own UID. */
    const uid: Int32
    const host: Host

    function State(): CaptureState
      reads this
    {
      CaptureState(logging, log, logCount)
    }

    ghost predicate Valid()
      reads this
    {
      CountConsistent(State())
    }

    /** The fields' initial values at process start, and the UID and package manager taken when the
        service is created. */
    constructor (uid: Int32, host: Host)
      ensures Valid() && State() == INITIAL
      ensures this.uid == uid && this.host == host
    {
      logging := false;
      log := None;
      logCount := 0;
      this.uid := uid;
      this.host := host;
    }

    /** The handler: dispatch on the command code. */
    method HandleMessage(msg: Message, clock: ClockReads) returns (effect: Effect)
      requires Valid()
      modifies this
      ensures Valid()
      ensures (State(), effect) == Step(old(State()), msg, host, clock)
    {
      StepKeepsCountConsistent(State(), msg, host, clock);
      if msg.what == CHECK_INTENT {
        effect := LogIntent(msg, clock);
      } else if msg.what == START_LOGGING {
        EnableLogging();
        effect := Silent;
      } else if msg.what == STOP_LOGGING {
        logging := false;
        effect := Silent;
      } else if msg.what == GET_COUNT {
        effect := SendCount(msg);
      } else if msg.what == SAVE_LOG {
        effect := SaveLog();
      } else {
        effect := Silent;
      }
    }

    /** Logging on, counter reset, and a new empty log whose header is the version the release
        string yields as split. */
    method EnableLogging()
      modifies this
      ensures Valid()
      ensures State() == Started(host.release)
    {
      logging := true;
      logCount := 0;
      log := Some(AuditLog(ReleaseVersionAsWritten(host.release), []));
    }

    /** Record the event if it is admitted, then acknowledge it. */
    method LogIntent(msg: Message, clock: ClockReads) returns (effect: Effect)
      requires Valid()
      modifies this`log, this`logCount
      ensures Valid()
      ensures (State(), effect) == LogIntentStep(old(State()), msg, host.pm, clock)
    {
      if logging && log.Some? {
        var b := msg.data;
        if b.intent.None? {
          return Silent;
        }
        var kind := GetInt(b, "intentType", -1);
        var record := BuildRecord(kind, b, b.intent.value, host.pm, clock);
        if record.Some? {
          IncrementWraps(|log.value.records|);
          log := Some(log.value.Append(record.value));
          logCount := ToInt32(logCount + 1);
        }
      }
      if msg.replyTo.Some? {
        effect := Reply(msg.replyTo.value, msg);
      } else {
        effect := Silent;
      }
    }

    /** Reply with the counter when the request has a reply channel. */
    method SendCount(msg: Message) returns (effect: Effect)
      requires Valid()
      ensures effect == CountReply(State(), msg)
      ensures effect.Reply? <==> msg.replyTo.Some?
      ensures effect.Reply? ==> effect.message.what == GET_COUNT && effect.message.arg1 == RecordCount(log)
    {
      if msg.replyTo.Some? {
        effect := Reply(msg.replyTo.value, Message(GET_COUNT, logCount, EMPTY_BUNDLE, None));
      } else {
        effect := Silent;
      }
    }

    /** Hand the log to storage when one exists; nothing changes either way. */
    method SaveLog() returns (effect: Effect)
      ensures effect == SaveEffect(State())
      ensures effect.Persist? <==> log.Some?
    {
      if log.Some? {
        effect := Persist(log.value);
      } else {
        effect := Silent;
      }
    }

    /** The bind guard: system UIDs are always let in; among application UIDs only the service's
        own. */
    function OnBind(callingUid: Int32): (granted: bool)
      ensures callingUid < FIRST_APPLICATION_UID ==> granted
      ensures callingUid >= FIRST_APPLICATION_UID ==> (granted <==> callingUid == uid)
    {
      callingUid < FIRST_APPLICATION_UID || callingUid == uid
    }
  }
}
