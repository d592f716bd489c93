/** The events the service receives and the records it makes of them: the intercepted intent,
    the bundle that carries it, and the three record variants (activity, broadcast, service),
    each holding the common intent payload. */
module Intents {
  import opened JavaTypes
  import opened JavaText
  import opened Clock

  // ---------------------------------------------------------------------------------------------
  // What arrives

  /** A component an intent addresses: its package (used for the UID lookup) and the text the
      platform's short rendering of the component name gives. */
  datatype ComponentName = ComponentName(packageName: string, shortString: string)

  /** The outcome of marshalling a clip-data or extras object into a `Parcel`: the bytes, or the
      exception the platform threw. */
  datatype Marshal = Marshalled(bytes: seq<Octet>) | MarshalFailed

  /** The intercepted intent. Absent parts are `None` (null in the platform API). */
  datatype Intent = Intent(
    component: Option<ComponentName>,
    action: Option<string>,
    dataString: Option<string>,
    flags: Int32,
    mimeType: Option<string>,
    categories: Option<seq<string>>,  // in the category set's iteration order
    clipData: Option<Marshal>,
    extras: Option<Marshal>)

  /** The bundle attached to a message: the parcelable under "intent" and the named int and string
      values the interception side fills in. */
  datatype Bundle = Bundle(intent: Option<Intent>, ints: map<string, Int32>, strings: map<string, string>)

  /** The bundle a message without attached data hands out: `Message.getData` creates it on demand. */
  const EMPTY_BUNDLE := Bundle(None, map[], map[])

  /** `Bundle.getInt(key, fallback)`. */
  function GetInt(b: Bundle, key: string, fallback: Int32): (r: Int32)
    ensures key !in b.ints ==> r == fallback
  {
    if key in b.ints then b.ints[key] else fallback
  }

  /** `Bundle.getString(key)`: null when the key is missing. */
  function GetString(b: Bundle, key: string): (r: Option<string>)
    ensures r.Some? <==> key in b.strings
  {
    if key in b.strings then Some(b.strings[key]) else None
  }

  /** The platform's package registry as the service sees it: the UID of each installed package.
      A package it does not know makes the lookup throw. */
  datatype PackageManager = PackageManager(installed: map<string, Int32>)

  /** The two separate reads of the wall clock made while building one record: one for the seconds
      field and one for the offset field. They need not be the same instant. */
  datatype ClockReads = ClockReads(forSeconds: Int64, forOffset: Int64)

  // ---------------------------------------------------------------------------------------------
  // What is recorded

  const TYPE_ACTIVITY: Int32 := 0
  const TYPE_BROADCAST: Int32 := 1
  const TYPE_SERVICE: Int32 := 2

  predicate IsRecordedKind(kind: Int32)
  {
    kind == TYPE_ACTIVITY || kind == TYPE_BROADCAST || kind == TYPE_SERVICE
  }

  /** The payload every record carries. */
  datatype IntentData = IntentData(
    action: Option<string>,
    data: Option<string>,
    flags: Int32,
    mimeType: Option<string>,
    category: string,
    clipData: seq<Octet>,
    extras: seq<Octet>)

  /** One log record: a variant tag with that variant's header fields, and the payload. */
  datatype Record =
    | ActivityRecord(
        callerComponent: Option<string>, receiverComponent: Option<string>,
        requestCode: Int32, startFlags: Int32, userId: Int32,
        timestamp: Int32, offset: Int16,
        callerUid: Int32, callerPid: Int32, receiverUid: Int32,
        payload: IntentData)
    | BroadcastRecord(
        receiverComponent: Option<string>, requestCode: Int32,
        requiredPermission: Option<string>, userId: Int32,
        timestamp: Int32, offset: Int16, receiverUid: Int32,
        payload: IntentData)
    | ServiceRecord(
        serviceAction: Option<string>, callerComponent: Option<string>,
        serviceFlags: Int32, receiverComponent: Option<string>, userId: Int32,
        timestamp: Int32, offset: Int16,
        callerUid: Int32, callerPid: Int32, receiverUid: Int32,
        payload: IntentData)

  /** The `intentType` value a record variant stands for. */
  function KindOf(r: Record): Int32
  {
    match r
    case ActivityRecord(_, _, _, _, _, _, _, _, _, _, _) => TYPE_ACTIVITY
    case BroadcastRecord(_, _, _, _, _, _, _, _) => TYPE_BROADCAST
    case ServiceRecord(_, _, _, _, _, _, _, _, _, _, _) => TYPE_SERVICE
  }

  // ---------------------------------------------------------------------------------------------
  // The category string

  /** Each category followed by `;`, in iteration order. */
  function Categories(cs: seq<string>): (r: string)
    ensures r == "" <==> cs == []
    ensures cs != [] ==> r[|r| - 1] == ';'
  {
    if cs == [] then "" else cs[0] + ";" + Categories(cs[1..])
  }

  /** The category string of a concatenation is the concatenation of the category strings. */
  lemma {:induction false} CategoriesAppend(a: seq<string>, b: seq<string>)
    ensures Categories(a + b) == Categories(a) + Categories(b)
  {
    if a != [] {
      assert (a + b)[1..] == a[1..] + b;
      CategoriesAppend(a[1..], b);
    } else {
      assert a + b == b;
    }
  }

  /** Splitting the category string at each `;` gives back the categories, followed by the empty
      piece after the trailing separator, as long as no category itself contains `;`. */
  lemma {:induction false} CategoriesRoundTrip(cs: seq<string>)
    requires forall k, i :: 0 <= k < |cs| && 0 <= i < |cs[k]| ==> cs[k][i] != ';'
    ensures Pieces(Literal(';'), Categories(cs)) == cs + [""]
  {
    if cs != [] {
      CategoriesRoundTrip(cs[1..]);
      assert cs[0] + ";" + Categories(cs[1..]) == cs[0] + [';'] + Categories(cs[1..]);
      PiecesAtMatch(Literal(';'), cs[0], ';', Categories(cs[1..]));
      assert [cs[0]] + (cs[1..] + [""]) == cs + [""];
    }
  }

  /** The loop that builds the category string, appending each category and a separator. */
  method JoinCategories(cs: seq<string>) returns (joined: string)
    ensures joined == Categories(cs)
  {
    joined := "";
    var i := 0;
    while i < |cs|
      invariant 0 <= i <= |cs|
      invariant joined == Categories(cs[..i])
    {
      assert cs[..i + 1] == cs[..i] + [cs[i]];
      CategoriesAppend(cs[..i], [cs[i]]);
      joined := joined + cs[i] + ";";
      i := i + 1;
    }
    assert cs[..i] == cs;
  }

  // ---------------------------------------------------------------------------------------------
  // Classification

  /** A clip-data or extras blob: the marshalled bytes, or the empty blob when the intent has none
      or marshalling throws (the exception is caught and the record is still made). */
  function Blob(m: Option<Marshal>): (r: seq<Octet>)
    ensures m.Some? && m.value.Marshalled? ==> r == m.value.bytes
    ensures m.None? || m == Some(MarshalFailed) ==> r == []
  {
    match m
    case Some(Marshalled(bytes)) => bytes
    case _ => []
  }

  /** The payload built from the intent. */
  function PayloadOf(intent: Intent): IntentData
  {
    IntentData(
      intent.action, intent.dataString, intent.flags, intent.mimeType,
      if intent.categories.Some? then Categories(intent.categories.value) else "",
      Blob(intent.clipData), Blob(intent.extras))
  }

  /** The receiver's short name, when the intent names a component. */
  function ReceiverName(intent: Intent): Option<string>
  {
    match intent.component
    case Some(c) => Some(c.shortString)
    case None => None
  }

  /** The receiver's UID: 0 without a component or without a package manager; otherwise the
      registry's answer, and `None` when the lookup throws (which abandons the record). */
  function ReceiverUid(intent: Intent, pm: Option<PackageManager>): (r: Option<Int32>)
    ensures r.None? <==> intent.component.Some? && pm.Some? && intent.component.value.packageName !in pm.value.installed
    ensures intent.component.None? || pm.None? ==> r == Some(0)
    ensures intent.component.Some? && pm.Some? && intent.component.value.packageName in pm.value.installed ==>
      r == Some(pm.value.installed[intent.component.value.packageName])
  {
    match intent.component
    case None => Some(0)
    case Some(c) =>
      match pm
      case None => Some(0)
      case Some(registry) =>
        if c.packageName in registry.installed then Some(registry.installed[c.packageName]) else None
  }

  /** The record the service makes of an intent of the given kind; `None` for a kind that is not
      recorded and for an intent whose receiver lookup throws. */
  function Classify(kind: Int32, b: Bundle, intent: Intent, pm: Option<PackageManager>, clock: ClockReads): (r: Option<Record>)
    ensures r.Some? <==> IsRecordedKind(kind) && ReceiverUid(intent, pm).Some?
    ensures r.Some? ==> KindOf(r.value) == kind && r.value.payload == PayloadOf(intent)
    ensures r.Some? ==> r.value.receiverComponent == ReceiverName(intent)
    ensures r.Some? ==> Some(r.value.receiverUid) == ReceiverUid(intent, pm)
    ensures r.Some? && !r.value.BroadcastRecord? ==>
      r.value.callerUid == GetInt(b, "callerUid", 0) && r.value.callerPid == GetInt(b, "callerPid", 0)
    ensures r.Some? ==>
      r.value.timestamp == TruncatedSeconds(clock.forSeconds) && r.value.offset == MillisOffset(clock.forOffset)
  {
    match ReceiverUid(intent, pm)
    case None => None
    case Some(receiverUid) =>
      var receiver := ReceiverName(intent);
      var payload := PayloadOf(intent);
      var seconds := TruncatedSeconds(clock.forSeconds);
      var offset := MillisOffset(clock.forOffset);
      if kind == TYPE_ACTIVITY then
        Some(ActivityRecord(
          GetString(b, "callingPackage"), receiver,
          GetInt(b, "requestCode", 0), GetInt(b, "startFlags", 0), GetInt(b, "userId", 0),
          seconds, offset,
          GetInt(b, "callerUid", 0), GetInt(b, "callerPid", 0), receiverUid,
          payload))
      else if kind == TYPE_BROADCAST then
        Some(BroadcastRecord(
          receiver, GetInt(b, "requestCode", 0),
          GetString(b, "requiredPermission"), GetInt(b, "userId", 0),
          seconds, offset, receiverUid,
          payload))
      else if kind == TYPE_SERVICE then
        Some(ServiceRecord(
          GetString(b, "IFW_SERVICE_ACTION"), GetString(b, "callingPackage"),
          GetInt(b, "flags", 0), receiver, GetInt(b, "userId", 0),
          seconds, offset,
          GetInt(b, "callerUid", 0), GetInt(b, "callerPid", 0), receiverUid,
          payload))
      else
        None
  }

  /** An event whose clip data and extras both fail to marshal is still recorded, with both blobs
      empty. */
  lemma MarshalFailureStillRecorded(kind: Int32, b: Bundle, intent: Intent, pm: Option<PackageManager>, clock: ClockReads)
    requires IsRecordedKind(kind) && ReceiverUid(intent, pm).Some?
    requires intent.clipData == Some(MarshalFailed) && intent.extras == Some(MarshalFailed)
    ensures Classify(kind, b, intent, pm, clock).Some?
    ensures Classify(kind, b, intent, pm, clock).value.payload.clipData == []
    ensures Classify(kind, b, intent, pm, clock).value.payload.extras == []
  {
  }

  /** Building one record the way the handler does, step by step: resolve the receiver (a lookup
      that throws abandons the record), take the two blobs, join the categories, then fill in the
      header of the variant the kind names. */
  method BuildRecord(kind: Int32, b: Bundle, intent: Intent, pm: Option<PackageManager>, clock: ClockReads)
    returns (r: Option<Record>)
    ensures r == Classify(kind, b, intent, pm, clock)
  {
    if !IsRecordedKind(kind) {
      return None;
    }
    var receiver: Option<string> := None;
    var receiverUid: Int32 := 0;
    if intent.component.Some? {
      receiver := Some(intent.component.value.shortString);
      if pm.Some? {
        var pkg := intent.component.value.packageName;
        if pkg !in pm.value.installed {
          return None;
        }
        receiverUid := pm.value.installed[pkg];
      }
    }
    var clipData := Blob(intent.clipData);
    var extras := Blob(intent.extras);
    var categories := "";
    if intent.categories.Some? {
      categories := JoinCategories(intent.categories.value);
    }
    var payload := IntentData(intent.action, intent.dataString, intent.flags, intent.mimeType,
                              categories, clipData, extras);
    var seconds := TruncatedSeconds(clock.forSeconds);
    var offset := MillisOffset(clock.forOffset);
    if kind == TYPE_ACTIVITY {
      r := Some(ActivityRecord(
        GetString(b, "callingPackage"), receiver,
        GetInt(b, "requestCode", 0), GetInt(b, "startFlags", 0), GetInt(b, "userId", 0),
        seconds, offset,
        GetInt(b, "callerUid", 0), GetInt(b, "callerPid", 0), receiverUid,
        payload));
    } else if kind == TYPE_BROADCAST {
      r := Some(BroadcastRecord(
        receiver, GetInt(b, "requestCode", 0),
        GetString(b, "requiredPermission"), GetInt(b, "userId", 0),
        seconds, offset, receiverUid,
        payload));
    } else {
      r := Some(ServiceRecord(
        GetString(b, "IFW_SERVICE_ACTION"), GetString(b, "callingPackage"),
        GetInt(b, "flags", 0), receiver, GetInt(b, "userId", 0),
        seconds, offset,
        GetInt(b, "callerUid", 0), GetInt(b, "callerPid", 0), receiverUid,
        payload));
    }
  }
}
