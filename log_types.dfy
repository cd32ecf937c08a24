/**
 * The types the filter consumes from the rest of the log viewer: the
 * message-type enumeration with its `UInt8` raw value, the process id
 * type, the opaque text filter and the streamed log entry.
 */
module LogTypes {
  import opened Wrappers

  /** Swift `UInt8`. */
  newtype UInt8 = x: int | 0 <= x < 0x100

  /** Swift `pid_t`, a signed 32-bit integer. */
  newtype PidT = x: int | -0x8000_0000 <= x < 0x8000_0000

  /**
   * The kind of a log message. Its definition lives outside the filter;
   * the cases and raw values here follow the os_log type numbering
   * (default 0x00, info 0x01, debug 0x02, error 0x10, fault 0x11).
   * The filter relies only on the raw value being injective.
   */
  datatype MessageEvent = Default | Info | Debug | Error | Fault

  /** `MessageEvent.rawValue` */
  function RawValue(e: MessageEvent): UInt8 {
    match e
    case Default => 0x00
    case Info => 0x01
    case Debug => 0x02
    case Error => 0x10
    case Fault => 0x11
  }

  /** `MessageEvent(rawValue:)`, the failable initialiser. */
  function FromRawValue(r: UInt8): (e: Option<MessageEvent>)
    ensures e.Some? ==> RawValue(e.value) == r
  {
    if r == 0x00 then Some(Default)
    else if r == 0x01 then Some(Info)
    else if r == 0x02 then Some(Debug)
    else if r == 0x10 then Some(Error)
    else if r == 0x11 then Some(Fault)
    else None
  }

  /** `MessageEvent.allCases`, in declaration order. */
  const AllCases: seq<MessageEvent> := [Default, Info, Debug, Error, Fault]

  /** The raw values of a set of message types. */
  function RawSet(types: set<MessageEvent>): set<UInt8> {
    set e | e in types :: RawValue(e)
  }

  /** The raw value determines the case: the initialiser inverts `rawValue`. */
  lemma RawValueRoundTrip(e: MessageEvent)
    ensures FromRawValue(RawValue(e)) == Some(e)
  {
  }

  /** `rawValue` is injective. */
  lemma RawValueInjective(a: MessageEvent, b: MessageEvent)
    ensures RawValue(a) == RawValue(b) ==> a == b
  {
    RawValueRoundTrip(a);
    RawValueRoundTrip(b);
  }

  /** `allCases` lists every case exactly once. */
  lemma AllCasesComplete(e: MessageEvent)
    ensures e in AllCases
    ensures forall i, j :: 0 <= i < j < |AllCases| ==> AllCases[i] != AllCases[j]
  {
  }

  /**
   * A raw tag is the raw value of an accepted type exactly when the
   * initialiser maps it to a case and that case is accepted.
   */
  lemma RawSetMembership(types: set<MessageEvent>, r: UInt8)
    ensures r in RawSet(types) <==> (FromRawValue(r).Some? && FromRawValue(r).value in types)
  {
    if r in RawSet(types) {
      var e :| e in types && RawValue(e) == r;
      RawValueRoundTrip(e);
    }
    if FromRawValue(r).Some? && FromRawValue(r).value in types {
      assert RawValue(FromRawValue(r).value) in RawSet(types);
    }
  }

  /**
   * `TextFilter` is opaque to the filter: all it offers is a yes/no
   * answer for a candidate string.
   */
  datatype TextFilter = TextFilter(matches: string -> bool)

  /** `filter?.matches(s) ?? true`: an absent text filter passes. */
  predicate TextPasses(filter: Option<TextFilter>, s: string) {
    match filter
    case None => true
    case Some(t) => t.matches(s)
  }

  /**
   * The fields of a streamed log entry that the filter reads. The
   * message type is the raw `UInt8` tag, as the entry carries it.
   */
  datatype StreamEntry = StreamEntry(
    eventMessage: string,
    process: string,
    processID: PidT,
    subsystem: string,
    category: string,
    messageType: UInt8,
    processImagePath: string)
}
