/**
 * `EntryFilter`: the user's filter settings and the predicate that decides
 * whether a streamed log entry is shown.
 */
module Filter {
  import opened Wrappers
  import opened LogTypes
  import opened Text
  import opened BundleLookup

  /** No raw value occurs twice. */
  predicate Distinct(raws: seq<UInt8>) {
    forall i, j :: 0 <= i < j < |raws| ==> raws[i] != raws[j]
  }

  /** Every message type. */
  const AllEvents: set<MessageEvent> := set e | e in AllCases

  /** `MessageEvent.allCases.map(\.rawValue)`, the default of the raw-tag array. */
  function AllRawValues(): (raws: seq<UInt8>)
    ensures |raws| == |AllCases|
  {
    seq(|AllCases|, i requires 0 <= i < |AllCases| => RawValue(AllCases[i]))
  }

  /** `Set(raws.compactMap(MessageEvent.init))`: the cases named by the known tags. */
  function EventsOf(raws: seq<UInt8>): set<MessageEvent> {
    set i | 0 <= i < |raws| && FromRawValue(raws[i]).Some? :: FromRawValue(raws[i]).value
  }

  /**
   * The default tag array names every case, each exactly once, so the
   * initial `acceptedTypes` is every type and the array is its projection.
   */
  lemma InitialTypesAreAll()
    ensures EventsOf(AllRawValues()) == AllEvents
    ensures forall r :: r in AllRawValues() <==> r in RawSet(AllEvents)
    ensures Distinct(AllRawValues())
  {
    var raws := AllRawValues();
    assert raws == [0x00, 0x01, 0x02, 0x10, 0x11];
    forall k | 0 <= k < |raws| ensures FromRawValue(raws[k]) == Some(AllCases[k]) {
      RawValueRoundTrip(AllCases[k]);
    }
    forall e | e in AllEvents ensures e in EventsOf(raws) {
      AllCasesComplete(e);
      var k :| 0 <= k < |AllCases| && AllCases[k] == e;
      assert FromRawValue(raws[k]).value == e;
    }
    forall r | r in RawSet(AllEvents) ensures r in raws {
      var e :| e in AllEvents && RawValue(e) == r;
    }
  }

  /**
   * `types.map(\.rawValue)` for a set: every accepted type's raw value
   * once, in the set's iteration order, which the model leaves open.
   */
  method RawValues(types: set<MessageEvent>) returns (raws: seq<UInt8>)
    ensures forall r :: r in raws <==> r in RawSet(types)
    ensures Distinct(raws)
    ensures |raws| == |types|
  {
    raws := [];
    var rest := types;
    while rest != {}
      invariant rest <= types
      invariant forall r :: r in raws <==> r in RawSet(types - rest)
      invariant Distinct(raws)
      invariant |raws| == |types - rest|
      decreases rest
    {
      var e :| e in rest;
      forall d | d in types - rest ensures RawValue(d) != RawValue(e) {
        RawValueInjective(d, e);
      }
      assert RawValue(e) !in raws;
      assert types - (rest - {e}) == (types - rest) + {e};
      raws := raws + [RawValue(e)];
      rest := rest - {e};
    }
  }

  /** The entry fields a text filter can be applied to. */
  datatype TextField = MessageText | Subsystem | Category | ProcessName

  function TextOf(entry: StreamEntry, field: TextField): string {
    match field
    case MessageText => entry.eventMessage
    case Subsystem => entry.subsystem
    case Category => entry.category
    case ProcessName => entry.process
  }

  /** One criterion of the filter, with the setting it compares against. */
  datatype Criterion =
    | TextMatches(field: TextField, filter: TextFilter)
    | MessageTypeIn(raws: seq<UInt8>)
    | ProcessIDIs(pid: PidT)
    | BundleIDIs(bundleID: string)

  /** Whether an entry, whose app resolved to `resolvedBundleID`, meets one criterion. */
  predicate Holds(c: Criterion, entry: StreamEntry, resolvedBundleID: Option<string>) {
    match c
    case TextMatches(field, f) => f.matches(TextOf(entry, field))
    case MessageTypeIn(raws) => entry.messageType in raws
    case ProcessIDIs(p) => entry.processID == p
    case BundleIDIs(id) => resolvedBundleID == Some(id)
  }

  /** The criterion a text filter setting contributes: none when it is absent. */
  function TextCriterion(setting: Option<TextFilter>, field: TextField): seq<Criterion> {
    match setting
    case None => []
    case Some(f) => [TextMatches(field, f)]
  }

  /** The entry meets every criterion of the list. */
  predicate AllHold(cs: seq<Criterion>, entry: StreamEntry, resolvedBundleID: Option<string>) {
    cs == [] || (Holds(cs[0], entry, resolvedBundleID) && AllHold(cs[1..], entry, resolvedBundleID))
  }

  /** `AllHold` is the conjunction over every position of the list. */
  lemma {:induction false} AllHoldEveryIndex(cs: seq<Criterion>, entry: StreamEntry, resolvedBundleID: Option<string>)
    ensures AllHold(cs, entry, resolvedBundleID)
        <==> forall i :: 0 <= i < |cs| ==> Holds(cs[i], entry, resolvedBundleID)
  {
    if cs != [] {
      AllHoldEveryIndex(cs[1..], entry, resolvedBundleID);
      assert forall i :: 1 <= i < |cs| ==> cs[i] == cs[1..][i - 1];
    }
  }

  lemma {:induction false} AllHoldAppend(a: seq<Criterion>, b: seq<Criterion>, entry: StreamEntry,
                                         resolvedBundleID: Option<string>)
    ensures AllHold(a + b, entry, resolvedBundleID)
        <==> AllHold(a, entry, resolvedBundleID) && AllHold(b, entry, resolvedBundleID)
  {
    if a == [] {
      assert a + b == b;
    } else {
      assert (a + b)[0] == a[0] && (a + b)[1..] == a[1..] + b;
      AllHoldAppend(a[1..], b, entry, resolvedBundleID);
    }
  }

  lemma AllHoldSingle(c: Criterion, entry: StreamEntry, resolvedBundleID: Option<string>)
    ensures AllHold([c], entry, resolvedBundleID) == Holds(c, entry, resolvedBundleID)
  {
    assert [c][1..] == [];
  }

  /** A text criterion holds exactly when its setting is absent or matches the entry's field. */
  lemma TextCriterionHolds(setting: Option<TextFilter>, field: TextField, entry: StreamEntry,
                           resolvedBundleID: Option<string>)
    ensures AllHold(TextCriterion(setting, field), entry, resolvedBundleID)
         == TextPasses(setting, TextOf(entry, field))
  {
    if setting.Some? {
      AllHoldSingle(TextMatches(field, setting.value), entry, resolvedBundleID);
    }
  }

  /**
   * The filter settings. `acceptedTypesInternal` is the raw-tag array the
   * hot path searches; `SetAcceptedTypes` is the `didSet` observer that
   * keeps it the projection of `acceptedTypes`.
   */
  class EntryFilter {
    var messageTextFilter: Option<TextFilter>
    var processFilter: Option<TextFilter>
    var subsystemFilter: Option<TextFilter>
    var categoryFilter: Option<TextFilter>
    var pid: Option<PidT>
    var processBundleID: Option<string>
    var acceptedTypesInternal: seq<UInt8>
    var acceptedTypes: set<MessageEvent>

    /** The raw-tag array holds exactly the raw values of the accepted types, once each. */
    ghost predicate Valid()
      reads this
    {
      (forall r :: r in acceptedTypesInternal <==> r in RawSet(acceptedTypes))
      && Distinct(acceptedTypesInternal)
    }

    /** `init`: every message type is accepted. */
    constructor (messageTextFilter: Option<TextFilter>, processFilter: Option<TextFilter>,
                 subsystemFilter: Option<TextFilter>, categoryFilter: Option<TextFilter>,
                 pid: Option<PidT>, processBundleID: Option<string>)
      ensures Valid()
      ensures this.messageTextFilter == messageTextFilter && this.processFilter == processFilter
      ensures this.subsystemFilter == subsystemFilter && this.categoryFilter == categoryFilter
      ensures this.pid == pid && this.processBundleID == processBundleID
      ensures acceptedTypes == AllEvents && acceptedTypesInternal == AllRawValues()
    {
      this.messageTextFilter := messageTextFilter;
      this.processFilter := processFilter;
      this.subsystemFilter := subsystemFilter;
      this.categoryFilter := categoryFilter;
      this.pid := pid;
      this.processBundleID := processBundleID;
      var raws := AllRawValues();
      acceptedTypesInternal := raws;
      // Assigning a stored property inside its own initialiser does not run `didSet`.
      acceptedTypes := EventsOf(raws);
      InitialTypesAreAll();
    }

    /** `acceptedTypes = types`, with its `didSet` observer. */
    method SetAcceptedTypes(types: set<MessageEvent>)
      modifies this
      ensures Valid()
      ensures acceptedTypes == types && |acceptedTypesInternal| == |types|
      ensures messageTextFilter == old(messageTextFilter) && processFilter == old(processFilter)
      ensures subsystemFilter == old(subsystemFilter) && categoryFilter == old(categoryFilter)
      ensures pid == old(pid) && processBundleID == old(processBundleID)
    {
      acceptedTypes := types;
      acceptedTypesInternal := RawValues(acceptedTypes);
    }

    /** `isPidEqualTo`: an unset pid accepts every process. */
    predicate IsPidEqualTo(otherPid: PidT)
      reads this
    {
      pid == None || pid == Some(otherPid)
    }

    /** The bundle-identifier setting is present and not blank. */
    predicate BundleIDFilterActive()
      reads this
    {
      processBundleID.Some? && Trim(processBundleID.value) != []
    }

    /** `isBundleIDEqualTo`: compares against the trimmed setting, if it is not blank. */
    predicate IsBundleIDEqualTo(otherBundleID: Option<string>)
      reads this
    {
      match processBundleID
      case None => true
      case Some(setting) =>
        var want := Trim(setting);
        want == [] || otherBundleID == Some(want)
    }

    /** The conjuncts of `entryPassesFilter` evaluated before the bundle lookup. */
    predicate PassesBeforeBundleCheck(entry: StreamEntry)
      reads this
    {
      TextPasses(messageTextFilter, entry.eventMessage)
      && TextPasses(subsystemFilter, entry.subsystem)
      && TextPasses(categoryFilter, entry.category)
      && TextPasses(processFilter, entry.process)
      && entry.messageType in acceptedTypesInternal
      && IsPidEqualTo(entry.processID)
    }

    /** The verdict of `entryPassesFilter`, given what the entry's bundle identifier resolves to. */
    predicate Verdict(entry: StreamEntry, resolvedBundleID: Option<string>)
      reads this
    {
      PassesBeforeBundleCheck(entry) && IsBundleIDEqualTo(resolvedBundleID)
    }

    /** The criteria the settings make active: absent and blank settings contribute none. */
    function ActiveCriteria(): seq<Criterion>
      reads this
    {
      TextCriteria()
      + [MessageTypeIn(acceptedTypesInternal)]
      + PidCriteria()
      + BundleIDCriteria()
    }

    /** The criteria of the text filters that are set, in the order they are evaluated. */
    function TextCriteria(): seq<Criterion>
      reads this
    {
      TextCriterion(messageTextFilter, MessageText)
      + TextCriterion(subsystemFilter, Subsystem)
      + TextCriterion(categoryFilter, Category)
      + TextCriterion(processFilter, ProcessName)
    }

    /** The pid criterion, when a pid is set. */
    function PidCriteria(): seq<Criterion>
      reads this
    {
      if pid.Some? then [ProcessIDIs(pid.value)] else []
    }

    /** The bundle-identifier criterion, with the trimmed setting, when the setting is not blank. */
    function BundleIDCriteria(): seq<Criterion>
      reads this
    {
      if BundleIDFilterActive() then [BundleIDIs(Trim(processBundleID.value))] else []
    }

    /**
     * `entryPassesFilter`. The bundle identifier is looked up only when
     * every earlier criterion holds, and then whether or not a bundle
     * setting is active, so the cache can grow without a bundle filter.
     */
    method EntryPassesFilter(entry: StreamEntry, lookup: BundleIDLookup) returns (passes: bool)
      requires lookup.Valid()
      modifies lookup
      ensures lookup.Valid()
      ensures passes == Verdict(entry, Resolve(lookup.bundleIdentifierAt, entry.processImagePath))
      ensures PassesBeforeBundleCheck(entry) ==>
        var r := Lookup(old(lookup.cache), lookup.bundleIdentifierAt, entry.processImagePath);
        lookup.cache == r.cache && lookup.walks == if r.walked then old(lookup.walks) + 1 else old(lookup.walks)
      ensures !PassesBeforeBundleCheck(entry) ==>
        lookup.cache == old(lookup.cache) && lookup.walks == old(lookup.walks)
    {
      passes := TextPasses(messageTextFilter, entry.eventMessage)
        && TextPasses(subsystemFilter, entry.subsystem)
        && TextPasses(categoryFilter, entry.category)
        && TextPasses(processFilter, entry.process)
        && entry.messageType in acceptedTypesInternal
        && IsPidEqualTo(entry.processID);
      if passes {
        var bundleID := lookup.BundleIDFromProcessPath(entry.processImagePath);
        passes := IsBundleIDEqualTo(bundleID);
      }
    }
  }

  /** The verdict is the AND of the active criteria: an entry passes exactly when it meets every one. */
  lemma VerdictIsConjunction(f: EntryFilter, entry: StreamEntry, resolvedBundleID: Option<string>)
    ensures f.Verdict(entry, resolvedBundleID) <==> AllHold(f.ActiveCriteria(), entry, resolvedBundleID)
  {
    var r := resolvedBundleID;
    var tc := f.TextCriteria();
    var ty := [MessageTypeIn(f.acceptedTypesInternal)];
    var pc := f.PidCriteria();
    var bc := f.BundleIDCriteria();
    assert f.ActiveCriteria() == tc + ty + pc + bc;
    TextCriteriaHold(f, entry, r);
    AllHoldSingle(MessageTypeIn(f.acceptedTypesInternal), entry, r);
    PidCriteriaHold(f, entry, r);
    BundleIDCriteriaHold(f, entry, r);
    AllHoldAppend(tc, ty, entry, r);
    AllHoldAppend(tc + ty, pc, entry, r);
    assert AllHold(tc + ty + pc, entry, r) == f.PassesBeforeBundleCheck(entry);
    AllHoldAppend(tc + ty + pc, bc, entry, r);
  }

  lemma TextCriteriaHold(f: EntryFilter, entry: StreamEntry, resolvedBundleID: Option<string>)
    ensures AllHold(f.TextCriteria(), entry, resolvedBundleID)
        <==> TextPasses(f.messageTextFilter, entry.eventMessage)
             && TextPasses(f.subsystemFilter, entry.subsystem)
             && TextPasses(f.categoryFilter, entry.category)
             && TextPasses(f.processFilter, entry.process)
  {
    var r := resolvedBundleID;
    var t1 := TextCriterion(f.messageTextFilter, MessageText);
    var t2 := TextCriterion(f.subsystemFilter, Subsystem);
    var t3 := TextCriterion(f.categoryFilter, Category);
    var t4 := TextCriterion(f.processFilter, ProcessName);
    TextCriterionHolds(f.messageTextFilter, MessageText, entry, r);
    TextCriterionHolds(f.subsystemFilter, Subsystem, entry, r);
    TextCriterionHolds(f.categoryFilter, Category, entry, r);
    TextCriterionHolds(f.processFilter, ProcessName, entry, r);
    AllHoldAppend(t1, t2, entry, r);
    AllHoldAppend(t1 + t2, t3, entry, r);
    AllHoldAppend(t1 + t2 + t3, t4, entry, r);
  }

  lemma PidCriteriaHold(f: EntryFilter, entry: StreamEntry, resolvedBundleID: Option<string>)
    ensures AllHold(f.PidCriteria(), entry, resolvedBundleID) == f.IsPidEqualTo(entry.processID)
  {
    if f.pid.Some? {
      AllHoldSingle(ProcessIDIs(f.pid.value), entry, resolvedBundleID);
    }
  }

  lemma BundleIDCriteriaHold(f: EntryFilter, entry: StreamEntry, resolvedBundleID: Option<string>)
    ensures AllHold(f.BundleIDCriteria(), entry, resolvedBundleID) == f.IsBundleIDEqualTo(resolvedBundleID)
  {
    if f.BundleIDFilterActive() {
      AllHoldSingle(BundleIDIs(Trim(f.processBundleID.value)), entry, resolvedBundleID);
    }
  }

  /** One active criterion that fails rejects the entry, whatever the others say. */
  lemma FailingCriterionRejects(f: EntryFilter, entry: StreamEntry, resolvedBundleID: Option<string>, i: nat)
    requires i < |f.ActiveCriteria()| && !Holds(f.ActiveCriteria()[i], entry, resolvedBundleID)
    ensures !f.Verdict(entry, resolvedBundleID)
  {
    VerdictIsConjunction(f, entry, resolvedBundleID);
    AllHoldEveryIndex(f.ActiveCriteria(), entry, resolvedBundleID);
  }

  /** An entry whose type is not among the accepted types never passes. */
  lemma UnacceptedTypeRejected(f: EntryFilter, entry: StreamEntry, resolvedBundleID: Option<string>)
    requires f.Valid()
    requires FromRawValue(entry.messageType).None? || FromRawValue(entry.messageType).value !in f.acceptedTypes
    ensures !f.Verdict(entry, resolvedBundleID)
  {
    RawSetMembership(f.acceptedTypes, entry.messageType);
  }

  /** With every other criterion inactive, an entry passes exactly when its type is accepted. */
  lemma InactiveCriteriaPassAll(f: EntryFilter, entry: StreamEntry, resolvedBundleID: Option<string>)
    requires f.Valid()
    requires f.messageTextFilter.None? && f.subsystemFilter.None?
    requires f.categoryFilter.None? && f.processFilter.None?
    requires f.pid.None? && !f.BundleIDFilterActive()
    ensures f.Verdict(entry, resolvedBundleID)
        <==> FromRawValue(entry.messageType).Some? && FromRawValue(entry.messageType).value in f.acceptedTypes
  {
    RawSetMembership(f.acceptedTypes, entry.messageType);
  }

  /** An unset pid passes every process; a set one passes only that process. */
  lemma PidCriterion(f: EntryFilter, otherPid: PidT)
    ensures f.pid.None? ==> f.IsPidEqualTo(otherPid)
    ensures f.pid.Some? ==> (f.IsPidEqualTo(otherPid) <==> otherPid == f.pid.value)
  {
  }

  /**
   * A bundle setting that is absent or blank passes every resolved
   * identifier, None included; otherwise only the trimmed setting
   * itself passes, and an unresolved identifier fails.
   */
  lemma BundleIDCriterion(f: EntryFilter, otherBundleID: Option<string>)
    ensures f.BundleIDFilterActive()
        <==> f.processBundleID.Some? && !AllWhitespace(f.processBundleID.value)
    ensures !f.BundleIDFilterActive() ==> f.IsBundleIDEqualTo(otherBundleID)
    ensures f.BundleIDFilterActive() ==>
      (f.IsBundleIDEqualTo(otherBundleID) <==> otherBundleID == Some(Trim(f.processBundleID.value)))
  {
    if f.processBundleID.Some? {
      TrimEmptyIffAllWhitespace(f.processBundleID.value);
    }
  }

  /** With no text or pid criterion set, an entry of an accepted type passes exactly when the bundle check does. */
  lemma OnlyBundleIDChecked(f: EntryFilter, entry: StreamEntry, resolvedBundleID: Option<string>)
    requires f.Valid()
    requires f.messageTextFilter.None? && f.subsystemFilter.None?
    requires f.categoryFilter.None? && f.processFilter.None? && f.pid.None?
    requires FromRawValue(entry.messageType).Some? && FromRawValue(entry.messageType).value in f.acceptedTypes
    ensures f.Verdict(entry, resolvedBundleID) <==> f.IsBundleIDEqualTo(resolvedBundleID)
  {
    RawSetMembership(f.acceptedTypes, entry.messageType);
  }

  /**
   * A filter on a bundle identifier such as "com.example.app" (no blank at
   * either end) and nothing else passes an entry of an accepted type
   * exactly when the entry's app resolves to that identifier (see
   * `ResolveInsideApp` for an executable inside a ".app" directory); an app that
   * resolves to another identifier, or to none, is rejected.
   */
  lemma BundleIDScenario(f: EntryFilter, entry: StreamEntry, want: string, resolvedBundleID: Option<string>)
    requires f.Valid()
    requires f.messageTextFilter.None? && f.subsystemFilter.None?
    requires f.categoryFilter.None? && f.processFilter.None? && f.pid.None?
    requires want != [] && !IsWhitespaceOrNewline(want[0]) && !IsWhitespaceOrNewline(want[|want| - 1])
    requires f.processBundleID == Some(want)
    requires FromRawValue(entry.messageType).Some? && FromRawValue(entry.messageType).value in f.acceptedTypes
    ensures f.Verdict(entry, resolvedBundleID) <==> resolvedBundleID == Some(want)
  {
    OnlyBundleIDChecked(f, entry, resolvedBundleID);
    TrimKeepsBlankFreeEnds(want);
  }
}
