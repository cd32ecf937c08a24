# Antoine entry filter — a Dafny model

Antoine is a log-stream viewer. For every log entry it receives it asks an
`EntryFilter` whether the entry should be shown. The filter holds the user's
settings: four optional text filters (message, subsystem, category, process
name), the set of accepted message types, an optional process id and an
optional app bundle identifier. The bundle criterion needs the bundle
identifier of the app an entry's process belongs to. A process-wide cache
resolves it from the path of the process's executable. On a miss, the lookup
walks up from the executable's directory to the nearest `.app` directory and
reads that bundle's identifier. It remembers the answer under the executable
path, including "no identifier".

The model has six modules:

- `Wrappers`: `Option`, used for Swift's `T?`.
- `LogTypes`: the types the filter consumes. These are `MessageEvent` and its
  `UInt8` raw value, `pid_t`, the opaque `TextFilter`, and the fields of
  `StreamEntry` that the filter reads.
- `Text`: trimming with `CharacterSet.whitespacesAndNewlines`, and the
  case-insensitive `"app"` test.
- `Paths`: file URLs as sequences of path components. Covers
  `URL(fileURLWithPath:)`, `deletingLastPathComponent()` and `pathExtension`.
- `BundleLookup`: `bundleIDFromProcessPath`.
  - The walk is a `method` with its `for` loop.
  - `FirstAppDirectory`, `Resolve` and `Lookup` are the functions that
    specify the walk, the uncached resolution and one cached lookup.
  - The class `BundleIDLookup` holds the cache as a `map` field.
  - The filesystem read `Bundle(url:)?.bundleIdentifier` is the class's
    constant `bundleIdentifierAt`, a function from directory to optional
    identifier.
  - The ghost field `walks` counts the walks. `Valid()` says every cached
    answer equals `Resolve`, and the cache holds exactly one entry per walk.
- `Filter`: the class `EntryFilter`.
  - `SetAcceptedTypes` is the `didSet` observer of `acceptedTypes`.
  - `Valid()` says the raw-tag array `acceptedTypesInternal` holds exactly the
    raw values of `acceptedTypes`, each once.
  - `EntryPassesFilter` is the predicate. It is specified by `Verdict`.
  - `ActiveCriteria` is an independent list of the criteria the settings
    make active. `VerdictIsConjunction` proves that the verdict is their
    conjunction.

Two points where the code decides the behaviour:

- `entryPassesFilter` looks the bundle identifier up whenever the six earlier
  conjuncts hold, not only when a bundle setting is active (line 58). The
  cache therefore grows even with no bundle filter. `EntryPassesFilter`
  states this in its contract.
- In `init`, the assignment to `acceptedTypes` (line 47) does not run
  `didSet`. The raw-tag array keeps its default, every case's raw value
  (line 25). The constructor models exactly that, and `InitialTypesAreAll`
  shows that the two fields still agree.

## Model

| member | source | states |
|---|---|---|
| `LogTypes.AllCases` | Antoine/Backend/Filter/EntryFilter.swift:25 | the definition of `MessageEvent.allCases`; its property is `AllCasesComplete` |
| `Filter.AllRawValues` | Antoine/Backend/Filter/EntryFilter.swift:25 | the definition of `MessageEvent.allCases.map(\.rawValue)`, the default of the raw-tag array; its property is `InitialTypesAreAll` |
| `LogTypes.TextPasses` | Antoine/Backend/Filter/EntryFilter.swift:52-55 | the definition of `filter?.matches(s) ?? true`; its properties are `TextCriterionHolds` and `TextCriteriaHold` |
| `Filter.EntryFilter.PassesBeforeBundleCheck` | Antoine/Backend/Filter/EntryFilter.swift:52-57 | the definition of the six conjuncts before the bundle check; its role is stated by `EntryPassesFilter` (the lookup runs exactly when they hold) and `VerdictIsConjunction` |
| `Text.IsWhitespaceOrNewline` | Antoine/Backend/Filter/EntryFilter.swift:68 | the definition of `CharacterSet.whitespacesAndNewlines` as documented; `TrimLeading` and `TrimTrailing` use it, and its gap is listed under Left out |
| `Text.Lowercased` | Antoine/Backend/Filter/EntryFilter.swift:95 | the definition of `lowercased()` restricted to ASCII letters; its property is `AppExtensionCaseInsensitive`, and its gap is listed under Left out |
| `Paths.PathExtension` | Antoine/Backend/Filter/EntryFilter.swift:95 | the definition of `url.pathExtension` on a path (the root has none); its properties are `ExtensionOfShape` and `AppDirectoryName` |
| `LogTypes.RawValue` | Antoine/Backend/Filter/EntryFilter.swift:25-29 | the definition of `MessageEvent.rawValue`; its properties are `RawValueRoundTrip` and `RawValueInjective` |
| `Filter.EventsOf` | Antoine/Backend/Filter/EntryFilter.swift:47 | the definition of `Set(tags.compactMap(MessageEvent.init))`; its property is `InitialTypesAreAll` |
| `Text.Trim` | Antoine/Backend/Filter/EntryFilter.swift:68 | the definition of `trimmingCharacters(in: .whitespacesAndNewlines)`; its properties are `TrimEndsNotBlank`, `TrimEmptyIffAllWhitespace`, `TrimKeepsBlankFreeEnds` and `TrimIdempotent` |
| `Paths.ExtensionOf` | Antoine/Backend/Filter/EntryFilter.swift:95 | the definition of `pathExtension` for one component; its property is `ExtensionOfShape` |
| `Text.IsAppExtension` | Antoine/Backend/Filter/EntryFilter.swift:95 | the definition of `ext.lowercased() == "app"`; its property is `AppExtensionCaseInsensitive` |
| `Paths.IsAppDirectory` | Antoine/Backend/Filter/EntryFilter.swift:95 | the definition of the app-directory test on a path; its property is `AppDirectoryName` |
| `BundleLookup.FirstAppDirectory` | Antoine/Backend/Filter/EntryFilter.swift:93-102 | the definition of the upward walk as a function; its property is `FirstAppDirectoryCharacterised`, and `FindAppDirectory` is proved equal to it |
| `BundleLookup.Resolve` | Antoine/Backend/Filter/EntryFilter.swift:90-109 | the definition of uncached resolution; its properties are `ResolveThroughEnclosingApp` and `ResolveInsideApp` |
| `BundleLookup.Lookup` | Antoine/Backend/Filter/EntryFilter.swift:83-88 | the definition of one cached lookup (hit, or walk and store at lines 111-113); its properties are `LookupMemoises`, `LookupNeverEvicts` and `LookupAgreesWithResolve` |
| `Filter.EntryFilter.IsPidEqualTo` | Antoine/Backend/Filter/EntryFilter.swift:62-64 | the definition of `isPidEqualTo`; its property is `PidCriterion` |
| `Filter.EntryFilter.IsBundleIDEqualTo` | Antoine/Backend/Filter/EntryFilter.swift:67-71 | the definition of `isBundleIDEqualTo`; its property is `BundleIDCriterion` |
| `Filter.EntryFilter.Verdict` | Antoine/Backend/Filter/EntryFilter.swift:51-59 | the definition of the value `entryPassesFilter` returns, given the resolved bundle identifier; its properties are `VerdictIsConjunction` and the lemmas after it |
| `LogTypes.FromRawValue` | Antoine/Backend/Filter/EntryFilter.swift:47 | the failable initialiser only ever returns the case whose raw value is the given tag |
| `LogTypes.RawValueRoundTrip` | Antoine/Backend/Filter/EntryFilter.swift:47 | converting a type to its raw value and back with the failable initialiser gives the same type |
| `LogTypes.RawValueInjective` | Antoine/Backend/Filter/EntryFilter.swift:29 | distinct types have distinct raw values, so the tag array can identify the accepted types |
| `LogTypes.AllCasesComplete` | Antoine/Backend/Filter/EntryFilter.swift:25 | `allCases` lists every type, each once |
| `LogTypes.RawSetMembership` | Antoine/Backend/Filter/EntryFilter.swift:29 | a tag is the raw value of an accepted type iff it names a case and that case is accepted (both directions) |
| `Filter.InitialTypesAreAll` | Antoine/Backend/Filter/EntryFilter.swift:25 | the default tag array `allCases.map(\.rawValue)` names every message type, holds exactly their raw values and holds each only once, so a new filter accepts every type |
| `Filter.EntryFilter.constructor` | Antoine/Backend/Filter/EntryFilter.swift:33-48 | the six settings are stored as given; `acceptedTypes` is every type; the raw-tag array is the default; the filter is `Valid()` |
| `Filter.RawValues` | Antoine/Backend/Filter/EntryFilter.swift:29 | mapping a set of types to raw values yields exactly the raw values of the set, with no repeats, one per type |
| `Filter.EntryFilter.SetAcceptedTypes` | Antoine/Backend/Filter/EntryFilter.swift:27-31 | after an assignment to `acceptedTypes` the raw-tag array is again its projection (`Valid()`), and every other setting is unchanged |
| `Filter.EntryFilter.EntryPassesFilter` | Antoine/Backend/Filter/EntryFilter.swift:51-59 | the answer is `Verdict` for the bundle identifier that resolution gives. The cache changes exactly as one `Lookup` when the six earlier conjuncts hold, and not at all otherwise |
| `Filter.VerdictIsConjunction` | Antoine/Backend/Filter/EntryFilter.swift:51-59 | an entry passes iff it meets every active criterion. Absent text filters, an unset pid and a blank bundle setting add no criterion |
| `Filter.TextCriteriaHold` | Antoine/Backend/Filter/EntryFilter.swift:52-55 | the four text criteria hold together iff each text filter is absent or matches its field |
| `Filter.TextCriterionHolds` | Antoine/Backend/Filter/EntryFilter.swift:52 | one text criterion holds iff its filter is absent or matches the entry's field |
| `Filter.PidCriteriaHold` | Antoine/Backend/Filter/EntryFilter.swift:57 | the pid criterion list holds iff `isPidEqualTo` does |
| `Filter.BundleIDCriteriaHold` | Antoine/Backend/Filter/EntryFilter.swift:58 | the bundle criterion list holds iff `isBundleIDEqualTo` does |
| `Filter.FailingCriterionRejects` | Antoine/Backend/Filter/EntryFilter.swift:51-59 | one active criterion that fails rejects the entry, whatever the others say |
| `Filter.UnacceptedTypeRejected` | Antoine/Backend/Filter/EntryFilter.swift:56 | an entry whose tag names no case, or names a type that is not accepted, never passes |
| `Filter.InactiveCriteriaPassAll` | Antoine/Backend/Filter/EntryFilter.swift:51-59 | with every other criterion inactive, an entry passes iff its type is accepted |
| `Filter.OnlyBundleIDChecked` | Antoine/Backend/Filter/EntryFilter.swift:51-59 | with no text or pid criterion set, an entry of an accepted type passes iff the bundle check passes |
| `Filter.PidCriterion` | Antoine/Backend/Filter/EntryFilter.swift:62-64 | an unset pid passes every process id; a set pid passes only that id |
| `Filter.BundleIDCriterion` | Antoine/Backend/Filter/EntryFilter.swift:67-71 | the bundle criterion is active iff the setting is present and not all whitespace. When inactive, every resolved value passes, None included. When active, a resolved value passes iff it is the trimmed setting |
| `Filter.BundleIDScenario` | Antoine/Backend/Filter/EntryFilter.swift:67-71 | a filter on one identifier with no blank at either end, and no other criterion, passes an entry of an accepted type iff the entry's app resolves to that identifier |
| `Text.TrimLeading` | Antoine/Backend/Filter/EntryFilter.swift:68 | the result is a suffix of the input; only whitespace was removed; it does not start with whitespace |
| `Text.TrimTrailing` | Antoine/Backend/Filter/EntryFilter.swift:68 | the result is a prefix of the input; only whitespace was removed; it does not end with whitespace |
| `Text.TrimEndsNotBlank` | Antoine/Backend/Filter/EntryFilter.swift:68 | a trimmed string is empty or starts and ends with a non-whitespace character |
| `Text.TrimEmptyIffAllWhitespace` | Antoine/Backend/Filter/EntryFilter.swift:68-69 | a setting trims to the empty string iff it is made of whitespace alone |
| `Text.TrimKeepsBlankFreeEnds` | Antoine/Backend/Filter/EntryFilter.swift:68 | a string that neither starts nor ends with whitespace is left unchanged |
| `Text.TrimIdempotent` | Antoine/Backend/Filter/EntryFilter.swift:68 | trimming twice gives the same result as trimming once |
| `Text.AppExtensionCaseInsensitive` | Antoine/Backend/Filter/EntryFilter.swift:95 | an extension passes the lowercased `"app"` test iff its three letters are a/A, p/P, p/P |
| `Paths.NameLength` | Antoine/Backend/Filter/EntryFilter.swift:90 | the returned length covers the characters before the first '/', and ends at that '/' or at the end of the text |
| `Paths.Components` | Antoine/Backend/Filter/EntryFilter.swift:90 | every component of the parsed path is non-empty and contains no '/' |
| `Paths.ComponentsOfJoin` | Antoine/Backend/Filter/EntryFilter.swift:90 | parsing the text of well-formed components gives those components back |
| `Paths.Parent` | Antoine/Backend/Filter/EntryFilter.swift:91 | the definition of `deleteLastPathComponent`; its properties are `JoinParent` and `ParentFixedOnlyAtRoot` |
| `Paths.JoinParent` | Antoine/Backend/Filter/EntryFilter.swift:91 | deleting the last component of a non-root path removes exactly the final "/name" from the path's text |
| `Paths.ParentFixedOnlyAtRoot` | Antoine/Backend/Filter/EntryFilter.swift:99-100 | a directory equals its parent iff it is the root |
| `Paths.ExtensionOfShape` | Antoine/Backend/Filter/EntryFilter.swift:95 | an extension is a dot-free suffix that follows a '.' other than the first character. A name whose only '.' is its first character, or that has none, has no extension. Conversely, when a name's last '.' is not its first character, the text after it is the extension |
| `BundleLookup.FirstAppDirectoryCharacterised` | Antoine/Backend/Filter/EntryFilter.swift:93-102 | the walk finds the nearest app directory among the ancestors fewer than `budget` levels up, and None iff there is none among them |
| `BundleLookup.FindAppDirectory` | Antoine/Backend/Filter/EntryFilter.swift:90-102 | the `for` loop with its two `break`s returns exactly the directory `FirstAppDirectory` specifies for ten directories: the nearest `.app` directory at most 9 levels above the executable's directory, stopping at the root, or None (by `FirstAppDirectoryCharacterised`) |
| `Paths.AppDirectoryName` | Antoine/Backend/Filter/EntryFilter.swift:95 | any directory named `<stem>.app`, with a non-empty stem and the extension in any letter case, passes the app-directory test |
| `BundleLookup.ResolveThroughEnclosingApp` | Antoine/Backend/Filter/EntryFilter.swift:90-109 | the walk starts at the executable's own directory: when that directory is an app directory, the path resolves to that directory's bundle identifier |
| `BundleLookup.ResolveInsideApp` | Antoine/Backend/Filter/EntryFilter.swift:90-109 | an executable directly inside any `<stem>.app` directory, in any letter case and under any parent directory, resolves to the identifier of that bundle directory |
| `BundleLookup.ResolveFooApp` | Antoine/Backend/Filter/EntryFilter.swift:90-109 | the text paths `/Applications/Foo.app/Foo` and `/Applications/Foo.APP/Foo` resolve to the identifier of their bundle directory |
| `BundleLookup.LookupMemoises` | Antoine/Backend/Filter/EntryFilter.swift:83-88 | a second lookup of the same path is a hit. It returns the same answer, does not walk and leaves the cache as it was |
| `BundleLookup.LookupNeverEvicts` | Antoine/Backend/Filter/EntryFilter.swift:111-113 | entries are never removed or changed. The only new key is the original image path, and it stores the answer, None included. A walk happens iff the path was not cached |
| `BundleLookup.LookupAgreesWithResolve` | Antoine/Backend/Filter/EntryFilter.swift:81-116 | with a cache that agrees with resolution, a lookup answers what resolution answers, and the cache keeps agreeing |
| `BundleLookup.BundleIDLookup.constructor` | Antoine/Backend/Filter/EntryFilter.swift:77 | the cache starts empty, with no walks done |
| `BundleLookup.BundleIDLookup.BundleIDFromProcessPath` | Antoine/Backend/Filter/EntryFilter.swift:81-116 | the answer and the new cache are one `Lookup`. The walk counter grows only on a miss. The answer equals `Resolve`, and `Valid()` is kept |

## Left out

- Locking: `NSLock` only serialises access to the cache (lines 78, 83-88, 111-113). The model is sequential, so races between threads are not modelled. Two threads that miss on the same path and both walk are not modelled either.
- The filesystem: `Bundle(url:)` and `bundleIdentifier` are the oracle `bundleIdentifierAt`, fixed for the lifetime of a lookup object. Both "not a bundle" and "no identifier" become None.
- URL resolution: relative paths resolved against the working directory are not modelled. Paths are treated as absolute and split at '/'. Empty components are dropped, and `.` and `..` are ordinary names.
- The root: its parent is the root itself, so the walk ends there. Whatever `deletingLastPathComponent` of "/" yields in Foundation is not modelled. The 10-directory bound is modelled regardless.
- `pathExtension`: modelled as the text after the last '.' of the last component, with no extension when that '.' is the component's first character. Foundation's other validity rules for extensions are not modelled.
- `Text.IsWhitespaceOrNewline`: the set follows the documented `whitespacesAndNewlines`, which is Zs, tab, U+000A–U+000D, U+0085, U+2028 and U+2029. The Foundation implementation is not part of this model. If it also trims U+200B ZERO WIDTH SPACE, a bundle setting with a zero-width space at either end behaves differently from this model.
- `Text.Lowercased`: lowercases ASCII letters only. No other Unicode character lowercases to 'a' or 'p', so the `"app"` test keeps its meaning.
- String comparison: strings are compared character by character. Swift's canonical-equivalence `==` is not modelled.
- `TextFilter`: its matching is an opaque function carried by each filter value. `TextFilter` is not part of this model.
- `MessageEvent`: its declaration is not part of the modelled source. The five cases and their os_log raw values (0x00, 0x01, 0x02, 0x10, 0x11) are an assumption. The stated properties depend only on the raw value being injective.
- Copy semantics: `EntryFilter` is a Swift value type, while the model's is a class. Copying a filter is not modelled, and neither are the `Codable` and `Hashable` conformances.
- Set iteration order: `acceptedTypes.map(\.rawValue)` depends on it. The model leaves that order unspecified and states only membership and absence of repeats.
- The OR-combination mode named in the `#warning` on line 10: it is not implemented, so it is not modelled.
- `Antoine/Backend/Extensions/UIKit.swift`: presentation and export code, not part of this model.
