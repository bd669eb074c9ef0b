# fed, modelled in Dafny

This project models the sequential core of *fed*, a small ActivityPub
server written in Go, and proves properties of that model. It covers the
following parts.

- **The iterator-adapter generators.** `fetch/iterator_impl.gen.py` and
  `fedutil/iterator_impl.gen.py` print a Go file from a registry of go-fed
  iterator type names. The file has a header, then a dispatch function with
  one type-switch case per registry entry, then one adapter type per entry.
  - The two scripts are one generator with a `Variant` parameter.
  - Standard output is the list of printed lines, threaded through the
    `emit_*` methods.
  - The script's `except` clause is a function of the exception raised.
- **What the generated code does** (`fetch/iterator_impl.go`), and the
  iterator plumbing built on it:
  - `Begin` in `fetch/iter.go` and `fedutil/iterator.go`;
  - the merge iterator `begins` in `fetch/begins.go` and `fedutil/begins.go`;
  - `IRI` and `IRIs` in `fetch/iri.go`.

  A go-fed container is a kind plus a sequence of entries, and a cursor is
  a position in it. Dereferencing an IRI is a lookup in a fixed map `Net`.
- **The IRI grammar** of the three IRI packages `fediri`, `ap` and
  `fedd/ap`:
  - path splitting, the base-path prefix rule, and the owner, object and
    actor accessors;
  - the reserved names;
  - the older `*/{prefix}/{payload}` scheme of `ap/construct_iri.go` and
    `ap/parse_iri.go`;
  - URL equality on scheme, host and path.

  The round-trip lemmas are stated for *clean* names: non-empty, without
  '/', without whitespace at either end, and neither "." nor "..". The
  lemmas for `fediri`, `ap/iri.go` and `fedd/ap` also require a *dot-free*
  base path, one with no "." or ".." segment. On those inputs `path.Join`
  keeps every segment, so the simplified join of the model agrees with it.
- **State-holding structures:**
  - the map-backed string set;
  - the RAM store with its one id counter;
  - the bbolt-backed store as an abstract map of buckets, with its
    transaction object. A transaction commits once, upgrades to a write
    lock once, and keeps ghost lock counters.
- **Errors that carry an HTTP status** (`errors/errors.go`), and how
  `ApiError` picks the reply status.
- **Per-request context state:**
  - first-write-wins status, title and tab;
  - append-only flash lists;
  - cookie credentials sanitised to "both or neither".
- **Small helpers and request validators:**
  - map union;
  - trimming and emptiness;
  - form values;
  - the HTTP success range;
  - content-type checks;
  - the OAuth query validation and the authorize and token handlers;
  - the Webfinger `acct:` resource handling.

Each imperative part of the source is an imperative Dafny member:
- a `class` with `modifies` clauses for the string set, the stores, the
  transaction and the request contexts;
- `while` loops with invariants for the script's `for` loops, `splitPath`,
  `split`, `head`, `Begins`, `Next`, `IRIs`, `FindUser`, `GetPostsFrom`,
  `SumMaps`, `query` and `gcBucket`.

Each such method is proved equal to a specification function. The
properties are then proved about those functions.

Three points of the generator's code worth noting:
- **Name derivation.** `str.replace` deletes every occurrence of
  "Iterator". `IteratorGen.NoEarlyIterator` and
  `IteratorGen.BaseNameDerivation` show that on every registry name this
  is the same as removing the trailing suffix.
- **Adapter methods.** An adapter has six forwarding methods: `HasAny`,
  `IsIRI`, `GetIRI`, `GetType`, `Next` and `End`.
- **Silent exit.** Only the fetch variant ends silently on
  `BrokenPipeError`. The fedutil script swallows just `KeyboardInterrupt`
  and `SystemExit`.

Two statuses differ from what the handler code seems to ask for. Both are
intended behaviour of `ApiError`, which lets a status-carrying error
override the status it is given (api_error.go:30-37):
- With the embedded store, an unknown OAuth code is refused with 404, not
  the 401 that `PostOAuthToken` asks for, because the store's "no entry"
  error carries 404.
- `fedcontext.Status` has no effect after `AddContext` has set the status
  to 200.

## Model

| member | source | states |
|---|---|---|
| IteratorGen.NoEarlyIterator | fetch/iterator_impl.gen.py:95 | a registry name contains "Iterator" only as its suffix, so `replace` deletes exactly the suffix |
| IteratorGen.BaseNameDerivation | fetch/iterator_impl.gen.py:95 | for a well-formed iterator name, basename is the name without its last 8 characters, basename + "Iterator" == itername, and neither contains '$' |
| IteratorGen.BaseNameInjective | fetch/iterator_impl.gen.py:110 | two well-formed names with the same basename are equal |
| IteratorGen.RegistryWellFormed | fetch/iterator_impl.gen.py:13-45 | every entry of either registry is a well-formed iterator name, and the entries are pairwise distinct |
| IteratorGen.RegistryBaseNames | fedutil/iterator_impl.gen.py:13-50 | for every entry of either registry, basename + "Iterator" == itername, and the derived container names are pairwise distinct |
| IteratorRegistry.FetchSorted | fetch/iterator_impl.gen.py:13-45 | the fetch registry is strictly sorted |
| IteratorRegistry.FedutilSorted | fedutil/iterator_impl.gen.py:13-50 | the 36-entry fedutil registry is strictly sorted |
| IteratorRegistry.SortedDistinct | fetch/iterator_impl.gen.py:13-45 | a strictly sorted registry has no duplicates |
| IteratorRegistry.RegistriesDistinct | fedutil/iterator_impl.gen.py:13-50 | both registries are free of duplicates |
| IteratorRegistry.FetchNamesWellFormed | fetch/iterator_impl.gen.py:13-45 | every fetch registry name ends in "Iterator", with no earlier occurrence of it and no '$' |
| IteratorRegistry.FedutilNamesWellFormed | fedutil/iterator_impl.gen.py:13-50 | the same for every fedutil registry name |
| IteratorRegistry.NameOfStem | fedutil/iterator_impl.gen.py:13-50 | a clean stem followed by "Iterator" is a well-formed iterator name |
| IteratorRegistry.PropertyIteratorName | fedutil/iterator_impl.gen.py:13-50 | a clean vocabulary, a capitalised clean property, then "PropertyIterator" form a well-formed iterator name |
| IteratorRegistry.Vocabularies | fedutil/iterator_impl.gen.py:13-50 | the vocabulary stems ActivityStreams, JSONLD and W3IDSecurityV1 are clean |
| IteratorRegistry.FetchInFedutil | fedutil/iterator_impl.gen.py:13-50 | every fetch registry name is also in the fedutil registry |
| IteratorRegistry.NotSupportedInFedutil | fedutil/iterator_impl.gen.py:23-48 | the five fetch `not_supported` names (Content, Name, Rel, Summary, JSONLDType) are in the fedutil registry |
| IteratorRegistry.NotSupportedDisjoint | fetch/iterator_impl.gen.py:48-54 | no `not_supported` name is in the fetch registry |
| IteratorRegistry.BetweenNeighboursAbsent | fetch/iterator_impl.gen.py:13-45 | a name that sorts strictly between two neighbours of a sorted registry is not in it |
| IteratorGen.ReplaceBaseFills | fetch/iterator_impl.gen.py:98 | replacing `$BASE_TYPE` in the raw template fills exactly the base holes |
| IteratorGen.ReplaceIterFills | fetch/iterator_impl.gen.py:99 | replacing `$ITER_TYPE` afterwards fills exactly the iterator holes, when the basename has no '$' |
| IteratorGen.FillNoPlaceholder | fetch/iterator_impl.gen.py:97-99 | the filled template contains no '$', so no placeholder survives |
| IteratorGen.TemplatesFree | fedutil/iterator_impl.gen.py:53-88 | the text pieces of both wrapper templates contain no '$' |
| IteratorGen.AdapterSubstituted | fetch/iterator_impl.gen.py:94-101 | the printed adapter for a name is the template with both placeholders filled by basename and name, and contains no '$' |
| IteratorGen.EmitHeader | fetch/iterator_impl.gen.py:137-149 | appends exactly the variant's header lines to standard output |
| IteratorGen.EmitFetchHeader | fetch/iterator_impl.gen.py:137-149 | appends the fetch file's package clause, generated-code banner and imports, in order |
| IteratorGen.EmitFedutilHeader | fedutil/iterator_impl.gen.py:130-138 | appends the fedutil file's package clause and imports, in order |
| IteratorGen.EmitConstructorFor | fetch/iterator_impl.gen.py:109-117 | appends exactly the six lines of one case for that name |
| IteratorGen.DispatchPrologue | fetch/iterator_impl.gen.py:120-126 | the fetch dispatch opens with `begin(iterable interface{})`, the nil check returning "nil argument", then the type switch, and its cases start at line 18; the fedutil one (fedutil/iterator_impl.gen.py:117-119) opens with `Begin(iterable vocab.Type)` and the switch, with cases from line 10 |
| IteratorGen.EmitConstructor | fetch/iterator_impl.gen.py:120-134 | appends the prologue (the nil check in the fetch variant), one case per registry entry in registry order, and the default epilogue |
| IteratorGen.EmitWrapper | fetch/iterator_impl.gen.py:94-101 | appends exactly one line, the substituted adapter |
| IteratorGen.EmitWrappers | fetch/iterator_impl.gen.py:104-106 | appends one adapter per registry entry, in registry order |
| IteratorGen.Generate | fetch/iterator_impl.gen.py:152-155 | `main` prints the header, then the dispatch function, then the adapters: the output is the variant's `Output` |
| IteratorGen.FileLayout | fedutil/iterator_impl.gen.py:141-144 | the output's length, and the exact positions of the header, the prologue, the six lines of each case in order, the epilogue and each adapter in order |
| IteratorGen.DispatchCase | fetch/iterator_impl.gen.py:109-134 | case k tests `vocab.<basename>` and builds `iter_<name>{p: v, it: v.Begin()}`; the default "not supported" line comes after every case |
| IteratorGen.CasesLayout | fetch/iterator_impl.gen.py:128-129 | the case block has six lines per name, and line 6k+j is line j of the case for name k |
| IteratorGen.AdaptersLayout | fetch/iterator_impl.gen.py:104-106 | the adapter block has one line per name, and line k is the adapter for name k |
| IteratorGen.TemplateStart | fetch/iterator_impl.gen.py:57 | both wrapper templates start with a newline |
| IteratorGen.CaseHeadInjective | fetch/iterator_impl.gen.py:112 | distinct basenames give distinct case lines |
| IteratorGen.AbsentNoCase | fetch/iterator_impl.gen.py:126-134 | a well-formed name outside the registry has no case line anywhere in the output |
| IteratorGen.AbsentNoAdapter | fetch/iterator_impl.gen.py:104-106 | every adapter line belongs to a registry name, so a name outside the registry gets no adapter |
| IteratorGen.ScriptInputs | fetch/iterator_impl.gen.py:13-91 | the script's registry and template meet the preconditions of the layout lemmas |
| IteratorGen.NotSupportedNotDispatched | fetch/iterator_impl.gen.py:48-54 | no `not_supported` name gets a case in the fetch output, and none is in the fetch registry |
| IteratorGen.FetchScriptAdapter | fetch/iterator_impl.gen.py:155 | the fetch output line for adapter k is the template filled with registry entry k and its basename, with no '$' left |
| IteratorGen.FedutilScriptAdapter | fedutil/iterator_impl.gen.py:144 | the fedutil output line for adapter k is its template filled with registry entry k and its basename, with no '$' left |
| IteratorGen.FedutilAddsNotSupported | fedutil/iterator_impl.gen.py:13-50 | the fedutil registry contains every fetch registry name and every `not_supported` name |
| IteratorGen.HeaderImports | fedutil/iterator_impl.gen.py:130-138 | the fetch header declares `package fetch` and imports errors; the fedutil header declares `package fedutil` and imports fmt and net/url but not errors |
| IteratorGen.Run | fetch/iterator_impl.gen.py:158-162 | the output so far is a prefix of the full output; without an exception the run finishes; an exception ends the run silently exactly when the variant's `except` names it, and otherwise ends it with a traceback |
| IteratorGen.FetchSwallows | fetch/iterator_impl.gen.py:159-162 | BrokenPipeError, KeyboardInterrupt and SystemExit end the fetch script silently; any other exception gives a traceback |
| IteratorGen.FedutilPropagatesBrokenPipe | fedutil/iterator_impl.gen.py:147-151 | the fedutil script propagates BrokenPipeError and swallows KeyboardInterrupt and SystemExit |
| Iter.Dispatch | fetch/iterator_impl.go:13-208 | the generated `begin` succeeds exactly on a supported container, giving the adapter `{p: v, it: v.Begin()}`; nil gives "nil argument" in the fetch variant; anything else gives "not supported" with the value |
| Iter.SupportedIsCase | fetch/iterator_impl.go:18-203 | a container kind is dispatched exactly when it is the basename of some registry entry |
| Iter.Begin | fetch/iter.go:50-67 | nil fails with "nil argument"; in the fetch variant an `Iter` passes through unchanged; an OrderedCollectionPage dispatches its orderedItems; everything else goes to the generated dispatch |
| Iter.BeginIdempotent | fetch/iter.go:55-57 | in the fetch variant, `Begin` of an iterator that `Begin` returned gives that same iterator |
| Iter.FedutilNoPassThrough | fedutil/iterator.go:42-55 | in the fedutil variant an `Iter` is not passed through but refused as not supported |
| Iter.PageWithoutItems | fedutil/iterator.go:47-50 | a page without orderedItems is refused with "nil argument" by fetch and "not supported" by fedutil, which has no nil check |
| Iter.BeginValid | fetch/iter.go:50-67 | a successful `Begin` yields a well-formed iterator |
| Iter.Fetch | fetch/fetch.go:35-55 | dereferencing succeeds exactly for an IRI present in the network map, and then gives its non-nil object |
| Iter.FetchIter | fedutil/fetch.go:78-87 | an iterator without a value is an error, an IRI is dereferenced, and otherwise `GetType` is returned with no error: the object, or nil for a literal |
| Iter.AdapterAccessors | fetch/iterator_impl.go:215-229 | the adapter's `HasAny`, `IsIRI`, `GetIRI` and `GetType` are those of the entry under its cursor: a value unless the entry is empty, an IRI only for an IRI entry, a non-nil object only for an object entry |
| Iter.FetchLiteral | fetch/fetch.go:58-66 | on a literal entry `HasAny` holds and `IsIRI` does not, and `FetchIter` returns nil with no error |
| Iter.AdapterNext | fetch/iterator_impl.go:231-236 | `Next` on an adapter keeps its owner, advances the cursor by exactly one, and does not change `End` |
| Iter.EndIgnoresCursor | fetch/iterator_impl.go:238-243 | `End` of an adapter does not depend on the cursor; an adapter is at its end exactly when the cursor is past the last entry |
| Iter.MergeAccessors | fetch/begins.go:78-100 | on a merge iterator, `HasAny` holds exactly when there are iterators, `IsIRI` is false, `GetIRI` is nil, `GetType` is the value at the head (nil when that value is), and `End` is `_END` |
| Iter.NotAtEndIsLive | fetch/iter.go:23-38 | a well-formed iterator that is not at its end holds a value, or is an adapter at an empty position |
| Iter.FirstValued | fetch/begins.go:48-52 | the skip loop stops at the first position at or after the cursor that holds a value, or at the end |
| Iter.NextSpec | fetch/begins.go:102-168 | `Next` maps a well-formed iterator to a well-formed one |
| Iter.NextDecreases | fetch/begins.go:122-153 | `Next` on an iterator not at its end strictly decreases the number of remaining entries, so every iteration ends |
| Iter.Walk | fetch/iri.go:35-46 | the iterators visited by `for it != it.End(); it = it.Next()` are at most the number of entries, each one well-formed, not at its end and readable; there are none exactly when the start is at its end |
| Iter.AdapterWalk | fetch/iri.go:35-46 | walking an adapter visits each remaining position once, in order |
| Iter.Head | fetch/begins.go:176-197 | `head` with the newest time tracked returns -1 exactly when there are no iterators, and otherwise an index in range |
| Iter.HeadIsNewest | fetch/begins.go:176-197 | the corrected `head` picks a value whose published time is not older than any other positive one |
| Iter.NewestMeaning | fetch/begins.go:185-196 | the tracked scan returns the first index with the largest positive published time, or 0 if there is none |
| Iter.Newest | fetch/begins.go:185-196 | the tracked scan gives an index in range and a non-negative newest time |
| Iter.LastAfterZero | fetch/begins.go:185-196 | the scan as written gives an index in range |
| Iter.HeadAsWritten | fetch/begins.go:176-197 | `head` as written returns -1 exactly when there are no iterators, and otherwise an index in range |
| Iter.LastAfterZeroMeaning | fetch/begins.go:185-196 | as written, the loop returns the last index whose published time is after the zero time, or 0 if there is none |
| Iter.HeadAsWrittenNotNewest | fetch/begins.go:185-196 | for published times [2, 1] the code as written picks index 1, the older value, while the corrected `head` picks 0 |
| Begins.ConvertAll | fetch/begins.go:34-41 | a successful conversion has one iterator per argument; a failure is BadIterable at an index of the arguments |
| Begins.ConvertAllMeaning | fetch/begins.go:34-41 | succeeds exactly when `Begin` succeeds on every argument, with those iterators in order; otherwise fails naming the first failing index and its error |
| Begins.ConvertPrefixErr | fedutil/begins.go:11-23 | once a conversion fails, the later arguments do not change the error |
| Begins.ConvertAllValid | fetch/begins.go:34-41 | every iterator from a successful conversion is well-formed |
| Begins.Heads | fetch/begins.go:48-68 | the kept iterators form a well-formed merge, at most one per argument; a fetch failure names a valid index |
| Begins.AllExhausted | fetch/begins.go:71-73 | when every iterator is empty after skipping, nothing is kept, so the result is `_END` |
| Begins.KeptWhenFetched | fedutil/begins.go:36-56 | every argument that is not empty after skipping is kept, at its skipped position |
| Begins.HeadsPrefixErr | fedutil/begins.go:45-50 | once a fetch fails, the later iterators do not change the error |
| Begins.BeginsSpec | fetch/begins.go:29-76 | `Begins` yields a well-formed merge iterator |
| Begins.Begins | fetch/begins.go:29-76 | the loop that converts and collects its arguments computes `BeginsSpec` |
| Begins.BeginsInitial | fedutil/begins.go:26-64 | the skip, fetch and append loop computes `Heads`: the first fetch error, or the merge of the kept iterators and their values |
| Begins.Next | fetch/begins.go:102-168 | `Next` on any well-formed iterator computes `NextSpec` |
| Begins.MergeNext | fetch/begins.go:102-168 | `begins.Next` advances the head's iterator once, skips empty positions, and computes `NextSpec` |
| Begins.Settle | fetch/begins.go:122-153 | an advanced head that holds a value and fetches is stored with its value at index i; otherwise slot i is swap-removed from both slices |
| Begins.MergeStepCases | fedutil/begins.go:117-148 | what `NextSpec` of a merge is in the two cases: the head is replaced with its advanced iterator and value, or it is swap-removed |
| Begins.OverwrittenSlotRemoved | fetch/begins.go:139-141 | swap-removing slot i after overwriting it gives the same slice as swap-removing it directly |
| Begins.HeadIndex | fetch/begins.go:176-197 | the scan loop with the newest time tracked computes `Head` |
| Begins.HeadIndexAsWritten | fedutil/begins.go:171-192 | the scan loop as written computes `HeadAsWritten` |
| FetchIri.IRI | fetch/iri.go:13-28 | an entry without a value is an error; an IRI entry gives its IRI; otherwise a nil `GetType` is the nil-object error exactly, and a missing id is an error only for a non-nil object |
| FetchIri.AdapterIRI | fetch/iri.go:13-28 | `IRI` of an adapter is the IRI of the entry under its cursor |
| FetchIri.MergeIRI | fetch/iri.go:24-27 | `IRI` of a merge iterator is the nil-object error for a nil head value, and otherwise the head value's id, or the no-id error |
| FetchIri.IRIs | fetch/iri.go:35-46 | succeeds exactly when every visited entry has an IRI, returning one IRI per entry in iteration order; otherwise returns the error of the first visited entry that has no IRI |
| FetchIri.AdapterIRIs | fetch/iri.go:35-46 | over an adapter, `IRIs` visits every entry of the container in order |
| FetchIri.NothingAtEnd | fetch/iri.go:35-46 | an iterator already at its end visits nothing |
| Paths.SplitPath | fediri/iri.go:213-231 | the loop computes `SplitPathSpec`: segments split on '/', zero-length ones dropped, the rest trimmed |
| Paths.SplitPathKeepsBlank | fediri/iri.go:222-228 | a whitespace-only segment survives as "", because the length test looks at the untrimmed segment |
| Paths.SplitPathDropsEmpty | fedd/ap/iri.go:208-226 | doubled slashes do not change the split |
| Paths.SplitPathTrailing | ap/iri.go:228-246 | a trailing slash does not change the split |
| Paths.SplitPathRooted | fediri/iri.go:213-231 | splitting "/" followed by clean segments joined with '/' gives those segments back |
| Paths.SplitPathOfPair | fediri/iri.go:19 | splitting `path.Join(a, b)` gives the split of a followed by the split of b |
| Paths.SplitPathOfNested | fediri/iri.go:19 | splitting the base path joined with the joined components gives the base segments followed by the kept components |
| Paths.SplitRootedSegments | fediri/iri.go:216 | splitting "/" + segments joined with '/' gives "" followed by those segments |
| Paths.KeptClean | fediri/iri.go:19 | the simplified `path.Clean` does not change the kept segments |
| Paths.KeptPathJoin | fediri/iri.go:19 | the segments kept from `path.Join(elems...)` are those kept from each element in turn |
| Paths.SplitSpec | fediri/iri.go:170-209 | `split` succeeds exactly when the target has base+1 or base+2 segments starting with the base segments; then it returns the next segment, and a payload exactly for base+2 |
| Paths.SplitIri | fediri/iri.go:170-209 | the length check and prefix loop compute `SplitSpec` |
| Paths.SplitOfExtension | fedd/ap/iri.go:169-204 | a target that extends the base by one or two segments splits into those segments |
| Iri.NewPath | fediri/iri.go:17-28 | the new path splits into the base segments followed by the kept components |
| Iri.SegmentsOfNew | fediri/iri.go:17-28 | with a dot-free base path and clean components, the new path splits into the base segments followed by exactly those components |
| Iri.ActorOf | fediri/iri.go:71-79 | `Actor` succeeds exactly when the target is the base plus one segment, and returns that segment; a valid split with a payload is "not an actor" |
| Iri.OwnerOf | fediri/iri.go:251-259 | `owner(tail)` succeeds exactly when the target is the base plus an owner segment plus tail; otherwise the error is the base mismatch or the wrong-tail error |
| Iri.ObjectOf | fediri/iri.go:130-138 | `Object` succeeds exactly for base/storage/{id}, returning id |
| Iri.UsernameOf | fediri/iri.go:141-149 | the username is the first segment after the base whenever `split` succeeds |
| Iri.ActorRoundTrip | fediri/iri.go:31-33 | under a dot-free base path, the actor IRI of a clean name u gives u back from `Actor` and as username, and is neither an owner IRI nor an object |
| Iri.OwnerRoundTrip | fediri/iri.go:41-58 | for a dot-free base and clean u and tail, base/u/tail gives u from `owner(tail)` and a wrong-tail error from any other tail, and is not an actor |
| Iri.ObjectRoundTrip | fediri/iri.go:61-64 | for a dot-free base and a clean id, base/storage/id gives id back from `Object` |
| Iri.WrongLengthRejected | fediri/iri.go:187-192 | a target with neither base+1 nor base+2 segments is rejected as a base mismatch |
| Iri.UuidIsClean | fediri/iri.go:62 | a UUID string is a clean path segment |
| FedIri.NewIRI | fediri/iri.go:17-28 | scheme "https", the configured host, no user, query or fragment, and a path that splits into the base followed by the components |
| FedIri.RoundTrips | fediri/iri.go:31-123 | under a dot-free base path, for a clean name u, each of the six constructors (`ActorIRI`, `InboxIRI`, `OutboxIRI`, `FollowersIRI`, `FollowingIRI`, `LikedIRI`) is inverted by its accessor (`Actor`, `InboxOwner`, `OutboxOwner`, `FollowersOwner`, `FollowingOwner`, `LikedOwner`) |
| FedIri.WrongTailFails | fediri/iri.go:251-259 | under a dot-free base path and for a clean name, an inbox IRI is not an outbox, an outbox is not an inbox, an actor is not an inbox, and an inbox is not an actor |
| FedIri.RollObjectIsObject | fediri/iri.go:61-64 | under a dot-free base path, every rolled object IRI (`RollObjectIRI`) passes `Object` with its id |
| FedIri.IriOwner | fediri/iri.go:141-149 | `Owner` succeeds exactly when the username is valid and not reserved, and returns it |
| FedIri.OwnerOfActor | fediri/iri.go:141-149 | under a dot-free base path, the owner of the actor IRI of a clean name is the actor, unless the name is reserved |
| FedIri.ReservedNames | fediri/is_reserved_username.go:5-16 | `IsReservedUsername` holds for all 11 listed names; "alice", "Storage" and "" are not reserved, because matching is exact |
| FeddApIri.NewIRI | fedd/ap/iri.go:20-34 | scheme, host and base path come from the context, and the path splits into the base followed by the components |
| FeddApIri.RoundTrips | fedd/ap/iri.go:78-117 | under a dot-free base path, `ActorIRI`, `InboxIRI` and `OutboxIRI` of a clean name are inverted by `Actor`, `InboxOwner` and `OutboxOwner`; the wrong accessor gives "not an inbox" or "not an outbox" |
| FeddApIri.RollObjectIsObject | fedd/ap/iri.go:66-70 | under a dot-free base path, every rolled object IRI passes `Object` |
| FeddApIri.RetrieveOwner | fedd/ap/iri.go:136-148 | the owner is the username after the base unless that name is "storage", which is refused before any lookup |
| FeddApIri.RetrieveOwnerRefusesStorage | fedd/ap/iri.go:143-144 | the username "storage" is refused as a reserved name |
| FeddApIri.ActorUnderRootedBase | fedd/ap/iri.go:78-86 | under base "/a/", "/a/u" is the actor u |
| FeddApIri.OwnerUnderRootedBase | fedd/ap/iri.go:94-117 | under base "/a/", "/a/u/t" has owner u for tail t and a wrong-tail error for any other tail |
| FeddApIri.NoPayloadRejected | fedd/ap/iri_test.go:81-91 | "/a/u/" has no payload, so every owner parser fails |
| FeddApIri.ExtraSegmentRejected | fedd/ap/iri_test.go:103-112 | an extra segment after the tail is a base mismatch |
| Paths.RootedBaseDotFree | fedd/ap/test.go:16 | a base path "/a/" of one clean segment, such as the tests' "/fed/", is dot-free |
| FeddApIri.ConstructorTests | fedd/ap/iri_test.go:7-50 | under the test context's base "/fed/", the actor, inbox and outbox IRIs of "diomedes" read back as "diomedes", and every rolled object IRI passes `Object` |
| FeddApIri.TestCases | fedd/ap/iri_test.go:51-171 | the test IRIs: "/fed/belano" is actor belano; "/fed/alice/outbox" is owned by alice; the wrong-tail, empty-username, storage and extra-segment cases fail |
| ApIri.NewIRI | ap/iri.go:22-36 | scheme and host come from the configured base URL, and the path splits into its path followed by the components |
| ApIri.RoundTrips | ap/iri.go:39-137 | under a dot-free base path and for a clean name, each of the six constructors (`ActorIRI` to `LikedIRI`) is inverted by its accessor (`Actor`, `InboxOwner`, `OutboxOwner`, `FollowersOwner`, `FollowingOwner`, `LikedOwner`), and a liked IRI is not an actor |
| ApIri.OwnerNeedsTail | ap/iri.go:267-275 | for a dot-free base and clean owner and tail, `owner(tail)` succeeds exactly when the payload equals tail |
| ApIri.RollObjectIsObject | ap/iri.go:145-153 | under a dot-free base path, a rolled object IRI passes `Object`, and an actor IRI is not an object |
| ApIri.RetrieveOwner | ap/iri.go:156-168 | the owner is the username after the base unless it is reserved, which is refused before any lookup |
| ApIri.RetrieveOwnerOfActor | ap/iri.go:280-288 | under a dot-free base path, the owner of the actor IRI of a clean name is refused exactly when the name is in the 11-name set |
| ApPrefixed.IsBlank | ap/construct_iri.go:13-17 | blank means empty or whitespace only |
| ApPrefixed.ConstructPrefixedIri | ap/construct_iri.go:12-28 | a blank prefix, then a blank payload, panics; otherwise the IRI takes scheme and host from the context and has no user, query or fragment |
| ApPrefixed.PrefixedSegments | ap/construct_iri.go:21-27 | for a clean prefix and a non-blank payload without '/' that is neither "." nor "..", the constructed path splits into the prefix path's segments followed by the payload |
| ApPrefixed.BlankRefused | ap/construct_iri.go:13-19 | "" as actor (`ConstructActorIri`), " " as prefix and a tab as outbox owner (`ConstructOutboxIri`) all panic |
| ApPrefixed.FirstMismatch | ap/parse_iri.go:33-40 | the position-wise comparison finds no mismatch exactly when the base segments are a prefix, and otherwise reports a differing pair |
| ApPrefixed.ParsePayload | ap/parse_iri.go:15-51 | succeeds exactly when the IRI has one more '/'-segment than base/subpath, agrees with it position by position, and its last segment is not empty; a wrong segment count is "bad number of path segments" |
| ApPrefixed.ParseActivityId | ap/parse_iri.go:83-90 | a payload error is passed on; a payload that parses gives its uint64 value; one that does not gives the parse error |
| ApPrefixed.PayloadRoundTrip | ap/parse_iri.go:15-51 | for such a prefix and payload, parsing a constructed prefixed IRI gives its payload back |
| ApPrefixed.OwnerRoundTrips | ap/parse_iri.go:60-73 | for a non-blank owner without '/' that is neither "." nor "..", `ParseOutboxOwner` and `ParseInboxOwner` give back the owner that `ConstructOutboxIri` and `ConstructInboxIri` were given |
| ApPrefixed.ActivityRoundTrip | ap/construct_iri.go:67-70 | `ParseActivityId` gives back the id that `ConstructActivityIri` put into its decimal IRI |
| ApPrefixed.PrefixedString | ap/construct_iri_test.go:8-36 | under base "/a/" with a clean a and for such a prefix and payload, the IRI string is scheme://host/a/prefix/payload |
| ApPrefixed.TestConstruct | ap/construct_iri_test.go:8-16 | the actor IRI of "ulises" under http://example.com/fed/ is "http://example.com/fed/actor/ulises" |
| GoStrings.FormatDecimal | ap/construct_iri.go:68 | the base-10 rendering is a non-empty string of digits |
| GoStrings.ParseUint | ap/parse_iri.go:85 | a parse succeeds only on a non-empty digit string, with its decimal value (leading zeros allowed); a syntax error exactly on an empty string or one containing a non-digit; a range error exactly on a digit string whose value is at least 2^64 |
| GoStrings.DecimalRoundTrip | ap/construct_iri.go:68 | the digits of the rendering denote the number |
| GoStrings.ParseFormat | ap/parse_iri.go:85 | parsing the rendering of a uint64 gives it back |
| Urls.UrlEqIsKeyEquality | util/url_eq.go:6-26 | two URLs are equal exactly when both are nil or both have the same scheme, host and path; user, query and fragment are ignored |
| Urls.UrlEqNil | util/url_eq.go:9-21 | two nils are equal, and nil is unequal to any URL |
| Urls.UrlEqEquivalence | ap/url_eq.go:6-26 | URL equality is reflexive, symmetric and transitive |
| Urls.MakeUrl | fediri/iri.go:21-25 | a URL with the given scheme, host and path, and empty user, query and fragment |
| Urls.UrlIn | util/url_eq.go:34-42 | true exactly when some element equals the needle; false on an empty haystack |
| Urls.UrlInAny | util/url_eq.go:46-54 | true exactly when the needle is in some haystack |
| Urls.UrlInRespectsEq | ap/url_eq.go:34-42 | equal needles are found in the same haystacks |
| StringSet.MapStringSet.constructor | db/set/string_set.go:10-14 | a new set is empty |
| StringSet.MapStringSet.Len | db/set/string_set.go:40-42 | the number of stored values |
| StringSet.MapStringSet.Put | db/set/string_set.go:20-24 | returns true exactly when the value was absent; afterwards it is contained, other values are unaffected, and the length grows by one exactly when true was returned |
| StringSet.MapStringSet.Remove | db/set/string_set.go:31-38 | returns true exactly when the value was present; afterwards it is absent, other values are unaffected, and the length drops by one exactly when true was returned |
| StringSet.PutAll | db/set/string_set_test.go:18-36 | putting distinct words always returns true; the length is their number, and exactly those words are contained |
| StringSet.HecubaScenario | db/set/string_set_test.go:8-49 | after the 13 words of the test, the length is 13, removing "valiant" returns true and removing "hector" returns false |
| RamStorage.FedRamStorage.constructor | db/fed_ram_storage.go:14-20 | a new store has `lastId` 0, no users and no posts |
| RamStorage.FedRamStorage.AddUser | db/fed_ram_storage.go:22-30 | stores the user under the fresh id `lastId`, leaves the posts alone, and increments the counter |
| RamStorage.FedRamStorage.GetUser | db/fed_ram_storage.go:32-34 | the stored user, or nil |
| RamStorage.FedRamStorage.GetPost | db/fed_ram_storage.go:61-63 | the stored post, or nil |
| RamStorage.FedRamStorage.FindUser | db/fed_ram_storage.go:36-44 | a stored user with that name, or nil exactly when no stored user has it |
| RamStorage.FedRamStorage.AddPost | db/fed_ram_storage.go:46-59 | an unknown user is an error and changes nothing; otherwise the post is stored under the fresh id and the counter grows |
| RamStorage.FedRamStorage.GetPostsFrom | db/fed_ram_storage.go:65-75 | exactly the posts of that user, each once, in some order |
| RamStorage.CounterIsFresh | db/fed_ram_storage.go:23-24 | the counter is never the id of a stored user or post, so ids handed out are distinct |
| RamStorage.AddThenFind | db/fed_ram_storage_test.go:22-54 | every added user can be found by name |
| Errors.Status | errors/errors.go:90-96 | an error carries a status exactly when it is an `httperror`; any other error gives (0, false) |
| Errors.New | errors/errors.go:28-31 | the message is the trimmed text, with no status |
| Errors.Newf | errors/errors.go:35-38 | the message is the trimmed formatted text, with no status |
| Errors.NewWith | errors/errors.go:41-48 | the message is the trimmed text, with the given status |
| Errors.NewfWith | errors/errors.go:52-55 | the message is the trimmed formatted text, with the given status |
| Errors.Wrap | errors/errors.go:58-67 | the message is trim(text + ": " + cause); the status is the cause's, or none |
| Errors.WrapWith | errors/errors.go:70-73 | the wrapped message, with exactly the given status |
| Errors.Wrapf | errors/errors.go:76-79 | the wrapped formatted message, with the cause's status |
| Errors.WrapfWith | errors/errors.go:83-86 | the wrapped formatted message, with exactly the given status |
| Errors.WithStatus | errors/errors.go:100-102 | the cause's message, trimmed, with the given status |
| Errors.WithStatusKeepsMessage | errors/errors.go:100-102 | on an already trimmed error the message does not change |
| Errors.WithStatusOverrides | errors/errors.go:100-102 | a later status replaces an earlier one |
| Errors.ConstructorsTrimmed | errors/errors.go:28-67 | the constructors produce trimmed messages |
| Api.ApiError | api_error.go:17-63 | the reply carries the error's own status when it has one, and the given status otherwise |
| Api.ErrorStatusWins | api_error.go:30-37 | for an error with a status, the requested status makes no difference |
| FedCtx.FedContext.constructor | fedcontext/add_context.go:37-45 | a new context has status 200, empty tab and title, no credentials and empty flash lists |
| FedCtx.SanitizedCredentials | fedcontext/fed_context.go:133-139 | the credentials are both kept when both are non-blank, and otherwise both nil |
| FedCtx.SanitizeIdempotent | fedcontext/fed_context.go:150-155 | sanitising twice is sanitising once |
| FedCtx.FedContext.LoadFromCookie | fedcontext/fed_context.go:100-142 | no cookie leaves the context unchanged; an undecodable cookie is an error and changes nothing; otherwise the flash lists are replaced, the credentials sanitised, and status, title and tab kept |
| FedCtx.FedContext.Persisted | fedcontext/fed_context.go:150-155 | the copy written out: the sanitised credentials and the three flash lists |
| FedCtx.FedContext.WriteToCookie | fedcontext/fed_context.go:147-180 | the cookie encodes the sanitised copy, and the context is not modified |
| FedCtx.WriteThenLoad | fedcontext/fed_context.go:100-180 | loading a written cookie restores the flash lists and the sanitised credentials |
| FedCtx.FedContext.NewClient | fedcontext/fed_context.go:185-196 | there is no client exactly when a credential is blank; otherwise the client is for the actor IRI |
| FedCtx.FedContext.ClearFlashes | fedcontext/fed_context.go:210-214 | the three flash lists are emptied, and everything else is kept |
| FedCtx.FedContext.Selected | fedcontext/fed_context.go:232-236 | the tab is set only while it is empty, so the first write wins |
| FedCtx.FedContext.Title | fedcontext/fed_context.go:243-247 | the title is set only while it is empty |
| FedCtx.FedContext.Status | fedcontext/fed_context.go:254-258 | the status is set only while it is 0 |
| FedCtx.StatusAfterInstall | fedcontext/fed_context.go:254-258 | after the context has been installed with status 200, any `Status` call leaves 200 |
| FedCtx.FedContext.Username | fedcontext/fed_context.go:261-263 | sets the username only |
| FedCtx.FedContext.ActorIRI | fedcontext/fed_context.go:266-268 | sets the actor IRI only |
| FedCtx.FedContext.Flash | fedcontext/fed_context.go:271-274 | appends to the flashes only |
| FedCtx.FedContext.FlashWarning | fedcontext/fed_context.go:277-280 | appends to the warnings only |
| FedCtx.FedContext.FlashError | fedcontext/fed_context.go:283-286 | appends to the errors only |
| FedWeb.FedWebContext.constructor | fedweb/context.go:47-50 | the installed context has the given status and client and empty flash lists |
| FedWeb.AddContext | fedweb/context.go:36-57 | installs a context, with status 200 and empty lists, only when none is present |
| FedWeb.Flash | fedweb/context.go:63-66 | appends to the flashes only |
| FedWeb.FlashWarning | fedweb/context.go:68-71 | appends to the warnings only |
| FedWeb.FlashError | fedweb/context.go:73-76 | appends to the errors only |
| FedWeb.Status | fedweb/context.go:78-82 | sets the status only while it is 0 |
| FedWeb.StatusAfterAddContext | fedweb/context.go:47-50 | after `AddContext`, `Status` leaves 200 |
| FedWeb.StatusContext.constructor | fedweb/status.go:26-28 | a new status context is unset |
| FedWeb.StatusContext.Status | fedweb/status.go:15-21 | reports 200 while unset (-1), and the stored status otherwise |
| FedWeb.AddStatusContext | fedweb/status.go:23-35 | installs an unset status context only when none exists |
| FedWeb.StatusOf | fedweb/status.go:41-45 | sets the status only while it is unset |
| FedWeb.FirstStatusWins | fedweb/status.go:15-45 | on a fresh context, the first status set is the one reported, whatever comes later |
| FedWeb.FlashContext.constructor | fedweb/flash.go:18 | a new flash context has empty lists |
| FedWeb.AddFlashContext | fedweb/flash.go:16-23 | always installs a fresh, empty flash context |
| FedWeb.GetFlashContext | fedweb/flash.go:25-35 | the installed context, or a fresh empty throwaway when none is installed |
| FedWeb.FlashTo | fedweb/flash.go:37-40 | appends to the installed flashes only, and may change nothing but the installed flash context (`FlashFrame`) |
| FedWeb.FlashWarningTo | fedweb/flash.go:42-45 | appends to the installed warnings only |
| FedWeb.FlashErrorTo | fedweb/flash.go:47-50 | appends to the installed errors only |
| Maps.SumMaps | fedutil/sum_maps.go:3-13 | the nested loops compute the union where the last map containing a key wins |
| Maps.UnionKeys | fedweb/sum_maps.go:3-9 | a key is in the union exactly when some input has it |
| Maps.UnionLastWins | fedweb/sum_maps.go:6-9 | a key takes its value from the last input that contains it |
| Maps.UnionOfEmpties | fedutil/sum_maps.go:4-12 | no inputs, or only empty ones, give the empty map |
| Maps.UnionPair | fedweb/sum_maps.go:10-20 | the union of two maps is the second overriding the first |
| Maps.CopyInto | fedweb/sum_maps.go:14-16 | the inner loop overrides the sum with one map |
| Maps.Sum | fedweb/join_maps.go:3-15 | the keys of both maps; the new map's values win; keys only in the old map keep their old value |
| Maps.SumUnits | fedweb/join_maps.go:3-15 | summing with the empty map on either side gives the map back |
| Helpers.Trim | util/trim.go:8-19 | nil gives ("", false); otherwise the trimmed string, and the flag holds exactly when it is non-empty |
| Helpers.TrimTwice | util/trim.go:8-19 | trimming the result again gives the same string and flag |
| Helpers.IsEmpty | template/is_empty.go:7-14 | true exactly for nil or a whitespace-only string |
| Helpers.IsEmptyIsNotTrimmed | fedweb/is_empty.go:5-12 | empty exactly when `Trim` reports not ok |
| Helpers.IsEmptyExamples | fedweb/is_empty.go:5-12 | nil, "" and " \t\n" are empty; " a " is not |
| Helpers.FormValue | form_value.go:10-19 | ok exactly when the value is not blank; then the value is the trimmed form value, non-empty and without surrounding whitespace; otherwise ("", false) |
| Helpers.FormValueIsTrim | form_value.go:10-19 | `FormValue` is `Trim` applied to the looked-up value |
| Helpers.FormValueMissing | form_value.go:11-15 | a missing key gives ("", false) |
| Helpers.HTTPSuccessBounds | util/is_http_success.go:5-7 | `IsHTTPSuccess` holds exactly from 200 to 299: 200 and 299 are successes, 199 and 300 are not |
| Helpers.ContentType | util/content_type.go:10-21 | GET gives the Accept header; POST and PUT give Content-Type; any other method gives "" |
| Helpers.ContentTypeDependsOnOneHeader | util/content_type.go:10-21 | the result depends only on the method and that one header |
| Helpers.IsRequestIsContentType | is_request.go:16-27 | `isRequest` holds exactly for GET, POST or PUT whose content type equals the given one |
| Helpers.RequestKindsExclusive | is_request.go:7-14 | no request is both an ActivityPub request (`IsActivityPubRequest`) and an HTML request (`IsHTMLRequest`) |
| EmbeddedStorage.RetrieveSpec | db/fed_embedded_storage.go:517-535 | a stored record, or an error: 404 for a missing key, with no status for a missing bucket |
| EmbeddedStorage.StoreSpec | db/fed_embedded_storage.go:537-551 | storing succeeds exactly for an existing bucket and a key of 1 to 32768 bytes, and updates that one key |
| EmbeddedStorage.RetrieveAfterStore | db/fed_embedded_storage.go:517-551 | reading back a stored key gives the stored record |
| EmbeddedStorage.StoreFrame | db/fed_embedded_storage.go:537-551 | storing leaves every other bucket and key as it was |
| EmbeddedStorage.ToKeyIgnoresRest | db/fed_embedded_storage.go:507-514 | the key `ToKey` gives depends only on host and path |
| EmbeddedStorage.ToKeyRootsPath | db/fed_embedded_storage.go:507-514 | with a host set, a path and its rooted form share a key |
| EmbeddedStorage.ToKeyInjective | db/fed_embedded_storage.go:507-514 | for plain hosts and rooted paths, equal keys mean equal host and path |
| EmbeddedStorage.Fresh | db/fed_embedded_storage.go:51-89 | a new database has the four buckets, all empty |
| EmbeddedStorage.AsCode | db/fed_embedded_storage.go:291-294 | decoding as a code fails only on a malformed record |
| EmbeddedStorage.AsToken | db/fed_embedded_storage.go:296-299 | decoding as a token fails only on a malformed record |
| EmbeddedStorage.ExpiredAsWritten | db/fed_embedded_storage.go:291-308 | the expiry test as written: undecodable only when malformed |
| EmbeddedStorage.TokenJudgedAsCode | db/fed_embedded_storage.go:291-294 | as written, a token record decodes as a code and gets the one-minute lifetime |
| EmbeddedStorage.TwoMinuteOldTokenCollected | db/fed_embedded_storage.go:291-308 | a token issued two minutes ago is collected, although its one-day lifetime has not run out |
| EmbeddedStorage.ExpiredIntended | db/fed_oauth_token.go:42-47 | codes expire after 60 seconds and tokens after one day (`Expired`: now is after issue time plus lifetime); other records cannot be judged |
| EmbeddedStorage.AsUser | db/fed_embedded_storage.go:387-389 | decoding as a user fails exactly on a malformed record, and a user record gives its user |
| EmbeddedStorage.AsDoc | db/fed_embedded_storage.go:467-469 | decoding as an object succeeds exactly on a document record, giving that document |
| EmbeddedStorage.ExpiryTestsCompared | db/fed_embedded_storage.go:291-299 | both tests agree on codes; on tokens they differ exactly for tokens between one minute and one day old |
| EmbeddedStorage.Unexpired | db/fed_embedded_storage.go:265-327 | the kept entries are exactly the unexpired ones, with unchanged values |
| EmbeddedStorage.UnexpiredIdempotent | db/fed_embedded_storage.go:265-327 | collecting twice is collecting once |
| EmbeddedStorage.TokenSurvivesIntendedCollection | db/fed_embedded_storage.go:265-327 | under the intended test an unexpired token is kept |
| EmbeddedStorage.CollectExpired | db/fed_embedded_storage.go:280-311 | the `ForEach` pass fails exactly when some value cannot be judged; otherwise it collects exactly the expired keys |
| EmbeddedStorage.DeleteKeys | db/fed_embedded_storage.go:319-323 | the delete loop keeps exactly the keys not collected, with their values |
| EmbeddedStorage.CommitRecord | db/fed_embedded_storage.go:343-349 | a commit error is recorded, wrapped with "previous Commit failed" |
| EmbeddedStorage.FedEmbeddedStorage.constructor | db/fed_embedded_storage.go:51-89 | a new store holds the four empty buckets |
| EmbeddedStorage.FedEmbeddedStorage.Begin | db/fed_embedded_storage.go:105-124 | a read-only transaction on the current data, holding one read lock, neither upgraded nor committed |
| EmbeddedStorage.FedEmbeddedStorage.RetrieveUser | db/fed_embedded_storage.go:126-135 | the user decoded from the users bucket, or the retrieve error; the data is unchanged and the transaction ended with no locks held |
| EmbeddedStorage.FedEmbeddedStorage.StoreUser | db/fed_embedded_storage.go:137-146 | a store error or a commit error leaves the data as it was; otherwise the user is stored; the transaction always ends |
| EmbeddedStorage.FedEmbeddedStorage.RetrieveCode | db/fed_embedded_storage.go:148-157 | a decoded code from the codes bucket, or the retrieve error; a stored record is returned exactly when it is not malformed; the transaction always ends |
| EmbeddedStorage.FedEmbeddedStorage.StoreCode | db/fed_embedded_storage.go:159-168 | the code is stored under its value unless storing or committing fails; the transaction always ends |
| EmbeddedStorage.FedEmbeddedStorage.RetrieveToken | db/fed_embedded_storage.go:170-179 | a decoded token from the tokens bucket, or the retrieve error; a stored record is returned exactly when it is not malformed; the transaction always ends |
| EmbeddedStorage.FedEmbeddedStorage.StoreToken | db/fed_embedded_storage.go:181-190 | the token is stored under its value unless storing or committing fails; the transaction always ends |
| EmbeddedStorage.FedEmbeddedStorage.RetrieveObject | db/fed_embedded_storage.go:192-201 | the document under the IRI's key, or the retrieve error; the transaction always ends |
| EmbeddedStorage.FedEmbeddedStorage.StoreObject | db/fed_embedded_storage.go:203-212 | the document is stored under the IRI's key unless storing or committing fails; the transaction always ends |
| EmbeddedStorage.FedEmbeddedStorage.DeleteObject | db/fed_embedded_storage.go:214-223 | the IRI's key is removed from the documents bucket unless the bucket is missing or the commit fails; the transaction always ends |
| EmbeddedStorage.Tx.constructor | db/fed_embedded_storage.go:105-124 | a read-only transaction holding one read lock |
| EmbeddedStorage.Tx.Commit | db/fed_embedded_storage.go:329-352 | the first commit publishes an upgraded transaction's data (unless the commit fails) and rolls back a read-only one; later commits return the recorded error and change nothing |
| EmbeddedStorage.Tx.Rollback | db/fed_embedded_storage.go:354-377 | the first rollback ends the transaction with no error; later calls return the recorded error and change nothing |
| EmbeddedStorage.Tx.Upgrade | db/fed_embedded_storage.go:557-573 | the first write takes the write lock and replaces the read transaction with a writable one on the current data; later writes reuse it |
| EmbeddedStorage.Tx.Retrieve | db/fed_embedded_storage.go:517-535 | `retrieve` reads the transaction's view |
| EmbeddedStorage.Tx.Store | db/fed_embedded_storage.go:537-551 | `store` upgrades, then updates the one key or reports the error and keeps the view |
| EmbeddedStorage.Tx.RetrieveUser | db/fed_embedded_storage.go:379-392 | the user decoded from the view, or the retrieve error |
| EmbeddedStorage.Tx.StoreUser | db/fed_embedded_storage.go:394-403 | stores the user record under its name |
| EmbeddedStorage.Tx.RetrieveCode | db/fed_embedded_storage.go:405-419 | a decoded code, or the retrieve error; a decode error exactly for a malformed record |
| EmbeddedStorage.Tx.StoreCode | db/fed_embedded_storage.go:421-430 | stores the code record under its value |
| EmbeddedStorage.Tx.RetrieveToken | db/fed_embedded_storage.go:432-446 | a decoded token, or the retrieve error; a decode error exactly for a malformed record |
| EmbeddedStorage.Tx.StoreToken | db/fed_embedded_storage.go:448-457 | stores the token record under its value |
| EmbeddedStorage.Tx.RetrieveObject | db/fed_embedded_storage.go:459-472 | the document under the IRI's key |
| EmbeddedStorage.Tx.StoreObject | db/fed_embedded_storage.go:474-483 | stores the document under the IRI's key |
| EmbeddedStorage.Tx.DeleteObject | db/fed_embedded_storage.go:485-504 | removes the IRI's key, or fails when the bucket is missing |
| EmbeddedStorage.Tx.GcBucket | db/fed_embedded_storage.go:265-327 | a missing bucket or a value that cannot be judged is an error and nothing is deleted; otherwise exactly the expired entries are removed |
| EmbeddedStorage.StoreThenRetrieve | db/fed_embedded_storage_test.go:44-140 | a user stored with a valid name in one transaction is read back unchanged by the next |
| OAuth.Params | oauth_handlers.go:222-241 | ok exactly when every key appears exactly once, giving a map with exactly those keys, each bound to its single value; otherwise the error of the first offending key in order |
| OAuth.QueryParams | oauth_handlers.go:222-241 | the loop with its early returns computes `Params` |
| OAuth.FirstBadKeyDecides | oauth_handlers.go:226-236 | the first key that is not `Single` (missing or repeated) decides the error, which is its `QueryError`: "missing required param" or "needs to appear exactly once" |
| OAuth.ParamsOfSingles | oauth_handlers.go:222-241 | when every key has one value, `query` returns exactly those values |
| OAuth.QueryErrorKeepsStatus | oauth_handlers.go:226-236 | a query error carries no status, so the handler's status applies |
| OAuth.Random | oauth_handlers.go:245-254 | 16 random bytes become 32 hex digits; a read error is wrapped |
| OAuth.HexInjective | oauth_handlers.go:253 | distinct byte strings give distinct hex strings |
| OAuth.RandomInjective | oauth_handlers.go:245-254 | distinct random blocks give distinct codes |
| GoStrings.Hex | oauth_handlers.go:253 | two lower-case hex digits per byte |
| OAuth.ValidateOAuthAuthorize | oauth_handlers.go:200-217 | a query failure is answered with 500; a response_type other than "code" with 400; the request passes exactly when the three keys appear once and response_type is "code" |
| OAuth.Login | oauth_handlers.go:36-71 | a missing username or password gives 400; an unknown user 401 "no such user"; login succeeds exactly when both are given, the user exists and the password matches, returning that user |
| OAuth.BadPasswordRefused | oauth_handlers.go:65-70 | a wrong password gives 401 "bad password" |
| OAuth.IssueCode | oauth_handlers.go:73-115 | redirects exactly when the random code, the redirect_uri, its parsing and StoreCode all succeed, with the code for the user at the current time; a random failure is 400 |
| OAuth.PostOAuthAuthorize | oauth_handlers.go:27-116 | validation first, then login, then issuing the code |
| OAuth.RerenderedIff | oauth_handlers.go:36-71 | the form is shown again exactly when validation passed and login was refused |
| OAuth.RerenderStoresNoCode | oauth_handlers.go:36-71 | a re-rendered form depends on neither the random source nor StoreCode, so no code is made or stored |
| OAuth.LoginFrame | oauth_handlers.go:36-71 | login reads only the user lookup and the password check |
| OAuth.RedirectIssuesCodeForUser | oauth_handlers.go:73-114 | a redirect carries a stored fresh code for the logged-in user and the given redirect_uri |
| OAuth.IssueToken | oauth_handlers.go:146-190 | an unknown code is refused with 401 (unless the error has a status); a token is issued exactly when lookup, random and StoreToken succeed; it belongs to the code's user, with a "Bearer" "all" reply |
| OAuth.PostOAuthToken | oauth_handlers.go:118-196 | a query error gives 400 and its message; a grant_type other than "authorization_code" gives 400 "unsupported grant_type"; otherwise the code is looked up |
| OAuth.GrantTypeCheckedBeforeLookup | oauth_handlers.go:136-142 | a wrong grant_type is refused the same way whatever the storage, randomness or clock |
| OAuth.UnknownCodeRefused | oauth_handlers.go:146-150 | an unknown code is refused, with 401 when the error has no status of its own |
| OAuth.UnknownCodeWithEmbeddedStorage | oauth_handlers.go:146-150 | with the embedded store, an unknown code is refused with 404 |
| OAuth.TokenCarriesCodeOwner | oauth_handlers.go:146-168 | an issued token belongs to the user of the presented code, and was stored |
| Webfinger.Links | well_known_handlers.go:113-133 | three links, all with the same href |
| Webfinger.Acct | well_known_handlers.go:91-100 | parses exactly the "acct:" resources that split on '@' into two parts, and the resource is "acct:" + user + "@" + host |
| Webfinger.ParseAcct | well_known_handlers.go:91-100 | `Acct` recovers the user and host of a formatted resource |
| Webfinger.GetWebfinger | well_known_handlers.go:76-137 | missing resource 400; not "acct:" 501; malformed 400; found exactly when the host matches and the user exists, with the resource as subject and links to the actor IRI |
| Webfinger.WrongHostOrUnknownUser | well_known_handlers.go:102-111 | another host gives 400; an unknown user gives 404 unless the error carries its own status |
| Webfinger.WebfingerRoundTrip | well_known_handlers.go:76-137 | asking for a stored local user finds subject "acct:user@host" and links to the user's actor IRI |
| GoStrings.TrimSpaceShape | util/trim.go:13 | `TrimSpace` cuts only whitespace from both ends and leaves no whitespace at either end |
| GoStrings.TrimSpaceEmptyIff | util/trim.go:13 | trimming gives "" exactly for an all-whitespace string |
| GoStrings.TrimSpaceOfTrimmed | util/trim.go:13 | a string with no whitespace at either end is unchanged by trimming |
| GoStrings.TrimPrefix | well_known_handlers.go:91 | with the prefix present, prefix + result is the input; without it, the input is unchanged |
| GoStrings.IndexOf | ap/parse_iri.go:19-23 | the index of the first separator, or the length when there is none |
| GoStrings.TrimSpaceIdempotent | util/trim.go:13 | trimming twice is trimming once |
| GoStrings.JoinSplit | well_known_handlers.go:93 | joining the split parts with the separator gives the string back |
| GoStrings.SplitJoin | ap/parse_iri.go:19-23 | splitting joined parts free of the separator gives the parts back |
| GoStrings.ReplaceOnlyAtEnd | fetch/iterator_impl.gen.py:95 | when the pattern occurs only at the end, `replace` deletes just that occurrence |

## Left out

- I/O everywhere: HTTP response writing, logging, JSON and base64
  encoding, templates and the mux. A cookie is an abstract
  encoded-or-malformed value. A stored record is a datatype, and decoding
  it follows encoding/json's field matching.
- Network access: `Fetch` dereferences through a fixed map `Net`. The fetch
  cache in `fetch/fetch.go` is not modelled.
- Concurrency: the storage read/write lock appears only as ghost counters
  on the transaction. `gc` and `gcLoop` are not modelled (a goroutine and a
  timer); `gcBucket` is.
- bbolt's own failures: opening buckets, `Begin` of the underlying
  database, and `Open`/`Close` are not modelled. A failed commit is a
  parameter (`ioError`) of the single-operation methods and of
  `Tx.Commit`.
- Randomness, the clock and the password hash: `rand.Read`, `time.Now` and
  `PasswordOK` are parameters (`Env`). So are `url.Parse`, the store calls
  of the handlers, and `Hostname()` of the configured URL.
- OAuth.IssueCode: building the redirect location (`Values.Encode` and
  `redirect.String()`) is left out; `url.Parse` only decides whether the
  request fails. With the validation in front, the "missing redirect_uri"
  branch cannot be reached, and it is kept as written.
- OAuth.IssueToken: a failing `json.Marshal` of the reply is left out.
- GetOAuthAuthorize, GetNodeInfo, GetNodeInfo20, GetHostMeta and
  ReplyWithJSON in the handler files are not modelled. They only render a
  form or a fixed JSON document.
- Iri.NewPath, FedIri.NewIRI, FeddApIri.NewIRI, ApIri.NewIRI,
  ApPrefixed.ConstructPrefixedIri, Paths.SplitPathOfPair,
  Paths.SplitPathOfNested, Paths.KeptPathJoin and Paths.KeptClean use a
  simplified `path.Join` and `path.Clean`. Empty segments are dropped and
  a leading '/' is kept, but "." and ".." are not resolved, so these
  members disagree with the program on a name, payload or base path
  holding such a segment. The round-trip lemmas built on them require
  clean names and a dot-free base path, where the two agree; what the
  program does with a dot-segment (`path.Join("/", "..")` is "/", which
  `split` then rejects) is not modelled. `url.URL.String` does not
  escape.
- GoStrings.TrimSpaceShape, GoStrings.TrimSpaceEmptyIff,
  GoStrings.TrimSpaceOfTrimmed, GoStrings.TrimSpaceIdempotent and
  Paths.SplitPath: `strings.TrimSpace` is modelled as trimming ASCII
  whitespace only. The Unicode white-space characters that Go also trims
  are kept.
- Iter.Begin: a value already an `Iter` is assumed well-formed. The
  `head == -1` branch of `begins.Next` is kept, but no well-formed merge
  reaches it.
- Panics are error values: `constructPrefixedIri`'s panic, `prop.Id`'s
  panics inside `IRI`, and an index out of range in the generated code,
  which cannot happen.
- FetchIri.IRI: `prop.Id` panics on a nil object (the `GetType` of a
  literal entry) and on an object whose id is neither an IRI nor an
  xsd:anyURI. The program then crashes; the model returns `NilObject` or
  `NoId` instead, and FetchIri.IRIs passes that error on as its result.
- Iter.GetType, Iter.MergeAccessors: a merge iterator reads the value at
  the corrected head (`Head`, which holds the newest current value), not at the
  index the program's `head()` returns. `head()` as written is modelled
  by Iter.HeadAsWritten and Begins.HeadIndexAsWritten (see Findings).
- Iter.NextSpec, Begins.Next, Begins.MergeNext, Begins.MergeStepCases: a
  merge's `Next` advances the iterator at the corrected head, which holds
  the newest current value, not the iterator at the index the program's
  `head()` returns.
- FetchIri.MergeIRI, FetchIri.IRIs: over a merge iterator, the IRI is read
  at the corrected head, and each step of the walk advances the corrected
  head.
- Objects: a go-fed object is reduced to its id and its published time;
  an id given as xsd:anyURI and one given as an IRI are the same `Url`.
- The RAM store's counter is unbounded. Go's `uint64` would wrap after 2^64
  ids.
- Map iteration order: `SumMaps`, `Sum`, `GetPostsFrom` and `gcBucket`'s
  `ForEach` take keys in an arbitrary order. The results do not depend on
  it, but `GetPostsFrom`'s order is only "some order".
- `fedclient.New` is not modelled: `NewClient` returns the actor IRI the
  client would be made for.
- Looking the context up from a request: a request is a record holding its
  optional context objects.
- The OAuth handlers of `oauth/fed_oauther.go` and `fedd/oauth` are not
  modelled. They are HTTP Basic-auth and redirect code.
- Stale code is modelled as written, with the model's own records:
  - `FedRamStorage` uses a post field `UserId`, which `db/fed_post.go`
    names `Author`.
  - The RAM store test expects two results from `AddUser`.
  - `ap/iri.go` and `well_known_handlers.go` read `config.Get().Base`.
  - The fedutil generator emits `Begin`, while `fedutil/iterator.go` calls
    a lowercase `begin`; the model calls the generated dispatch.
  - `fedutil/begins.go` calls `FetchIterEntry`, which no file of the
    repository defines. The model gives that call the semantics of
    `FetchIter` in `fedutil/fetch.go`, whose body is the same as
    `FetchIter` in `fetch/fetch.go`. Begins.BeginsInitial,
    Begins.KeptWhenFetched and Begins.HeadsPrefixErr cite
    `fedutil/begins.go` on that reading.

## Findings

| source | as written | input that shows it | evidently intended | confidence | as-written member | corrected member |
|---|---|---|---|---|---|---|
| fetch/begins.go:185-196 (and fedutil/begins.go:180-191) | `newestTime` is never assigned, so `head` returns the last index whose published time is after the zero time | two values published at times 2 and 1: `head` picks index 1, the older one | `head` returns the index of the newest current value | high, not executed | Iter.HeadAsWrittenNotNewest | Iter.HeadIsNewest |
| db/fed_embedded_storage.go:291-299 | `gcBucket` first decodes every record as a code. encoding/json ignores unknown fields, so a token record decodes as a code and is judged with the one-minute code lifetime | a token issued 120 seconds ago is collected, although tokens last one day | tokens expire after `_TOKEN_LIFETIME` (24 hours) | high, not executed | EmbeddedStorage.TwoMinuteOldTokenCollected | EmbeddedStorage.TokenSurvivesIntendedCollection |
