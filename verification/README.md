# FeOx-server: a verified model

FeOx-server speaks the Redis protocol over an external key-value store. This project models the
parts of it that carry state, recursion or protocol logic, and proves what they promise.

* `Bytes`, `Decimal`, `Binary`, `Utf8`: bytes and their order, decimal text, 64-bit words, well-formed UTF-8.
* `Resp`, `RespStream`, `RespWire`: the RESP2 codec, the incremental parser over a growing, compacted buffer, and the wire format they follow.
* `Glob`, `Pattern`, `PatternText`, `PatternTrie`, `TrieHistory`, `ShortTexts`, `TrieExact`: the two greedy matchers and the trie index, measured against one declarative relation.
* `Subscriptions`, `Registry`, `RegistryRace`, `PubSub`, `PubSubSystem`, `Publish`, `Acknowledgements`, `PatternDelivery`, `PublishReply`: worker-local indexes, the shared registry, N workers as a transition system, the accounting of PUBLISH, what pattern subscribers get and what the publisher is told of them.
* `Store`, `Keyspace`, `Scan`, `KeyReach`: the store contract, KEYS and SCAN.
* `ListState`, `Lists`, `ListRuns`, `ListIndices`: lists laid out over the store, commands run one after the other.
* `ListRace`, `ListSchedules`, `ListLosses` (with `Sums`): the same commands as single store operations of many workers, and which groups of them never lose an element.
* `HashKeys`, `Hashes`, `HashCount`, `HashValues`, `HashRead`, `HashRace`, `HashSchedules`, `HashAlone`: hashes with a deferred field count, run alone and in races.
* `Watch`, `Commands`, `CommandText`, `Session`, `Transactions`, `Conversation`, `Connection` (module `Network`): version tickets, the transaction machine, the GET/SET shortcut, what a client sees that types commands, and one read of a connection.
* `PubSubLayer`, `ConnectionStream`, `ConnectionCuts`, `ConnectionSteps`: a connection over its whole life with the pub/sub layer that sets its subscription count, alone and among others.

Where the server updates things in place, classes and loops do so here, each proved against a
function of the old state; what is promised is then proved about those functions, over all inputs,
runs and interleavings. Where a promise does not hold of the code, the exact condition under which
it does is proved, with an input or schedule that shows the failure: a channel with a literal `*`
and the registry matcher (`Glob.RegistryExact`), patterns ending in two stars (`Pattern.SearchExact`),
the key `0` on a page boundary (`Scan.FullIteration`), keys beyond `~` (`Keyspace.KeysIsFilter`),
long fields starting with 0xFF (`HashRead.HGetAllIsComplete`), clashing hash names
(`HashKeys.SharedKeys`), text with line ends (`Resp.RoundTrip`), classes at one place of the trie
(`TrieExact.SearchRightIff`), the last interest in a channel going as another comes
(`RegistryRace.InterestKeptIff`), list commands in a race (`ListLosses.HarmlessIffSafe`), the field count
under HINCRBY (`HashSchedules.CountedIffSafe`), the shortcut against the parser
(`Session.FastRefinesSlow`), authentication and pub/sub mode against the shortcut and MULTI
(`Session.UnauthenticatedRuns`, `Session.RefusedInPubSubMode`), the cutting of the input of a client
that subscribes (`ConnectionCuts.CutsAgreeIff`), patterns that the registry and the tries read
differently (`PublishReply.ReplyIsReachedIff`), SCAN pages without enough matches
(`Scan.MatchIterationComplete`).

The comment on `get_total_pattern_matches` (src/pubsub/registry.rs:173-174) says all pattern
subscribers are counted; the code counts those whose pattern the registry matcher accepts, and so
does the model. `extract_prefix` stops at `[` as if it began a class, although the matcher reads `[`
literally (src/protocol/command/executor.rs:42-50, 73-80); the model follows both.

`dafny verify dfyconfig.toml` checks the whole project.

## Model

| member | source | states |
|---|---|---|
| `Resp.FindCrlf` | src/protocol/resp.rs:189-203 | the scan that jumps from break byte to break byte returns the first CRLF pair, or nothing exactly when there is none |
| `Resp.ParseValue` | src/protocol/resp.rs:59-147 | the recursive-descent parser computes the frame function `Parse`: value and length, need for more input, or error |
| `Resp.ParseArray` | src/protocol/resp.rs:149-184 | the array loop computes the same frame function, items parsed one after the other |
| `Resp.ParseStable` | src/protocol/resp.rs:59-184 | a decided result, value or error, does not change when more bytes arrive, through arrays nested to any depth |
| `Resp.ItemsStable` | src/protocol/resp.rs:163-181 | the same for the items of an array |
| `Resp.RoundTrip` | src/protocol/resp.rs:59-255 | for every value of the value types and every following bytes: parsing what was written gives back the value and consumes exactly its bytes if and only if no simple string or error text holds a CRLF pair |
| `Resp.WriteThenParse` | src/protocol/resp.rs:59-255 | the direction of the round trip that pipelines rely on, by induction over nested arrays |
| `Resp.ParsedIsClean` | src/protocol/resp.rs:59-184 | the parser only ever produces values the round trip holds for |
| `Resp.ParseExact` | src/protocol/resp.rs:59-184 | a complete frame is parsed the same from any input that begins with its bytes and holds all of them |
| `Resp.WriteRespValue` | src/protocol/resp.rs:213-255 | the recursive writer appends the encoding and leaves what was in the buffer |
| `Resp.EstimateBound` | src/protocol/resp.rs:257-275 | the size reserved is never below the size written, for arrays under 10^7 items and bulk strings under 10^15 bytes at every depth |
| `RespWire.ParseIff` | src/protocol/resp.rs:59-184 | the parser takes exactly n bytes for a value if and only if those bytes are a frame of it, by a grammar written out byte by byte, arrays nested to any depth |
| `RespWire.MalformedIff` | src/protocol/resp.rs:59-184 | the parser fails if and only if the input is malformed: an unknown type byte, a header line that is no 64-bit number, an error text that is not UTF-8, a bulk string without its line end, or, in an array, such input after complete items |
| `RespWire.DrainSplits` | src/protocol/resp.rs:34-56 | draining takes all frames at the front of the input, in order, and stops where no frame begins: at malformed input, or at an incomplete one |
| `RespWire.WritesFrames` | src/protocol/resp.rs:213-255 | what the writer emits is a frame of the value |
| `RespWire.WireForms` | src/protocol/resp.rs:213-255 | the wire forms of all kinds of values, byte by byte |
| `Decimal.BaseTen` | src/protocol/resp.rs:225-230 | numbers are written in base ten, without leading zeros, with a sign only if negative |
| `Decimal.ReadBaseTen` | src/protocol/resp.rs:95-106 | digits are read in base ten, leading zeros included |
| `Decimal.ParseIs` | src/protocol/resp.rs:95-106 | an optional sign of either kind and at least one digit is a number, if it is within 64 bits |
| `Decimal.ParseNothingElse` | src/protocol/resp.rs:95-106 | nothing else is a number |
| `Utf8.ValidIff` | src/protocol/resp.rs:85-86 | a text is accepted if and only if it is the UTF-8 encoding of some characters, surrogates excluded |
| `Bytes.LeqIsBefore` | src/protocol/command/executor.rs:395-405 | keys are ordered by the first byte in which they differ, a prefix coming first |
| `Decimal.ParsePrint` | src/protocol/resp.rs:225-230 | decimal printing and parsing undo each other on every 64-bit integer |
| `Decimal.PrintInjective` | src/protocol/command/list.rs:80-81 | two numbers with the same decimal text are equal |
| `RespStream.RespParser.Feed` | src/protocol/resp.rs:29-31 | feeding appends to the unread bytes |
| `RespStream.RespParser.ParseNext` | src/protocol/resp.rs:34-56 | takes exactly one frame off the unread bytes, or none; the compaction loses no unread byte |
| `RespStream.DrainAppend` | src/protocol/resp.rs:34-56 | draining, then appending and draining again, gives the values and the stop of draining everything at once |
| `RespStream.FeedIsDrain` | src/protocol/resp.rs:29-56 | feeding chunk after chunk and draining after each is one drain of the concatenation |
| `RespStream.ChunkingInvariance` | src/protocol/resp.rs:29-184 | two ways of cutting the same bytes give the same values, the same remaining bytes and the same error |
| `RespStream.CutBehind` | src/protocol/resp.rs:29-184 | every input can be cut behind any number of its frames, so that the front holds exactly those and the back the others, with the same end |
| `RespStream.PipelineRoundTrip` | src/protocol/resp.rs:29-255 | written replies are read back as those replies however the bytes are cut |
| `Glob.ExecutorMatch` | src/protocol/command/executor.rs:21-70 | the greedy loop with one backtracking point terminates and decides the recursive `*`/`?` relation on every pattern and text |
| `Glob.LastStarSuffices` | src/protocol/command/executor.rs:46-58 | a later star makes every earlier backtracking point unnecessary |
| `Glob.RegistryMatch` | src/pubsub/registry.rs:185-213 | the loop computes `RegistryMatches`, accepts only matches, and equals the relation when pattern or text has no literal `*` |
| `Glob.RegistryExact` | src/pubsub/registry.rs:192-195 | the registry matcher agrees with the relation on all patterns if and only if the text holds no `*` |
| `Glob.RegistrySound` | src/pubsub/registry.rs:185-213 | what the registry matcher accepts does match |
| `Glob.RegistryComplete` | src/pubsub/registry.rs:185-213 | from any loop state without literal `*`, the registry matcher finds what can still be found |
| `Glob.FoolingIsMissed` | src/pubsub/registry.rs:192-195 | for every text with a `*`, a pattern that matches it and that the registry matcher rejects |
| `Glob.PlainPattern` | src/protocol/command/executor.rs:330-340 | a pattern without wildcards matches only itself |
| `Glob.MatchStartsWith` | src/protocol/command/executor.rs:72-80 | every match starts with the wildcard-free prefix of its pattern |
| `Glob.MatchesMeans` | src/protocol/command/executor.rs:21-70 | the relation: a star takes any part of the text, a question mark one byte, every other byte itself |
| `Pattern.ParseCharClass` | src/pubsub/pattern.rs:247-287 | the class parser with its index and flags computes members, negation and length, or reports an unclosed class |
| `Pattern.SimpleRange` | src/pubsub/pattern.rs:247-287 | `[lo-hi]` is the interval and `[^lo-hi]` its complement |
| `Pattern.PlainTokens` | src/pubsub/pattern.rs:35-94 | on patterns without classes and escapes the token reading is the `*`/`?` relation |
| `PatternText.PatternMeans` | src/pubsub/pattern.rs:35-94 | a pattern put together from plain bytes, `\x`, `?`, `*` and classes matches exactly the texts its pieces stand for, one after the other |
| `PatternText.ClassIsUnion` | src/pubsub/pattern.rs:247-287 | a class of members, escaped bytes, ranges and a literal `-` at either end accepts the union of what they accept, or with a caret all other bytes, and is as long as it is written |
| `PatternText.BytesOfClass` | src/pubsub/pattern.rs:247-287 | `[abc]` accepts exactly its bytes, `[^abc]` all others |
| `PatternText.OpenAlone` | src/pubsub/pattern.rs:60-94 | an open bracket that nothing closes stands for itself |
| `PatternText.BackslashAtEnd` | src/pubsub/pattern.rs:60-94 | and so does a backslash at the end |
| `Pattern.WaysExact` | src/pubsub/pattern.rs:162-199 | the number of ways the search reaches a pattern is positive exactly when its canonical tokens match |
| `Pattern.SearchExact` | src/pubsub/pattern.rs:169-176 | the search finds a pattern on exactly the texts it matches if and only if the pattern does not end in two stars, or matches no channel at all |
| `Pattern.MissedText` | src/pubsub/pattern.rs:169-176 | for every other pattern and every text it matches, a text that it matches and the search misses |
| `Pattern.TwoStarsMissed` | src/pubsub/pattern.rs:169-176 | `a**` is not found for the channel `a` |
| `Pattern.OneWay` | src/pubsub/pattern.rs:194-198 | a pattern with at most one star is reached in at most one way |
| `PatternTrie.PatternTrie.Insert` | src/pubsub/pattern.rs:35-94 | walking and allocating places the entry at the path of its tokens; an existing class slot is kept |
| `PatternTrie.PatternTrie.Remove` | src/pubsub/pattern.rs:96-154 | removes every copy of the entry at its path and nothing else, and tells whether there was one |
| `PatternTrie.PatternTrie.FindMatches` | src/pubsub/pattern.rs:156-199 | the search with its accumulator returns the recursive collection `Find` |
| `PatternTrie.PlaceFacts` | src/pubsub/pattern.rs:35-94 | an insertion adds the entry at its home and disturbs no other subscriber and no filled class slot |
| `PatternTrie.RemovedFacts` | src/pubsub/pattern.rs:96-154 | a removal takes the copies of one entry away and leaves every other subscriber and the shape of the trie |
| `PatternTrie.SearchCounts` | src/pubsub/pattern.rs:156-199 | in every well-formed trie an entry is reported once for each stored copy and each way the edges of its path match the channel |
| `TrieHistory.TrieRefinement` | src/pubsub/pattern.rs:35-199 | after any history of inserts and removes with agreeing classes: an entry is reported (ways) x (live copies) times; if its pattern does not end in two stars, it is reported if and only if it is live and matches; with at most one star, no more often than it is live |
| `TrieHistory.TrieCounts` | src/pubsub/pattern.rs:35-199 | the counting form of the refinement |
| `TrieHistory.CopiesAreLive` | src/pubsub/pattern.rs:35-154 | the copies stored are the copies inserted since the last removal |
| `TrieHistory.SlotOrigin` | src/pubsub/pattern.rs:55-66 | every class slot ever filled holds what the first insertion that asked for a class at that very path asked for |
| `TrieHistory.SlotIsFirstAsked` | src/pubsub/pattern.rs:55-66 | and a slot is filled exactly when some insertion has asked: nothing, removals included, changes or empties it |
| `TrieHistory.FirstClassWins` | src/pubsub/pattern.rs:58-65 | an input on which the refinement fails: `[a]`, then `[b]`, and `b` is not found |
| `ShortTexts.SameTextsIff` | src/pubsub/pattern.rs:162-199 | two patterns that differ in their classes only match the same channels if and only if the classes accept the same bytes, or both match no channel |
| `TrieExact.FoundIff` | src/pubsub/pattern.rs:35-199 | after any history, agreeing classes or not: a live pattern is found for exactly the channels that its reading with the first classes asked for matches, a final `**` read as `*?` |
| `TrieExact.SearchRightIff` | src/pubsub/pattern.rs:35-199 | after any history, a live pattern is found for exactly the channels it matches if and only if it does not end in two stars and each of its classes accepts the bytes of the first class ever asked for at that place; or it matches no channel, as written and as read |
| `Subscriptions.JoinAllOk` | src/pubsub/manager.rs:36-89 | subscribing keeps the two indexes duplicate-free inverse relations without empty entries |
| `Subscriptions.JoinAllKeys` | src/pubsub/manager.rs:36-89 | afterwards the connection is subscribed to what it was and to all it named, everybody else as before |
| `Subscriptions.JoinAllLeads` | src/pubsub/manager.rs:60-79 | the registry calls made bring the registry from knowing the old index to knowing the new one |
| `Subscriptions.LeaveAllOk` | src/pubsub/manager.rs:91-153 | unsubscribing from named keys keeps the index invariant |
| `Subscriptions.LeaveAllKeys` | src/pubsub/manager.rs:91-153 | afterwards exactly the named keys of this connection are gone |
| `Subscriptions.LeaveAllLeads` | src/pubsub/manager.rs:91-153 | and the registry calls match the change |
| `Subscriptions.LeaveEverythingOk` | src/pubsub/manager.rs:91-153 | unsubscribing from everything keeps the index invariant |
| `Subscriptions.LeaveEverythingKeys` | src/pubsub/manager.rs:353-356 | a dropped connection is gone from every key and nobody else is touched |
| `PubSub.ThreadLocalPubSub.Subscribe` | src/pubsub/manager.rs:36-89 | indexes, registry and acknowledgements after the loop are those of the specification |
| `PubSub.ThreadLocalPubSub.Unsubscribe` | src/pubsub/manager.rs:91-153 | the same for UNSUBSCRIBE, with and without arguments |
| `PubSub.ThreadLocalPubSub.PSubscribe` | src/pubsub/manager.rs:155-209 | the same for PSUBSCRIBE, and the trie takes each new subscription once |
| `PubSub.ThreadLocalPubSub.PUnsubscribe` | src/pubsub/manager.rs:211-277 | the same for PUNSUBSCRIBE, and the trie gives the subscriptions up |
| `PubSub.ThreadLocalPubSub.PublishLocal` | src/pubsub/manager.rs:279-311 | one message per exact subscriber, then one per entry the trie reports |
| `PubSub.ThreadLocalPubSub.ProcessInbox` | src/pubsub/manager.rs:313-351 | drains this inbox only and delivers what each message asks for |
| `PubSub.ThreadLocalPubSub.ConnectionDropped` | src/pubsub/manager.rs:353-356 | indexes, trie and registry after a disconnect |
| `PubSub.TrieJoinAllOk` | src/pubsub/manager.rs:155-209 | the trie keeps holding exactly the pattern subscriptions when patterns are added |
| `PubSub.TrieLeaveAllOk` | src/pubsub/manager.rs:211-277 | and when they are taken away |
| `Acknowledgements.JoinMessages` | src/pubsub/manager.rs:36-209 | SUBSCRIBE and PSUBSCRIBE are acknowledged one by one, each with its own kind, the name asked for and the number of subscriptions by then |
| `Acknowledgements.LeaveMessages` | src/pubsub/manager.rs:91-277 | and so are UNSUBSCRIBE and PUNSUBSCRIBE with names |
| `Acknowledgements.LeaveEverythingMessages` | src/pubsub/manager.rs:91-277 | without names, everything held is acknowledged with the count of the other kind |
| `Acknowledgements.CountsOnce` | src/pubsub/manager.rs:36-277 | a name joined twice or left without being joined leaves the count alone |
| `Registry.GlobalRegistry.AddChannelInterest` | src/pubsub/registry.rs:40-45 | one atomic step on the shared interest sets and the statistics |
| `Registry.GlobalRegistry.RemoveChannelInterest` | src/pubsub/registry.rs:47-57 | the inverse step; an empty set is dropped |
| `Registry.GlobalRegistry.AddPatternInterest` | src/pubsub/registry.rs:59-64 | the same for patterns |
| `Registry.GlobalRegistry.RemovePatternInterest` | src/pubsub/registry.rs:66-76 | the same for patterns |
| `Registry.GlobalRegistry.IncrementChannelSubscribers` | src/pubsub/registry.rs:127-132 | one atomic step on the shared counts |
| `Registry.GlobalRegistry.DecrementChannelSubscribers` | src/pubsub/registry.rs:134-144 | the inverse step; it never goes below zero and drops a zero |
| `Registry.GlobalRegistry.IncrementPatternSubscribers` | src/pubsub/registry.rs:146-151 | the same for patterns |
| `Registry.GlobalRegistry.DecrementPatternSubscribers` | src/pubsub/registry.rs:153-163 | the same for patterns |
| `Registry.GlobalRegistry.BroadcastToThreads` | src/pubsub/registry.rs:93-101 | each named inbox that is not full gets the message once, no other inbox changes |
| `Registry.InboxRoom` | src/pubsub/registry.rs:93-110 | an inbox takes 1024 messages; only a full one drops what comes |
| `Registry.GlobalRegistry.GetAllPatternThreads` | src/pubsub/registry.rs:85-91 | the workers with an interest in any pattern |
| `Registry.StartOk` | src/pubsub/manager.rs:36-277 | a worker that changes its indexes and sets out to tell the registry keeps the global invariant |
| `Registry.DeliverOk` | src/pubsub/registry.rs:40-163 | so does every single registry call, in any interleaving with other workers |
| `Registry.AtRest` | src/pubsub/registry.rs:40-163 | a worker with no call outstanding is known to the registry exactly as it is |
| `Registry.QuietIsConsistent` | src/pubsub/registry.rs:40-163 | with no call outstanding anywhere: counts are sums over workers, interest sets are the workers with a subscriber, the statistics are the sums of their sizes |
| `PubSubSystem.StepOk` | src/pubsub/manager.rs:36-356 | every event of the system of N workers keeps the whole invariant |
| `PubSubSystem.QuietRuns` | src/pubsub/manager.rs:36-356 | over every run and interleaving of requests and registry calls: whenever all calls are made, indexes, counts, interest sets, statistics and tries agree as documented |
| `PubSubSystem.IdleWorkerIsKnown` | src/pubsub/manager.rs:36-356 | in the middle of a run, the registry knows every idle worker as it is |
| `RegistryRace.InterestKeptIff` | src/pubsub/registry.rs:40-57 | one interest set with removals in two steps, each worker joining and leaving in turn any number of times: every finished schedule leaves exactly those interested who should be, if and only if it is not so that one worker joins in the end, another leaves at some time and nobody stays interested throughout |
| `RegistryRace.CrossingLoses` | src/pubsub/registry.rs:52-55 | in that case, the schedule that loses the one who joins in the end |
| `RegistryRace.CountsFollow` | src/pubsub/registry.rs:127-144 | a subscriber count kept by the same two steps is in every schedule the size of the set that the same calls keep, each subscription coming or going once; so it goes wrong in the same cases |
| `Publish.HandlePublish` | src/pubsub/handler.rs:54-85 | local deliveries, inboxes after both broadcasts, and the reply |
| `Publish.GetTotalPatternMatches` | src/pubsub/registry.rs:172-183 | the loop adds up the counts of the patterns the registry matcher accepts |
| `Publish.PublishAccounting` | src/pubsub/handler.rs:54-85 | with drained inboxes and nothing changing: each exact subscriber on any worker gets exactly one message, each pattern subscription one per search and way, nobody else anything |
| `PatternDelivery.TrieIsHistory` | src/pubsub/manager.rs:155-277 | in every run of the system, the trie of each worker is the one made by its history of pattern insertions and removals |
| `PatternDelivery.SubscribedIsLive` | src/pubsub/manager.rs:155-277 | and a pattern subscription is live in that history exactly if the worker has it |
| `PatternDelivery.GetsIff` | src/pubsub/handler.rs:54-85 | in every run at rest, a pattern subscriber on any worker gets the message if and only if its pattern, read with the first classes asked for on that worker, matches the channel |
| `PatternDelivery.PatternSubscribersGet` | src/pubsub/handler.rs:54-85 | in every run at rest, a pattern subscriber gets the messages of exactly the channels its pattern matches if and only if the history of its worker satisfies the condition of `TrieExact.SearchRightIff` |
| `PatternDelivery.GetsNothingElse` | src/pubsub/handler.rs:54-85 | who is not subscribed to a pattern gets no message for it |
| `Publish.PublishReachesCount` | src/pubsub/handler.rs:80-83 | after every run at rest, the number of exact deliveries over all workers is the registry count that PUBLISH answers |
| `PublishReply.ReplyCountsAccepted` | src/pubsub/registry.rs:172-183 | after every run at rest, the pattern part of the answer is the number of pattern subscriptions, over all workers and clients, whose pattern the registry matcher accepts |
| `PublishReply.ReplyIsReachedIff` | src/pubsub/handler.rs:54-85 | the pattern subscriptions counted are those that get the message if and only if, for each of them, the registry matcher and the trie of its worker, with the first classes asked for there, agree on the channel; then the number answered is the number reached |
| `PublishReply.PlainAlike` | src/pubsub/registry.rs:172-213 | they do agree for patterns of `*` and `?` not ending in two stars, on channels without a literal `*` |
| `PublishReply.ClassIsNotCounted` | src/pubsub/registry.rs:185-213 | the input on which they do not: a subscriber of `[a]` gets the message on the channel `a` and is not counted |
| `Publish.WorkerMessages` | src/pubsub/manager.rs:279-351 | the exact deliveries of one worker are as many as its subscribers of the channel |
| `Publish.RemoteDoubleSearch` | src/pubsub/handler.rs:63-78 | a remote worker with both kinds of interest delivers each pattern match twice |
| `ListState.OneOwner` | src/protocol/command/list.rs:38 | no storage key belongs to two lists with well-formed names |
| `ListState.KeysDiffer` | src/protocol/command/list.rs:80-81 | the metadata key and the value keys of a list are pairwise different |
| `ListState.MetaRoundTrip` | src/protocol/command/list.rs:19-35 | metadata reads back as written |
| `ListState.StorageKeys` | src/protocol/command/list.rs:80-81 | the keys of a list, byte by byte |
| `Binary.LastCountsMost` | src/protocol/command/list.rs:80-81 | stored numbers are little-endian |
| `ListState.OtherListsUntouched` | src/protocol/command/list.rs:38-81 | a change to the keys of one list leaves metadata, positions and contents of every other list |
| `Lists.ListOperations.LPush` | src/protocol/command/list.rs:37-100 | alone: the reversed values in front, one position each to the left of head, nothing else changed; answers the new length, or an error for a missing list and no values |
| `Lists.ListOperations.RPush` | src/protocol/command/list.rs:102-162 | alone: the values behind, nothing else changed |
| `Lists.ListOperations.LPop` | src/protocol/command/list.rs:164-215 | alone: takes values from the left, stepping over gaps, stops early when the list runs out |
| `Lists.ListOperations.RPop` | src/protocol/command/list.rs:217-265 | the same from the right |
| `Lists.ListOperations.LLen` | src/protocol/command/list.rs:267-277 | the number of positions, 0 for a missing list |
| `Lists.ListOperations.LRange` | src/protocol/command/list.rs:279-329 | the values at the positions between the two ends, negative ends counted from the tail, gaps skipped |
| `Lists.ListOperations.LIndex` | src/protocol/command/list.rs:331-366 | the value at a position counted from either end, if any |
| `Lists.PopLeftTakesPrefix` | src/protocol/command/list.rs:164-215 | LPOP k takes the first k values present and leaves the others in order |
| `Lists.PopRightTakesSuffix` | src/protocol/command/list.rs:217-265 | RPOP k takes the last k values present, last first |
| `Lists.BetweenIsSlice` | src/protocol/command/list.rs:295-311 | the elements between two ends are the clamped slice |
| `Lists.RangeWithoutGaps` | src/protocol/command/list.rs:317-326 | without gaps a range over positions is the range over values |
| `Lists.IndexIsUnitRange` | src/protocol/command/list.rs:331-366 | LINDEX i agrees with LRANGE i i |
| `ListIndices.RangeIs` | src/protocol/command/list.rs:279-329 | LRANGE on a list without gaps, for every start and stop, from the front, from the back and beyond either end |
| `ListIndices.WholeRange` | src/protocol/command/list.rs:279-329 | LRANGE 0 -1 is everything |
| `ListIndices.EndsOfRange` | src/protocol/command/list.rs:279-329 | LRANGE -k -1 is the last k values, LRANGE 0 k-1 the first k |
| `ListIndices.MixedRange` | src/protocol/command/list.rs:279-329 | LRANGE i -k stops before the last k-1 values; a start below the front counts as the front, a stop below it leaves nothing |
| `ListIndices.IndexIs` | src/protocol/command/list.rs:331-360 | LINDEX from the front and from the back, and nothing beyond either end |
| `ListIndices.ReadersAfterRun` | src/protocol/command/list.rs:279-360 | after any run of commands, LRANGE and LINDEX read the deque, for every index |
| `ListRuns.ActsAsDeque` | src/protocol/command/list.rs:37-265 | on every list, gaps or not, each operation acts on the visible values as the deque operation does |
| `ListRuns.PopsAnswer` | src/protocol/command/list.rs:164-265 | the values a pop answers are the first ones in order, or the last ones reversed |
| `ListRuns.RunsAreDeques` | src/protocol/command/list.rs:37-265 | after any sequence of commands on any names, each list holds what a deque would, its stored positions are exactly [head, tail), and commands on other names had no effect |
| `ListRuns.ReadersSeeTheDeque` | src/protocol/command/list.rs:267-366 | then LLEN is the length and LRANGE a plain slice |
| `ListRuns.DequeOrder` | src/protocol/command/list.rs:37-265 | the deque: LPUSH puts its values in front, the last one first, RPUSH behind, and the pops take from either end |
| `ListRace.MetadataAlwaysBalanced` | src/protocol/command/list.rs:37-265 | in every interleaving of the single store operations of any pushes, pops and creations: tail - head == count >= 0 |
| `ListRace.NothingIsInvented` | src/protocol/command/list.rs:37-265 | in every finished interleaving of any pushes, pops and creations, the elements visible or returned are at most those that were there or were stored; a pop whose deletion finds nothing any more answers an error and its values are gone |
| `ListRace.CleanStepKeeps` | src/protocol/command/list.rs:45-206 | any mix of pushes and pops: a step keeps claims distinct, the window covered by stored values and claims of pushes, values outside it held by a pop, and the log telling what each caller did, unless a pop claims a position not stored yet or a push one that a pop has not deleted yet |
| `ListRace.CleanRunsAreAtomic` | src/protocol/command/list.rs:37-265 | when no step of a finished run was of those two kinds: the list is that of pushing and popping one at a time in the order of the compare-and-swaps, each push stored its values in order (all of them unless it gave up), each pop returned what it took in that order, and nothing was lost |
| `ListSchedules.SafeIsFine` | src/protocol/command/list.rs:37-265 | so it is for every finished schedule of pops only, of pushes only unless two callers have to create the list, and of pushes on one side and pops on the other that together ask for no more than the list had |
| `ListLosses.UnsafeLoses` | src/protocol/command/list.rs:37-265 | every other group of callers has a schedule, run to its end, after which fewer elements are visible or returned than were there or stored |
| `ListLosses.HarmlessIffSafe` | src/protocol/command/list.rs:37-265 | all finished schedules of a group of callers have the one-at-a-time outcome, and all keep every element, if and only if the group is one of the three kinds |
| `ListLosses.CreationLoses` | src/protocol/command/list.rs:48-72 | two pushes that create one list: the schedule in which the second overwrites the metadata of the first |
| `ListLosses.PopsMayLoseAValue` | src/protocol/command/list.rs:187-202 | another loss: a push stores over a value that a pop has claimed and not fetched |
| `HashKeys.SharedKeys` | src/protocol/command/hash.rs:85-105 | two hashes share a storage key if and only if the field prefix of one extends that of the other |
| `HashKeys.ColonFreeNames` | src/protocol/command/hash.rs:85-105 | names without a colon never do |
| `HashKeys.ClashExample` | src/protocol/command/hash.rs:85-88 | with colons they may: two names and fields with one storage key |
| `HashKeys.CounterAmongFields` | src/protocol/command/hash.rs:102-105 | a counter key can only sit among the fields of another hash if the names clash anyway |
| `HashKeys.ListsAndHashesApart` | src/protocol/command/hash.rs:85-105 | lists and hashes share no key |
| `Hashes.MetadataTracker.AddUpdate` | src/protocol/command/hash.rs:26-28 | adds to the pending change of a counter |
| `Hashes.MetadataTracker.TakeUpdates` | src/protocol/command/hash.rs:35-38 | hands out all pending changes and forgets them |
| `Hashes.HashOperations.FlushMetadata` | src/protocol/command/hash.rs:54-63 | in whatever order the map yields them, each non-zero change is applied once |
| `Hashes.HashOperations.HSet` | src/protocol/command/hash.rs:79-115 | store, tracker and answer after the loop and the possible flush |
| `Hashes.HashOperations.HDel` | src/protocol/command/hash.rs:140-174 | the same for HDEL |
| `Hashes.HashOperations.HIncrBy` | src/protocol/command/hash.rs:278-333 | the same for HINCRBY, with its order of noting and storing and its error |
| `Hashes.HashOperations.HLen` | src/protocol/command/hash.rs:212-224 | flushes, then reads the counter |
| `Hashes.IncrementTwice` | src/protocol/command/hash.rs:290-333 | two increments add up, saturating: the text stored reads back as the number |
| `HashValues.FirstIncrement` | src/protocol/command/hash.rs:278-333 | HINCRBY on a field that is not there answers the increment and stores its text |
| `HashValues.NextIncrement` | src/protocol/command/hash.rs:284-320 | on a field that holds the text of a number it answers and stores the sum, clamped to 64 bits |
| `HashValues.RawIncrement` | src/protocol/command/hash.rs:305-315 | on eight bytes that are not text, they are read as a number |
| `HashValues.IncrementFailsIff` | src/protocol/command/hash.rs:284-320 | it fails exactly on a field that holds no number, and then nothing changes |
| `HashValues.IncrementLeavesOthers` | src/protocol/command/hash.rs:278-333 | apart from counters it changes its own field only |
| `HashValues.SetStores` | src/protocol/command/hash.rs:79-115 | after HSET, flush or not, each field holds the last value given for it |
| `HashValues.SetLeavesOthers` | src/protocol/command/hash.rs:79-115 | and nothing else has changed but counters |
| `HashValues.DeleteErases` | src/protocol/command/hash.rs:140-174 | HDEL takes exactly the fields named and changes nothing else but counters |
| `HashValues.StorageKeys` | src/protocol/command/hash.rs:79-115 | the keys of a hash, byte by byte |
| `HashCount.HSetCountsGrowth` | src/protocol/command/hash.rs:91-114 | HSET answers by how many fields the hash grew, repeated fields included |
| `HashCount.HDelCountsLoss` | src/protocol/command/hash.rs:153-173 | HDEL answers how many fields are gone |
| `HashCount.HSetLastValueWins` | src/protocol/command/hash.rs:91-99 | a field named twice holds the last value |
| `HashCount.HSetLeavesOthers` | src/protocol/command/hash.rs:91-99 | every other key of the store is as before |
| `HashCount.FlushKeeps` | src/protocol/command/hash.rs:54-63 | a flush loses and doubles nothing, for all hashes at once |
| `HashCount.HIncrByKeeps` | src/protocol/command/hash.rs:320-330 | noting a field before storing it makes no difference in the end |
| `HashCount.HLenIsCardinality` | src/protocol/command/hash.rs:212-224 | HLEN answers the number of fields |
| `HashCount.CountIsCardinality` | src/protocol/command/hash.rs:26-333 | over every run of whole hash commands on names that do not clash, flushes at any time, and anything happening elsewhere in the store: counter plus pending change is the number of fields, and HLEN answers it |
| `HashCount.OtherHashesUntouched` | src/protocol/command/hash.rs:79-333 | a command on one hash leaves fields, values and count of every other hash whose name does not clash |
| `HashRace.CountInEveryInterleaving` | src/protocol/command/hash.rs:26-333 | in every interleaving of the single steps of HSET, HDEL, HINCRBY, HLEN and flushes by many workers: counter, pending change, what a flush carries and what callers have yet to note add up to the number of fields plus the drift, which only a stale HINCRBY moves |
| `HashRace.DriftDecides` | src/protocol/command/hash.rs:212-224 | once all callers have returned, counter plus pending is the number of fields plus exactly the drift |
| `HashSchedules.CountedIffSafe` | src/protocol/command/hash.rs:79-333 | the count is right after every finished schedule of a group of callers if and only if for every HINCRBY no other caller deletes its field, or adds it when it was not there |
| `HashSchedules.Miscounts` | src/protocol/command/hash.rs:278-333 | otherwise a schedule counts one field too many (two HINCRBY, or HINCRBY and HSET, on a new field) or one too few (HINCRBY and HDEL) |
| `HashSchedules.IncrementMayBeLost` | src/protocol/command/hash.rs:290-333 | two HINCRBY on one field that is there: the schedule in which one increment is lost |
| `HashAlone.AloneIncrement` | src/protocol/command/hash.rs:278-333 | the steps of HINCRBY, not interrupted, do what the whole command does |
| `HashAlone.SetOn` | src/protocol/command/hash.rs:79-115 | and so do those of HSET, from any pair on |
| `HashAlone.DelOn` | src/protocol/command/hash.rs:140-174 | and those of HDEL |
| `HashRead.HGetAll` | src/protocol/command/hash.rs:185-210 | the pairs of the range query, prefix cut off; the prefix check drops nothing |
| `HashRead.HGetAllIsComplete` | src/protocol/command/hash.rs:185-210 | ascending, no field twice, no foreign field; all fields if and only if there are at most 10000 and none is longer than one byte and starts with 0xFF |
| `Keyspace.SuffixIsRange` | src/protocol/command/executor.rs:403-405 | the keys from the i-th on are the range that starts at the i-th |
| `Keyspace.Keys` | src/protocol/command/executor.rs:323-360 | the KEYS arm computes `KeysAnswer` |
| `Keyspace.KeysReach` | src/protocol/command/executor.rs:323-360 | KEYS returns a key exactly when it exists, matches, is not out of reach of the range, and is among the first 100000 of the range (a pattern without wildcards is looked up) |
| `Keyspace.KeysIsFilter` | src/protocol/command/executor.rs:323-360 | KEYS equals filtering all keys if and only if no matching key continues the prefix beyond `~` (or, without prefix, lies above 255 bytes of 0xFF) and none comes after the first 100000 keys of the range |
| `Keyspace.KeysAscending` | src/protocol/command/executor.rs:349-357 | the answer is ascending and names no key twice |
| `KeyReach.LiteralPart` | src/protocol/command/executor.rs:72-80 | the literal part of a pattern ends at its first `*`, `?` or `[`, and not before |
| `KeyReach.KeysFinds` | src/protocol/command/executor.rs:328-361 | in a store of at most 100000 keys, KEYS finds a key of at most 255 bytes below `~` if and only if it is stored and matches |
| `Scan.ScanCommand` | src/protocol/command/executor.rs:362-442 | the SCAN arm computes `Answer`: range, page and cursor, with the number of keys asked for as 64-bit arithmetic leaves it |
| `Scan.CursorAdvances` | src/protocol/command/executor.rs:362-442 | for every store and every COUNT of at least 1 that is read as it is, fewer keys remain after each page: following the cursors terminates |
| `Scan.FollowFrom` | src/protocol/command/executor.rs:362-442 | from any cursor, the client sees the keys from there up to the cut |
| `Scan.FullIteration` | src/protocol/command/executor.rs:362-442 | iteration without MATCH returns every visible key exactly once in order if and only if the key `0` does not start a later page and COUNT is not -1 (unless there is no key); otherwise exactly the keys below that `0`, and none for -1 |
| `Scan.CountMinusOneEnds` | src/protocol/command/executor.rs:402-405 | the input: COUNT -1 is cast to the largest 64-bit number, one more wraps to 0, and the iteration ends with an empty page |
| `Scan.VisibleKeys` | src/protocol/command/executor.rs:395-399 | the visible keys are those up to 255 bytes of 0xFF |
| `KeyReach.ShortKeysAreVisible` | src/protocol/command/executor.rs:395-399 | every key of at most 255 bytes is visible |
| `KeyReach.SearchedIs` | src/protocol/command/executor.rs:372-399 | the range that SCAN searches for a pattern |
| `KeyReach.ScanFinds` | src/protocol/command/executor.rs:362-442 | an iteration with MATCH whose pages reach all matches finds a key of at most 255 bytes below `~` if and only if it is stored and matches |
| `KeyReach.Cursors` | src/protocol/command/executor.rs:362-442 | the cursor `0`, like no cursor, begins an iteration, and ends it |
| `KeyReach.Fetches` | src/protocol/command/executor.rs:402-405 | how many keys a page asks for |
| `Scan.CollectIsFilter` | src/protocol/command/executor.rs:411-426 | a page is the matches of the part of the window walked; nothing is skipped |
| `Scan.MatchSound` | src/protocol/command/executor.rs:402-426 | with MATCH, every key returned exists and matches |
| `Scan.MatchMayRunDry` | src/protocol/command/executor.rs:402-433 | when a page ends the iteration, every match of the range was returned if and only if no key past those fetched matches: 2 * count + 1 of them, or what wrapping leaves of it |
| `Scan.MatchIteration` | src/protocol/command/executor.rs:362-442 | with MATCH and any count of at least 1, following the cursors terminates and returns exactly the matches of the range up to where a page runs dry |
| `Scan.MatchIterationComplete` | src/protocol/command/executor.rs:362-442 | it returns every match of the range if and only if, from page to page, the count-th match is among the next 2 * count keys and the key behind it exists and is not `0`, and the last matches are among the next 2 * count + 1 |
| `Scan.LowestCountSeesOneKey` | src/protocol/command/executor.rs:402-405 | with MATCH the lowest COUNT wraps to a window of one key, and the iteration ends there |
| `Scan.CountZeroStalls` | src/protocol/command/parser.rs:279-281 | COUNT 0 is accepted and never advances: an empty page and the cursor of the same place |
| `Watch.WatchRegistry.NotifyKeyModified` | src/watch_registry.rs:11-14 | takes a fresh ticket and publishes it for the key |
| `Watch.WatchRegistry.CheckKeysUnchanged` | src/watch_registry.rs:20-28 | true exactly when every key still has its version |
| `Watch.TicketsNeverRepeat` | src/watch_registry.rs:11-14 | ticket and publication as separate steps of many threads: no ticket is published twice |
| `Watch.VersionUnchangedIff` | src/watch_registry.rs:11-18 | in every interleaving, a version read later equals the one read earlier if and only if nothing was published for the key in between |
| `Watch.ExecCheck` | src/watch_registry.rs:20-28 | the check passes if and only if no watched key was announced between its latest WATCH and its check |
| `Watch.KeyCheck` | src/watch_registry.rs:16-28 | for one key, read by WATCH and by the check at any two moments: the versions are equal if and only if it was not announced in between |
| `Watch.SetIsSeen` | src/watch_registry.rs:11-18 | a change announced between WATCH and check gives the check a different version, whatever other threads announce before, meanwhile and after |
| `Watch.RegistryShowsLog` | src/watch_registry.rs:16-18 | the version of a key is the last ticket published for it |
| `Commands.ExecuteAll` | src/network/connection.rs:260-264 | one result for each queued command |
| `Commands.UndisturbedIsAll` | src/network/connection.rs:260-264 | commands that each meet the state the one before left give what running them one after the other gives |
| `Session.FastRefinesSlow` | src/network/connection.rs:182-193 | outside MULTI the shortcut is parse and execute (same store, versions and reply) if and only if the connection is authenticated and has no subscription |
| `Session.OnlyRunsTouch` | src/network/connection.rs:171-381 | a frame that runs no command leaves the shared state as it is |
| `Session.RanExplains` | src/network/connection.rs:171-381 | a frame leaves behind what running its commands one after the other makes of the state, nobody else being at work |
| `Session.OneReply` | src/network/connection.rs:171-381 | each frame gets exactly one reply or goes to pub/sub; none only if it does not parse |
| `Session.OneReplyEach` | src/network/connection.rs:171-381 | the same for any sequence of frames, each served at moments of its own |
| `Session.ServeAllConcat` | src/network/connection.rs:171-381 | serving frames in two batches is serving them in one |
| `Session.AllIsAmid` | src/network/connection.rs:171-381 | serving while nobody else is at work is the case of serving amid others in which nobody acts |
| `Session.UnauthenticatedRuns` | src/network/connection.rs:182-338 | without authentication a frame runs a command if and only if it is a plain GET or SET or a PING outside MULTI, or an EXEC outside pub/sub mode with a queue and its watched keys unchanged; and it authenticates the connection if and only if it is AUTH with the right password, outside MULTI and pub/sub mode |
| `Session.QueuedRunsUnauthenticated` | src/network/connection.rs:217-338 | the input: MULTI, any queueable command, EXEC, and the command has run although the client never authenticated |
| `Session.RefusedInPubSubMode` | src/network/connection.rs:182-204 | with a subscription, a command that is not one of the allowed ones is refused with nothing changed if and only if it is not a plain GET or SET outside MULTI |
| `Session.SubscribedSetIsStored` | src/network/connection.rs:182-193 | the input: a plain SET from a subscribed client is stored and answered OK |
| `Session.FrameCount` | src/network/connection.rs:171-204 | two subscription counts make a difference to a frame only if one is 0 and the other is not, and the frame is neither allowed in pub/sub mode nor a plain GET or SET outside MULTI |
| `Session.CountStays` | src/network/connection.rs:158-384 | serving a frame never changes the subscription count |
| `Session.SensitiveIsRefused` | src/network/connection.rs:196-204 | in pub/sub mode such a frame is refused and nothing changes |
| `Session.FrameRefusesNot` | src/network/connection.rs:196-204 | outside pub/sub mode no reply is that refusal, as long as the rest of the server does not use its text |
| `Session.BodyCollects` | src/network/connection.rs:217-328 | between MULTI and EXEC, whatever others do meanwhile: nothing is run or touched, every frame has its reply, the queue is the queueable commands in order, and UNWATCH alone changes what is watched |
| `Session.Transaction` | src/network/connection.rs:217-289 | a whole transaction, others acting at any time: every queued command runs once, in order, on the state it meets, with one result each in one array, if each watched key has its version when the check reads it; otherwise nil, for DISCARD OK, and nothing runs; then the connection is idle and watches nothing |
| `Session.NothingToClose` | src/network/connection.rs:235-289 | EXEC and DISCARD outside a transaction: one error reply, nothing changed |
| `Session.NotedVersions` | src/network/connection.rs:291-308 | after WATCH each named key is held at the version read for it, also when watched before |
| `Session.HoldIffNoneAnnounced` | src/network/connection.rs:245-252 | in every interleaving, the check passes if and only if no watched key was announced between its latest WATCH and the moment the check reads it |
| `Session.WatchedExec` | src/network/connection.rs:235-271 | so EXEC runs its queue if and only if no watched key was announced in between, and answers nil with nothing run otherwise |
| `Transactions.WatchedTransaction` | src/network/connection.rs:171-328 | WATCH commands, MULTI, any body and EXEC over one run of announcements by any threads: the queue runs, once and in order, if and only if the body said UNWATCH or no watched key was announced between the latest WATCH that names it and the moment EXEC checks it; otherwise nil, and nothing runs; with all replies in order |
| `Transactions.NotedLatest` | src/network/connection.rs:299-302 | after all WATCH commands exactly the keys named are watched, each at the version its latest WATCH read |
| `Commands.SetWithExpiry` | src/protocol/command/parser.rs:28-58 | SET with EX or PX, the amount a number or text, carries it as seconds or milliseconds |
| `CommandText.LineMeans` | src/protocol/command/parser.rs:8-636 | which words, in any case, are which command with which arguments: GET, SET, PING, AUTH, QUIT, MULTI, EXEC, DISCARD, WATCH, UNWATCH; and when they are no command |
| `CommandText.OtherWords` | src/protocol/command/parser.rs:8-20 | any other word is left to the rest of the server, in capitals, with its arguments |
| `CommandText.NoCommand` | src/protocol/command/parser.rs:8-20 | what is no array that begins with a bulk string is no command |
| `CommandText.SetOptionsAre` | src/protocol/command/parser.rs:28-58 | SET with any options in any order: the last EX and the last PX count, other words are skipped |
| `CommandText.ArgumentKinds` | src/protocol/command/parser.rs:20-58 | an argument may also be a simple string, the amount of an option also a number; nothing else is one |
| `Conversation.Executes` | src/protocol/command/executor.rs:150-181 | GET answers the value stored or nil, SET stores under its key only and announces, PING answers |
| `Conversation.GetServed` | src/network/connection.rs:475-491 | GET typed in any case answers the value stored or nil, by the shortcut or not |
| `Conversation.GetAfterSet` | src/network/connection.rs:447-491 | after SET k v, GET k answers v and GET of any other key what it did before |
| `Conversation.SetWithOptionsServed` | src/network/connection.rs:340-381 | SET with options stores the same, the long way |
| `Conversation.OthersRun` | src/network/connection.rs:332-378 | outside MULTI and pub/sub mode the command of an authenticated client is run, and answered by the executor |
| `Conversation.PubSubHandedOver` | src/network/connection.rs:355-375 | a pub/sub operation is handed over and not answered; one that is not understood gets an error |
| `Conversation.AuthServed` | src/network/connection.rs:340-354 | AUTH: exactly the right password is answered OK and authenticates |
| `Conversation.PingAndQuit` | src/network/connection.rs:189-193 | PING is answered in every mode but MULTI, QUIT always, and it closes |
| `Conversation.WithoutAuthentication` | src/network/connection.rs:332-339 | other commands of a client that is not authenticated get an error and are not run |
| `Conversation.RefusedWords` | src/network/connection.rs:196-204 | the words of the transaction protocol and AUTH are refused in pub/sub mode |
| `Conversation.PubSubModeServes` | src/network/connection.rs:196-204 | there the four operations on subscriptions go through and no other command of the server does |
| `Conversation.TransactionTyped` | src/network/connection.rs:217-328 | MULTI, any commands, EXEC or DISCARD, typed in any case: OK, QUEUED for each, then one array with the result of each in order, each run once; or OK and nothing run; and the client is outside MULTI again |
| `Network.Connection.constructor` | src/network/connection.rs:89-130 | a new connection |
| `Network.Connection.PendingWrites` | src/network/connection.rs:387-393 | the bytes not sent yet |
| `Network.Connection.ConsumeWrites` | src/network/connection.rs:396-398 | moves bytes from pending to sent, changes neither their order nor the output |
| `Network.Connection.RunCommand` | src/protocol/command/executor.rs:150-181 | the executor on GET, SET and PING, any other command through the engine |
| `Network.Connection.TryFastPath` | src/network/connection.rs:432-511 | handles exactly plain SET and GET frames; store, versions and bytes written are those of the shortcut |
| `Network.Connection.DoExec` | src/network/connection.rs:235-271 | EXEC: check, run the queue, or abort, nobody else being at work during the call |
| `Network.Connection.DoWatch` | src/network/connection.rs:291-302 | the loop over the watched keys |
| `Network.Connection.Decide` | src/network/connection.rs:195-376 | refused in pub/sub mode, part of the transaction protocol, queued, or served |
| `Network.Connection.Control` | src/network/connection.rs:217-316 | MULTI, EXEC, DISCARD, WATCH and UNWATCH |
| `Network.Connection.ServeFrame` | src/network/connection.rs:171-381 | one frame, shortcut or not: state, shared state and bytes appended are those of the machine |
| `Network.Connection.ProcessRead` | src/network/connection.rs:158-384 | for every chunk, nobody else being at work during the call: exactly the frames completed are served in order, the rest stays unread, sent bytes never change, the error cases as stated |
| `Network.ReadingStep` | src/network/connection.rs:171-381 | each turn of the read loop advances by one frame and stops where the source does |
| `ConnectionSteps.OneReplyPerCommand` | src/server.rs:281-360 | whatever the cutting of the input, the pace of the writes, the doings of other workers between any two frames and any two queued commands, and what other connections of the worker subscribe: frames are served in the order received with none skipped, each with exactly one reply or pub/sub operation and at the count that the operations of earlier reads left; operations are carried out at the end of their read, or dropped if it fails; the count is the number of subscriptions kept for the connection; and what was sent is a prefix of the encoded replies |
| `ConnectionSteps.AllAnswered` | src/network/connection.rs:158-398 | between two reads a living connection has answered each complete frame received exactly once, by a reply or by an operation carried out |
| `PubSubLayer.CountIsHeld` | src/pubsub/handler.rs:17-53 | whatever the operations, the count a connection is given last is the number of channels and patterns the manager keeps for it |
| `PubSubLayer.OthersDoNotCount` | src/pubsub/manager.rs:36-277 | and operations of other connections do not change that number |
| `ConnectionStream.CountIsRight` | src/server.rs:295-311 | so it is after every read of a connection, under any cutting, also when a failed read drops its operations |
| `ConnectionStream.WithoutOperations` | src/network/connection.rs:158-384 | input that yields no pub/sub operation leads to the same state, store, output and replies however it is cut and however the writes go |
| `ConnectionStream.RunInLine` | src/server.rs:295-311 | under the condition of `ConnectionCuts.CutsAgreeIff`, every run stands where one read of everything received would have brought it |
| `ConnectionCuts.CutsAgreeIff` | src/server.rs:295-311 | for every input of a connection alone: connection, store, indexes, replies and operations carried out do not depend on the cutting into reads if and only if no operation before a frame that pub/sub mode refuses takes the connection into that mode or out of it, and no operation comes before a frame that fails |
| `ConnectionCuts.AnswersAgreeIff` | src/server.rs:295-311 | and the client gets the same answers in the same order if and only if, besides, no frame that is replied to comes after an operation that is answered, and no PUBLISH or PUBSUB after one that is acknowledged |
| `ConnectionCuts.SubscribeThenSet` | src/network/connection.rs:196-204 | the input: SUBSCRIBE and SET with an expiry, stored and answered OK in one read, refused in two |
| `ConnectionCuts.SubscribeThenRubbish` | src/network/connection.rs:171-190 | the input: SUBSCRIBE and a frame that is no command, dropped in one read, carried out in two |

## Left out

Assumptions and simplifications of what is modelled:

- The store is its contract only: a map with atomic get, insert, delete, compare-and-swap, increment and a sorted, inclusive, limited range query. Its failures, persistence, timestamps and expiry are not modelled; SET with EX or PX stores the value and its expiry is ignored.
- PubSubSystem.QuietRuns: takes the registry methods (src/pubsub/registry.rs) as single steps. Between dropping the guard and removing an entry (lines 52-55) another worker may act; `RegistryRace` says exactly when that loses an interest, for one key.
- Pub/sub statements about PUBLISH assume drained inboxes of 1024 free places and no subscription changing meanwhile; a full inbox drops messages.
- The trie is modelled as a map from edge paths to nodes; every child box has one owner, so a path names a node. Class ranges wrap at 255 as in a release build (src/pubsub/pattern.rs:255); a debug build would panic there.
- Names, patterns and keys are taken as they are: the conversions that replace ill-formed UTF-8 are not modelled, so statements about list names, KEYS and SCAN speak of well-formed UTF-8.
- Integers are unbounded where only exhaustion could tell: version tickets, pending counts, buffer sizes. A huge announced array length is taken as it comes, although reserving room for it may fail (src/protocol/resp.rs:167-169). List positions are bounded by `Room`, hash sizes by fewer than 2^63 - 1 keys in the store.
- ListLosses.HarmlessIffSafe: is about callers that begin together, on a list without gaps or on none; the length that a push reads back for its reply is not modelled there.
- List operations expect metadata that describes its window (`Sound`), which every operation keeps from an empty store on; bytes put under a metadata key by other commands are not considered.
- Lists.ListOperations.LPush: the retry loop is there, but run alone its compare-and-swap cannot fail; the races are in ListRace, on integer positions instead of encoded keys.
- HashCount.CountIsCardinality: whole commands, for names no two of which clash, the exact condition under which two hashes share no key; interleaved steps are in `HashRace`, for one hash.
- HashSchedules.CountedIffSafe: is about the count, not the values; what a HINCRBY may do to the value is `HashSchedules.IncrementMayBeLost`.
- Hashes.HashOperations.HSet: the clock behind the flush interval is the parameter `due`, true or false at will.
- Session.Transaction: a queued or single command meets one state and changes it in one step; other workers act between commands and between the check and the first of them. Steps inside a command are in `ListRace` and `HashRace`.
- Watch.ExecCheck: speaks of announcements, not of writes: a value is stored before its announcement, and native CAS and JSONPATCH never announce (src/protocol/command/executor.rs:556-574).
- Network.Connection.ProcessRead: the method contracts assume that no other worker changes the shared state during the call; `ConnectionSteps` states what holds when they do. Counters, client names and the pipeline depth are left out; answers to pub/sub operations are written after the call and are not part of the output.
- ConnectionCuts.CutsAgreeIff: assumes that no other part of the server answers with the very text of the refusal in pub/sub mode; PUBLISH and PUBSUB are answered by name only, and messages that a client publishes to itself are not among the answers.
- ConnectionSteps.OneReplyPerCommand: the bytes of acknowledgements, of answers to PUBLISH and PUBSUB, and of delivered messages are written between the replies and are not modelled there, so the statement on what was sent is about the replies of the connection; the clean-up after a connection ends is `PubSub.ThreadLocalPubSub.ConnectionDropped`.
- RegistryRace.InterestKeptIff: is about workers that join and leave in turn, as the managers do for the first and the last subscriber; the second step of a removal comes before the next call of its worker.
- RegistryRace.CountsFollow: each subscription comes or goes once; a count over subscriptions that come and go again is not followed there.
- PatternText.PatternMeans: a range that goes on from the end of another one (`a-c-e`) is not among the pieces; what the class parser makes of it is `Pattern.ParseCharClass`.
- Conversation.TransactionTyped: is about a client that watches nothing; with WATCH it is `Transactions.WatchedTransaction`.
- CommandText.LineMeans: says what the ten words of this model mean; how other words are parsed is a parameter.
- PublishReply.ReplyIsReachedIff: counts subscriptions that get the message at least once; how often is `Publish.PublishAccounting`.
- Scan.MatchIteration: is about a store that does not change during the iteration.
- TrieHistory.TrieRefinement: agreeing classes are assumed for the history; `TrieExact` says exactly what is found without them.

Not modelled at all:

- The event loop, sockets, accepting, signals and threads (src/server.rs, src/bin/server.rs); draining inboxes is a step.
- Configuration, password comparison, INFO, CONFIG, COMMAND and CLIENT output, the command table and the client registry.
- The parser and executor arms of commands other than those named above: they are parameters of the connection model.
- HGET, HMGET, HEXISTS, HKEYS, HVALS, DEL, EXISTS, MGET, MSET: direct uses of one store operation, or the same range query as HGETALL.
- INCR and its relatives, expiry commands, JSON patch and native compare-and-swap: library behaviour that cannot be seen.
- PUBSUB CHANNELS, NUMSUB and NUMPAT: plain readings of the registry.
