# hmq, an MQTT 3.1.1 broker: model and proofs

This project models the parts of hmq whose correctness is not visible from reading one function:
the topic index with its two tries, the QoS 1 and 2 state machines of a client with their timers,
the life cycle of connections and subscriptions, the fan-out of a publication, the worker pool that
serialises a client's packets, and the topic matching of the file-based access control. Each part is
stated twice: as objects that change in place, the way the program keeps them, and as values with
operations on them. Every method of an object is proved to do what its value operation does, and the
properties are proved of the value operations, for all inputs, all runs and all reachable states.
`dafny verify dfyconfig.toml` checks everything.

| file | what it holds |
|---|---|
| `Prelude.dfy` | packets, subscriptions, Unix time, orders of map iterations |
| `TopicLevels.dfy` | the level tokenizer and what iterating it yields |
| `Matching.dfy` | the plain filter relation `Match` and the rules of section 4.7.1 of MQTT 3.1.1 |
| `SubTrie.dfy`, `SubscriptionRuns.dfy` | the subscription trie as a value; every run of calls against a flat table |
| `RetTrie.dfy`, `RetainedRuns.dfy` | the retained-message trie as a value; what clearing a topic loses; every run against a flat map |
| `SubNode.dfy`, `RetNode.dfy`, `MemTopics.dfy` | the tries as nodes on the heap, and the index object |
| `Outbound.dfy`, `OutboundClient.dfy` | inflight table, acknowledgements, retry timer |
| `Inbound.dfy`, `InboundClient.dfy` | QoS 2 reception: awaitingRel table and expiry timers |
| `Lifecycle.dfy`, `FanOut.dfy`, `BrokerObject.dfy` | connections, subMap, takeover, Close, will; fan-out; the broker object |
| `BrokerRuns.dfy` | what SUBSCRIBE, other brokers, Close and the will achieve, said of the packets |
| `RetainedDelivery.dfy` | which retained messages a SUBSCRIBE writes |
| `EndToEnd.dfy` | joint runs of the broker and the outbound machines of all clients under one clock |
| `WorkerPool.dfy` | hashed bounded queues with one worker each |
| `Acl.dfy` | topic matching of the access rules, compared with `Match` |

## How the program is read

- A topic is a `string`, one character for each byte of the Go slice. The tokenizer only compares with
  `/`, `#` and `+`, so allowing more characters than bytes loses nothing.
- A packet handler, a timer callback, a registration and a `Close` are one atomic step each. For the
  handlers of one client id this is what `WorkerPool.dfy` proves of the pool.
- Time is in nanoseconds, Unix time is its floor in seconds, and timers fire when they are due: time
  does not pass a pending timer.
- An iteration over a Go map is an explicit order (`order`, `IsOrder`) or an arbitrary choice in a
  loop; statements hold for every order. The random draw among shared subscriptions is a parameter.
- A packet write can fail where the program looks at the error (PUBREC); elsewhere the model records
  the attempt. Decisions of the access control are a flag on each topic of a SUBSCRIBE.
- The lists `clients`, `routes` and `remotes` are one table keyed by kind and id.
- `maxAwaitingRel` is any integer; a negative one refuses every packet, as in the program.

Where comments in the program and the program differ, the model follows the program: the tokenizer
turns an empty level into `+` and drops one trailing separator; topics that start with `$` get no
special treatment, so section 4.7.2 of MQTT 3.1.1 is not claimed; `matchQos` passes on the QoS of the
publication and not a minimum; a task queue holds 1024 tasks and is not unbuffered.

Six expectations turn out not to hold and are stated exactly instead.

- Clearing a retained topic can also lose retained messages of its ancestors, because pruning looks at
  children only. `RetTrie.RemoveAt` says which, `RetTrie.ClearIsDeleteIff` when none are,
  `RetainedRuns.RunSimulates` tells it on a flat map, and `RetTrie.ClearLosesParent` gives an instance.
- Subscribing and unsubscribing is the identity on the trie only if no leftover of a refused filter
  lies along the path. `SubscriptionRuns.IdentityIffNoBareNode` is the equivalence after any run, and
  `SubscriptionRuns.RefusedFilterLeavesBareNode` an instance.
- A rule of the access control that cannot be split has no levels left and covers every topic.
  `Acl.CoversEverythingIffUnsplit` is the equivalence, `Acl.UnsplitByCharacters` says which strings
  these are, and `Acl.UnsplitRules` names two, one of which the topic index accepts as a filter.
- A SUBSCRIBE does not write only the retained messages that its own filters match: the list they are
  collected in is never emptied. `RetainedDelivery.SubscribeWritesHistory` says what is written, and
  that it is its own matches alone iff no earlier SUBSCRIBE of the connection found anything;
  `RetainedDelivery.WrittenAgain` gives an instance.
- Close does not take every entry of another broker out of the trie: a repeated SUBSCRIBE replaces the
  entry in `subMap` and leaves the old one in the trie. `BrokerRuns.OrphanIffRepeated` is the
  equivalence over runs, `BrokerRuns.ReplacedIsAnsweredForEver` says what becomes of the old entry,
  and `BrokerRuns.ClosedRouterIsAnswered` gives an instance.
- The timer can write a PUBREL again less than 20 s after it was last written, because a duplicate
  PUBREC is answered without restarting the age. `Outbound.LateWriteIffPubrec` is the equivalence for
  every run, and `Outbound.PubrelSoonAfterDuplicate` gives an instance.

## Model

| member | source | states |
|---|---|---|
| `TopicLevels.NextTopicLevel` | broker/lib/topics/memtopics.go:420-470 | the loop returns the level up to the first separator (an empty one as `+`) and the rest, or an error exactly when a wildcard does not fill its level or `#` is followed by a separator; it always consumes input |
| `TopicLevels.TokenizeFailsIffMalformed` | broker/lib/topics/memtopics.go:420-470 | iterating it over any string fails iff some wildcard character has a neighbour other than a separator or some `#` is not the last character |
| `TopicLevels.TokenizeIsNormalizedSplit` | broker/lib/topics/memtopics.go:420-470 | otherwise it yields the split at separators with one trailing empty level dropped and every remaining empty level turned into `+` |
| `TopicLevels.TokenizePathOk` | broker/lib/topics/memtopics.go:425-428 | no level ever follows `#`, even in a failing tokenization |
| `TopicLevels.SplitThenJoin` | plugins/bridge/kafka.go:148-150 | splitting a topic yields levels without separators that joined again are the topic |
| `TopicLevels.JoinThenSplit` | plugins/bridge/kafka.go:148-150 | any non-empty list of levels without separators is the split of its join, so the split is the only such list |
| `Matching.MatchIsReference` | plugins/bridge/kafka.go:129-146 | the recursive matcher decides the level-by-level rules of section 4.7.1 of MQTT 3.1.1 |
| `Matching.MatchTopicIsMatchOfTokens` | plugins/bridge/kafka.go:148-150 | the bridge and the index decide the same relation on strings without empty levels |
| `SubTrie.InsertAt` | broker/lib/topics/memtopics.go:139-179 | subscribing updates the QoS or appends in the list of its own path and touches no other path; a refused filter touches none |
| `SubTrie.RemoveSucceeds` | broker/lib/topics/memtopics.go:183-236 | unsubscribing succeeds iff the filter is well-formed and the subscriber is stored at its path |
| `SubTrie.RemoveAt` | broker/lib/topics/memtopics.go:183-236 | unsubscribing removes exactly one entry of its own path, or all of them for nil, and pruning loses none |
| `SubTrie.AnswerChange` | broker/lib/topics/memtopics.go:242-273 | changing the list at one path changes the answer to a topic by exactly that list if the path matches, and not at all otherwise |
| `SubTrie.AnswerMultiplicity` | broker/lib/topics/memtopics.go:242-273 | a subscription stored at one path is answered once if the path matches the topic and never otherwise |
| `SubTrie.AnswerNeverFails` | broker/lib/topics/memtopics.go:242-273 | a well-formed topic is never refused, whatever refused filters left in the trie |
| `SubTrie.AnswerFailsIff` | broker/lib/topics/memtopics.go:242-273 | a lookup fails iff the topic is malformed and some node lies where the lookup meets the malformed level |
| `SubTrie.InsertThenRemove` | broker/lib/topics/memtopics.go:139-236 | subscribing a new subscriber and unsubscribing it restores the identical trie iff no bare node lies along the path |
| `SubTrie.PrunedHasSubscriber` | broker/lib/topics/memtopics.go:229-233 | in a pruned trie every node but the root has a subscriber at or below it |
| `SubscriptionRuns.RunSimulates` | broker/lib/topics/memtopics.go:51-79 | after every run of calls, failing ones included, the trie and a flat table hold the same ordered list at every path |
| `SubscriptionRuns.AnswerIsScan` | broker/lib/topics/memtopics.go:242-273 | a trie that stores what a table stores answers every topic as a linear scan with `Match` does, as a multiset |
| `SubscriptionRuns.SubscribersAreTheMatchingRows` | broker/lib/topics/memtopics.go:82-94 | for every run and every well-formed topic string the lookup succeeds with exactly the matching rows, each once |
| `SubscriptionRuns.UnsubscribeInStep` | broker/lib/topics/memtopics.go:74-79 | an Unsubscribe keeps trie and table in step and returns success iff the table has the row |
| `SubscriptionRuns.FailingCallChangesNoAnswer` | broker/lib/topics/memtopics.go:51-79 | a call that fails changes the answer to no topic |
| `SubscriptionRuns.RunKeepsShape` | broker/lib/topics/memtopics.go:139-236 | over every run each node lists a subscriber once and a `#` node has no children |
| `SubscriptionRuns.RunKeepsPruned` | broker/lib/topics/memtopics.go:183-236 | over every run without malformed filters no node but the root is bare |
| `SubscriptionRuns.SubscribeThenUnsubscribe` | broker/lib/topics/memtopics.go:139-236 | in such runs subscribing a new subscriber and unsubscribing it is the identity |
| `SubscriptionRuns.IdentityIffNoBareNode` | broker/lib/topics/memtopics.go:139-236 | after any run, subscribing a new subscriber and unsubscribing it leaves the identical trie iff no bare node lies along the path |
| `SubscriptionRuns.RefusedFilterLeavesBareNode` | broker/lib/topics/memtopics.go:139-236 | after the refused filter `a/b#` the node `a` is bare, and subscribing and unsubscribing `a` is not the identity |
| `SubNodes.SubNode.Insert` | broker/lib/topics/memtopics.go:139-179 | the in-place insertion yields the value operation's trie and stays a tree of separate nodes with parallel lists |
| `SubNodes.SubNode.Remove` | broker/lib/topics/memtopics.go:183-236 | the in-place removal and pruning yield the value operation's trie, or report an error and change nothing |
| `SubNodes.SubNode.MatchQos` | broker/lib/topics/memtopics.go:481-490 | appends every subscriber of the node, each with the publication's QoS |
| `SubNodes.SubNode.Match` | broker/lib/topics/memtopics.go:242-273 | in any order of map iteration the collected subscribers are the value operation's multiset, with a QoS list of equal length, and an error is reported exactly when a visited node lies at a malformed level |
| `RetTrie.InsertAt` | broker/lib/topics/memtopics.go:289-317 | retaining changes its own path only; a malformed topic changes none |
| `RetTrie.FoundIffMatch` | broker/lib/topics/memtopics.go:361-409 | the paths that a well-formed filter collects are exactly the retained ones that match |
| `RetTrie.FindNeverFails` | broker/lib/topics/memtopics.go:361-399 | a well-formed filter is never refused |
| `RetTrie.FindFailsIff` | broker/lib/topics/memtopics.go:361-399 | a lookup fails iff the filter is malformed and some node lies where it gets so |
| `RetTrie.RemoveSucceeds` | broker/lib/topics/memtopics.go:320-356 | clearing succeeds iff the topic is well-formed and its node exists |
| `RetTrie.RemoveAt` | broker/lib/topics/memtopics.go:320-356 | clearing loses the topic's message, the messages on the single-child run directly above its childless node, and nothing else |
| `RetTrie.ClearIsDeleteIff` | broker/lib/topics/memtopics.go:345-353 | clearing is a plain delete iff no such ancestor holds a message |
| `RetTrie.ClearIsDeleteWithoutRetainedPrefix` | broker/lib/topics/memtopics.go:345-353 | in particular when no retained topic is a non-empty proper prefix |
| `RetTrie.ClearLosesParent` | broker/lib/topics/memtopics.go:345-353 | the retained message of `a` does not survive clearing `a/b` |
| `RetainedRuns.DoomedIffLost` | broker/lib/topics/memtopics.go:345-353 | if every leaf holds a message, an ancestor goes with a cleared topic iff everything retained at or below it lies on the path to that topic |
| `RetainedRuns.RetainInStep` | broker/lib/topics/memtopics.go:96-108 | one call keeps trie and flat map in step and every leaf but the root full; clearing succeeds iff something is retained at or below the topic, or the topic is empty |
| `RetainedRuns.RunSimulates` | broker/lib/topics/memtopics.go:289-356 | after every run with well-formed topics the trie holds exactly the entries of a flat map on which clearing also deletes those ancestors |
| `RetainedRuns.RefusedTopicLeavesNodes` | broker/lib/topics/memtopics.go:289-317 | a refused topic leaves nodes without a message: after retaining under `a` and a refused `a/b/c#`, clearing `a/b`, where nothing is retained, loses the message of `a` |
| `RetNodes.RetNode.Insert` | broker/lib/topics/memtopics.go:289-317 | the in-place insertion yields the value operation's trie |
| `RetNodes.RetNode.Remove` | broker/lib/topics/memtopics.go:320-356 | the in-place clearing yields the value operation's trie, or reports an error and changes nothing |
| `RetNodes.RetNode.Match` | broker/lib/topics/memtopics.go:361-399 | in any order of map iteration the collected messages list the found paths, each once |
| `RetNodes.RetNode.AllRetained` | broker/lib/topics/memtopics.go:401-409 | collects the message of every path at or below the node, each once |
| `MemTopics.Topics.constructor` | broker/lib/topics/memtopics.go:40-45 | both tries start empty |
| `MemTopics.Topics.Subscribe` | broker/lib/topics/memtopics.go:51-72 | refuses an unknown QoS, nil and malformed filters with 0x80, otherwise grants the QoS and enters the subscriber |
| `MemTopics.Topics.Unsubscribe` | broker/lib/topics/memtopics.go:74-79 | success and effect are those of the value operation; retained messages are untouched |
| `MemTopics.Topics.Subscribers` | broker/lib/topics/memtopics.go:82-94 | answers every well-formed topic with a valid QoS; the answer is the trie's multiset with as many QoS values |
| `MemTopics.Topics.Retain` | broker/lib/topics/memtopics.go:96-108 | an empty payload clears, any other retains |
| `MemTopics.Topics.Retained` | broker/lib/topics/memtopics.go:110-115 | for every well-formed filter appends exactly the messages whose topic path matches, each once |
| `MemTopics.RetainedIffReached` | broker/lib/topics/memtopics.go:358-399 | a filter finds a retained topic iff a publication to that topic reaches a subscription with that filter |
| `Outbound.FireEffect` | broker/comm.go:207-245 | a timer callback on a live client writes one packet for each aged element in the order of iteration, refreshes exactly those, and changes nothing else inflight |
| `Outbound.FireResendsTheAged` | broker/comm.go:225-243 | an element is written again by a callback once if its age is 20 s or more and not at all otherwise, and its age is at most 39 s |
| `Outbound.FireRearms` | broker/comm.go:237-244 | afterwards one timer runs: for the first element of the iteration that was not yet due, or for the full interval if all were |
| `Outbound.StepKeepsInv` | broker/comm.go:146-245 | every handler, callback and passing of time keeps: one armed timer if anything is inflight on a live client, due within 20 s and before any element is 40 s old; ids agree with packets |
| `Outbound.RetryIsTimely` | broker/comm.go:146-245 | the same in every reachable state, with every resend so far at an age from 20 to 39 Unix seconds, for every interleaving and every map order |
| `Outbound.UnacknowledgedIsResent` | broker/comm.go:207-245 | an element that stays unacknowledged on a live client has been written again with its own packet and status, at an age from 20 to 39 s, by the time it would be 40 s old |
| `Outbound.NeverStuck` | broker/comm.go:180-205 | time can pass or a timer callback can run |
| `Outbound.StatusMovesForward` | broker/client.go:286-326 | between publications under an id its element keeps its packet and its status moves from Publish to Pubrel at most, and only by PUBREC |
| `Outbound.AcknowledgedIsNeverResent` | broker/client.go:286-326 | from the handling of a PUBACK, PUBREC or PUBCOMP on, the timer never writes that PUBLISH until a new publication reuses the id |
| `Outbound.ExchangeIsInOrder` | broker/client.go:294-326 | over every run from the delivery of a QoS 2 packet through one PUBREC and one PUBCOMP, with any other steps in between: what is written about it is the PUBLISH, then resends of it only, then the PUBREL, then resends of that only; afterwards nothing is inflight under the id (section 4.3.3 of MQTT 3.1.1) |
| `Outbound.FinishedIsForgotten` | broker/client.go:286-326 | from a PUBACK or PUBCOMP on, and until the id is published again, nothing is inflight under it and the timer writes nothing for it |
| `Outbound.ResendAgeIsExact` | broker/comm.go:207-245 | in every run each resend is of the element of that moment, and its age is the Unix time since the last publication, first PUBREC or resend of the id: 20 to 39 s |
| `Outbound.PubrelWaits` | broker/client.go:294-314 | a first PUBREC restarts the age: the timer writes the PUBREL again at the earliest 20 Unix seconds after it |
| `Outbound.ResendKeepsDistance` | broker/comm.go:225-243 | the timer writes nothing within 20 Unix seconds of another write under the id, unless that answered a duplicate PUBREC |
| `Outbound.LateWriteIffPubrec` | broker/client.go:298-314 | when the timer writes for an id, something else was written under it within the last 20 Unix seconds iff a PUBREC for it was handled within them |
| `Outbound.DuplicatePubrecChangesNothing` | broker/client.go:298-314 | a PUBREC for an element that is Pubrel already, or for an unknown id, is answered and changes nothing inflight |
| `Outbound.PubrelSoonAfterDuplicate` | broker/client.go:298-314 | a run with a duplicate PUBREC at 19 s in which the timer writes the PUBREL again at 20 s |
| `Outbound.ClosedIsWrittenNothing` | broker/client.go:821-843 | once closed, a client is written nothing more in any run |
| `Outbound.DeliveryArms` | broker/comm.go:157-177 | QoS 1 and 2 leave the running timer or start one due in 20 s; QoS 0 is only written; any other QoS has no effect |
| `OutboundClients.OutboundClient.PublishTo` | broker/comm.go:146-177 | QoS 0 is written; QoS 1 and 2 are entered, written and the timer is armed; other QoS does nothing |
| `OutboundClients.OutboundClient.EnsureRetryTimer` | broker/comm.go:180-194 | a set timer stays; otherwise one is started after the given or the default interval |
| `OutboundClients.OutboundClient.RetryDelivery` | broker/comm.go:207-245 | the callback with its copy and its loop is one timer step under the order of its map iteration |
| `OutboundClients.OutboundClient.ProcessPuback` | broker/client.go:286-293 | the element is forgotten, if there is one |
| `OutboundClients.OutboundClient.ProcessPubrec` | broker/client.go:294-314 | a Publish element moves to Pubrel with a new timestamp; a PUBREL is written in any case |
| `OutboundClients.OutboundClient.ProcessPubcomp` | broker/client.go:323-326 | the element is forgotten |
| `OutboundClients.OutboundClient.WriterPacket` | broker/client.go:821-843 | nothing is written on a closed client |
| `Inbound.DeliveriesMatchReleases` | broker/client.go:423-434 | in every reachable state a packet id was delivered at most once more than it was released, and only while waiting; exactly so iff no PUBREC write failed for it; a positive bound on the table is kept |
| `Inbound.EntriesExpireInTime` | broker/client.go:845-880 | in every reachable state each entry has a pending timer of its own and is at most 20 s old; that timer removes it; no callback removes an entry of real age 19 s or less |
| `Inbound.DeliveryIsExact` | broker/client.go:423-434 | in every run a publication whose id is not waiting, with room in the table, is entered with the Unix time and delivered if its PUBREC was written, lost if not; any other publication has no effect; no other step delivers or loses |
| `Inbound.DeliveredAreCounted` | broker/client.go:423-434 | in every reachable state an id has been delivered once for each such publication with a written PUBREC |
| `Inbound.DuplicateIsNotDelivered` | broker/client.go:845-857 | until a PUBREL for the id or 20 Unix seconds later, publishing the id again has no effect (section 4.3.3 of MQTT 3.1.1) |
| `Inbound.ReleasedIsFreeAgain` | broker/client.go:882-890 | after a PUBREL the next publication under the id is entered if there is room, and delivered if its PUBREC is written |
| `Inbound.StepKeepsInv` | broker/client.go:845-890 | every step keeps the entries with their timers, the balance of registrations, deliveries and releases, and the bound |
| `InboundClients.InboundClient.IsAwaitingFull` | broker/client.go:859-867 | full iff there is a bound and the table has reached it |
| `InboundClients.InboundClient.RegisterPublishPacketId` | broker/client.go:845-857 | refused iff the table is full or the id is waiting; otherwise entered with the Unix time and a 20 s timer |
| `InboundClients.InboundClient.ProcessQos2Publish` | broker/client.go:423-435 | the publication is delivered iff it was registered and the PUBREC was written |
| `InboundClients.InboundClient.PubRel` | broker/client.go:882-890 | releases a waiting id, reports an unknown one |
| `InboundClients.InboundClient.ExpireAwaitingRel` | broker/client.go:869-880 | the loop that deletes while iterating removes exactly the entries of 20 Unix seconds or more |
| `Lifecycle.StepKeepsInv` | broker/client.go:506-808 | every step keeps trie, subMaps, registry and wills consistent |
| `Lifecycle.TrieAgreesWithSubMap` | broker/client.go:506-578 | in every reachable state the trie entries of a connected CLIENT are exactly the values of its subMap, one for each key, each at the path of its stripped topic; a closed CLIENT has none |
| `Lifecycle.CloseTakesOut` | broker/client.go:785-798 | Close takes every entry of a CLIENT out of the trie |
| `Lifecycle.ClosedIsNeverAnswered` | broker/client.go:760-798 | once a CLIENT is closed no later state answers any topic with one of its subscriptions |
| `Lifecycle.CodesTellWhatIsGranted` | broker/client.go:522-580 | a SUBACK has one code for each topic: the QoS if access, share prefix, QoS and filter are in order, 0x80 otherwise |
| `Lifecycle.SubscribeTakesEffect` | broker/client.go:522-578 | after a SUBSCRIBE a topic is subscribed with the QoS of its last try if that was granted, and not subscribed if it was refused |
| `Lifecycle.SubscribeLeaves` | broker/client.go:522-578 | a topic that the packet does not try is untouched |
| `Lifecycle.UnsubscribeTakesEffect` | broker/client.go:713-734 | after an UNSUBSCRIBE exactly the named topics are gone |
| `Lifecycle.RegistryIsExact` | broker/broker.go:347-383 | in every reachable state each registry entry is the connected client of that kind and id, every connected client is the registered one, and what Close removes by id is the closing client (section 3.1.4 of MQTT 3.1.1) |
| `Lifecycle.CloseKeepsRegistry` | broker/broker.go:602-614 | removal by kind and id hits the closing client itself |
| `Lifecycle.WillIsExact` | broker/client.go:760-808 | in every state of every run: a will is published at most once, never after a DISCONNECT was read, and by the Close of its client exactly if there was one and no DISCONNECT had been read (section 3.1.2.5 of MQTT 3.1.1) |
| `FanOut.AnsweredOnce` | broker/client.go:457-461 | in a consistent state a stored subscription is answered once if its own filter matches, any other never |
| `FanOut.ChosenOnce` | broker/client.go:468-485 | each due subscription is served or set aside exactly once |
| `FanOut.PublishIsExact` | broker/client.go:443-493 | in every reachable state, for any order and draw: a stored, matching, direct subscription is called once, except that a router's is not called for a publication that is not a client's; one shared subscription more by the same rule if there is any, whatever its group; no other |
| `FanOut.ClientGetsOneCopyPerFilter` | broker/client.go:468-485 | a connected client with k matching direct filters gets exactly k copies outside the shared draw |
| `FanOut.EveryShareCanBeDrawn` | broker/client.go:487-491 | every stored, matching shared subscription, other than a router's for a publication that is not a client's, is the one called for some draw |
| `FanOut.RouterIsSkipped` | broker/client.go:472-476 | a publication that is not a client's makes no call for any router |
| `BrokerRuns.ShareSyntax` | broker/client.go:541-549 | a topic is parsed to group and filter iff it is `$share/`, a non-empty group of letters, digits, `_` and `-`, `/` and a filter without line feed; a topic without the prefix is left alone |
| `BrokerRuns.CodesAreExact` | broker/client.go:522-580 | the return code is the QoS if it is 0, 1 or 2, access is allowed and the topic asks for a well-formed filter, and 128 otherwise |
| `BrokerRuns.SubscribeIsStored` | broker/client.go:541-572 | in every run a topic in order is stored afterwards at the path of its filter without the share prefix, with its group and QoS, and in subMap under the topic as it came |
| `BrokerRuns.PeerSubscribeIsStored` | broker/client.go:613-650 | the same for the SUBSCRIBE of another broker |
| `BrokerRuns.CloseLeavesIff` | broker/client.go:785-798 | Close leaves in the trie exactly the entries that subMap does not hold |
| `BrokerRuns.OrphanIffRepeated` | broker/client.go:630-647 | in every run a connection has an entry in the trie that its subMap does not hold iff it is another broker that repeated a SUBSCRIBE to a topic it was subscribed to |
| `BrokerRuns.ReplacedIsAnsweredForEver` | broker/client.go:630-647 | the replaced entry is answered for every matching topic in every later state, after Close too |
| `BrokerRuns.ClosedRouterIsAnswered` | broker/client.go:630-647 | a run in which a router subscribes to `a` twice and is closed, and `a` is still answered with its entry |
| `BrokerRuns.ClosedIsInert` | broker/client.go:506-509 | the handlers of a closed client, and closing it again, have no effect |
| `BrokerRuns.WillIsTheOneGiven` | broker/client.go:799-801 | in every run the step that closes a client, by Close or by takeover, publishes the very packet it connected with, or none if a DISCONNECT was read in between |
| `RetainedDelivery.ListIsHistory` | broker/client.go:576 | in every run a connection's list of retained messages is what all its SUBSCRIBEs so far found, in order |
| `RetainedDelivery.SubscribeWritesHistory` | broker/client.go:576-597 | in every run a SUBSCRIBE of a connected client writes what its earlier ones found and then exactly the messages that its own granted filters match; the latter alone iff the earlier ones found none |
| `RetainedDelivery.WrittenAgain` | broker/client.go:591-597 | with a message retained under `a`, a SUBSCRIBE to `a` and then one to `b`, the second writes that message although `b` matches nothing |
| `BrokerObjects.BrokerObject.ProcessClientSubscribe` | broker/client.go:506-598 | the loop over topics is the subscribe step, with its return codes and the retained messages found; after a SUBACK that could be written the whole list is written; a closed client is ignored |
| `BrokerObjects.BrokerObject.ProcessClientUnSubscribe` | broker/client.go:703-734 | the loop over topics is the unsubscribe step |
| `BrokerObjects.BrokerObject.CloseClient` | broker/client.go:760-808 | Close is the close step under the order of its iteration over subMap, and the will, if there is one, goes to every subscription that the trie then answers; closing twice does nothing |
| `BrokerObjects.BrokerObject.PublishMessage` | broker/broker.go:616-636 | writes to every subscription of one answer of the trie, or to none if the lookup fails |
| `BrokerObjects.BrokerObject.HandleConnection` | broker/broker.go:347-383 | registration closes the old connection of that kind and id, with its will, then stores the new one |
| `BrokerObjects.BrokerObject.ProcessPublishMessage` | broker/client.go:443-493 | retains if asked to, calls nothing if the lookup fails, otherwise makes the fan-out's calls; subscriptions and connections are untouched |
| `EndToEnd.ServeWrites` | broker/comm.go:146-177 | a live client is written one copy for each call and keeps the packet inflight iff its QoS is 1 or 2 |
| `EndToEnd.RunKeepsInv` | broker/client.go:760-808 | in every joint run of connections, subscriptions, publications, acknowledgements, timers and time, each client object's outbound machine is consistent, on the common clock, and live iff the client is connected |
| `EndToEnd.PublicationReachesClient` | broker/client.go:443-493 | in every joint run a publication to a well-formed topic is written to a connected client once for each matching direct filter and once more if the draw falls on it, and is inflight exactly if its QoS is 1 or 2 and it was written |
| `EndToEnd.SubscribeReachesClient` | broker/client.go:576-597 | in every joint run a SUBSCRIBE whose SUBACK is written brings its client the list so far and then exactly what its granted filters match, and changes nothing else of its outbound state; without the SUBACK nothing is written |
| `EndToEnd.PublicationIsWithheld` | broker/client.go:457-476 | in every joint run a publication with an unknown QoS leaves every outbound state alone, and one that is not a client's leaves those of all routers alone |
| `EndToEnd.PublicationIsRetained` | broker/client.go:451-455 | in every joint run a publication that asks for it is retained at its own path only, or clears it with what that loses; any other, or one to a malformed topic, changes nothing that is retained |
| `EndToEnd.WillReachesClient` | broker/broker.go:616-636 | in every joint run, when a client that connected with a will is closed by Close or takeover and no DISCONNECT was read, every other connected client is written that very packet once for each of its matching filters and is otherwise unchanged |
| `EndToEnd.NewClientIsFresh` | broker/broker.go:331-339 | in every joint run a new connection starts with nothing written, nothing inflight and no timer, takeover included |
| `EndToEnd.PublicationIsAcknowledgedOrResent` | broker/comm.go:146-245 | in every joint run, 40 s after a QoS 1 or 2 publication was written to a connected client it has been acknowledged, displaced by another packet under its message id, lost to a Close, or written again unchanged at an age from 20 to 39 s |
| `WorkerPools.ClientsAreServedInOrder` | pool/fixpool.go:31-58 | for every interleaving and every hash function a client's finished, running and queued tasks are its submissions in order, at most one runs at a time, and no queue exceeds 1024 |
| `WorkerPools.TasksAreAtHome` | pool/fixpool.go:13-43 | in every run there are max(1, maxWorkers) queues; a queued or running task is with worker `hash(uid) % n`; submitting waits while that queue holds 1024 tasks and appends to it alone |
| `WorkerPools.StepKeepsInv` | pool/fixpool.go:31-58 | submitting, taking and finishing keep every task with the queue of its client and in order |
| `WorkerPools.WorkerPool.constructor` | pool/fixpool.go:13-43 | at least one worker, each with an empty queue of its own |
| `WorkerPools.WorkerPool.Submit` | pool/fixpool.go:31-36 | the index is in range; a nil task is not sent, a send on a full queue waits, any other goes to the end of the client's queue |
| `WorkerPools.WorkerPool.TakeTask` | pool/fixpool.go:45-58 | an idle worker takes the oldest task of its queue |
| `Acl.SubscribeTopicSpilt` | plugins/auth/authfile/spilt.go:9-33 | the split with empty ends as `/`, or none for `#` before the end, an inner empty level or an inner `+` that does not fill its level |
| `Acl.PublishTopicSpilt` | plugins/auth/authfile/spilt.go:35-52 | the split with empty ends as `/`, or none for a wildcard or an inner empty level |
| `Acl.PubTopicMatch` | plugins/auth/authfile/aclcheck.go:110-128 | holds iff the rule has no more levels than the topic and agrees level by level up to a final `#` |
| `Acl.SubTopicMatch` | plugins/auth/authfile/aclcheck.go:130-148 | the same, where a `+` of the filter agrees with every level of the rule |
| `Acl.PublishCheckIsLevelwise` | plugins/auth/authfile/aclcheck.go:110-128 | for all strings that can be split, empty ends included: the rule has no more levels than the topic, and up to a final `#` each is `+` or the same |
| `Acl.SubscribeCheckIsLevelwise` | plugins/auth/authfile/aclcheck.go:130-148 | likewise, with `+` on either side |
| `Acl.EmptyFirstLevel` | plugins/auth/authfile/spilt.go:35-52 | of the rules `x/a` exactly `/a` and `+/a` cover the topic `/a` |
| `Acl.UnsplitByCharacters` | plugins/auth/authfile/spilt.go:9-52 | which strings cannot be split, said of single characters |
| `Acl.CoversEverythingIffUnsplit` | plugins/auth/authfile/aclcheck.go:110-148 | a rule covers every publish topic iff it cannot be split, and likewise every filter |
| `Acl.UnsplitRules` | plugins/auth/authfile/spilt.go:9-33 | `#/a` and `a//b` cannot be split, and the topic index accepts the second |
| `Acl.AccessVersusIndex` | plugins/auth/authfile/aclcheck.go:110-128 | on well-formed strings without empty levels the access rule and the filter relation differ exactly on longer topics under a rule without `#` and on the parent level of a rule ending in `#` |
| `Acl.SubscribeAndPublishAgree` | plugins/auth/authfile/aclcheck.go:130-148 | on topics without wildcards both checks agree, for every rule |

## Left out

- OutboundClients.OutboundClient.WriterPacket: does not model the error result nor the branch that closes a client whose connection is gone; a client loses its connection only in `Close`, which is one step.
- BrokerObjects.BrokerObject.CloseClient: does not model the messages to the bridge, to other brokers and to `$SYS` topics, nor reconnecting.
- BrokerObjects.BrokerObject.HandleConnection: models the registration, not reading and answering CONNECT.
- BrokerObjects.BrokerObject.ProcessClientSubscribe: does not model the session and telling other brokers; whether the SUBACK could be written is a parameter.
- BrokerObjects.BrokerObject.ProcessClientUnSubscribe: does not model the session, writing the UNSUBACK and telling other brokers.
- Sockets, TLS, websocket, HTTP, metrics, logging and configuration: input and output without logic of their own.
- Packet encoding and decoding, UTF-8 validation of fields: packets are values here.
- Kafka publishing and HTTP authentication: network clients; only the matcher of the bridge is modelled.
- Reference counts of router subscriptions (`addSubMap`, `delSubMap`): their outcome is a free choice of the peer steps.
- Which brokers a message travels through in a cluster: the rule on routers is modelled, loops across brokers are not.
- Session persistence: plain map operations that would only add easy members.
- RetainedRuns.RunSimulates: is stated for runs with well-formed topics; `RetainedRuns.RefusedTopicLeavesNodes` shows that a map of messages does not determine what a refused topic leaves, and `RetTrie.RemoveAt` is exact for every trie.
- Interleavings inside a handler, a callback or `Close`: each is one atomic step, so data races on client fields are not covered.
- Client objects are records in a table keyed by address; pointers between clients and aliasing of their maps are not modelled.
- The inflight elements are values in the map; the callback's copy holds ids where the program holds pointers to the elements, which is the same within one atomic step.
- `equal` on values other than subscription pointers, and the file reading and user checks of the access control: only pointers are stored, and the checks are simple case distinctions.
- `pool/pool.go` and the cluster channel of `SubmitWork`: the file is entirely commented out, and the channel bypasses the pool.
