# Verified cores of the resolver, the message catalogs and the argument tools

This project models, in Dafny, the parts of the repository that are hardest to get right by
reading them, and proves what they are for.

**The adns resolver (lib/adns).** A query moves between the queues udpw, tcpw, childw and
output; queries spawn child queries; all queries share one TCP connection with four states.
`QueryNet.dfy` holds the queries as a value (a map from query numbers to records, and four
sequences of numbers) with the invariant of check.c, `Consistent`. `Connection.dfy` holds what
is true of the connection, with a ghost history of everything written, sent, received and
handed on since it was opened, and of how many connections each waiting query has outlived.
`Resolver.dfy` is the resolver itself, a class whose methods are the functions of event.c,
query.c, transmit.c and reply.c. What the library does not decide itself comes from a `World`:
the packets made for names, the results of connect(), writev() and sendto(), and what the records
of a datagram say; the results of read(), write() and recvfrom() are scripts. All of these are
arbitrary, except that a sweep of timeouts is only run where connect() does not fail at once for ever.
`Valid()` is the invariant together with the state of sockets, buffers and retry counts; every public
call keeps it, and `Run` says so for whole runs of any events. `ResolverRuns.dfy`
has concrete runs in which a promise is broken. `TimeArith.dfy`, `TcpFraming.dfy`,
`SearchList.dfy`, `DnsName.dfy`, `DnsCodec.dfy` and `DnsReader.dfy` are the smaller cores:
deadlines, framing, the search list, compressed names and names as text. `AnswerMemory.dfy` and
`AnswerStore.dfy` are the memory of the answers: a heap of blocks, the answers that point into it,
the tree of queries whose answers move upwards, and the final copy of an answer into one block.

**The libintl catalog engine (intl).** `Plural.dfy` has the Bison tables of plural.c as they
stand and the parser that runs on them; `PluralRun.dfy` and `PluralSound.dfy` prove that it
ends on every input, never touches a stack below its bottom or a value that was not stored,
and accepts exactly C's grammar of plural expressions; `PluralText.dfy` adds the lexer and the
parse loop on text. `CatalogIndex.dfy` is the double-hashing index, and `TranslationCache.dfy`
the cache of translations with the calls that must invalidate it.

**Other cores.** `Getopt.dfy` (exchange, and whole scans in the three orderings), `Inet.dfy` and
`InetCode.dfy` (IPv6 addresses as text), `Binds.dfy` (the bind table's list, which reorders
itself while it is traversed).

Where the code does less than its documentation says, the model follows the code, a lemma or
contract states exactly when the promise is kept, and where it helps a run shows it broken:

- adns__querysend_tcp queues the wrong length byte when writev stops after one byte. The frame
  survives if and only if that did not happen or both length bytes are equal
  (`TcpFraming.PartialWrite`); `Connection.StreamFramed` carries this over the whole stream.
- The reader of quoted names takes `\ddd` as decimal, the writer prints octal. Text and question
  round trip if and only if every byte is below 8 or in 33..126 (`DnsCodec.TextRoundTrip`,
  `DnsNameReader.SameQuestion`).
- Decoding a name ends if and only if it meets no cycle of compression pointers
  (`DnsName.EndsIffNoCycle`).
- An NXDOMAIN reply over TCP to a search-list query runs into the assertion of adns__query_send if
  and only if one of the names left yields a packet before any is refused
  (`Resolver.AdnsState.HandleReply`, carried up to `ProcDgram`, `ReadTcp` and `Run`;
  `ResolverRuns.SearchFails`).
- adns__search_next does not reset the retry count. A search over UDP, all of whose names do not
  exist, tries every name that yields a packet and comes to its verdict if and only if, of its first
  UDP_MAX_RETRIES moves, a resend or a reply each, as many are replies as there are such names;
  else it ends with timeout (`Resolver.AdnsState.SearchVerdict`, of runs in `SearchFor`;
  `ResolverRuns.EveryReply`, `ResolverRuns.SixteenNames`).
- connect() failing at once raises retry counts without the sweep that fails queries. Without
  such failures every state of every run is within the retry bound of check.c, and a query
  outlives at most nservers + 1 connections, not counting those that broke in tcp_connected before
  its turn (`WithinRetries`, in `Perform` and `Run`). If all servers refuse at once, the bound
  survives if and only if nobody who waits had been retried more than once (`QueryNet.RefusalsKeepBound`;
  `ResolverRuns.RefusedThrice` breaks it, `ResolverRuns.Outlives` has a query that outlives three
  connections to one server because writes fail before its turn).
- For the same reason the loop of tcp_events leaves the disconnected state if and only if some
  connect() to come does not fail at once (`DialUntilUp`, `DialForever`; `ResolverRuns.NeverUp`).
- Messages that arrive together are lost if and only if one before the last of them trips an
  assertion, or leads to a query that has to be sent over TCP while nothing is queued, and writev()
  fails for good at that call (`Resolver.AdnsState.ReadTcp`, `HandedUnless`, `Breaks`;
  `ResolverRuns.LostMessage`).
- Only the first call of getopt steps over a '-' or '+' at the front of its option string. The scan
  is the one for the rest of the string if and only if no later call meets that character where it
  makes a difference as an option (`Getopt.PrefixQuirk`; `Getopt.PrefixDiffers`).
- Without a table of long options getopt reads through a null pointer if and only if it comes to an
  argument for "W;" (`Getopt.Scan`).
- A stacked bind is inserted behind the entry it stacks on with no hits, which breaks the order
  of the list unless nothing live behind it has been hit (`Binds.AddKeepsOrder`).

## Model

| member | source | states |
|---|---|---|
| Resolver.AdnsState.Run | lib/adns/check.c:63-159 | over any run of submit, cancel, timeouts, readable, writeable, exceptional and check, the invariant of check.c, as far as queues, records, family and connection go, holds after every call, with its retry bound where no connect() fails at once; timeouts are run only where connect() does not fail at once for ever; the queries outstanding at the end are those at the start and those that came, one new number for each adns_submit, without those named by a cancel or returned by a check; the run stops early only at a message over TCP that is fatal where it is handed over, while a search-list query waits on tcpw |
| Resolver.AdnsState.Perform | lib/adns/internal.h:243-293 | each public event keeps the invariant; a submission adds exactly one query with the next number, sent or failed as its names call for, a cancel takes out exactly the query named, a check exactly the finished query it returns, and nothing else changes who is outstanding; the queries of the user that wait over UDP or are finished stay as they are, but for one turn in the sweep of each whose deadline has passed, and for the datagrams that answer them |
| Resolver.AdnsState.Submit | lib/adns/query.c:203-268 | exactly one new query joins those the user waits for; it fails with the verdict on its name, or the packet for the first name that yields one is sent as adns__query_send would, or no name does; nothing overdue is queued |
| Resolver.AdnsState.Cancel | lib/adns/query.c:473-499 | a query and its whole tree of descendants leave every queue, and nothing else changes |
| Resolver.AdnsState.CancelChildren | lib/adns/query.c:444-451 | cancelling the children one after the other is the same as removing all their trees at once |
| Resolver.AdnsState.UserCancel | lib/adns/query.c:473-499 | a query the user cancels goes with its tree, and the invariant holds again |
| Resolver.AdnsState.QueryDone | lib/adns/query.c:546-588 | the nested completion of child, parent and further ancestors is the value Complete |
| Resolver.AdnsState.QueryFail | lib/adns/query.c:590-594 | failing a query drops its children and its records and completes it with that status |
| Resolver.AdnsState.RunCallback | lib/adns/types.c:488-505 | after a child's end the parent waits on, completes or fails as its callback says |
| QueryNet.CompleteKeepsConsistent | lib/adns/query.c:546-588 | completing a query, through all the ancestors it completes in turn, keeps the invariant of check.c |
| QueryNet.CompleteSettles | lib/adns/query.c:571-588 | no query the user waits for is lost, waiting queries are left alone, and the only query that can reach the output queue is the root of the completed one |
| QueryNet.FailKeepsConsistent | lib/adns/query.c:590-594 | failing a query keeps the invariant of check.c |
| QueryNet.FailSettles | lib/adns/query.c:590-594 | failing a query loses no root and touches no waiting query |
| QueryNet.PruneKeepsConsistent | lib/adns/query.c:473-499 | removing whole subtrees keeps every queue, parent link and child list consistent |
| QueryNet.PruneTwice | lib/adns/query.c:444-451 | removing subtrees in two steps is removing them at once |
| QueryNet.DetachPruneFree | lib/adns/query.c:473-499 | unlink from the parent, cancel the children, leave the queue and free is the removal of the whole subtree |
| QueryNet.NothingWaitsForChildren | lib/adns/event.c:653-677 | if no query waits for the network then none waits for children, so adns_check need not look at childw |
| Resolver.AdnsState.Check | lib/adns/event.c:653-677 | a null query gets ESRCH if and only if no query at all is outstanding; an answer is the wanted one or the first in the output queue, and it is removed with nothing else |
| Resolver.AdnsState.FindQuery | lib/adns/reply.c:80-100 | the query a datagram answers is the first on its queue with that id, question and server; without one, no waiting query is answered |
| Resolver.AdnsState.ProcDgram | lib/adns/reply.c:32-370 | a datagram that answers no query changes nothing; any other has, for the first query that it answers, the outcome of its error code or of its records, and leaves the others of the user that wait over UDP alone; the assertion fails if and only if it came over TCP and is nxdomain for a search-list query one of whose names left yields a packet |
| Resolver.AdnsState.HandleReply | lib/adns/reply.c:231-370 | the outcome of every kind of reply as an exact next state of queries, queues, connection and packet numbers: the failure with its status, a new start over TCP or for the canonical name, records with one child sent and adopted for each that needs one and then waiting, completion or failure, or the next name of the search list; and exactly when the assertion fails; only what a new connection costs is left open |
| Resolver.AdnsState.SpawnChild | lib/adns/types.c:507-556 | the child has the next query number, waits for an answer, has the parsed query as its parent and the callback of its record, and is the last of its children; of all other queries only retry counts change |
| Resolver.AdnsState.SpawnChildren | lib/adns/reply.c:315-337 | the records that need one get a child each, numbered and listed in the order of the records, each sent as adns__query_send would from the state that the one before it led to |
| Resolver.AdnsState.Renew | lib/adns/reply.c:350-369 | a query about to be restarted has zero retries, no records and a new packet exactly if it follows an alias, and nothing else changes |
| Resolver.AdnsState.Restart | lib/adns/reply.c:350-370 | the restarted query is sent with that record, or fails |
| Resolver.AdnsState.QuerySend | lib/adns/transmit.c:226-261 | the query fails with timeout if and only if it goes over UDP and its retries are used up; else it is the last on udpw with one datagram more, or the last on tcpw, where on an open connection it alone is charged and the frame is taken, queued or breaks the connection as the next writev() says, and on a connection that is on its way or broken nothing else changes |
| Resolver.AdnsState.SendUdp | lib/adns/transmit.c:242-260 | the query goes to the end of udpw with one more retry, the server that was its turn marked as asked, the next server in turn and a deadline two seconds ahead |
| Resolver.AdnsState.SearchNext | lib/adns/query.c:150-187 | the names passed in one call are the first ones that were left, one packet number each, up to the first that yields a packet or is refused; the position afterwards is that of the names passed; none left is nxdomain; the assertion fails exactly for a packet of a query from tcpw; the mutual recursion with query_simple ends even if every name is too long |
| Resolver.AdnsState.QuerySimple | lib/adns/query.c:126-148 | a name that is too long sends a search query on to its next name and fails any other; an invalid name fails it with its status; a packet is sent |
| Resolver.AdnsState.SearchFor | lib/adns/query.c:150-187 | a whole search over UDP by calls of the user alone: adns_submit, then for every move the sweep after the deadline or a reply that answers the query and says that there is no such name; in every state between the calls the position is that of the names passed, the datagram and id are those of the packet for the last of them, and names that are too long are passed over; it ends with its verdict if and only if, of its first fifteen moves, as many are replies as there are names that yield packets, else the fifteenth ends it with a timeout |
| Resolver.AdnsState.SearchVerdict | lib/adns/transmit.c:237-260 | for any moves and any names, the condition under which a search comes to nxdomain or to the refusal of a name, and when it is a timeout or still waits |
| Resolver.AdnsState.Outcomes | lib/adns/transmit.c:237-260 | the same from any point of a search |
| Resolver.AdnsState.WalkShape | lib/adns/query.c:126-187 | the names that a search passes over are those whose packets are too long, up to the first that yields a packet or is refused |
| ResolverRuns.SixteenNames | lib/adns/transmit.c:237-240 | with fifteen entries in the search list the search ends with timeout although every datagram is answered |
| ResolverRuns.EveryReply | lib/adns/transmit.c:237-240 | if every datagram is answered, a search over n entries ends with nxdomain if and only if n is at most fourteen |
| SearchList.Plan | lib/adns/query.c:150-187 | the names of a fresh search are the bare name, first or last, and every entry of the search list once, in order; which of them are tried in a run is said by SearchFor |
| SearchList.RemainingEntries | lib/adns/query.c:154-168 | from any position of a search what is left are the entries from there on and the bare name if it was not tried |
| SearchList.RemainingAfter | lib/adns/query.c:154-168 | after k names the names left are those left before without the first k |
| Resolver.AdnsState.TimeoutsQueue | lib/adns/event.c:196-216 | after the sweep that starts again from the head, nothing on the queue is overdue; each query of the user on udpw whose deadline had passed has had one turn, a datagram more or the end, and the others stay as they are; nothing changes if nothing was overdue; it ends although callbacks cancel siblings |
| Resolver.AdnsState.FirstTimeoutOf | lib/adns/event.c:196-216 | without acting, the reported wait is within every deadline of the queue |
| Resolver.AdnsState.FirstTimeout | lib/adns/event.c:282-288 | the wait reported to the application is within every deadline, and zero when the connection needs attention |
| Resolver.AdnsState.ProcessTimeouts | lib/adns/event.c:290-297 | if connect() does not fail at once for ever: every query of the user that waits over UDP has its turn exactly if its deadline has passed, afterwards nothing on udpw or tcpw is overdue, and queries waiting for TCP have a connection that is up or being opened |
| Resolver.AdnsState.TcpEvents | lib/adns/event.c:218-272 | if connect() does not fail at once for ever, the loop over connection states ends, never in the broken state, and with queries waiting it leaves the connection up or being opened |
| Resolver.AdnsState.DialUntilUp | lib/adns/event.c:236-240 | with a connect() to come that does not fail at once, the loop gets away from the disconnected state |
| Resolver.AdnsState.DialForever | lib/adns/event.c:236-240 | without one, it is disconnected with the same queries waiting after any number of rounds |
| ResolverRuns.NeverUp | lib/adns/event.c:236-240 | a run that gets there: three queries over TCP and a server that refuses |
| Resolver.AdnsState.Sweep | lib/adns/event.c:225-235 | no query stays on tcpw with more retries than there are servers, the queries of the user with no more stay as they are, nothing changes if none had more, and the connection is disconnected |
| Resolver.AdnsState.TcpBroken | lib/adns/event.c:55-72 | breaking the connection charges exactly the waiting queries if it was being opened, moves to the next server, counts one connection more for all who wait and keeps the connection invariant |
| Resolver.AdnsState.TryConnect | lib/adns/event.c:86-136 | trying the servers in turn keeps the connection invariant and changes nothing but retry counts; if all refuse at once everyone who waits is charged once for each, and the bound of check.c survives exactly if nobody had been retried more than once |
| QueryNet.RefusalsKeepBound | lib/adns/check.c:122-132 | refusals by all servers keep the retry bound if and only if no waiting query had been retried more than once |
| Resolver.AdnsState.RetryBound | lib/adns/check.c:122-132 | without immediate refusals a query on tcpw has at most nservers retries, one more while the connection is up or broken, and has outlived at most that many connections, not counting those that broke before its turn, of which there are none unless a write fails |
| ResolverRuns.RefusedThrice | lib/adns/check.c:122-132 | with one server that refuses at once, the third query over TCP takes the first one past the bound |
| ResolverRuns.Outlives | lib/adns/event.c:74-84 | public calls that lead there: with writes that fail in the turn of another query, a query outlives three connections to the only server |
| Resolver.AdnsState.TcpConnected | lib/adns/event.c:74-84 | every query on tcpw is sent exactly once on the new connection, each frame taken, queued or breaking it as the calls of writev() say; or a write fails, the connection breaks and the first query has paid |
| Resolver.AdnsState.SendFrame | lib/adns/transmit.c:165-215 | one frame joins the stream for the query, whatever part of it writev took; the connection breaks exactly if nothing was queued and writev fails for good |
| Connection.SendKeepsConnection | lib/adns/transmit.c:165-215 | written plus queued bytes stay the concatenated frames, and each query on tcpw counts exactly one frame since it joined, if and only if the connection is up |
| Connection.SendKeepsStream | lib/adns/transmit.c:206-215 | the stream is the frames if and only if no length prefix was split |
| Connection.JoinKeepsConnection | lib/adns/transmit.c:217-224 | a query that joins tcpw has not been sent since, and only it is still to be sent |
| Connection.ClosedIsOk | lib/adns/event.c:46-53 | a closed connection has no frames, no bytes and no sent queries |
| Connection.HandOverKeepsRecv | lib/adns/event.c:342-351 | the bytes read stay the frames handed over followed by the unread rest of the buffer |
| TcpFraming.PartialWrite | lib/adns/transmit.c:206-215 | the bytes sent and queued are the frame if and only if writev did not take exactly one byte of a prefix with two different bytes |
| TcpFraming.SplitUnique | lib/adns/event.c:342-351 | a byte stream is the frames of some messages and a rest without a whole message if and only if these are its messages and its leftover |
| Resolver.AdnsState.TakeMessage | lib/adns/event.c:342-351 | a message is handed over if and only if a whole one is in the buffer; it is the next one of the stream, and is processed as a datagram |
| Resolver.AdnsState.ReadTcp | lib/adns/event.c:339-378 | for any chunking of read() the messages handed over are the first messages of what was buffered and delivered, each processed in the state that the one before it led to; they are all of them, also when the peer closes, if and only if none before the last is fatal or breaks the connection; the loop ends |
| Resolver.AdnsState.HandedUnless | lib/adns/event.c:339-378 | messages are lost if and only if, before the last, one makes an assertion fail, or leads to a query that is sent over TCP with nothing queued when writev() fails for good |
| Resolver.AdnsState.HandedAt | lib/adns/transmit.c:189-205 | a message breaks the connection exactly where the results of sendto() and writev() at the calls it leads to say so |
| ResolverRuns.LostMessage | lib/adns/event.c:342-351 | two replies arrive together; the first is truncated and its restart over TCP breaks the connection, the second is never handed over |
| Resolver.AdnsState.ProcessReadable | lib/adns/event.c:327-430 | a readable connection hands over the messages of its stream under the condition of ReadTcp, a readable UDP socket the datagrams of known servers, one after the other; the invariant is kept, no query the user waits for is lost, and an assertion fails only at a fatal message over TCP |
| ResolverRuns.SearchFails | lib/adns/transmit.c:226-232 | a run in which the assertion fails: a search over TCP whose first name does not exist |
| Resolver.AdnsState.Flush | lib/adns/event.c:461-477 | exactly the bytes that the writes take go out, from the front of the queue and in order, or the connection breaks exactly where a write fails |
| Resolver.AdnsState.ProcessWriteable | lib/adns/event.c:432-487 | a connection on its way is up, with everything that waits sent, unless a write fails; or breaks, by data or an error, with everyone charged and the next server chosen; an open one is flushed; otherwise nothing changes |
| Resolver.AdnsState.ProcessExceptional | lib/adns/event.c:489-505 | an open connection or one on its way breaks, the next server is chosen and, if it was on its way, everyone who waits is charged; otherwise nothing changes |
| TimeArith.AddMs | lib/adns/tvarith.h:31-39 | the deadline is exactly ms milliseconds later and is normalised |
| TimeArith.WaitUntil | lib/adns/event.c:179-194 | the wait is exactly the time to the deadline, zero if it has passed, and is normalised |
| TimeArith.NoLaterThan | lib/adns/event.c:179-194 | the reported wait is no longer than before and within the deadline |
| DnsName.DecodingIsExact | lib/adns/parse.c:70-111 | decoding succeeds with these labels and this end if and only if the bytes denote the labels by section 4.1.4 of RFC 1035, their text has at most 255 characters, and the uncompressed part ends there, within max |
| DnsName.DecodedIsDenoted | lib/adns/parse.c:76-102 | whatever is decoded is what the bytes denote and fits the length limit |
| DnsName.DenotedIsDecoded | lib/adns/parse.c:76-102 | whatever the bytes denote is decoded, within one pass more than it has labels and pointers |
| DnsName.DownwardEnds | lib/adns/parse.c:76-102 | a name whose pointers, as they are met, lead to lower offsets ends, by the measure (255 - namelen, cursor) |
| DnsName.EndsIffNoCycle | lib/adns/parse.c:76-102 | decoding ends if and only if no pass of it, after its first pointer, stands on a cycle of pointers |
| DnsName.NoCycleEnds | lib/adns/parse.c:76-102 | without a cycle decoding ends, by the measure (255 - namelen, pointers left in the chain) |
| DnsName.CycleNeverEnds | lib/adns/parse.c:76-89 | a chain of pointers that comes back is followed for ever |
| DnsNameReader.FindLabel.Next | lib/adns/parse.c:70-111 | within any number of passes, one call finds the next label of the run, ends as the run ends, or has not finished exactly when the run has not |
| DnsNameReader.ParseDomain | lib/adns/parse.c:113-157 | the text is that of all labels, quoted or checked for host characters, or the error is the one of the first obstacle; within any number of passes, also for names that never end |
| DnsNameReader.OwnerMatches | lib/adns/parse.c:184-201 | the owner matches if and only if the two label sequences are equal ignoring ASCII case, however each is compressed; within any number of passes over the owner |
| DnsNameReader.SameLabel | lib/adns/parse.c:192-197 | two labels compare equal if and only if they are equal with letters folded to upper case |
| DnsNameReader.MkName | lib/adns/transmit.c:77-133 | the text is refused as invalid or as too long exactly where the source does; else the question name is the wire form of the labels read, which are legal, and takes at most ol+2 bytes |
| DnsNameReader.SameQuestion | lib/adns/transmit.c:89-126 | a decoded name written out with quoting makes the same question bytes if and only if it is legal and its bytes are below 8 or in 33..126 |
| DnsCodec.TextRoundTrip | lib/adns/parse.c:30-53 | quoted text is read back as the same labels under exactly that condition |
| DnsCodec.ReadNameIsLegal | lib/adns/transmit.c:89-126 | every accepted text gives labels of 1 to 63 bytes and at most 255 bytes in all, and fits the reserved buffer |
| DnsCodec.TextIsRead | lib/adns/transmit.c:89-126 | what mkquery makes of the text of any name: each byte as the decimal reading of its octal digits, or a rejection |
| DnsCodec.AppendQuoted | lib/adns/parse.c:30-53 | the loops over unquoted runs append the quoting of every byte |
| DnsCodec.WireDenotes | lib/adns/transmit.c:123-126 | an uncompressed name denotes its labels wherever it stands in a datagram and ends behind them |
| DnsCodec.QuestionDecodes | lib/adns/transmit.c:77-133 | the name of a built question is decoded to the labels of its text |
| AnswerStore.Store.Run | lib/adns/query.c:374-544 | any calls, in any order, on any tree of queries keep the invariant: each answer points to blocks of its own, each once, that are there and long enough, and the counters cover them |
| AnswerStore.Store.MakeFinal | lib/adns/query.c:510-544 | the block made for a finished answer is large enough for everything that the walk over names, table and records asks for, the counter never becomes negative, no copy runs beyond the block or over another, and the answer in the block says what it said; without memory it is empty; everything else is freed |
| AnswerStore.Store.FinalAnswer | lib/adns/query.c:522-531 | the two names, the table and the parts of all records are copied in that order, and each can be read where it was put |
| AnswerStore.Store.CopyFinal | lib/adns/query.c:428-442 | a block that fits the counter fits the space, and what was copied before stays |
| AnswerStore.Store.AllocInterim | lib/adns/query.c:385-393 | the counters go on to cover everything that any answer reaches |
| AnswerStore.Store.AllocPreserved | lib/adns/query.c:395-403 | the same for both counters |
| AnswerStore.Store.AddPart | lib/adns/types.c:449-486 | a string or table stored in the record being parsed is counted and reached once |
| AnswerStore.Store.AddChild | lib/adns/types.c:507-556 | a child is given a part of the record as the place for its addresses, which no other child has |
| AnswerStore.Store.HostAddrDone | lib/adns/types.c:488-505 | the addresses a child found move with their block into its place in the parent, or the place stays empty, and the child and all below it are freed without leaving a pointer to what they owned |
| AnswerStore.Store.TransferUp | lib/adns/query.c:409-426 | the size taken off the child was counted for it and is counted for the parent |
| AnswerStore.Store.Reset | lib/adns/query.c:453-459 | the descendants and their memory go, the records are forgotten, and what was preserved stays covered |
| AnswerStore.Store.Cancel | lib/adns/query.c:461-499 | a query and its descendants go with exactly their own blocks |
| PluralSound.AcceptsExactly | intl/plural.c:248-298 | the parser returns a tree for some tokens if and only if they are a way to write that tree in C's grammar, with any parentheses, that the stack limit has room for |
| PluralSound.RunIsSound | intl/plural.c:596-972 | the tree returned is the tree of all the tokens read, with C's precedence and grouping |
| PluralParser.WrittenIsParsed | intl/plural.c:596-972 | every grammatical expression is parsed to its tree, or ends in a stack overflow if and only if it needs 10000 entries |
| PluralRun.ParserUndoesPrinter | intl/plural.c:596-972 | running the tables on the printed tokens of a tree returns the tree, unless the stack limit is reached |
| PluralRun.StepKeeps | intl/plural.c:722-972 | no move pops below the bottom of a stack or reads a value that was not stored, and every move uses up a measure, so every input ends |
| PluralRun.RunIsStepN | intl/plural.c:596-972 | the result of a run is that of its moves |
| PluralText.YyLex | intl/plural.c:1172-1302 | the lexer delivers the token at its pointer and advances the pointer behind it |
| PluralText.YyParse | intl/plural.c:547-972 | the parse loop, which reads a token only when it needs one, returns the result of the run on all tokens of the text |
| PluralText.TextRoundTrip | intl/plural.c:547-972 | the text of a tree is parsed to that tree |
| PluralText.LexUndoesText | intl/plural.c:1172-1302 | the tokens of a spelled text are the tokens it was spelled from, numbers modulo 2^64 included |
| PluralText.ErrorsAreFinal | intl/plural.c:1084-1089 | no state of the tables handles the error token |
| PluralText.YyError | intl/plural.c:974-1089 | after an error the loop pops every state and the parse fails |
| PluralText.EvalIsWord | intl/eval-plural.h:28-114 | plural_eval never leaves the range of unsigned long |
| PluralText.PluralLookup | intl/dcigettext.c:1002-1039 | the form chosen is the one numbered by the plural expression, or the first if there is none such; no answer exactly on a division by zero |
| CatalogIndex.FindMsg | intl/dcigettext.c:716-758 | the probe loop ends and finds the first string with the key, as a linear search does |
| CatalogIndex.Augment | intl/loadmsgcat.c:1220-1245 | adding the system dependent strings ends, keeps the index valid for all strings and leaves the free slots that are left over |
| CatalogIndex.Insert | intl/loadmsgcat.c:1224-1245 | the new index goes into the first free slot of its probe sequence |
| CatalogIndex.PlacingKeepsIndexes | intl/loadmsgcat.c:1231-1244 | an insertion keeps every earlier string reachable and in order |
| CatalogIndex.FindMsgSorted | intl/dcigettext.c:761-785 | on a sorted table the binary search finds what linear search and hash search find |
| CatalogIndex.MatchIsFirst | intl/dcigettext.c:724-757 | the first match on a probe sequence is the first string with the key |
| CatalogIndex.FreeMeansAbsent | intl/dcigettext.c:729-731 | a free slot on the probe sequence means that no string has the key |
| CatalogIndex.SameMessageIsKey | intl/dcigettext.c:735-747 | the two length comparisons are implied by equal keys, for static and system dependent strings |
| Probing.EverySlotVisited | intl/dcigettext.c:720-757 | with a prime size every probe sequence passes every slot within size steps |
| Probing.NextSlotIsSlot | intl/dcigettext.c:753-756 | the guarded step is addition modulo the size |
| TranslationCache.Intl.Lookup | intl/dcigettext.c:408-688 | in every state of every run the answer is that of a lookup without a cache |
| TranslationCache.Intl.SetBinding | intl/bindtextdom.c:96-340 | exactly the bound domain changes, the list stays sorted, and no entry of the cache that is still current is stale |
| TranslationCache.Intl.TextDomain | intl/textdomain.c:79-137 | the default domain changes and the cache stays coherent |
| TranslationCache.Intl.FindInFile | intl/dcigettext.c:692-998 | a loaded catalog converts to the codeset of its domain's binding, whenever it was set up |
| TranslationCache.Intl.FindBinding | intl/bindtextdom.c:118-130 | the search that stops at the first larger name finds the domain's binding if there is one |
| TranslationCache.CacheSurvives | intl/bindtextdom.c:132-218 | a call that changes neither directory nor codeset leaves current entries right |
| TranslationCache.ConvSurvives | intl/bindtextdom.c:174-212 | the codeset counters tell stale converters from current ones |
| TranslationCache.BoundAfterInsert | intl/bindtextdom.c:301-319 | enqueueing a binding changes the lookup of its domain and of no other |
| Getopt.Exchange | lib/compat/getopt.c:298-376 | two adjacent blocks of argv change places in the array, each kept in order |
| Getopt.Scan | lib/compat/getopt.c:505-618 | for each ordering, calling getopt until it returns -1 leaves argv as what was passed over and then what is left, with PERMUTE the stable partition of its elements, optind at the boundary, and every option and, in RETURN_IN_ORDER, every other element reported in order; a call does not return if and only if it comes to an argument for "W;" |
| Getopt.PrefixQuirk | lib/compat/getopt.c:401-414 | only the first call steps over a leading '-' or '+' of the option string; the scan is the one for the rest of the string if and only if no later call meets that character as an option for which this makes a difference |
| Getopt.PrefixDiffers | lib/compat/getopt.c:401-414 | with "-a" and the element "-a-" it makes one |
| Getopt.Scanner.Next | lib/compat/getopt.c:505-619 | one call of getopt reports the next option or element of the original order, or ends the scan with the partition |
| Getopt.Scanner.Settle | lib/compat/getopt.c:549-562 | exchanging processed options with skipped non-options changes nothing that the scan will yield |
| Getopt.Scanner.Finish | lib/compat/getopt.c:570-600 | "--" goes before the non-options and optind goes back to the first of them |
| Getopt.Scanner.DecodeOne | lib/compat/getopt.c:772-968 | an option character is reported with its argument, attached, separate or missing |
| Getopt.PartitionIsPermutation | lib/compat/getopt.c:543-611 | the partition has exactly the elements of argv |
| Getopt.InOrder | lib/compat/getopt.c:602-611 | without PERMUTE no element moves |
| Getopt.SwapShortBottom | lib/compat/getopt.c:336-352 | swapping a shorter bottom block with the end of the top block leaves an exchange of what remains |
| Getopt.SwapShortTop | lib/compat/getopt.c:353-369 | swapping a shorter top block with the start of the bottom block leaves an exchange of what remains |
| Inet.WordsRoundTrip | lib/compat/inet_pton.c:146-230 | reading undoes writing, with or without "::" and with either embedded IPv4 form |
| InetCode.AddressRoundTrip | lib/compat/inet_ntop.c:126-214 | for every 16-byte address the text is read back as the same bytes |
| InetCode.Ntop6 | lib/compat/inet_ntop.c:126-214 | the text is the printed form with the longest zero run left out, and is refused if and only if it does not fit |
| InetCode.FindRun | lib/compat/inet_ntop.c:152-172 | the run found is the first of the longest runs of at least two zero words |
| InetCode.Pton6 | lib/compat/inet_pton.c:146-230 | the loop over characters and the shift in place compute the parse of the text |
| InetCode.Pton4 | lib/compat/inet_pton.c:94-130 | the loop over characters computes the parse of the dotted quad |
| InetCode.Shift | lib/compat/inet_pton.c:210-226 | what follows "::" moves to the end of the buffer and zeros take its place |
| Inet.QuadIsRead | lib/compat/inet_pton.c:94-130 | a printed dotted quad is read back as the same four bytes |
| Binds.Table.Check | lib/eggdrop/binds.c:391-457 | a traversal runs the live matching entries of the list it found, each once and in that order, although they move; it stops early only where a breakable table is broken; hits are counted, no entry is lost, links and hit order are kept |
| Binds.Table.CheckPartial | lib/eggdrop/binds.c:427-454 | in a table of partial matches the first whole match wins, else the only partial one, and nothing if there are more |
| Binds.Table.Exec | lib/eggdrop/binds.c:321-365 | the entry gains a hit and, in an exact-match table, moves right behind the last live entry before it with as many hits |
| Binds.HitKeepsOrder | lib/eggdrop/binds.c:339-362 | that move keeps the non-increasing order of hits of the live entries |
| Binds.FiredExactly | lib/eggdrop/binds.c:410-449 | the entries run are wanted ones, each once, and all of them unless the last one run breaks |
| Binds.Table.Cleanup | lib/eggdrop/binds.c:41-58 | the deleted entries are unlinked and the others keep their order |
| Binds.Table.Unlink | lib/eggdrop/binds.c:236-240 | next and prev links stay consistent when an entry is taken out |
| Binds.Table.Add | lib/eggdrop/binds.c:278-318 | a new entry stands behind the first live one with its mask and name, or at the end; in a table that is not stackable that entry is overwritten and keeps place, hits and, without new ones, flags |
| Binds.Table.Lookup | lib/eggdrop/binds.c:180-204 | the first live entry with that mask and name is found |
| Binds.AddKeepsOrder | lib/eggdrop/binds.c:284-291 | a new entry keeps the order of hits if and only if no live entry behind it has been hit |

## Left out

- Allocation failures outside the memory of answers, errno details, signal masks, diagnostics and logging: there every allocation succeeds.
- adns_globalsystemfailure (lib/adns/event.c:602-620): it fails queries that are still linked on their queue, so it does not keep the invariant.
- The saved next pointer of the broken-state sweep (lib/adns/event.c:227-234): the model sweeps the queries still on the queue when a callback cancels siblings.
- The contents of replies: what the records of a datagram say to a query is a function that the model does not look into; names, framing and the matching of questions are modelled.
- adns__findrr_anychk past the owner name, the sorting of records and the reverse-lookup submitters: they would add only easy members.
- Polling and select bookkeeping (lib/adns/event.c:302-325 and 507-600), adns_wait and adns_synchronous: loops around the modelled calls.
- DnsNameReader.ParseDomain: it and the other readers of names make at most a given number of passes and say when they would have to make more, since the code goes on for ever on a cycle of pointers, which EndsIffNoCycle characterises.
- DnsNameReader.MkName: the text is taken to be followed by a NUL; the header and footer of the question are not part of this model.
- Resolver.AdnsState.Submit: the input and output that adns__autosys does at the end of adns_submit (lib/adns/query.c:254) are the same as calls of the modelled events after it and are not made by Submit itself.
- AnswerStore.Store.MakeFinal: the sorting of the records before it and the expiry times are not modelled; the record types are known by the strings and tables that their makefinal functions visit.
- PluralRun.ParserUndoesPrinter: yyparse's growth of its stacks by copying is not modelled, only its limit.
- Byte order of catalogs, iconv, file loading and the header entry of a catalog: byte swapping, conversion and the contents of files are parameters of the model.
- The hash function of the catalogs (intl/hash-string.h): the index is proved for any function of the key.
- TranslationCache.Intl.Lookup: the locale, the files and the working directory are fixed, getcwd() succeeds, the list of languages comes without entries that a set-uid program must skip, and the counters do not wrap around.
- Getopt.Scan: this is getopt, without a table of long options; long options, error messages and callers that change optind between calls are not modelled.
- Getopt.Scanner.DecodeOne: of the branch for "W;" inside the cited lines only the way to the null table of long options is modelled.
- Getopt.Scanner.Next: the branch for long options between the cited parts is not modelled; longopts is null.
- Binds.Table.Check: callbacks that change the table are not modelled; matching of masks and flags is a parameter.
- Binds.Table.Add: mask and function name are not null; the callback, its data and its owner are not modelled.
- Resolver.AdnsState.Run: the allocations of queries, which check.c:155 wants empty on the output queue, are not part of the net; `AnswerStore.dfy` has them in a model of its own.
- Resolver.AdnsState.QuerySend: what the calls of connect() cost that a query over TCP starts without a connection is given only for servers that all refuse and for a connection that is on its way.
- Resolver.AdnsState.SearchFor: the search is the only query there is when it is submitted; that other queries do not matter to it is said by `Perform`, as far as they do not answer to the same id, question and server.
- AnswerStore.Store.Run: which calls come when is a guard of each call there and is not derived from the transitions of the resolver.
- InetCode.Ntop6: the size check of inet_ntop4 when it is called on its own is not modelled.
- lib/eggdrop/base64.c, testcode, the user interface, configuration and the other compatibility functions are not part of this model.
