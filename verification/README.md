# Chat server: framing, storage, delivery, connecting

A model, in Dafny, of the hard core of a small chat system: the HTTP reader and the printers on both sides, the
in-memory message store with its task queue and database workers, the idle connection that polls the store for new
messages, and the two connect sequences. Every property below is proved for all inputs, all reachable states or all
runs. `dafny verify dfyconfig.toml` checks the whole project.

## How the model is built

**Framing** (`Text`, `Numbers`, `Http`, `HttpReader`, `ArmedRead`, `HttpClient`, `HttpMessages`, `Chunked`, `Framing`,
`ChatClient`). The reader of `net/client.cpp` is a class with its stream buffer, the position its armed read has
reached, its match condition and its callbacks; `Feed` lets bytes arrive and alternates attempts and callbacks until an
attempt fails. It is proved against `PumpScan` of `ArmedRead`, where a condition sees the buffer from that position on
and says where the next attempt begins; that against the functions `Fire` and `Pump` of `HttpReader`, which look at the
whole buffer; and those against `ParseStream`, a parser of a whole stream in one go. `HttpMessages` holds the printers,
`Framing` messages as they are written down: any start line, header lines in any case and order, bodies in one piece, in
chunks or zipped. A `string` stands for a byte string.

**Store and workers** (`Store`, `InMemory`, `StoreInvariant`, `Backend`, `History`, `HistoryRuns`, `Server`,
`WorkerSafety`, `Effects`, `Requests`, `Discipline`, `Progress`, `Budget`, `DatabaseWorker`, `ApiClient`, `LockQueue`).
The in-memory store is a class whose loops are proved equal to functions on the whole storage. The server is a step
system: connecting, reading a request, taking a task, each atomic store call of a worker, completed writes, and timer
ticks, in any interleaving of any number of connections and workers. A worker between two store calls is a value of
`Pc`, with the local variables of `processQueue`. The loop body of `processQueue`, written out as methods over the store
class, is proved to be a path of that step system, and the handlers of `ApiClient`, as methods over its fields, to do
what the system's connection steps say. `Effects` says what each command does, in terms of the fields of its request and
of the records, whatever other workers do meanwhile; `Requests` which request a response belongs to.

**Idle delivery** (`Watermark`, `Sequential`, `Polling`, `Delivery`, `AtomicPoll`, `Rounds`, `Overlap`, `Witness`).
`Watermark` is about every run. `Sequential` is about runs where one connection polls again only after the write of its
previous poll; `Overlap` about two polls on any run, whether they take turns or not. `Delivery` says exactly which
stored messages arrive over a sequence of rounds of tick, poll and write. `Rounds` proves that on every run of the step
system where the polls of a connection take turns and are not interrupted by other store calls, such rounds are all that
happens to the connection, whatever goes on between them; `AtomicPoll` that such rounds can always be run. `Witness`
holds runs from the start of the server that show what can go wrong.

**Connecting** (`ConnectRace`, `SyncConnect`, `RangeConnect`). Callbacks as steps, with a measure, and the objects whose
methods are those steps.

The password digest, gzip inflation, the JSON reader `parse_meta` and the JSON bodies are function parameters; the clock
is a parameter of each step; `std::sort` may produce any sorted permutation. Counters and ids are unbounded, except
where the width matters: sizes and timestamps in 64 bits, the doubled history count in 32.

## What the proofs show about the code

- `split` undoes `join` exactly for delimiters that do not overlap themselves (`Text.SplitInvertsJoinIff`). All
  delimiters in use qualify.
- The reader finds a delimiter however the stream is cut because its match conditions return `begin` when they fail
  (`ArmedRead.SegmentationIndependence`); with conditions that return `end`, every header block cut inside its blank
  line would be missed (`ArmedRead.EndMissesStraddlingDelimiter`).
- The history page is right if and only if each message beyond the doubled limit has at least as many kept messages that
  are not older as were asked for (`History.HistoryExactIff`, for all storages, users and counts;
  `HistoryRuns.PageOnARun`, with the two queries on the different storages of a run). For storages in timestamp order
  that is so exactly for counts up to 2^31, as above the doubling wraps (`History.HistoryLosslessIff`). But workers read
  the clock before they lock the store, so a storage need not be in timestamp order; then a page of one message can
  already be wrong (`History.OutOfOrderCanLose`).
- The MySQL history query applies its limit before its filter; `Backend.SelectMessagesPrefix` says exactly when it
  therefore misses messages that the in-memory store finds, and `Backend.MysqlCanMiss` gives two messages for which it
  does.
- Timestamps count whole seconds and the watermark comparison is strict, so a message saved in the same second as one
  already delivered, after that poll, is never delivered (`Delivery.SameSecondIsLost`; `Witness.SomeMessageIsLost` has
  the storages). `Delivery.DeliveredIff` gives the exact condition while timestamps do not run backwards.
- Marking messages as read does not stop another poll from sending them again. On every run two polls of a user both
  send a message if and only if both pick it, and none is repeated if the second one's watermark covers the first batch
  (`Overlap.TwoPollsOnARun`); while nothing is saved and nobody joins, that is the exact condition
  (`Overlap.RepeatsIff`). The 200 ms timer does not wait for a write, so two ticks before a worker is free do send a
  message twice (`Overlap.TwoTicksRepeat`, and `Witness.SentTwice` from the start of the server).
- The commands `CHAT_HISTORY`, `CHAT_STATUS` and `MESSAGE_RECENT` have no branch in `processQueue`; only the first is
  routed. A request that is read and accepted can ever be answered if and only if its command has a branch
  (`Progress.AnsweredIffHandled`). Otherwise the workers drop it and no run changes its connection any more
  (`Progress.UnhandledIsDropped`, `Witness.SomeoneIsDropped`). As long as a connection itself sends no such command, its
  requests are answered once each and in order, whatever the others send (`Discipline.RequestsAreAnsweredOnce`,
  `Budget.EveryRequestIsAnswered`).
- A ping of an idle connection sets the newest timestamp back to 0, below the watermark (`Witness.PingDropsNewest`); the
  watermark itself never goes back (`Watermark.WatermarkNeverDecreases`).
- An HTTP code outside the eight known ones would be printed as 200 (`HttpMessages.ErrorRoundTrip`).
- The reader prefers Content-Length over Transfer-Encoding; RFC 7230 section 3.3.3 says the opposite. The model follows
  the code.
- `/v1/idle` is recognised before the content type is checked, so an idle request may have any content type
  (`ApiClient.Handle`).
- In `sync_connect` a socket that cannot be opened ends the whole sequence, unlike a failed connect, which goes on to
  the next endpoint (`ConnectRace.ResultIsRight`). The timeout does not decide by itself: an attempt that succeeds after
  it still counts, and only one that fails is reported as timed out (`ConnectRace.TimedOutIff`).
- The password of a request is checked once, at its first store call, and stored passwords never change
  (`Effects.AuthorisedOnEveryRun`, `Effects.RecordsStay`).
- Two users may not share a name but two chats may: a message to a chat, or a new member, is refused when a group chat
  and a self chat have the name (`Effects.EveryResponseIsJustified`, `StoreInvariant.ChatNameMultiplicity`).

## Model

| member | source | states |
|---|---|---|
| `Text.FindFirst` | common/utils.cpp:101-130 | a search returns the first occurrence at or after its start, or there is none |
| `Text.FindInExtension` | net/client.cpp:197-266 | an occurrence already in the buffer is found at the same place however many bytes follow |
| `Text.Split` | common/utils.cpp:101-130 | the scanning loop returns the declarative parts, at most `max_parts` of them when that is 2 or more, and ends |
| `Text.Join` | common/utils.cpp:132-143 | the flag-driven loop is the declarative join |
| `Text.JoinUndoesSplit` | common/utils.cpp:101-143 | joining the parts with the delimiter gives the line back, for any line, any non-empty delimiter and any limit |
| `Text.SplitUndoesJoin` | common/utils.cpp:101-143 | splitting a joined list of delimiter-free parts gives the list, if the delimiter has no proper border |
| `Text.BorderBreaksSplit` | common/utils.cpp:101-143 | for a delimiter with a border, a concrete delimiter-free list that is not given back |
| `Text.SplitInvertsJoinIff` | common/utils.cpp:101-143 | the inversion holds on every list exactly when the delimiter has no border |
| `Text.Dequoted` | common/utils.cpp:216-249 | the position loop ends on every input and equals the recursive unescaping |
| `Text.DequotedUndoesQuoting` | common/utils.cpp:216-249 | escaping quotes and backslashes and quoting, then dequoting, is the identity on every string |
| `Text.DequotedUndoesEscaping` | common/utils.cpp:216-249 | the same without the outer quotes |
| `Numbers.StoulOfDigits` | net/client.cpp:793-909 | every digit string in base 10 or 16, with leading zeros or capitals, is read as its value |
| `Numbers.StoulReads` | net/client.cpp:793-909 | behind spaces, a sign and a base prefix the longest run of digits is read modulo 2^64, and how many characters that used |
| `Numbers.StoiReads` | net/client.cpp:767-780 | the same for a status, within 32 bits |
| `Numbers.NoNumberIsRead` | net/client.cpp:767-909 | without a digit there is no number |
| `Numbers.StoulInvertsPrinting` | net/client.cpp:793-831 | reading a number undoes printing it, in decimal and in hexadecimal |
| `Http.MessageConsumes` | net/client.cpp:734-846 | a parsed message uses up at least one byte, so parsing a stream ends |
| `HttpReader.FireDecreases` | net/client.cpp:734-940 | every callback that runs consumes input or advances to a later phase, so callbacks cannot run for ever |
| `HttpReader.FireExtends` | net/client.cpp:734-940 | a callback that can run does the same when more bytes have arrived, which stay behind it |
| `HttpReader.PumpExtends` | net/client.cpp:715-721 | running callbacks before more bytes arrive changes nothing in the end |
| `HttpReader.FeedAllIsPump` | net/client.cpp:715-721 | any segmentation ends in the state of the stream in one piece |
| `HttpReader.ChunksAgree` | net/client.cpp:869-940 | the callback-driven chunk loop agrees with the one-shot chunk parser on every input, finished, broken or stuck |
| `HttpReader.MessageAgrees` | net/client.cpp:734-940 | the same for a whole message |
| `HttpReader.SegmentationIndependence` | net/client.cpp:715-940 | for every stream and every cut, a reader that looks at its whole buffer makes the replies of the one-shot parse, reports its protocol error if any, and leaves its leftover |
| `HttpReader.CutsAreEquivalent` | net/client.cpp:715-940 | two cuts of one stream leave that reader in the same state, even inside a message |
| `ArmedRead.FiresIffMatched` | net/client.cpp:588-909 | from the front of the buffer each match condition is met exactly when its delimiter or its bytes are there, and otherwise asks to begin at the front again |
| `ArmedRead.PositionStays` | net/client.cpp:588-909 | with conditions that return begin, attempts from a remembered position are those on the whole buffer, and the position stays at the front |
| `ArmedRead.SegmentationIndependence` | net/client.cpp:715-940 | for every stream and every cut, also inside a delimiter, the reader that re-arms from the position its condition returned: the same replies, the same protocol error if any, the same leftover as the one-shot parse |
| `ArmedRead.CutsAreEquivalent` | net/client.cpp:715-940 | two cuts of one stream leave it in the same state and position |
| `ArmedRead.EndMissesStraddlingDelimiter` | net/client.cpp:588-598 | had contains_t returned end, every header block cut inside its blank line would stay unread, although complete |
| `HttpClient.BasicTcpClient.Attempt` | net/client.cpp:360-387 | one attempt of the armed read: the condition on the buffer from the remembered position, which moves to where the condition says |
| `HttpClient.BasicTcpClient.ReadUntil` | net/client.cpp:197-266 | with the delimiter in the buffer it never waits: the response is the text before the first one, and exactly that and the delimiter are consumed |
| `HttpClient.BasicTcpClient.Read` | net/client.cpp:268-335 | with enough bytes in the buffer it never waits and consumes exactly the bytes asked for |
| `HttpClient.ParseHeaderLine` | net/client.cpp:522-541 | name before the first colon, value after the spaces behind it, nothing stored for a line without a name |
| `HttpClient.AsyncHttpClient.HandleHeaders` | net/client.cpp:734-846 | filling the reply field by field from the split block is one step of the reader |
| `HttpClient.AsyncHttpClient.ArmBody` | net/client.cpp:793-846 | which read is armed for the body: for a length, for chunks when there is no length and the coding is "chunked", none, or the protocol error; `Framing.MessageIsRead` says what that reads |
| `HttpClient.AsyncHttpClient.HandleBody` | net/client.cpp:811-831 | the sized body is consumed exactly and handed on |
| `HttpClient.AsyncHttpClient.StartProcessChunk` | net/client.cpp:869-913 | one size line is consumed and the size must use up the whole line |
| `HttpClient.AsyncHttpClient.ProcessChunk` | net/client.cpp:915-940 | chunk and line end are consumed, the data appended, the last chunk ends the reply |
| `HttpClient.AsyncHttpClient.ProcessReply` | net/client.cpp:848-867 | a zipped body is inflated or the reply fails |
| `HttpClient.AsyncHttpClient.Feed` | net/client.cpp:360-387 | the object's state and search position after any segment are those of the attempts and callbacks of `PumpScan`, and of the pumped step function |
| `HttpMessages.BlankLineEndsBlock` | net/client.cpp:734-760 | in a printed message the first blank line is the end of the header block, whatever the body contains |
| `HttpMessages.RequestRoundTrip` | client/src/apiclient_utils.cpp:360-367 | parsing a printed request followed by any text yields "post", the resource, the content type under any case, the body, and leaves that text |
| `HttpMessages.OkRoundTrip` | server/src/apiclient.cpp:365-376 | parsing a printed ok response yields status 200 and the body, and leaves what follows |
| `HttpMessages.ErrorRoundTrip` | server/src/apiclient.cpp:288-316 | parsing a printed error response yields the body always and the code exactly when it is a known one |
| `HttpMessages.OkStreamIsParsed` | server/src/apiclient.cpp:365-376 | any concatenation of ok responses is parsed into exactly their bodies in order |
| `HttpMessages.OkStreamIsRead` | net/client.cpp:715-846 | the same for the reader under any segmentation, with an empty buffer at the end |
| `Chunked.FrontIsDecoded` | net/client.cpp:869-940 | any list of non-empty chunks in any hexadecimal spelling is appended, and the loop goes on behind it |
| `Chunked.DecodingInvertsEncoding` | net/client.cpp:869-940 | for any such list, any spelling of the last size and any following bytes: the loop ends with exactly the data and leaves exactly those bytes |
| `Chunked.PrintedSizeSpells` | net/client.cpp:878-901 | the printed hexadecimal length is one of those spellings |
| `Framing.KeysAgree` | net/client.cpp:522-541 | two header names are one key exactly when strcasecmp finds no difference between them |
| `Framing.FieldsAreRead` | net/client.cpp:522-541 | for any header lines, each name has the value of its last line, in any case, and lines without a name are skipped |
| `Framing.StartIsRead` | net/client.cpp:752-786 | a status line gives its number, a request line its verb in lower case and its resource |
| `Framing.MessageIsRead` | net/client.cpp:734-940 | every well-formed message, with its body announced by a length, sent in chunks or absent, and zipped or not, gives its start line, headers and body, and leaves exactly what follows |
| `Framing.StreamIsRead` | net/client.cpp:715-940 | for every stream of such messages and every cut, the handler is called once for each, in order, up to the first body that cannot be inflated, and what follows is left |
| `Framing.BadStartIsReported` | net/client.cpp:747-786 | a first line of one word, or a status that is not a number, is a protocol error |
| `Framing.BadLengthIsReported` | net/client.cpp:793-808 | so is a length that is not a number or does not fit |
| `Framing.BadSizeIsReported` | net/client.cpp:869-901 | so is a chunk size line without a number or with more than it, after any number of good chunks |
| `ChatClient.Client.OnHttpIdleRead` | client/src/client.cpp:450-511 | the first good reply only sets the idle flag, later ones are shown, an error breaks the connection |
| `ChatClient.ErrorBreaksConnection` | client/src/client.cpp:450-511 | whatever the server sends, the client shows the bodies after the first up to the first protocol error or status other than 200, and there breaks the connection |
| `ChatClient.IdleStreamEndToEnd` | client/src/client.cpp:450-511 | from the server's printer through any segmentation the client shows all bodies but the first, in order, with nothing left in the buffer |
| `LockQueue.Queue.Push` | common/lock_queue.hpp:28-33 | appends, as one locked call of the history |
| `LockQueue.Queue.GetTask` | common/lock_queue.hpp:67-78 | takes the oldest item, or nothing, as one locked call of the history |
| `LockQueue.Queue.GetTasks` | common/lock_queue.hpp:80-100 | takes exactly the min(n, size) oldest items, in order, as one locked call of the history |
| `LockQueue.QueueConservation` | common/lock_queue.hpp:28-100 | over every interleaving of the queue's locked calls, items taken in lock order followed by the content are the items pushed in lock order |
| `LockQueue.EveryTakenItemHasOneOwner` | common/lock_queue.hpp:67-100 | the consumers' shares together are the items taken, with multiplicity |
| `Store.MatchesAreMatches` | server/src/inmemory_dbconn.cpp:224-290 | the downward scan visits exactly the matching positions |
| `Store.QueryIsDeclarative` | server/src/inmemory_dbconn.cpp:260-290 | a limited query is filter, reverse, take the first max (all for 0) |
| `Store.GetMessagesIsDeclarative` | server/src/inmemory_dbconn.cpp:224-258 | so is `getMessages`; it marks exactly the stored messages it returned and changes nothing else |
| `InMemory.InMemoryConnection.GetMessages` | server/src/inmemory_dbconn.cpp:224-258 | the backwards loop never leaves its bounds, returns copies with their old flags and updates the store as `GetMessages` says |
| `InMemory.InMemoryConnection.SelectMessages` | server/src/inmemory_dbconn.cpp:260-290 | the loop is the limited query |
| `InMemory.InMemoryConnection.CreateUser` | server/src/inmemory_dbconn.cpp:25-57 | the new storage and user, or no change and the empty user for a taken name |
| `InMemory.InMemoryConnection.CreateChat` | server/src/inmemory_dbconn.cpp:59-82 | the new storage and chat, with a membership only for a positive uid, or no change for a taken name |
| `InMemory.InMemoryConnection.AddUserToChat` | server/src/inmemory_dbconn.cpp:203-216 | adds the pair unless it is there |
| `InMemory.InMemoryConnection.SaveMessage` | server/src/inmemory_dbconn.cpp:218-222 | appends |
| `InMemory.InMemoryConnection.UpdateUserHeartBit` | server/src/inmemory_dbconn.cpp:11-23 | changes the heartbit of the first user with the id |
| `InMemory.InMemoryConnection.LookupUserByName` | server/src/inmemory_dbconn.cpp:84-97 | all users of the name, in order |
| `InMemory.InMemoryConnection.LookupUserById` | server/src/inmemory_dbconn.cpp:99-110 | the first user with the id, or the empty record |
| `InMemory.InMemoryConnection.LookupChatIdsForUserId` | server/src/inmemory_dbconn.cpp:127-140 | the chats of the user's memberships, in order |
| `InMemory.InMemoryConnection.LookupChatByName` | server/src/inmemory_dbconn.cpp:151-164 | all chats of the name, in order |
| `InMemory.InMemoryConnection.LookupChatById` | server/src/inmemory_dbconn.cpp:166-177 | the first chat with the id, or the empty record |
| `StoreInvariant.CreateUserKeeps` | server/src/inmemory_dbconn.cpp:25-57 | keeps ids in order, names unique, self chats, references and the pairing of chat names |
| `StoreInvariant.CreateChatKeeps` | server/src/inmemory_dbconn.cpp:59-82 | the same, and old records stay |
| `StoreInvariant.AddUserToChatKeeps` | server/src/inmemory_dbconn.cpp:203-216 | the same, with no membership pair duplicated |
| `StoreInvariant.SaveMessageKeeps` | server/src/inmemory_dbconn.cpp:218-222 | the same for a message that refers to an existing user and chat |
| `StoreInvariant.GetMessagesKeeps` | server/src/inmemory_dbconn.cpp:224-258 | the same, although flags change |
| `StoreInvariant.UpdateHeartBitKeeps` | server/src/inmemory_dbconn.cpp:11-23 | the same, although a heartbit changes |
| `StoreInvariant.LookupById` | server/src/inmemory_dbconn.cpp:99-110 | under the invariant the record with id n is the n-th, and id 0 comes back exactly when there is none |
| `StoreInvariant.LookupByName` | server/src/inmemory_dbconn.cpp:84-97 | under the invariant a name finds at most one user, with an id other than 0 |
| `StoreInvariant.ChatNameMultiplicity` | server/src/inmemory_dbconn.cpp:25-82 | at most two chats share a name, one made by createChat and one self chat, and the former has the smaller id |
| `Backend.GetMessagesAgrees` | server/src/mysql_connection.cpp:306-335 | with ids in insertion order both back ends return the same messages |
| `Backend.SelectMessagesPrefix` | server/src/mysql_connection.cpp:337-361 | limit-then-filter is a prefix of filter-then-limit, and equal exactly unless one of the newest max fails the predicate while an older message meets it |
| `Backend.MysqlCanMiss` | server/src/mysql_connection.cpp:337-361 | two messages and a limit of 1: MySQL finds nothing, the in-memory store the message |
| `History.MixFromAndToMessages` | server/src/database_worker.cpp:100-120 | the result is some sorted permutation of both lists, cut to max |
| `History.HistoryLosesNothing` | server/src/database_worker.cpp:180-213 | for storages in timestamp order, whoever the users are and whatever was saved between the two queries, the page shows the newest messages of the conversation |
| `History.HistoryCanLose` | server/src/database_worker.cpp:197-199 | for every count above 2^31 a storage in timestamp order where the page is too short |
| `History.HistoryLosslessIff` | server/src/database_worker.cpp:180-213 | over all storages in timestamp order and any users the page is right exactly for counts up to 2^31 |
| `History.ConversationCounts` | server/src/database_worker.cpp:190-207 | a message counts in the conversation once for each time it is stored, if it is from the one user in the self chat of the other, and else not at all |
| `History.ConversationIsBetween` | server/src/database_worker.cpp:190-207 | so for two different users and one storage |
| `History.NewestAreThereIff` | server/src/database_worker.cpp:100-120 | sorting what was kept of a list and cutting shows its newest messages, newest first, none left out being newer, exactly when each dropped message has at least count kept ones not older |
| `History.HistoryExactIff` | server/src/database_worker.cpp:180-213 | for all storages in any order, all users, equal ones too, and all counts: the page is right if and only if that holds of what the limit dropped, and it is always a part of the conversation |
| `History.OutOfOrderCanLose` | server/src/database_worker.cpp:180-235 | a storage with every store invariant, two users and a count of 1 where the page is wrong, because messages were saved out of timestamp order |
| `HistoryRuns.PageOnARun` | server/src/database_worker.cpp:180-213 | on every run, with the two queries on the storages of two different moments and anything in between: each message of the page is from the one user in the self chat of the other and was stored then, and the page shows the newest ones if and only if the same condition holds |
| `HistoryRuns.PageInOrder` | server/src/database_worker.cpp:180-213 | so on every run the page shows the newest messages, as long as messages were saved in timestamp order and the limit did not wrap below count |
| `HistoryRuns.PageIsSent` | server/src/database_worker.cpp:86-98 | from there every step of the worker keeps to that page or ends the task with one message for each of its entries, in order, with their names |
| `WorkerSafety.KnowledgeStays` | server/src/database_worker.cpp:124-350 | the records a worker looked up stay valid whatever other workers do to the store |
| `WorkerSafety.StepSafe` | server/src/database_worker.cpp:124-350 | every atomic step of every branch keeps the store invariant and the worker's knowledge; no reply holds an empty record, "more than one user" is never sent |
| `WorkerSafety.EveryRunIsSafe` | server/src/database_worker.cpp:124-350 | the store invariant on every run, in every interleaving; records are only added |
| `Effects.EveryResponseIsJustified` | server/src/database_worker.cpp:124-350 | on every run, whatever other workers do: the response to each command is right for its request and the storage at that moment, and the step leaves the storage that the request asks for and no other. A sent message has the sender, the recipient's self chat or the named chat, the text and the time; a registration the user, its digest, self chat and membership; a new chat its creator; an added user is in the chat; a shown page or poll only what the user may see; an error its reason. A chat is used only if no other had its name when it was looked up. All other steps change at most a heartbit or read marks |
| `Effects.WrongPasswordIsRefused` | server/src/database_worker.cpp:31-44 | an unknown id ends with 409 and a wrong password with 403, with the storage as it was, and exactly the others go on |
| `Effects.LoginDecides` | server/src/database_worker.cpp:46-71 | logging in is 404 exactly for an unknown name, and otherwise the user's record for the right password and 403 for a wrong one |
| `Effects.AuthorisedOnEveryRun` | server/src/database_worker.cpp:31-44 | on every run a worker past the check holds the id and the password of a stored user |
| `Effects.RecordsStay` | server/src/inmemory_dbconn.cpp:11-222 | no run changes a stored name, password, self chat or chat |
| `Effects.HeartbitIsSet` | server/src/inmemory_dbconn.cpp:11-23 | the heartbit of that user is set and nothing else |
| `Requests.EveryResponseHasARequest` | server/src/apiclient.cpp:460-628 | on every run a response is to the request of its number on its connection, with that command and those parameters, and is right for them |
| `Requests.EveryIdleWasAsked` | server/src/apiclient.cpp:524-545 | an idle connection has the parameters and the starting timestamp of its own request to go idle |
| `Requests.FirstComeFirstServed` | common/lock_queue.hpp:28-78 | on every run tasks are taken in the order they were queued, none lost or taken twice |
| `Discipline.ApplyKeepsOrder` | server/src/apiclient.cpp:439-491 | every event keeps at most one of read armed, task queued, task at a worker and response being written per connection, and answers in request order |
| `Discipline.RequestsAreAnsweredOnce` | server/src/apiclient.cpp:524-628 | on every run, a connection that itself sends no command without a branch has exactly one response for each request, in request order, except the one under way |
| `Discipline.LostForEver` | server/src/database_worker.cpp:124-350 | a request for a command without a branch that was read and not answered is not answered on any run |
| `Discipline.DroppedStaysSilent` | server/src/database_worker.cpp:124-350 | after such a request was dropped, no run changes its connection any more |
| `Discipline.FailedReadIsSilent` | server/src/apiclient.cpp:524-533 | after a request that could not be read no run changes its connection any more |
| `Discipline.TasksEnd` | server/src/database_worker.cpp:124-350 | every step of a worker decreases a measure, so every task ends |
| `Progress.BusyWorkerCanStep` | server/src/database_worker.cpp:124-350 | a busy worker always has a next step |
| `Progress.FinishTask` | server/src/database_worker.cpp:124-350 | a worker alone can bring its task to its one response |
| `Progress.WorkersCanFinish` | server/src/database_worker.cpp:124-136 | from every safe state the workers alone can empty the queue |
| `Progress.AnsweredIffHandled` | server/src/database_worker.cpp:124-350 | in every safe and ordered state: a request that is read can be answered on some continuation if and only if its command has a branch |
| `Progress.UnhandledIsDropped` | server/src/database_worker.cpp:124-350 | from every such state the workers drop a request without a branch, and from there no run changes its connection |
| `Budget.StepCosts` | server/src/database_worker.cpp:124-350 | each step of a worker uses up some of an explicit number of steps, computed from the records in the storage |
| `Budget.WorkIsBounded` | server/src/database_worker.cpp:124-350 | so any run of the workers, however they interleave, has at most that many steps in all |
| `Budget.EveryRequestIsAnswered` | server/src/database_worker.cpp:124-350 | after any run, let the workers go on in any way: when none can make a step, every request of every connection that is not idle and sent no command without a branch has exactly one response, in order |
| `DatabaseWorker.LookupCheckPass` | server/src/database_worker.cpp:31-44 | user or error, as the machine's check step; no error exactly when the request has the id and the password of a user |
| `DatabaseWorker.LookupCheckPassByName` | server/src/database_worker.cpp:46-71 | the same by name, with or without the password |
| `DatabaseWorker.ToApiFormat` | server/src/database_worker.cpp:86-98 | each message with the names of its sender and chat, in order |
| `DatabaseWorker.ToApiFormatBatch` | server/src/database_worker.cpp:73-84 | the same over the batches of several chats |
| `DatabaseWorker.DatabaseWorker.Idle` | server/src/database_worker.cpp:134-166 | the whole poll loop is a path of the step machine with the same response and storage |
| `DatabaseWorker.DatabaseWorker.UserHistory` | server/src/database_worker.cpp:180-213 | the same for the history, for whatever order the sort produces |
| `DatabaseWorker.DatabaseWorker.ProcessTask` | server/src/database_worker.cpp:124-350 | every iteration of processQueue is a path of the step machine at the given time, and for every command but a poll its response and its effect on the storage are those that `Effects` calls right |
| `DatabaseWorker.DoneIsJustified` | server/src/database_worker.cpp:124-350 | an uninterrupted task is right for the storage it began with, in every branch |
| `DatabaseWorker.DatabaseWorker.ProcessNext` | server/src/database_worker.cpp:127-132 | takes the oldest task if there is one and processes it |
| `DatabaseWorker.FormatIsAPath` | server/src/database_worker.cpp:73-98 | the lookups of to_api_format are the machine's formatting steps |
| `ApiClient.RouteInvertsPrinting` | server/src/apiclient.cpp:545-610 | the router undoes cmd2string for every command except the two unknown to it and the idle command |
| `ApiClient.PrintedRequestIsAccepted` | server/src/apiclient.cpp:460-611 | a request printed by the client for a command is parsed, routed and accepted as that command, whatever its body, provided parse_meta takes it |
| `ApiClient.OnlyTicksQueuePolls` | server/src/apiclient.cpp:524-611 | no request becomes an idle task in the queue |
| `ApiClient.RequestIsJudged` | server/src/apiclient.cpp:460-611 | every well-formed request, from its bytes: idle for its resource in any case, 404 for an unknown resource, 400 for a content type other than the two or parameters that parse_meta refuses, else accepted as the command of its resource, with the city for a registration |
| `ApiClient.ApiClient.RequestFromClientReadHandler` | server/src/apiclient.cpp:524-611 | each request becomes exactly one of a queued task, an error response or the start of idling; the ping time stays, and after an idle request the object shows the idle state of the step system |
| `ApiClient.ApiClient.HandlerImpl` | server/src/apiclient.cpp:460-491 | content type and parameters are checked before the task is queued |
| `ApiClient.ApiClient.TimerWaitTaskResultHandler` | server/src/apiclient.cpp:493-522 | a tick raises the watermark to the newest timestamp, decides on the ping and queues one poll; a cancelled timer does nothing |
| `ApiClient.ApiClient.SendMessagesToIdleConn` | server/src/apiclient.cpp:402-420 | the printed response and the timestamp to be stored when its write completes |
| `ApiClient.ApiClient.IdleWriteHandler` | server/src/apiclient.cpp:409-419 | a completed write replaces the newest timestamp, a failed one stops the timer |
| `ApiClient.MaxTimestampOf` | server/src/apiclient.cpp:53-64 | the loop is the maximum over the batch, 0 for none |
| `Watermark.MaxTimestampIsLargest` | server/src/apiclient.cpp:53-64 | that maximum bounds every timestamp and is one of them |
| `Watermark.TickAsks` | server/src/apiclient.cpp:493-522 | a tick polls from the larger of watermark and newest timestamp, asks for a ping when the last one is 6 seconds old, or when the clock went back, unless that wraps, and changes nothing else |
| `Watermark.PingsAreSpaced` | server/src/apiclient.cpp:505-512 | two pings in a row are at least 6 seconds apart while the clock does not go back |
| `Watermark.EntriesFound` | server/src/inmemory_dbconn.cpp:224-258 | what one getMessages finds are distinct stored messages of the chat, strictly newer than the watermark |
| `Watermark.StepFresh` | server/src/database_worker.cpp:142-166 | the poll visits each chat once, so its batch stays free of repetitions and strictly newer than its task's timestamp |
| `Watermark.ApplyKeepsWatermarks` | server/src/apiclient.cpp:402-522 | every event keeps what is said of watermarks and batches |
| `Watermark.WatermarkIsSafe` | server/src/apiclient.cpp:402-522 | on every run the watermark is the starting heartbit or a timestamp from a completed write, and every batch holds distinct stored messages strictly newer than its task's timestamp |
| `Watermark.WatermarkNeverDecreases` | server/src/apiclient.cpp:493-522 | on every run, under any interleaving, the watermark never goes back and no delivered batch is forgotten |
| `Watermark.FailedWriteEndsPolling` | server/src/apiclient.cpp:409-419 | after a failed write no run polls for the connection again |
| `Sequential.ApplyKeepsTurns` | server/src/apiclient.cpp:493-522 | with polls of one connection taking turns, each of its batches is selected against a watermark that covers all earlier ones |
| `Sequential.NoMessageTwice` | server/src/apiclient.cpp:402-522 | on every run where the polls of one connection take turns no stored message is in two of its batches, nor twice in one, whatever other connections do |
| `Polling.SelectedIff` | server/src/inmemory_dbconn.cpp:224-258 | a limited query returns exactly the matches with fewer than the limit stored after them |
| `Polling.PollSendsPicked` | server/src/database_worker.cpp:142-166 | a poll sends a stored message once if the user is in its chat, it is newer than the watermark and fewer than three later messages of the chat are; otherwise not |
| `Polling.PollRepeats` | server/src/database_worker.cpp:142-166 | on storages that differ in flags only, polls against the same watermark send the same messages |
| `Delivery.SentIsCovered` | server/src/apiclient.cpp:402-420 | a message that was sent is not newer than the next watermark |
| `Delivery.OnceCovered` | server/src/apiclient.cpp:493-522 | a message not newer than the watermark is sent by no later poll |
| `Delivery.FirstPollDecides` | server/src/apiclient.cpp:402-522 | if a message is covered after its first poll, that poll decided how often it is ever sent |
| `Delivery.DeliveredIff` | server/src/database_worker.cpp:134-166 | while timestamps do not run backwards, a message is sent exactly once if it is newer than the watermark of its first poll and fewer than three later ones of its chat are, and otherwise never |
| `Delivery.ExactlyOnce` | server/src/database_worker.cpp:134-166 | with at most three new messages in the chat at the poll and every later message strictly newer, each message saved after the heartbit in a chat of the user is delivered exactly once |
| `Delivery.SameSecondIsLost` | server/src/database_worker.cpp:142-148 | a message saved after a poll with a timestamp not above one that poll delivered is never delivered |
| `AtomicPoll.TaskAlone` | server/src/database_worker.cpp:134-166 | the steps of an uninterrupted poll send exactly the batch of `PollBatch`, a ping, or nothing |
| `AtomicPoll.RoundIsARun` | server/src/apiclient.cpp:402-522 | the step system can do tick, poll and write in a row; the connection ends as `Round` says and all others are untouched |
| `Rounds.Uninterrupted` | server/src/database_worker.cpp:134-166 | any run of one worker alone from the beginning to the end of a poll has the outcome of `Alone`, whatever the clock and the sort did |
| `Rounds.Bystander` | server/src/apiclient.cpp:402-522 | no event of another connection or worker changes a connection's idle state or its waiting poll |
| `Rounds.PollPhase` | server/src/database_worker.cpp:134-166 | a whole poll of the connection on a run either ends its round with nothing sent, or puts the round's batch in flight |
| `Rounds.TraceIsARun` | server/src/database_worker.cpp:124-350 | the runs with uninterrupted polls are runs of the step system |
| `Rounds.RunIsRounds` | server/src/apiclient.cpp:402-522 | on every such run the connection ends in the state of a sequence of rounds, whose polls are exactly those of the run, each on the storage it began with |
| `Rounds.DeliveredOnEveryRun` | server/src/apiclient.cpp:402-522 | so on every such run the exact condition of `DeliveredIff` and the exactly-once guarantee hold of every stored message |
| `Overlap.BothSendIff` | server/src/database_worker.cpp:142-166 | of two polls, the second on a later storage, both send a message if and only if both pick it |
| `Overlap.RepeatsIff` | server/src/database_worker.cpp:142-166 | while nothing is saved and nobody joins, a later poll repeats some message of a batch if and only if its watermark is below the batch maximum |
| `Overlap.TwoPollsOnARun` | server/src/apiclient.cpp:402-522 | on every run, whatever happens between two whole polls: both batches hold a message if and only if both polls pick it, and none does if the second watermark covers the first batch |
| `Overlap.TwoTicksRepeat` | server/src/apiclient.cpp:493-522 | from every safe state where a connection may poll, two ticks before a worker is free lead to two batches in flight that both hold each message the first poll picks |
| `Witness.MessageIsStored` | server/src/database_worker.cpp:216-246 | a run from the start of the server that creates a user and saves a message |
| `Witness.SomeoneListens` | server/src/apiclient.cpp:524-545 | its continuation to an idle connection that may poll and has that message to pick |
| `Witness.SentTwice` | server/src/apiclient.cpp:493-522 | its continuation to two batches in flight with the same message |
| `Witness.PingDropsNewest` | server/src/apiclient.cpp:402-420 | from every state where a ping is due and nothing is found, the completed ping leaves the newest timestamp at 0, below a watermark at least as large as it was |
| `Witness.NewestDropsOnARun` | server/src/apiclient.cpp:402-522 | a run from the start of the server on which that happens |
| `Witness.SomeoneIsDropped` | server/src/database_worker.cpp:124-350 | a run from the start of the server after which a connection is silent on every continuation |
| `Witness.SomeMessageIsLost` | server/src/database_worker.cpp:142-148 | two storages with a message saved in the second of an already delivered one: it is picked by the heartbit, and no number of further polls delivers it |
| `ConnectRace.CallbackStep` | net/sync_connect.hpp:31-106 | every callback keeps the race's invariant and decreases the measure over endpoints and timer |
| `ConnectRace.WaitingMeansPending` | net/client.cpp:122-137 | the caller waits exactly while some callback is pending |
| `ConnectRace.EveryRunEnds` | net/client.cpp:96-142 | no run has more than endpoints + 1 callbacks, and one that cannot go on ends with both flags set |
| `ConnectRace.ResultIsRight` | net/sync_connect.hpp:42-102 | finish_connect runs once; the k-th attempt is on the k-th endpoint, made after all before it failed; success exactly when an attempt succeeded, timed out only after the timer expired, and what every other result means |
| `ConnectRace.AfterTimeout` | net/sync_connect.hpp:42-60 | once the timer's callback has run no new attempt is made, the next connect callback is the last event, and its result is a success or a timeout |
| `ConnectRace.TimedOutIff` | net/sync_connect.hpp:42-60 | on every run: timed out if and only if an attempt failed after the timer's callback, success if and only if one succeeded |
| `SyncConnect.SyncConnector.AsyncConnectHandler` | net/sync_connect.hpp:42-60 | updates the shared context as the race's step; a failure after the timeout finishes with timed out and connects nowhere |
| `SyncConnect.SyncConnector.StartConnect` | net/sync_connect.hpp:62-91 | selects and tries the next endpoint, or finishes with the last error, "not found" or the open error |
| `SyncConnect.SyncConnector.FinishConnect` | net/sync_connect.hpp:93-102 | stores the result, sets the flag and cancels the timer |
| `SyncConnect.SyncConnectContext.TimerCallback` | net/client.cpp:104-113 | sets the timer flag, and cancels the socket only while connecting |
| `RangeConnect.HandlerIsCalledOnce` | net/async_connect.hpp:17-128 | for a non-empty range every run ends, and the handler is called exactly once when it cannot go on |
| `RangeConnect.AnswerIsRight` | net/async_connect.hpp:40-128 | on every run the k-th attempt is on the k-th endpoint, made after all before it failed; the handler gets a success exactly when an attempt succeeded, with its endpoint, and an error only from the last attempt: aborted, not opened, or on the last endpoint |
| `RangeConnect.HistoryIsReported` | net/async_connect.hpp:40-69 | the history that the answer is right for is the one that was reported, completion by completion |
| `RangeConnect.RangeConnectOp.OnConnectDone` | net/async_connect.hpp:40-69 | updates the operation as its step and hands the handler its answer |

## Left out

- Sockets, TLS, boost::asio, threads, read timeouts and start-up: only "bytes arrive", "a callback runs", "a write completes" are modelled.
- Object lifetime: `SyncConnector` in `sync_connect` is taken to live as long as its callbacks.
- Overlapping writes on one connection share a buffer in the original; writes are taken not to overlap.
- gzip, JSON, CRC, base64, regexes: function parameters or absent.
- Chunk extensions and trailers, chunk sizes so large that adding 2 wraps, and the prefixes and signs `stoul` accepts beyond digits are outside the round trips; the reader functions still do with them what the code does, except for the wrapped iterator arithmetic.
- `split` with an empty delimiter does not terminate and is excluded; `max_parts` equal to 1 behaves as no limit, as in the code; its `int` counter is taken not to overflow.
- The MySQL back end beyond the two query shapes: its read marks, column widths and driver.
- `History.HistoryLosesNothing`: assumes storages in timestamp order, which `History.HistoryExactIff` does not. In the history of a user with themselves both queries find each message, and the conversation is taken to hold it twice.
- `Delivery.DeliveredIff`: assumes the user is in the message's chat at its first poll; a user who joins later is not covered.
- `AtomicPoll.RoundIsARun`: starts from an empty queue and a free worker; `Rounds.RunIsRounds` has no such restriction.
- `Rounds.DeliveredOnEveryRun`: assumes the connection's writes succeed; a failed one ends its polling.
- `Sequential.NoMessageTwice`: is about runs where the polls of the connection take turns; without that it is false, and `Overlap.TwoPollsOnARun` says when.
- `Overlap.TwoPollsOnARun`: each of the two polls is not interrupted by other store calls; everything between them is free.
- Request pipelining after a connection went idle: an idle connection is taken to send no more requests, and to be the only one of its user that counts.
- `Effects.EveryResponseIsJustified`: of a poll it says that it sends only newer messages of the user's chats; which ones, and how often, is the subject of `Polling`, `Delivery` and `Rounds`.
- The wrap-around of 64-bit ids and counters.
- The loop of `processQueue` around its body, which ends on a global stop flag and sleeps while the queue is empty.
- Location lookup: the users of a location are the name of the location itself, as in the code.
- Session ids, logging, console UI, command parsing, process and file helpers: I/O or easy members.
