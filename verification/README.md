# The whiteboard system, modelled and proved in Dafny

A collaborative whiteboard: clients send requests over framed connections, a server keeps board
and user documents and broadcasts a board's elements to the sockets of its session, a thread pool
runs the connections, and passwords are hashed with a SHA-256 object of the project's own. The
files below model that code and prove what it is for.

| files | what they hold |
|---|---|
| `Sha256Spec.dfy`, `Sha256Facts.dfy` | FIPS 180-4 as the standard writes it, and what its definitions mean |
| `Sha256Trace.dfy`, `Sha256Abc.dfy`, `Sha256TwoBlocks.dfy` | the standard's two published examples, evaluated |
| `Sha256Words.dfy`, `Sha256.dfy`, `HexText.dfy` | the streaming hash object, refined down to one round over a shifting array, and its text form |
| `ThreadPool.dfy` | the pool as a machine interleaving its threads between critical sections, and the critical sections themselves |
| `Server.dfy`, `ServerObject.dfy` | the effect of every request on the stores, and the handlers as an object with fields and loops, proved to have those effects |
| `ServerStores.dfy`, `ServerAccounts.dfy`, `ServerReplicas.dfy`, `ServerSessions.dfy`, `ServerConnections.dfy` | what every run of the server keeps, which requests are answered and which connections end |
| `ServerLaws.dfy` | what each request achieves, in terms of documents, sessions and packets |
| `ServerExamples.dfy` | runs showing that the conditions of those theorems are needed |
| `Client.dfy`, `Network.dfy`, `NetworkReplicas.dfy`, `NetworkCommands.dfy` | the client, clients and server joined by channels, what the clients then hold, and what each command of a client achieves |
| `Framing.dfy`, `Element.dfy` | frames on the wire, and drawing elements with their messages |
| `Wrappers.dfy` | the option type |

`dafny verify dfyconfig.toml` checks everything.

Every class has its fields where the program has them, and each of its methods is proved to take
the abstract state (`Represents`, `View()`, `Shown()`) to a state given by a function; the lemmas
are about those functions, over all inputs, all runs or all interleavings.

## Where the code falls short of what it is for

In these places the program as written does not have the property one would expect. The model keeps
the code as it is; the condition under which the property holds is proved exactly, and a run or
input outside it is given.

- Opening a session resets the active list to the owner while the sockets stay, and a quit pulls the
  user while it removes the socket under one spelling of the id only. A request keeps the sockets
  registered for a board, under all spellings, in step with its active users exactly when it is
  neither an owner's opening of a board that others are in nor a quit by a socket registered under
  another spelling too (`SyncedStepExactly`, `ReopeningBreaksStep`). A quit of the second kind can
  delete the board and leave a session of it (`DeletedWithLastSocket`,
  `QuittingElsewhereLeavesSession`).
- Document ids are compared as ids but the session map is keyed by the text received: an edit under
  one spelling is stored and passes by everybody registered under another, whoever of the two spells
  it unusually (`ReplicasStepExactly`, `JoinerUnderOtherSpellingIsMissed`,
  `AdditionUnderOtherSpellingMisses`).
- A connection that ends without leaving its sessions leaves its socket in the session map for good,
  where every broadcast finds it; sending to it is undefined. Every registered socket is connected
  exactly while no connection has ended that way (`ConnectedExactly`, `HangingUpDangles`). The replica
  theorems speak of connected sockets, and of the program while that condition holds.
- Some requests are never answered: exactly those of `AnsweredExactly`. The failure text of the add and
  modify handlers speaks of missing authorisation, but an unauthorised request is answered with
  nothing at all; the code is followed.
- The first user id issued is 0, which the handlers read as "anonymous" (`CreatorOwnsExactlyWhenNotZero`,
  `FirstUserIsTakenForAnonymous`).
- A pool made with no workers accepts tasks and never runs them (`CompletesExactlyWithWorkers`).
- The reader stops at the first newline byte, which a frame may hold before its end
  (`WholeExactlyWhen`, `WholeExactlyWithoutNewline`, `TenByteFrameCanBeCut`), and drops what follows a
  newline in the same chunk: a stream of frames without inner newlines arrives exactly when no chunk
  goes on after a newline (`StreamArrivesExactly`, `SecondFrameOfChunkIsLost`).
- `from_protobuf` gives a decoded picture the receiver's file name instead of the message's
  (`RoundTripExactly`, `PictureLosesFileName`), and the client's broadcast handler drops the decoded
  elements and keeps empty ones (`HandleBroadcast` in `Element.dfy`).

## Model

| member | source | states |
|---|---|---|
| Sha256.HashPieces | src/base/utils.cpp:20-44 | For every way of cutting a message into pieces for `update`, one `digest` returns the standard's hash of the whole below 2^61 bytes, and beyond that the same with the length's low 64 bits |
| Sha256.HashToText | src/client/client.cpp:275-301 | Hashing a password with a fresh object gives the text of the hash of its bytes |
| Sha256.SHA256.constructor | src/base/utils.cpp:9-18 | A new object stands for the empty message |
| Sha256.SHA256.Update | src/base/utils.cpp:20-35 | Whatever is buffered, the bytes fed grow by exactly the input and the object still stands for them |
| Sha256.SHA256.PutByte | src/base/utils.cpp:22-29 | One iteration: the byte is buffered, or completes a block that is compressed and counted |
| Sha256.PutInside | src/base/utils.cpp:22-23 | A byte that does not fill the buffer keeps state and counter standing for the whole blocks |
| Sha256.PutLast | src/base/utils.cpp:23-29 | A byte that fills it moves the state on by one block, the counter by 512 modulo 2^64, and empties the tail |
| Sha256.SHA256.Transform | src/base/utils.cpp:66-112 | For every block and every state, the new state is the standard's compression of section 6.2.2 |
| Sha256.SHA256.BuildSchedule | src/base/utils.cpp:70-79 | The 64 words filled by the two loops are the standard's recursive schedule |
| Sha256.SHA256.AllRounds | src/base/utils.cpp:85-107 | The loop over the shifting array is 64 standard rounds |
| Sha256.SHA256.RoundInPlace | src/base/utils.cpp:86-106 | Shifting the eight variables in place is one standard round |
| Sha256.SHA256.AddInto | src/base/utils.cpp:109-111 | The state becomes the word-wise sum modulo 2^32 |
| Sha256.SHA256.MarkEnd | src/base/utils.cpp:116-122 | The buffer becomes its bytes, 0x80 and zeros up to byte 56, or to the end when that does not fit |
| Sha256.SHA256.ClearFront | src/base/utils.cpp:126-126 | The first 56 bytes become zero |
| Sha256.SHA256.WriteLength | src/base/utils.cpp:131-138 | The last eight bytes become the counter, most significant byte first; the others stay |
| Sha256.SHA256.Pad | src/base/utils.cpp:114-140 | In both branches the state becomes the hash of the whole padded message, with the counter equal to the length in bits modulo 2^64 |
| Sha256.PadInOneBlock | src/base/utils.cpp:117-139 | Below 56 buffered bytes the section 5.1.1 padding is what was hashed and exactly one more block |
| Sha256.PadInTwoBlocks | src/base/utils.cpp:117-139 | From 56 on it is exactly two more, split where the program splits them |
| Sha256.RepresentsCounter | src/base/utils.cpp:130-130 | Compressed bits plus eight times the fill is the length in bits modulo 2^64 |
| Sha256.SHA256.Revert | src/base/utils.cpp:142-150 | The two loops write the state's words in order, each most significant byte first |
| Sha256.SHA256.Digest | src/base/utils.cpp:37-44 | The result is the hash of every byte fed since construction |
| Sha256.SHA256.ToString | src/base/utils.cpp:152-161 | 64 digits from which the digest can be read back |
| Sha256Words.RotrRotates | src/base/utils.cpp:46-48 | For every amount used, shifting and or-ing is rotation, for all words |
| Sha256Words.ChooseAgrees | src/base/utils.cpp:50-52 | `choose` is the standard's Ch |
| Sha256Words.MajorityAgrees | src/base/utils.cpp:54-56 | The or-form majority is the standard's xor-form Maj |
| Sha256Words.SigmasAgree | src/base/utils.cpp:58-64 | The four sigma expressions are the standard's functions |
| Sha256Words.RoundAgrees | src/base/utils.cpp:86-106 | The new working variables, with the program's order of sums, are those of the standard's round |
| Sha256Facts.PrimesAreListed | src/base/utils.hpp:24-35 | The table the constants are checked against lists exactly the primes below 312, in increasing order: the first sixty-four |
| Sha256Facts.RoundConstantsAreCubeRoots | src/base/utils.hpp:24-35 | Every entry of the program's table is the first 32 fractional bits of the cube root of the prime of its index (section 4.2.2) |
| Sha256Facts.InitialWordsAreSquareRoots | src/base/utils.cpp:10-17 | Every starting word is the first 32 fractional bits of the square root of the prime of its index (section 5.3.3) |
| Sha256Facts.PaddingIsShortest | src/base/utils.cpp:117-122 | The zero bits are the fewest that leave 448 modulo 512 |
| Sha256Facts.LengthFieldHoldsLength | src/base/utils.cpp:131-138 | The eight bytes read back as the length, for every length below 2^64 |
| Sha256Facts.PadInjective | src/base/utils.cpp:114-140 | Messages with the same padding are the same |
| Sha256Facts.WordsRoundTrip | src/base/utils.cpp:142-150 | The words are recovered from their bytes |
| Sha256Facts.StateBytesInjective | src/base/utils.cpp:142-150 | Different states have different digests |
| Sha256Abc.AbcHash | src/base/utils.cpp:46-112 | The hash of "abc" is the 32 bytes the standard publishes, so every rotation, shift, choice, vote, schedule index and round constant is the standard's |
| Sha256Abc.AbcText | src/base/utils.cpp:152-161 | Its text is the published one, in lower case and high digit first |
| Sha256TwoBlocks.LettersHash | src/base/utils.cpp:109-140 | The hash of the published message of 448 bits, whose padding takes a second block compressed from the state of the first |
| HexText.TextShape | src/base/utils.cpp:152-161 | Two lower-case hexadecimal digits a byte |
| HexText.TextRoundTrip | src/base/utils.cpp:152-161 | The text parses back to the bytes |
| HexText.TextInjective | src/server/server.cpp:612-615 | Comparing the texts of two hashes is comparing the hashes |
| ThreadPool.InvStep | src/server/thread_pool.hpp:12-45 | Every step of every interleaving, stray wake-ups included, keeps the pool's invariant |
| ThreadPool.InvReachable | src/server/thread_pool.hpp:10-45 | The invariant holds in every reachable state of a pool of any size |
| ThreadPool.PushedIsEnqueued | src/server/thread_pool.hpp:29-33 | In every run the record of pushed tasks is the tasks of its calls to enqueue, in order |
| ThreadPool.FinishedIsReturned | src/server/thread_pool.hpp:23-24 | The record of finished tasks is the tasks the workers were running where they returned |
| ThreadPool.NoLostWakeup | src/server/thread_pool.hpp:16-35 | While a worker sleeps, queued tasks are at most pending notifications plus awake workers; with stop set, notify_all is still to come |
| ThreadPool.FirstInFirstOut | src/server/thread_pool.hpp:16-33 | Taken followed by queued is what the run's calls to enqueue gave, in order; returned, running and queued are exactly those tasks; at most n run at once |
| ThreadPool.QuiescentIsAtRest | src/server/thread_pool.hpp:12-45 | No step of the pool's own is possible exactly when it is at rest: all asleep with an empty queue, or all exited, and nothing pending |
| ThreadPool.RestMeansFinished | src/server/thread_pool.hpp:12-35 | A pool at rest before shutdown has finished every task |
| ThreadPool.CompletesExactlyWithWorkers | src/server/thread_pool.hpp:10-35 | No run comes to rest with an enqueued task unfinished, if and only if there is a worker |
| ThreadPool.WorkLeftWithoutWorkers | src/server/thread_pool.hpp:10-35 | The run that shows the other half |
| ThreadPool.LeftAloneFinishes | src/server/thread_pool.hpp:12-35 | From any reachable state the pool takes boundedly many steps of its own, and ends only with every task enqueued finished |
| ThreadPool.StopDecreases | src/server/thread_pool.hpp:12-45 | After stop every step but a new task lowers a measure over queued, running, asleep and live workers |
| ThreadPool.StoppedPoolMoves | src/server/thread_pool.hpp:37-45 | A stopped pool with a worker left always has a step |
| ThreadPool.ShutdownDrains | src/server/thread_pool.hpp:37-45 | After stop is raised in any run, and whatever happens next, the joins return after boundedly many steps, and by then every task enqueued before stop has finished |
| ThreadPool.ThreadPool.constructor | src/server/thread_pool.hpp:10-27 | The start state |
| ThreadPool.ThreadPool.PushTask | src/server/thread_pool.hpp:29-33 | The critical section of enqueue is the machine's push step |
| ThreadPool.ThreadPool.Notify | src/server/thread_pool.hpp:34-34 | notify_one wakes a sleeper whenever there is one |
| ThreadPool.ThreadPool.WaitAndTake | src/server/thread_pool.hpp:16-22 | A worker's critical section is the machine's check step: it sleeps, exits, or takes the oldest task |
| ThreadPool.ThreadPool.TaskReturns | src/server/thread_pool.hpp:23-24 | The finish step |
| ThreadPool.ThreadPool.BeginShutdown | src/server/thread_pool.hpp:38-41 | The stop step |
| ThreadPool.ThreadPool.NotifyEveryone | src/server/thread_pool.hpp:42-42 | Every sleeper wakes |
| Server.ParsedIsCanonical | src/server/server.cpp:301-301 | The id a spelling denotes spells itself |
| Server.SameIdExactly | src/server/server.cpp:301-301 | Exactly the strings of 24 hexadecimal digits are ids, and two are the same id exactly when their digits have the same values |
| Server.SignedInRange | src/server/server.cpp:296-296 | The conversion of a user id to int keeps its 32 bits |
| Server.PullKeepsCounts | src/server/server.cpp:407-412 | $pull removes every copy of the value and keeps every other value as often as it was |
| Server.PullKeepsOrder | src/server/server.cpp:407-412 | What $pull keeps stays in order: it is the list read at ascending places |
| Server.FindUser | src/server/server.cpp:508-510 | find_one returns the first document with the name, or none when there is none |
| Server.SentAfter | src/server/server.cpp:848-866 | What a socket has been sent grows by exactly the packets addressed to it, in order |
| ServerObject.WhiteboardServer.AddSocketToWhiteboard | src/server/server.hpp:44-49 | The socket is in the board's session, the other sessions as before |
| ServerObject.WhiteboardServer.RemoveSocketFromWhiteboard | src/server/server.hpp:51-61 | The socket is gone, and with the last one the entry |
| ServerObject.WhiteboardServer.UserInActiveUserIds | src/server/server.hpp:69-81 | The loop finds the user exactly when the list names it |
| ServerObject.WhiteboardServer.HasElement | src/server/server.cpp:693-699 | The loop finds the original exactly when it is stored |
| ServerObject.WhiteboardServer.SendToAll | src/server/server.cpp:796-798 | Every socket of the session, whatever the order of the loop, is sent the packet once |
| ServerObject.WhiteboardServer.HandleBroadcast | src/server/server.cpp:751-800 | The stored elements go to the session's sockets; to nobody when there is no session or no document; a malformed id of a session throws |
| ServerObject.WhiteboardServer.HandleUnicast | src/server/server.cpp:802-846 | The stored elements go to one socket, under the same conditions |
| ServerObject.WhiteboardServer.GetNextSequence | src/server/server.cpp:195-215 | The number before the increment; 0 when there was no counter |
| ServerObject.WhiteboardServer.HandleAssignUserId | src/server/server.cpp:216-247 | A number is taken, a nameless document stored when the database takes it, and the number sent with that outcome; nothing is sent when the insert throws |
| ServerObject.WhiteboardServer.HandleCreateWhiteboardRequest | src/server/server.cpp:249-286 | The new documents, counter and packets are exactly: an id assigned first to an anonymous sender, then a board owned by the sender and answered with its id, or a failure; an insert that throws ends the connection |
| ServerObject.WhiteboardServer.HandleCreateSessionRequest | src/server/server.cpp:289-336 | Only the owner enters the session and resets the active list to itself; everybody else, and a missing board, is refused; a malformed id ends the connection; nothing else changes |
| ServerObject.WhiteboardServer.HandleJoinSessionRequest | src/server/server.cpp:338-388 | A board with an active list admits the socket and the user once, and is sent the elements before the answer; other boards refuse; an anonymous sender is assigned an id in every case |
| ServerObject.WhiteboardServer.HandleQuitSessionRequest | src/server/server.cpp:390-441 | The socket leaves, even a session it is not in or a board that is missing; the user is pulled from the list; a list left empty deletes the board; the answer is always success |
| ServerObject.WhiteboardServer.HandleAddElementRequest | src/server/server.cpp:443-498 | Owner or active user appends the element and is answered; anyone makes a shared board broadcast; a missing board is a failure; an unauthorised sender gets no answer |
| ServerObject.WhiteboardServer.HandleModifyElementRequest | src/server/server.cpp:647-749 | An active user replaces a stored original, is answered and the board broadcast, or, when the database refuses the update, loses the connection with nothing changed; a missing original or board is a failure; anybody else gets no answer |
| ServerObject.WhiteboardServer.HandleRegisterRequest | src/server/server.cpp:500-574 | A taken name, the empty one of anonymous users included, is refused; otherwise an id is taken and a document with the salted hash stored under it, or one of the two failures sent, by whether the insert gives no result or throws |
| ServerObject.WhiteboardServer.HandleLoginRequest | src/server/server.cpp:576-645 | The first document with the name decides: its id on equal hashes, a failure on others, no answer without a salt |
| ServerObject.WhiteboardServer.HashSalted | src/server/server.cpp:601-612 | The text of the hash of salt and password hash |
| ServerObject.WhiteboardServer.Dispatch | src/server/server.cpp:76-129 | One round of the connection loop, the end of the stream included, is one step of the server machine |
| ServerStores.StoresReachable | src/server/server.cpp:249-441 | In every run of any clients, documents and sessions are well formed |
| ServerStores.ActiveListsWellFormed | src/server/server.cpp:313-434 | No active list is ever empty or names a user twice |
| ServerStores.SharedMeansRegistered | src/server/server.hpp:44-67 | A session entry exists exactly when some socket is registered |
| ServerStores.ElementsStep | src/server/server.cpp:443-749 | A request changes a board's elements by the one edit it is accepted for and by nothing else; a new board has none |
| ServerStores.GoneForGood | src/server/server.cpp:430-433 | A deleted board never comes back |
| ServerStores.ElementsAreReplay | src/server/server.cpp:443-749 | A board's elements are the replay of its accepted requests: additions by owner or active user, modifications by an active user of an element present that the database carries out |
| ServerAccounts.AccountsReachable | src/server/server.cpp:195-247 | Issued ids strictly increase, documents have issued ids, non-empty names are unique |
| ServerAccounts.FoundForGood | src/server/server.cpp:592-592 | The document a name finds never changes |
| ServerAccounts.BytesOfText | src/server/server.cpp:529-532 | A text is hashed as one byte a character, its number modulo 256 |
| ServerAccounts.NumbersTaken | src/server/server.cpp:195-216 | A request takes the next number or none: one number for an anonymous create or join and for a registration under a free name, whether or not its insert succeeds |
| ServerAccounts.AnonymousDocument | src/server/server.cpp:217-247 | An anonymous user's document has the number taken, no name and no salt, so that a login which finds it is not answered |
| ServerAccounts.RegisterAchieves | src/server/server.cpp:521-557 | A registration stores one document more, with the name, the next id, the salt and the text that reads as the SHA-256 of salt followed by password hash, and tells the sender alone the id |
| ServerAccounts.RegisterRefused | src/server/server.cpp:512-573 | Any other stores none and is one failure to the sender |
| ServerAccounts.LoginAchieves | src/server/server.cpp:592-634 | A login is answered with the document's id if the SHA-256 of its salt followed by what was tried prints as its hash, and refused otherwise |
| ServerAccounts.LoginAfterRegister | src/server/server.cpp:500-645 | Whatever happens after a registration, a login under its name is answered with the id given then if and only if the SHA-256 of the salt and what was tried is that of the salt and what was registered, and refused otherwise |
| ServerAccounts.CreatorOwnsExactlyWhenNotZero | src/server/server.cpp:262-270 | A user with an issued id owns the board of a create that stores one if and only if the id is not 0 |
| ServerExamples.FirstUserIsTakenForAnonymous | src/server/server.cpp:208-264 | The first user to register gets id 0 and its board another owner |
| ServerReplicas.SinceStep | src/server/server.cpp:848-866 | A member that stays has received just what the request sent it; one that enters starts with that |
| ServerReplicas.ReceivedLists | src/server/server.cpp:443-486 | Every list a request sends shows the board after the request, and an accepted edit reaches exactly the sockets registered under the spelling it used |
| ServerReplicas.AgreesAfter | src/server/server.cpp:338-749 | A connected socket registered under any spelling of the board's id agrees after a request exactly when it was not missed |
| ServerReplicas.ReplicasStepExactly | src/server/server.cpp:338-749 | For all connected sockets under all spellings: a request keeps them in agreement if and only if no changing edit passes by a member that holds a list |
| ServerReplicas.ReplicaAgreement | src/server/server.cpp:289-800 | In every run in which each board is opened, joined and edited under one spelling, the last list a connected socket registered under any key of the board was sent since it entered is the stored one, in order; only one that opened the session may have been sent none |
| ServerReplicas.NewBoardHasNoMembers | src/server/server.cpp:268-277 | A new board has no socket registered under any spelling of its id |
| ServerExamples.OtherSpellingMisses | src/server/server.cpp:338-486 | Whenever a user joined under one spelling and the owner adds under another, the element is stored and agreement lost |
| ServerExamples.JoinerUnderOtherSpellingIsMissed | src/server/server.cpp:364-377 | The run in which it is the joiner who spells the id in another way |
| ServerExamples.AdditionUnderOtherSpellingMisses | src/server/server.cpp:459-486 | The run in which it is the owner |
| ServerExamples.OtherSpelling | src/server/server.cpp:301-301 | Such spellings exist |
| ServerSessions.OpenInStep | src/server/server.cpp:312-319 | Resetting the active list keeps it in step with the board's sockets under all spellings if and only if nobody else is among them |
| ServerSessions.QuitInStep | src/server/server.cpp:400-434 | Quitting under one spelling keeps them in step, whether or not the board goes, if and only if the socket is not registered under another |
| ServerSessions.SyncedStepExactly | src/server/server.cpp:289-441 | When every connection speaks for one user of its own and not for 0, whatever spellings it uses, a request keeps sockets and active users in step if and only if it is no opening of a board others are in and no quit by a socket registered under another spelling |
| ServerSessions.SocketsAreActiveUsers | src/server/server.cpp:289-441 | In every run of such requests, the sockets registered for a board under all spellings and its active users are in one-to-one correspondence |
| ServerSessions.DeletedWithLastSocket | src/server/server.cpp:414-434 | After every such run, any request of such a client deletes a board if and only if it is a quit, under any spelling, by the board's only socket; no session is left if and only if that socket was not registered under another spelling |
| ServerExamples.ReopeningBreaksStep | src/server/server.cpp:312-319 | The run that shows the condition is needed |
| ServerExamples.QuittingElsewhereLeavesSession | src/server/server.cpp:390-441 | The run in which one user alone on a board joins it under a second spelling, quits under that, and leaves a session of a deleted board |
| ServerConnections.AnsweredExactly | src/server/server.cpp:249-749 | Every request is answered exactly once, to its sender alone and under its number, unless it ends the connection, is an edit by somebody not entitled to it, logs in to a document without salt, or has no handler; and the connection ends exactly at the end of the stream, a malformed id or an exception of the database |
| ServerConnections.AllConnectedExactly | src/server/server.hpp:41-61 | A request leaves every registered socket connected if and only if it does not end the connection of a registered one |
| ServerConnections.DanglesForGood | src/server/server.cpp:73-129 | A socket registered when its connection ends stays in the session map in every later state |
| ServerConnections.ConnectedExactly | src/server/server.cpp:73-129 | After any run, every socket a broadcast would be sent to is connected if and only if every connection that ended had left its sessions |
| ServerLaws.OtherBoardsStay | src/server/server.cpp:249-749 | A request changes no other board than the one it names or creates |
| ServerLaws.OtherMembersStay | src/server/server.hpp:44-61 | A request moves nobody but its sender, and only in the session it opens, joins or quits |
| ServerLaws.CreateAchieves | src/server/server.cpp:259-286 | A stored create makes an empty board owned by the sender, who is the user the packet before the answer gives it when it was anonymous; only the sender receives anything |
| ServerLaws.CreateRefused | src/server/server.cpp:282-284 | Any other makes nothing and is no success |
| ServerLaws.OpenAchieves | src/server/server.cpp:306-335 | An owner's open registers its socket and makes it the only active user; any other changes nothing and is no success |
| ServerLaws.JoinAchieves | src/server/server.cpp:346-388 | A join let in registers the socket and makes active exactly one user more, the sender's own or the one its first packet gives it; it receives the board, then the answer with the spelling it used |
| ServerLaws.JoinedMayAdd | src/server/server.cpp:346-482 | An addition by the user so made active is accepted |
| ServerLaws.JoinRefused | src/server/server.cpp:379-387 | A join not let in changes nothing and is no success |
| ServerLaws.QuitAchieves | src/server/server.cpp:400-440 | A quit takes exactly the socket out of the session and exactly the user out of the active list, deletes the board when no other user is active, and is a success |
| ServerLaws.AddAchieves | src/server/server.cpp:462-497 | An addition by owner or active user puts the element last, answers, then sends the board to the session; by anybody else it sends the board as it is |
| ServerLaws.ModifyAchieves | src/server/server.cpp:685-723 | A modification carried out leaves no copy of the original, the new element last and the rest as it was in order, answers, then sends the board to the session |
| ServerLaws.ModifyRefused | src/server/server.cpp:724-748 | Any other changes nothing and is no success |
| ServerExamples.HangingUpDangles | src/server/server.cpp:85-88 | The run in which a user hangs up and stays in the session |
| Client.WhiteboardClient.constructor | src/client/client.hpp:15-17 | A client starts with counter 0 and nothing remembered |
| Client.WhiteboardClient.SendPacket | src/client/client.cpp:236-250 | The type is remembered under the number and the packet written |
| Client.WhiteboardClient.SendRequest | src/client/client.cpp:138-301 | Every request gets the next number, carries the client's own ids, and is remembered with the type written on the wire |
| Client.WhiteboardClient.HashPassword | src/client/client.cpp:278-281 | The text of the hash of the password |
| Client.UnknownNumber | src/client/client.cpp:303-413 | A response under a number never sent does not throw and changes neither board nor user; the number is remembered without a type |
| Client.WhiteboardClient.HandleActionResponse | src/client/client.cpp:303-413 | The new board id, remembered types, and whether it throws, by the remembered type |
| Client.WhiteboardClient.HandleReceive | src/client/client.cpp:36-58 | The client after a packet; one that makes it throw is not queued, and a queued one loses its number |
| Network.BoardAnswers | src/server/server.cpp:277-375 | A successful answer to a create or a join carries the id of a created board |
| Network.HandleKeeps | src/server/server.cpp:96-125 | The server's step keeps every connection's bookkeeping: numbers, order of answers, remembered types |
| Network.SendKeeps | src/client/client.cpp:138-250 | A client's sending keeps every connection's bookkeeping: the new request has the next number, its type is remembered, and it waits last |
| Network.ReadKeeps | src/client/client.cpp:303-428 | A client's reading forgets no type and leaves a board id that is empty or known |
| Network.LeaveKeeps | src/client/client.cpp:116-137 | A client's closing its connection keeps every connection's bookkeeping: what it has sent stays to be handled |
| Network.EndKeeps | src/server/server.cpp:85-88 | The server's finding the end of a stream keeps every connection's bookkeeping: it answers nothing |
| Network.ReadAsItsRequest | src/client/client.cpp:311-312 | A response is looked up as the type of the request that caused it, and no other answer has its number |
| Network.BoardChange | src/client/client.cpp:313-346 | The board id changes only to the id of a created board, from a successful create or join |
| Network.Correlation | src/client/client.cpp:138-346 | In every run of any clients and the server with fewer than 2^32 requests a client: each response read is the only answer to a request of that client that was handled and is looked up as that request's type; the board changes, to the response's text, exactly on a successful create or join, the user exactly on a successful user id, and exactly the failures throw |
| Network.KindsDiffer | src/base/packet.cpp:56-98 | Requests are written with the same type exactly when they are of the same sort |
| Network.BoardIsKnown | src/client/client.cpp:313-346 | A client's board id is empty or that of a board the server created |
| Network.EveryRequestAnswered | src/server/server.cpp:96-125 | In every run, each handled request of each client has exactly one answer among what the client was sent, or, if it was handled in a state in which it is one of the unanswered, none; no number of another request is answered |
| NetworkReplicas.ServerRuns | src/server/server.cpp:76-129 | The server of a net of clients runs as the server alone does on the packets it handles, so what every run of the server keeps holds there |
| NetworkReplicas.ListsMoved | src/client/client.cpp:36-58 | Whatever a client reads, the last list of a board among what it has queued is the last among what it has read |
| NetworkReplicas.ClientsHoldBoards | src/client/client.cpp:36-58 | End to end: in every run in which each board is opened, joined and edited under one spelling, a connected client registered for a board that has read everything holds the board as stored, in order, unless it opened the session and was sent nothing since |
| NetworkCommands.TurnIs | src/client/client.cpp:236-250 | A turn of an idle client, its sending, the server's handling and its reading of everything it was sent for it, is the server's step on its request and its reading of the packets of that step |
| NetworkCommands.CreateCommand | src/client/client.cpp:138-153 | After a create the client is on a new empty board, owned by the user it then is |
| NetworkCommands.OpenCommand | src/client/client.cpp:155-170 | After an open by the owner its socket is in the session and it is the only active user |
| NetworkCommands.JoinCommand | src/client/client.cpp:172-188 | After a join of a shared board the client is on the board it was given, its socket in that session, the user it then is active, and the last list it read is the board |
| NetworkCommands.AddCommand | src/client/client.cpp:265-273 | After an addition by an entitled client the element is the last on its board, and a client in the session has read that |
| NetworkCommands.QuitCommand | src/client/client.cpp:190-206 | After a quit the socket is not in the session of its board, nor its user active |
| NetworkCommands.PasswordIsHashed | src/client/client.cpp:279-282 | What is sent for a password is 64 digits that read as the SHA-256 of its bytes |
| NetworkCommands.SignUpCommand | src/client/client.cpp:289-301 | After a sign-up the client is the user whose document was stored |
| NetworkCommands.SignUpThenLogIn | src/client/client.cpp:275-301 | After a sign-up and whatever else happens, a log-in with the same name and password by any client makes it the same user; with another password it does so exactly if the salted hashes are equal |
| Framing.VarintRead | src/server/server.cpp:55-56 | Reading a written base-128 varint returns the value and stops after it, whatever follows |
| Framing.VarintLength | src/base/packet.cpp:29-29 | A 32-bit length takes at most five bytes |
| Framing.VarintStandsFor | src/base/packet.cpp:29-29 | A length is written as bytes of seven bits, least significant first, all but the last marked, with none too many |
| Framing.VarintOf150 | src/base/packet.cpp:29-29 | The example of the Protocol Buffers documentation |
| Framing.ReadVarintExactly | src/server/server.cpp:55-56 | From any bytes, the varint they start with is read, its low 32 bits, if it has at most ten bytes, and nothing otherwise |
| Framing.FrameOfTwo | src/base/packet.cpp:26-32 | A frame is length, payload and line feed: an example byte by byte |
| Framing.FrameRoundTrip | src/base/packet.cpp:26-32 | A buffer that starts with a frame parses to exactly its payload |
| Framing.WholeExactlyWhen | src/server/server.cpp:84-84 | A frame cut into chunks is gathered whole if and only if no chunk but the last has a newline byte |
| Framing.WholeExactlyWithoutNewline | src/server/server.cpp:84-84 | It is gathered whole under every chunking if and only if neither prefix nor payload has a newline byte |
| Framing.TenByteFrameCanBeCut | src/base/packet.cpp:29-31 | Every frame of a ten-byte payload can be cut short |
| Framing.AlignedFramesArrive | src/server/server.cpp:76-94 | Payloads with newlines too: frames in chunks of their own, each gathered whole, all arrive in order |
| Framing.StreamArrivesExactly | src/server/server.cpp:76-94 | However a stream of frames with no newline but their last bytes is cut, the reader gets exactly the payloads, in order, if and only if no chunk goes on after a newline |
| Framing.HeadlessNotParsed | src/server/server.cpp:53-60 | What is left of such a frame without its head never parses to its payload |
| Framing.LuckyCut | src/server/server.cpp:76-94 | With newlines inside payloads a stream cut elsewhere can arrive by luck, so the equivalence needs their absence |
| Framing.SecondFrameOfChunkIsLost | src/server/server.cpp:79-94 | Of two frames in one chunk, whatever bytes they hold, the second is lost |
| Element.RoundTripExactly | src/base/element.cpp:196-370 | Decoding an element's message gives the element back if and only if it is no picture of another file than the receiver's |
| Element.PictureLosesFileName | src/base/element.cpp:359-366 | A picture decoded by a new element has no file name |
| Element.EncodeInjective | src/base/element.cpp:196-317 | Different elements have different messages |
| Element.EncodeFields | src/base/element.cpp:196-317 | Every field of the message holds what the element shows under that name |
| Element.WhiteboardElements.constructor | src/base/element.hpp:34-50 | A new element is empty |
| Element.WhiteboardElements.NewPath | src/base/element.cpp:11-14 | The element shows this call's points, whatever it showed before |
| Element.WhiteboardElements.NewLine | src/base/element.cpp:26-30 | The element shows this call's end points, whatever it showed before |
| Element.WhiteboardElements.NewCircle | src/base/element.cpp:48-52 | The element shows this call's centre and radius, whatever it showed before |
| Element.WhiteboardElements.NewTriangle | src/base/element.cpp:70-75 | The element shows this call's three corners, whatever it showed before |
| Element.WhiteboardElements.NewSquare | src/base/element.cpp:85-89 | The element shows this call's corner and side, whatever it showed before |
| Element.WhiteboardElements.NewText | src/base/element.cpp:116-120 | The element shows this call's centre and text, whatever it showed before |
| Element.WhiteboardElements.NewStickyNote | src/base/element.cpp:136-142 | The element shows this call's centre, side and text, whatever it showed before |
| Element.WhiteboardElements.NewPicture | src/base/element.cpp:165-171 | The element shows this call's centre, data and file name, whatever it showed before |
| Element.WhiteboardElements.GetPathPoints | src/base/element.cpp:16-22 | The points of a path; the exception naming the type for other elements; for an empty element a read past the table of names |
| Element.WhiteboardElements.GetTrianglePoints | src/base/element.cpp:76-82 | The corners of a triangle in order; the exception naming the type for other elements; for an empty element a read past the table of names |
| Element.WhiteboardElements.ToMessage | src/base/element.cpp:196-317 | The message shows what the element shows, for paths of any length |
| Element.WhiteboardElements.FromMessage | src/base/element.cpp:319-370 | A new element that shows the message, except a picture's file name |
| Element.HandleBroadcast | src/client/client.cpp:430-445 | As many elements as were broadcast, all of them empty; they show what was broadcast if and only if that was empty too |

## Left out

- HashPieces: messages are whole bytes, as the interface takes them. Beyond 2^61 bytes the standard defines nothing and the theorem follows the 64-bit counter.
- Digest: leaves the object padded and not reset, as the program does; a second use is excluded by its precondition.
- ShutdownDrains: tasks pushed while the destructor runs are outside its bound; the language forbids using an object that is being destroyed.
- ThreadPool: a task returns normally, and a critical section is one step. An exception leaving a task ends the process. Threads that fail to start are not modelled.
- HandleModifyElementRequest: the update puts $pull and $push on one field. A database that refuses it throws, and one that carries it out is taken to do what the handler's comment says: all copies of the original removed and the new element appended. Which of the two happens is an input of the model.
- Dispatch: one handler is one step. The program locks only the session map, and only in places, so with several worker threads its handlers can interleave and the store invariants are not promised.
- Of the database driver's exceptions, those of inserts, of the element update and of malformed ids are modelled; look-ups and other updates do not throw.
- AccountsReachable: ids are unbounded integers; the program's are 32 bits wide, so the model is the program below 2^31 users.
- Correlation: channels carry whole packets in order (Framing.dfy says when that is so), and a client makes fewer than 2^32 requests. Packets sent by the server's own accord carry a random number that the client does not look up. A client that has closed its connection reads no more.
- StreamArrivesExactly: payloads with newlines inside, for which no such equivalence holds (`LuckyCut`), are covered in one direction by `AlignedFramesArrive`.
- WholeExactlyWhen: the readers with a buffer of their own, which are the server's and the client's blocking one. The client's asynchronous reader keeps its buffer between packets; how much of it is left there is the library's business.
- FrameRoundTrip: payloads below 2^32 bytes. The message format inside a payload is the library's and is left as bytes, so which requests contain a newline byte is not modelled. A buffer without a readable length leaves the program's size uninitialised; the model stops there.
- Requests whose packet type disagrees with the action they carry are not modelled; the program's own clients cannot make them.
- The database is a map of board documents and a list of user documents with the few operators the handlers use; documents have the fields the handlers write. Creation times are left out.
- Salts, new document ids, `rand()` packet numbers, uninitialised fields and what becomes of inserts and of the element update are inputs of the model.
- What the model records as sent to a socket after its connection ended stands for undefined behaviour; no theorem about deliveries speaks of it.
- Which board an element list belongs to, and whether a user id was asked for, are recorded by the model and are not on the wire.
- Requests to delete an element or to save a board have no handler and are ignored. The client declares but does not define the requests to modify and delete.
- Coordinates are reals that are only copied; the constructor of a square from two unsigned integers, which rounds them, is left out. The getters of one field are guarded like the two modelled ones and are left out.
- TLS, the accept loop, reconnecting, timers, printing, and the example programs.
- Secrecy and collision resistance are not properties of this code that can be proved here.
