# Model of the mining and serial software

This project models six cores of the repository in Dafny and proves what they promise.

* **JSON** (`JsonData`, `JsonPrinter`, `JsonParser`, `JsonRoundTrip`, `JsonGrammar`, `JsonReading`): the
  recursive printer and the parser that keeps containers and pending keys on one stack. Text is a
  sequence of code points. The last two modules say in code points what is printed and what is read.
* **Telnet and RFC 2217** (`TelnetCodec`, `TelnetOptions`, `TelnetNegotiator`, `ComPortSettings`): the
  escaping encoder, the two byte-at-a-time decoders, the option machines of two endpoints joined by
  queues, and the set and answer protocol for baud rate, data size, parity and stop size. Constants are
  those of RFC 854, RFC 855 and section 3 of RFC 2217.
* **Mining bookkeeping** (`PoolRegistry`, `PoolList`, `PoolSelection`, `WorkRolling`, `StagedQueue`,
  `ShareAccounts`, `ShareOutcomes`, `Merkle`): the pool registry and its switches, pool selection, rolling and cloning of
  work, the staged-work queue, share accounts and the two Merkle root computations.
* **cglock** (`CgLock`): the write-biased lock as atomic steps of any number of threads.
* **Icarus timing** (`IcarusTiming`): the window of sums and the line fitted through it.
* **DCM programming** (`DcmControl`): the clocked controller and the bits a receiver sees.

`Wrappers`, `TelnetStates` and `Sequences` hold what several modules share.

Where the source updates objects, arrays or loops in place, the model has classes, arrays and loops, each
proved against a specification on values; the main results are about those specifications, over all
inputs, runs and interleavings.

Results that differ from what the source or its comments suggest:

* `loads` rejects a top-level integer of one digit with nothing behind it: the read after the first digit
  (`json.py` line 171) is outside the handler for the end of the source. `LoadsDumps` gives the exact set.
* The client starts its reader thread before it sends its initial requests (`rfc2217.py` lines 419-427).
  A request of the server that arrives in between makes the client active before its own request, which it
  then never sends. The two sides agree in all runs if and only if no option is requested by both
  (`AgreementCondition`); the shipped tables both request ECHO, SGA and COM-PORT for the direction of the
  server (`EchoCanDisagree`), but the two options of the client's direction that `open` waits for always
  agree (`MandatoryOptionsAgreed`). A side that sends its requests first is the
  case of `Negotiation`.
* The sender of a sub-negotiation escapes the value but not the code, so a code of 255 never arrives
  (`FrameRoundTrip`, `UnescapedCodeLost`). No caller uses one.
* `staged_rollable` is an upper bound only. `QueueKept` gives the exact excess, and `PopChoice` says when
  it makes a pop take a master instead of a clone, which happens in `MasterPoppedBeforeClone`.
* `parse_stratum_response` counts `sshares` down on the pool of the connection, but the result on the pool
  of the work. `SsharesExact` says exactly when the count stays right, `ForeignAnswerHappens` is a run in
  which it does not.
* A stratum answer that comes before its share is entered in the table is ignored, and the share stays
  until its pool is cleared. `EarlyAnswerLost` says exactly when this happens, `EarlyAnswerHappens` is a run
  in which it does.
* With all hash counts equal the timing estimate is nought divided by nought (`NoughtByNought`), and
  exactly then (`FitDefined`).

## Model

| member | source | states |
|---|---|---|
| `JsonRoundTrip.LoadsDumps` | ICARUS-LX150/MiningSoftware/python-jsonrpc/jsonrpc/json.py:67-228 | `loads(dumps(v))` is `v` for every tree of null, booleans, unbounded integers, strings, lists and dictionaries, except exactly the top-level integers 0 to 9, which are rejected with the end-of-source error |
| `JsonRoundTrip.LoadsLayout` | ICARUS-LX150/MiningSoftware/python-jsonrpc/jsonrpc/json.py:123-228 | blanks between the tokens of a printed value, and any text after it, do not change what `loads` returns (a top-level integer only has to be ended by something) |
| `JsonRoundTrip.LooseLayout` | ICARUS-LX150/MiningSoftware/python-jsonrpc/jsonrpc/json.py:129-226 | commas and colons stand for each other and may be left out, repeated or put anywhere, and either closing bracket ends a list or a dictionary: such a text still reads as the value |
| `JsonRoundTrip.DumpsIsUnambiguous` | ICARUS-LX150/MiningSoftware/python-jsonrpc/jsonrpc/json.py:79-120 | two objects that print alike denote the same value |
| `JsonRoundTrip.DumpsIsLayout` | ICARUS-LX150/MiningSoftware/python-jsonrpc/jsonrpc/json.py:82-120 | what is printed is the token sequence of the object with no gaps |
| `JsonGrammar.DumpsIsTheText` | ICARUS-LX150/MiningSoftware/python-jsonrpc/jsonrpc/json.py:67-120 | the print of an object is the one text of a grammar written in code points (strings in 0x22, 0x2C between elements, 0x3A after a key, 0x5B and 0x5D, 0x7B and 0x7D, the keywords and the escapes spelled out), member by member and value by value |
| `JsonRoundTrip.KeyMustBeString` | ICARUS-LX150/MiningSoftware/python-jsonrpc/jsonrpc/json.py:213-224 | a dictionary key that is a number, a truth value or null is rejected when its value is complete |
| `JsonRoundTrip.DanglingKey` | ICARUS-LX150/MiningSoftware/python-jsonrpc/jsonrpc/json.py:159-222 | a key that is closed without a value waits on, and the value behind the bracket becomes its own |
| `JsonReading.SourceStart` | ICARUS-LX150/MiningSoftware/python-jsonrpc/jsonrpc/json.py:129-211 | which characters before the first value are passed over, which are closing brackets with nothing to close and which start no token |
| `JsonReading.StringLiteral` | ICARUS-LX150/MiningSoftware/python-jsonrpc/jsonrpc/json.py:137-156 | a string literal in any of its spellings: plain characters, the eight short escapes and four hexadecimal digits of either case; the end of the source and an unknown escape are the two errors |
| `JsonReading.LooseCode` | ICARUS-LX150/MiningSoftware/python-jsonrpc/jsonrpc/json.py:148-149 | what int() tolerates among the four characters of a \u escape: blanks, a plus sign, a 0x prefix, and a minus sign before zero only |
| `JsonReading.IntegerLiteral` | ICARUS-LX150/MiningSoftware/python-jsonrpc/jsonrpc/json.py:169-197 | digits, with leading zeros or not, have their decimal value |
| `JsonReading.NegativeLiteral` | ICARUS-LX150/MiningSoftware/python-jsonrpc/jsonrpc/json.py:169-197 | a minus sign and digits have the negative value; a minus sign alone is an error |
| `JsonReading.FloatLiteral` | ICARUS-LX150/MiningSoftware/python-jsonrpc/jsonrpc/json.py:177-198 | a digit or a minus sign, digits, a dot and digits are a float if there is any digit, and an error if not; an exponent mark with no sign behind it is an error |
| `JsonReading.ExponentLiteral` | ICARUS-LX150/MiningSoftware/python-jsonrpc/jsonrpc/json.py:184-198 | with exponent mark and sign there must be digits on both sides |
| `JsonReading.FloatEnds` | ICARUS-LX150/MiningSoftware/python-jsonrpc/jsonrpc/json.py:173-198 | the same for a float that ends the source |
| `JsonReading.ExponentEnds` | ICARUS-LX150/MiningSoftware/python-jsonrpc/jsonrpc/json.py:173-198 | the same for an exponent that ends the source, after its mark, its sign or its digits |
| `JsonReading.KeywordLiteral` | ICARUS-LX150/MiningSoftware/python-jsonrpc/jsonrpc/json.py:200-209 | which sources that begin with t, f or n hold a keyword, and that all others are rejected |
| `JsonRoundTrip.LayoutFed` | ICARUS-LX150/MiningSoftware/python-jsonrpc/jsonrpc/json.py:129-226 | the parser on laid-out tokens is the stack machine fed with the lexemes one by one |
| `JsonRoundTrip.ValueFed` | ICARUS-LX150/MiningSoftware/python-jsonrpc/jsonrpc/json.py:157-166 | feeding the tokens of a value to the machine, on any stack, has the effect of placing the finished value on that stack |
| `JsonRoundTrip.ItemsFed` | ICARUS-LX150/MiningSoftware/python-jsonrpc/jsonrpc/json.py:213-217 | the tokens of list elements extend the list on top of the stack by their values |
| `JsonRoundTrip.EntriesFed` | ICARUS-LX150/MiningSoftware/python-jsonrpc/jsonrpc/json.py:218-222 | the tokens of key and value pairs store the pairs in the dictionary on top of the stack |
| `JsonRoundTrip.TokensApart` | ICARUS-LX150/MiningSoftware/python-jsonrpc/jsonrpc/json.py:173-198 | no integer token of a printed value is followed directly by a token that could continue the number |
| `JsonRoundTrip.EscapedTextRead` | ICARUS-LX150/MiningSoftware/python-jsonrpc/jsonrpc/json.py:137-156 | reading an escaped string back gives the string, whatever its code points (section 2.5 of RFC 4627) |
| `JsonRoundTrip.IntRead` | ICARUS-LX150/MiningSoftware/python-jsonrpc/jsonrpc/json.py:169-198 | the decimal print of an integer of any size, followed by something that ends a number, reads as that integer |
| `JsonRoundTrip.LastIntRead` | ICARUS-LX150/MiningSoftware/python-jsonrpc/jsonrpc/json.py:169-198 | an integer with nothing behind it reads as itself exactly when it has a sign or more than one digit |
| `JsonData.StoredIsTheMap` | ICARUS-LX150/MiningSoftware/python-jsonrpc/jsonrpc/json.py:222 | with distinct keys every order of storing gives the same map: each key has its own value and no other key appears |
| `JsonData.StoredLast` | ICARUS-LX150/MiningSoftware/python-jsonrpc/jsonrpc/json.py:222 | a key that comes again is bound anew, and nothing else changes |
| `JsonParser.ReadString` | ICARUS-LX150/MiningSoftware/python-jsonrpc/jsonrpc/json.py:137-156 | the in-place string loop stops behind the closing quote with the text of the string, or fails as specified |
| `JsonParser.ReadNumber` | ICARUS-LX150/MiningSoftware/python-jsonrpc/jsonrpc/json.py:169-198 | the digit loops give the specified number, the character read in advance and the position, also at the end of the source |
| `JsonParser.ReadKeyword` | ICARUS-LX150/MiningSoftware/python-jsonrpc/jsonrpc/json.py:200-209 | keywords are recognised as specified |
| `JsonParser.Loads` | ICARUS-LX150/MiningSoftware/python-jsonrpc/jsonrpc/json.py:123-228 | the loop over one stack, one pending character and an iterator gives the specified result on every source, and ends: characters left plus one for a pending character decrease |
| `TelnetCodec.FrameRoundTrip` | ICARUS-LX150/MiningSoftware/pyserial-2.6/serial/rfc2217.py:663-721 | a data block, option command or sub-negotiation decodes to exactly itself if and only if it is well formed (negotiation verb; com-port code that is not IAC, which the sender leaves unescaped) |
| `TelnetCodec.StreamRoundTrip` | ICARUS-LX150/MiningSoftware/pyserial-2.6/serial/rfc2217.py:663-721 | any interleaving of well-formed frames, split into receive chunks anyhow, decodes to the same data bytes and commands in the same order |
| `TelnetCodec.StreamDecoded` | ICARUS-LX150/MiningSoftware/pyserial-2.6/serial/rfc2217.py:578 | the concatenated encodings of frames decode to the concatenated meanings and leave the decoder idle |
| `TelnetCodec.ChunksIrrelevant` | ICARUS-LX150/MiningSoftware/pyserial-2.6/serial/rfc2217.py:663-721 | decoding chunk by chunk equals decoding the joined bytes |
| `TelnetCodec.DecodedJoin` | ICARUS-LX150/MiningSoftware/pyserial-2.6/serial/rfc2217.py:671-719 | decoding a joined stream is decoding its parts one after the other |
| `TelnetCodec.DataDecoded` | ICARUS-LX150/MiningSoftware/pyserial-2.6/serial/rfc2217.py:578 | doubled data decodes to the data |
| `TelnetCodec.ComPortDecoded` | ICARUS-LX150/MiningSoftware/pyserial-2.6/serial/rfc2217.py:799-802 | a sub-negotiation with any value bytes, IAC included, decodes to that suboption |
| `TelnetCodec.OptionCommandDecoded` | ICARUS-LX150/MiningSoftware/pyserial-2.6/serial/rfc2217.py:795-797 | a three-byte option command decodes to one negotiation if and only if its verb is DO, DONT, WILL or WONT |
| `TelnetCodec.UnescapedCodeLost` | ICARUS-LX150/MiningSoftware/pyserial-2.6/serial/rfc2217.py:799-802 | a sub-negotiation whose code is IAC never arrives, whatever its value |
| `TelnetCodec.StreamPieces` | ICARUS-LX150/MiningSoftware/pyserial-2.6/serial/rfc2217.py:671-719 | byte by byte: what data, a doubled 255, 255 with a verb from 251 to 254, 255 250, 255 240 and every other pair mean, inside a sub-negotiation and outside |
| `TelnetCodec.FrameBytes` | ICARUS-LX150/MiningSoftware/pyserial-2.6/serial/rfc2217.py:795-802 | the bytes of an option command and of a sub-negotiation; data without 255 goes out as it is |
| `TelnetEndpoints.DoubledAt` | ICARUS-LX150/MiningSoftware/pyserial-2.6/serial/rfc2217.py:578 | every 255 in data goes out twice |
| `TelnetEndpoints.Client.TelnetReadLoop` | ICARUS-LX150/MiningSoftware/pyserial-2.6/serial/rfc2217.py:663-721 | the read loop hands on exactly the decoded events of the chunks received before the connection is lost |
| `TelnetEndpoints.LostConnection` | ICARUS-LX150/MiningSoftware/pyserial-2.6/serial/rfc2217.py:667-680 | those events are the decoded bytes received before the first empty chunk |
| `TelnetEndpoints.PortManager.Filter` | ICARUS-LX150/MiningSoftware/pyserial-2.6/serial/rfc2217.py:997-1053 | one call of the filter continues the decoder from the state the fields hold and yields its events |
| `TelnetEndpoints.PortManager.Escape` | ICARUS-LX150/MiningSoftware/pyserial-2.6/serial/rfc2217.py:981-995 | the byte-wise escape is the doubling of IAC that the client uses |
| `TelnetEndpoints.BothDecoders` | ICARUS-LX150/MiningSoftware/pyserial-2.6/serial/rfc2217.py:663-1053 | read loop and filter produce the same events on every stream, however it is received |
| `TelnetOptions.Negotiation` | ICARUS-LX150/MiningSoftware/pyserial-2.6/serial/rfc2217.py:254-288 | whichever side may receive before it has sent its requests: at most one message per option and direction from each side; at quiescence both machines of a pair are active exactly when both sides have the option and one requested it, for every option that not both requested, and for all options when no side receives early |
| `TelnetOptions.RunsEnd` | ICARUS-LX150/MiningSoftware/pyserial-2.6/serial/rfc2217.py:735-752 | every interleaving is at most 3(|a|+|b|) steps long and stops only at quiescence, racy startup or not |
| `TelnetOptions.OneMessageEach` | ICARUS-LX150/MiningSoftware/pyserial-2.6/serial/rfc2217.py:254-288 | in every reachable state each side has sent at most one message per option and direction |
| `TelnetOptions.QuiescentLink` | ICARUS-LX150/MiningSoftware/pyserial-2.6/serial/rfc2217.py:254-288 | what every pair of machines looks like at quiescence, including an option both requested while one side received early |
| `TelnetOptions.InvNext` | ICARUS-LX150/MiningSoftware/pyserial-2.6/serial/rfc2217.py:735-752 | every startup or delivery step keeps the invariant of all pairs of machines and the messages between them |
| `TelnetOptions.LinkDeliverOk` | ICARUS-LX150/MiningSoftware/pyserial-2.6/serial/rfc2217.py:254-288 | a delivery keeps the invariant of one pair |
| `TelnetOptions.RaceLoses` | ICARUS-LX150/MiningSoftware/pyserial-2.6/serial/rfc2217.py:419-427 | if both sides request an option and the client may receive before it sent its requests, some interleaving ends with the client active and the server not |
| `TelnetOptions.AgreementCondition` | ICARUS-LX150/MiningSoftware/pyserial-2.6/serial/rfc2217.py:419-427 | with such a client all completed negotiations agree if and only if no option is requested by both sides |
| `TelnetOptions.AskedIsAgreed` | ICARUS-LX150/MiningSoftware/pyserial-2.6/serial/rfc2217.py:254-288 | an option both have and exactly one requests ends active on both sides, racy startup or not |
| `TelnetOptions.MachineFollowsPeer` | ICARUS-LX150/MiningSoftware/pyserial-2.6/serial/rfc2217.py:254-288 | after any sequence of commands a machine is active exactly when the last one that concerns it was positive, whatever it requested |
| `TelnetOptions.MachineAnswers` | ICARUS-LX150/MiningSoftware/pyserial-2.6/serial/rfc2217.py:254-288 | what it answers to the next command, in bytes: agreement to what it has neither asked for nor agreed to, refusal when an active option is withdrawn, otherwise nothing |
| `TelnetOptions.RefusesAlways` | ICARUS-LX150/MiningSoftware/pyserial-2.6/serial/rfc2217.py:254-288 | a machine that is really inactive never changes and refuses every request |
| `TelnetOptions.UnknownDenied` | ICARUS-LX150/MiningSoftware/pyserial-2.6/serial/rfc2217.py:746-750 | requests for an unknown option are denied, in bytes, and its withdrawals are passed over |
| `TelnetNegotiator.TelnetOption.ProcessIncoming` | ICARUS-LX150/MiningSoftware/pyserial-2.6/serial/rfc2217.py:254-288 | one machine: new state and reply of the table |
| `TelnetNegotiator.Negotiator.NegotiateOption` | ICARUS-LX150/MiningSoftware/pyserial-2.6/serial/rfc2217.py:735-752 | the forwarding loop updates every matching machine, sends all replies in order, and denies an unknown option once |
| `TelnetNegotiator.Negotiator.SendInitialRequests` | ICARUS-LX150/MiningSoftware/pyserial-2.6/serial/rfc2217.py:425-427 | an uninterrupted walk sends one request per machine that starts REQUESTED, in order |
| `TelnetNegotiator.StartsAreRequests` | ICARUS-LX150/MiningSoftware/pyserial-2.6/serial/rfc2217.py:425-427 | the startup steps of the two-endpoint system, taken in a row, put exactly those requests on the wire and change nothing else |
| `TelnetNegotiator.Negotiator.Start` | ICARUS-LX150/MiningSoftware/pyserial-2.6/serial/rfc2217.py:425-427 | the walk at its next machine is one startup step of the system, whatever has been received before |
| `TelnetNegotiator.Negotiator.Receive` | ICARUS-LX150/MiningSoftware/pyserial-2.6/serial/rfc2217.py:735-752 | the forwarding loop is one delivery step of the system, also in the middle of the walk |
| `TelnetNegotiator.MandatoryOptionsAgreed` | ICARUS-LX150/MiningSoftware/pyserial-2.6/serial/rfc2217.py:385-396 | the shipped client and server always end with BINARY and COM-PORT active on both sides in the direction of the client, which is what `open` waits for |
| `TelnetNegotiator.EchoCanDisagree` | ICARUS-LX150/MiningSoftware/pyserial-2.6/serial/rfc2217.py:899-914 | the shipped client and server can end with ECHO active on the client only |
| `TelnetNegotiator.ShippedRequests` | ICARUS-LX150/MiningSoftware/pyserial-2.6/serial/rfc2217.py:385-427 | the requests the shipped client and server send at startup, in bytes and in order |
| `TelnetNegotiator.ShippedAgreements` | ICARUS-LX150/MiningSoftware/pyserial-2.6/serial/rfc2217.py:899-914 | what they agree to although they do not ask for it, in bytes |
| `ComPortSettings.SettingsSettle` | ICARUS-LX150/MiningSoftware/pyserial-2.6/serial/rfc2217.py:308-348 | any interleaving of sets, deliveries and verdicts: once all answers are delivered a setting is ACTIVE exactly when the port holds the last requested value and rejected exactly when it does not |
| `ComPortSettings.DeliveriesEnd` | ICARUS-LX150/MiningSoftware/pyserial-2.6/serial/rfc2217.py:1086-1139 | no message is ever stuck, and deliveries without new sets end |
| `ComPortSettings.RequestServed` | ICARUS-LX150/MiningSoftware/pyserial-2.6/serial/rfc2217.py:1086-1139 | an accepted request is taken over exactly, a rejected one leaves the old value, the other settings stay, and the answer says what the port holds |
| `ComPortSettings.BaudRateServed` | ICARUS-LX150/MiningSoftware/pyserial-2.6/serial/rfc2217.py:1086-1139 | the bytes 44 1 and four more, most significant first, set the baud rate and are answered by 101; a port that fails keeps the old rate and says so |
| `ComPortSettings.DataSizeServed` | ICARUS-LX150/MiningSoftware/pyserial-2.6/serial/rfc2217.py:1086-1139 | 44 2 n sets the byte size for n from 5 to 8 only, and is answered by 102 |
| `ComPortSettings.ParityServed` | ICARUS-LX150/MiningSoftware/pyserial-2.6/serial/rfc2217.py:1086-1139 | 44 3 n sets the n-th of five parities and is answered by 103; another n is an error |
| `ComPortSettings.StopSizeServed` | ICARUS-LX150/MiningSoftware/pyserial-2.6/serial/rfc2217.py:1086-1139 | 44 4 n sets one, two or one and a half stop bits and is answered by 104; another n is an error |
| `ComPortSettings.OthersNotServed` | ICARUS-LX150/MiningSoftware/pyserial-2.6/serial/rfc2217.py:1086-1139 | exactly which suboptions are no setting, and that a short value is an error |
| `ComPortSettings.AnswerAgrees` | ICARUS-LX150/MiningSoftware/pyserial-2.6/serial/rfc2217.py:339-348 | an answer agrees if and only if it begins with the requested value |
| `ComPortSettings.WaitsForAnswer` | ICARUS-LX150/MiningSoftware/pyserial-2.6/serial/rfc2217.py:308-348 | from a request until the first answer of its kind a setting is neither active nor rejected, whatever else happens |
| `ComPortSettings.InvNext` | ICARUS-LX150/MiningSoftware/pyserial-2.6/serial/rfc2217.py:773-777 | every step keeps the relation between the last request, the messages on the way and the verdict, for each of the four settings |
| `ComPortSettings.WordRoundTrip` | ICARUS-LX150/MiningSoftware/pyserial-2.6/serial/rfc2217.py:465 | packing a 32-bit baud rate in network order and unpacking it gives it back |
| `ComPortSettings.FramesArrive` | ICARUS-LX150/MiningSoftware/pyserial-2.6/serial/rfc2217.py:799-802 | requests and answers on the way, escaped and decoded, arrive as just the suboptions the two sides process |
| `ComPortSettings.SerialPort.ProcessSubnegotiation` | ICARUS-LX150/MiningSoftware/pyserial-2.6/serial/rfc2217.py:1086-1139 | the handler with its backup and restore serves every suboption as specified, also when the port stored a value before failing |
| `ComPortSettings.TelnetSubnegotiation.CheckAnswer` | ICARUS-LX150/MiningSoftware/pyserial-2.6/serial/rfc2217.py:339-348 | an answer that begins with the requested value activates, any other one rejects |
| `Merkle.StratumMatchesTemplate` | experimental/Ztex-1-15y/cgminer-3.1.1/cgminer.c:5428-5439 | with the siblings computed for any other coinbase, the stratum fold gives the root of the whole tree, for every hash and every number of transactions |
| `Merkle.FoldIsRoot` | experimental/Ztex-1-15y/cgminer-3.1.1/cgminer.c:5432-5439 | folding leaf 0 with its siblings is the root of the tree |
| `Merkle.BranchIgnoresLeaf` | experimental/Ztex-1-15y/cgminer-3.1.1/cgminer.c:5432-5439 | the siblings do not depend on the coinbase |
| `Merkle.BranchLength` | experimental/Ztex-1-15y/cgminer-3.1.1/cgminer.c:5432 | the branch is as long as the tree is deep |
| `Merkle.OddLastLeafDoubled` | experimental/Ztex-1-15y/cgminer-3.1.1/cgminer.c:1632-1635 | repeating an odd last leaf does not change the root |
| `Merkle.RootOfHalves` | experimental/Ztex-1-15y/cgminer-3.1.1/cgminer.c:1631-1643 | the root combines, in this order, the root of a full left half and the root of the right half, raised to its height by combining it with itself |
| `Merkle.HalveInPlace` | experimental/Ztex-1-15y/cgminer-3.1.1/cgminer.c:1636-1641 | the in-place pass writes exactly the parents of the old level in front; no node is overwritten before it is read |
| `Merkle.NextLevel` | experimental/Ztex-1-15y/cgminer-3.1.1/cgminer.c:1631-1643 | one round of the loop leaves the level above in the first slots, inside the buffer |
| `Merkle.GbtMerkleRoot` | experimental/Ztex-1-15y/cgminer-3.1.1/cgminer.c:1616-1645 | slot 0 ends as the recursive root with duplicated odd nodes; count + 2 slots are enough; the loop ends |
| `Merkle.StratumMerkleRoot` | experimental/Ztex-1-15y/cgminer-3.1.1/cgminer.c:5428-5439 | the loop is the fold over the branch |
| `Merkle.SameRootBothWays` | experimental/Ztex-1-15y/cgminer-3.1.1/cgminer.c:1616-1645 | both loops give the same root on the same template |
| `PoolRegistry.RegistryKept` | experimental/Ztex-1-15y/cgminer-3.1.1/cgminer.c:486-511 | every sequence of add, switch, enable, disable, reject, idle and allowed remove keeps pool i at place i, the priorities a permutation, the current pool listed and the count of enabled pools right |
| `PoolRegistry.EnabledCountIsNumber` | experimental/Ztex-1-15y/cgminer-3.1.1/cgminer.c:2281-2303 | the count of enabled pools is the number of pools that are POOL_ENABLED |
| `PoolRegistry.SwitchedFields` | experimental/Ztex-1-15y/cgminer-3.1.1/cgminer.c:3449-3509 | a switch changes no field of a pool but its priority, and that only when a pool is selected |
| `PoolRegistry.FailoverChoice` | experimental/Ztex-1-15y/cgminer-3.1.1/cgminer.c:3440-3482 | on the fields: the failover-style strategies switch to the pool of least priority among those that are POOL_ENABLED and not idle, or keep the current one if there is none |
| `PoolRegistry.RoundRobinChoice` | experimental/Ztex-1-15y/cgminer-3.1.1/cgminer.c:3440-3502 | on the fields: without a selected pool, or with an idle one, the cycling strategies go to the next pool by number that is POOL_ENABLED and not idle, or stay if there is none |
| `PoolRegistry.SelectedChosen` | experimental/Ztex-1-15y/cgminer-3.1.1/cgminer.c:3440-3489 | a selected pool that is POOL_ENABLED and not idle becomes current under every strategy, the cycling ones ask only that it is not idle, and its priority is 0 from then on |
| `PoolRegistry.PromotedAllOk` | experimental/Ztex-1-15y/cgminer-3.1.1/cgminer.c:3459-3468 | moving the selected pool to priority 0 keeps the permutation and the order of the others |
| `PoolRegistry.LoweredPrios` | experimental/Ztex-1-15y/cgminer-3.1.1/cgminer.c:3913-3918 | taking one pool out of the order closes the gap and keeps the order of the others |
| `PoolRegistry.RemovedOk` | experimental/Ztex-1-15y/cgminer-3.1.1/cgminer.c:3908-3929 | removal keeps the registry right and the current pool current |
| `PoolRegistry.RemovedKeepsOthers` | experimental/Ztex-1-15y/cgminer-3.1.1/cgminer.c:3920-3928 | every other pool stays, only its number and priority may move up |
| `PoolList.Pools.AddPool` | experimental/Ztex-1-15y/cgminer-3.1.1/cgminer.c:486-511 | a new last pool, disabled, not idle, last in priority; the rest unchanged |
| `PoolList.Pools.EnablePool` | experimental/Ztex-1-15y/cgminer-3.1.1/cgminer.c:2281-2287 | enables one pool and counts it only if it was not enabled |
| `PoolList.Pools.DisablePool` | experimental/Ztex-1-15y/cgminer-3.1.1/cgminer.c:2290-2295 | disables one pool and uncounts it only if it was enabled |
| `PoolList.Pools.RejectPool` | experimental/Ztex-1-15y/cgminer-3.1.1/cgminer.c:2298-2303 | marks one pool rejecting and uncounts it only if it was enabled |
| `PoolList.Pools.PriorityPool` | experimental/Ztex-1-15y/cgminer-3.1.1/cgminer.c:3416-3435 | the first pool with the priority, or the fallback |
| `PoolList.PrioHeld` | experimental/Ztex-1-15y/cgminer-3.1.1/cgminer.c:3428-3431 | with the priorities a permutation the fallback is never taken |
| `PoolList.Pools.SwitchPools` | experimental/Ztex-1-15y/cgminer-3.1.1/cgminer.c:3440-3509 | the whole new registry after a switch, and on the pool objects: under the failover-style strategies the current pool is one of least priority among the enabled ones that are not idle, or the old one; a selected pool that is not idle is current under the cycling ones |
| `PoolList.Pools.Promote` | experimental/Ztex-1-15y/cgminer-3.1.1/cgminer.c:3459-3468 | the in-place priority loop promotes the selected pool although its own priority is the bound of the loop |
| `PoolList.Pools.RemovePool` | experimental/Ztex-1-15y/cgminer-3.1.1/cgminer.c:3908-3929 | the last pool fills the hole, the order closes, and exactly the removed pool is gone |
| `PoolSelection.EachExactlyOnce` | experimental/Ztex-1-15y/cgminer-3.1.1/cgminer.c:2640-2671 | as many consecutive rotating selections as there are workable pools return each of them exactly once, wherever the rotation stood |
| `PoolSelection.ScanNextInRank` | experimental/Ztex-1-15y/cgminer-3.1.1/cgminer.c:2656-2665 | a rotation finds the workable pool next in rank, cyclically, even from a stale out-of-range place |
| `PoolSelection.RotatedWorkable` | experimental/Ztex-1-15y/cgminer-3.1.1/cgminer.c:2656-2670 | rotation returns a workable pool whenever there is one, otherwise the current pool |
| `PoolSelection.SpreadKept` | experimental/Ztex-1-15y/cgminer-3.1.1/cgminer.c:2619-2637 | the spread of shares over workable and current pools never exceeds the larger of 1 and what it was |
| `PoolSelection.BalanceEvensOut` | experimental/Ztex-1-15y/cgminer-3.1.1/cgminer.c:2619-2637 | as many balanced selections as the pools together lack to the fullest one leave all of them with exactly its shares |
| `PoolSelection.LowestHasLeast` | experimental/Ztex-1-15y/cgminer-3.1.1/cgminer.c:2603-2637 | on the fields: the balanced choice is the current pool or one that is POOL_ENABLED, not idle and not on a dead stratum connection, and has no more shares than the current one or any such pool |
| `PoolSelection.RotatedIsWorkable` | experimental/Ztex-1-15y/cgminer-3.1.1/cgminer.c:2603-2670 | on the fields: rotation returns such a pool whenever there is one, otherwise the current pool |
| `PoolSelection.Selector.SelectBalanced` | experimental/Ztex-1-15y/cgminer-3.1.1/cgminer.c:2619-2637 | the scan returns the first pool of least shares, counts one share on it and changes nothing else |
| `PoolSelection.Selector.SelectPool` | experimental/Ztex-1-15y/cgminer-3.1.1/cgminer.c:2603-2671 | which pool is selected and what becomes of the rotation and the shares, under every strategy, and what the selected pool is on the fields |
| `WorkRolling.TimesDistinct` | experimental/Ztex-1-15y/cgminer-3.1.1/cgminer.c:3086-3130 | over any sequence of calls all works of one upstream work carry different times; the master has more rolls than every clone, an even number of at most 7000, equal to its advance in time |
| `WorkRolling.CalledOk` | experimental/Ztex-1-15y/cgminer-3.1.1/cgminer.c:5316-5346 | every call keeps the family: clones strictly increasing in rolls and behind the master |
| `WorkRolling.LoopOk` | experimental/Ztex-1-15y/cgminer-3.1.1/cgminer.c:5327-5337 | the loop of `clone_work` keeps the family although the clone in hand may carry the time of the master |
| `WorkRolling.RollsDistinguish` | experimental/Ztex-1-15y/cgminer-3.1.1/cgminer.c:3033-3050 | different rolls are different 32-bit times in spite of wrap-around |
| `WorkRolling.OneClone` | experimental/Ztex-1-15y/cgminer-3.1.1/cgminer.c:3027-3130 | a call for a clone gives one if and only if the work is not from stratum, has a pool and a roll time, is no clone and has less than 7000 rolls; the clone is one second on and looks a second older, the work is two seconds on |
| `WorkRolling.RollsOfRequests` | experimental/Ztex-1-15y/cgminer-3.1.1/cgminer.c:3027-3130 | any sequence of calls rolls a rollable work twice for each allowed one, up to 7000 rolls, and another work never |
| `WorkRolling.LoopClones` | experimental/Ztex-1-15y/cgminer-3.1.1/cgminer.c:5327-5337 | how often the cloning loop goes round, exactly, which times and fields its clones have and what is left of the work |
| `WorkRolling.Work.RollWork` | experimental/Ztex-1-15y/cgminer-3.1.1/cgminer.c:3033-3050 | one roll advances time and rolls by one |
| `WorkRolling.CloneAvailableOf` | experimental/Ztex-1-15y/cgminer-3.1.1/cgminer.c:3103-3130 | rolls the first rollable staged work twice around one clone, or does nothing |
| `WorkRolling.CloneWorkOf` | experimental/Ztex-1-15y/cgminer-3.1.1/cgminer.c:5316-5346 | what is staged, in which order, and what is returned |
| `StagedQueue.QueueKept` | experimental/Ztex-1-15y/cgminer-3.1.1/cgminer.c:3548-3566 | after any sequence of pushes, pops, discards, pool clears and freezes the queue is sorted, `staged_rollable` is the number of rollable items plus exactly the ones lost without being counted down, and a pop finds an item |
| `StagedQueue.PopChoice` | experimental/Ztex-1-15y/cgminer-3.1.1/cgminer.c:5281-5311 | a pop takes the first and oldest clone or work that may not be rolled exactly when there are more of those than the count has lost, otherwise the first and oldest item, and nothing else leaves the queue |
| `StagedQueue.PushFields` | experimental/Ztex-1-15y/cgminer-3.1.1/cgminer.c:3787-3813 | a push counts a work with a roll time that is no clone, frozen or not, and puts it behind those staged in the same second, unless the queue is frozen |
| `StagedQueue.LeftItems` | experimental/Ztex-1-15y/cgminer-3.1.1/cgminer.c:3548-3566 | a removal leaves exactly the items that are not stale, or of other pools, in their order |
| `StagedQueue.MasterPoppedBeforeClone` | experimental/Ztex-1-15y/cgminer-3.1.1/cgminer.c:4866-4880 | a run of four operations after which a pop takes a master although a clone waits, because a cleared master is still counted |
| `StagedQueue.PopFinds` | experimental/Ztex-1-15y/cgminer-3.1.1/cgminer.c:5290-5299 | the search of `hash_pop` in a queue that is not empty always finds an item |
| `StagedQueue.StableSortedKeeps` | experimental/Ztex-1-15y/cgminer-3.1.1/cgminer.c:3805-3806 | re-sorting keeps the items and the order of those staged in the same second |
| `StagedQueue.StableSortUnique` | experimental/Ztex-1-15y/cgminer-3.1.1/cgminer.c:3787-3790 | nothing but the stable sort does that, so the algorithm behind HASH_SORT does not matter |
| `StagedQueue.LeftOk` | experimental/Ztex-1-15y/cgminer-3.1.1/cgminer.c:4866-4880 | taking items out keeps the order and turns the rollable ones among them into lost ones |
| `StagedQueue.StagedWork.HashPush` | experimental/Ztex-1-15y/cgminer-3.1.1/cgminer.c:3797-3813 | the new queue after a push, counted even when the queue is frozen |
| `StagedQueue.StagedWork.HashPop` | experimental/Ztex-1-15y/cgminer-3.1.1/cgminer.c:5281-5311 | the popped item and the queue without it; an empty queue makes it wait, or go on without an item when it is frozen |
| `StagedQueue.StagedWork.DiscardStale` | experimental/Ztex-1-15y/cgminer-3.1.1/cgminer.c:3548-3566 | the loop that deletes while iterating removes exactly the stale items |
| `StagedQueue.StagedWork.ClearPoolWork` | experimental/Ztex-1-15y/cgminer-3.1.1/cgminer.c:4866-4880 | the loop removes exactly the items of the pool |
| `ShareAccounts.Conservation` | experimental/Ztex-1-15y/cgminer-3.1.1/cgminer.c:3296-3412 | per pool, over any interleaving: submissions started = accepted + rejected + stale + in their threads + in the stratum table |
| `ShareAccounts.SsharesExact` | experimental/Ztex-1-15y/cgminer-3.1.1/cgminer.c:4809-4817 | `sshares` equals the table entries of the pool if and only if as many of its shares were answered on foreign connections as foreign shares on its own |
| `ShareAccounts.SsharesIsTable` | experimental/Ztex-1-15y/cgminer-3.1.1/cgminer.c:4809-4817 | `sshares` equals the table entries when every answer comes on the connection of the issuing pool |
| `ShareAccounts.TotalsOfHistory` | experimental/Ztex-1-15y/cgminer-3.1.1/cgminer.c:2311-2373 | the four counters of a pool are sums over the history: good and bad answers about its shares, its shares discarded, given up, gone stale and cleared, and its shares entered in the table less those answered on its connection and cleared |
| `ShareAccounts.InTableIsEntries` | experimental/Ztex-1-15y/cgminer-3.1.1/cgminer.c:4838-4864 | what is counted as in the table is the number of table entries of the pool |
| `ShareAccounts.NextTable` | experimental/Ztex-1-15y/cgminer-3.1.1/cgminer.c:3353-3356 | every step keeps the table exactly the submissions waiting in it, under ids that belong to one submission each |
| `ShareAccounts.NextCounts` | experimental/Ztex-1-15y/cgminer-3.1.1/cgminer.c:2311-2373 | every step keeps the counters of every pool exact |
| `ShareOutcomes.EarlyAnswerLost` | experimental/Ztex-1-15y/cgminer-3.1.1/cgminer.c:3349-3361 | in every run, an entered share that is answered once and whose pool is not cleared afterwards stays in the table if and only if its answer came before it was entered; otherwise the answer is counted |
| `ShareOutcomes.AnswerCounts` | experimental/Ztex-1-15y/cgminer-3.1.1/cgminer.c:4811-4829 | in every state an answer is counted for its submission if and only if the share is in the table; otherwise it changes nothing |
| `ShareOutcomes.EnteredOutcome` | experimental/Ztex-1-15y/cgminer-3.1.1/cgminer.c:4809-4862 | in every run the fate of an entered share is decided by the first answer with its id or the first clearing of its pool after it was entered, and by nothing before |
| `ShareOutcomes.StaysInTable` | experimental/Ztex-1-15y/cgminer-3.1.1/cgminer.c:4811-4817 | an entered share is still in the table if and only if neither has happened since |
| `ShareOutcomes.FinishedStays` | experimental/Ztex-1-15y/cgminer-3.1.1/cgminer.c:2311-2373 | a submission that was counted is never touched again |
| `ShareOutcomes.EarlyAnswerHappens` | experimental/Ztex-1-15y/cgminer-3.1.1/cgminer.c:3349-3361 | a run of four steps from the beginning that ends with an answered share in the table and no counter aware of it |
| `ShareOutcomes.ForeignAnswerHappens` | experimental/Ztex-1-15y/cgminer-3.1.1/cgminer.c:4809-4817 | a run of four steps from the beginning that ends with `sshares` at -1 for one pool and 1 for another, and no share in the table |
| `ShareAccounts.Accounts.SubmitWork` | experimental/Ztex-1-15y/cgminer-3.1.1/cgminer.c:3296-3334 | a submission starts discarded, on the stratum way with a fresh id, or on the upstream way |
| `ShareAccounts.Accounts.StratumSent` | experimental/Ztex-1-15y/cgminer-3.1.1/cgminer.c:3349 | the message is out, the share not yet in the table |
| `ShareAccounts.Accounts.StratumEntered` | experimental/Ztex-1-15y/cgminer-3.1.1/cgminer.c:3353-3356 | the share is in the table under its id and `sshares` counts it |
| `ShareAccounts.Accounts.Stales` | experimental/Ztex-1-15y/cgminer-3.1.1/cgminer.c:3380-3404 | a submission that is given up or has gone stale is counted stale on its pool |
| `ShareAccounts.Accounts.Step` | experimental/Ztex-1-15y/cgminer-3.1.1/cgminer.c:3296-3412 | every step of the accounts is carried out by these methods, and keeps the table right |
| `ShareAccounts.Accounts.ShareResult` | experimental/Ztex-1-15y/cgminer-3.1.1/cgminer.c:2311-2373 | the result is counted on the pool of the work |
| `ShareAccounts.Accounts.ParseStratumResponse` | experimental/Ztex-1-15y/cgminer-3.1.1/cgminer.c:4809-4829 | an answer with a known id ends that submission; one with an unknown id changes nothing |
| `ShareAccounts.Accounts.ClearStratumShares` | experimental/Ztex-1-15y/cgminer-3.1.1/cgminer.c:4838-4864 | the deleting loop turns exactly the table entries of the pool into stale shares |
| `CgLock.Exclusion` | experimental/Ztex-1-15y/cgminer-3.1.1/miner.h:762-819 | in every reachable state of any number of threads a writer excludes readers, intermediates and writers, an intermediate excludes intermediates and writers, and the write holder owns the mutex |
| `CgLock.HeldIsCalled` | experimental/Ztex-1-15y/cgminer-3.1.1/miner.h:776-819 | in every reachable state each thread holds of mutex, readers and writers what the calls it has made say, whatever the other threads do |
| `CgLock.CallsTake` | experimental/Ztex-1-15y/cgminer-3.1.1/miner.h:777-819 | `cg_wlock` ends with the write lock and the mutex, `cg_rlock` with the read lock alone, `cg_ilock` with the mutex alone, an upgrade like `cg_wlock`, a downgrade like `cg_rlock`, and nothing is held after the unlock |
| `CgLock.NothingInTheWay` | experimental/Ztex-1-15y/cgminer-3.1.1/miner.h:777-808 | with the mutex free a thread gets the read lock, the intermediate lock and a downgrade without waiting, other readers or not, and without readers the write lock and an upgrade |
| `CgLock.InvStep` | experimental/Ztex-1-15y/cgminer-3.1.1/miner.h:776-819 | every atomic step keeps who holds what |
| `CgLock.ReadLockNeverBlocks` | experimental/Ztex-1-15y/cgminer-3.1.1/miner.h:777-808 | the read lock inside `cg_rlock` and `cg_dlock` never blocks |
| `CgLock.ReadersOnlyLeave` | experimental/Ztex-1-15y/cgminer-3.1.1/miner.h:797-801 | while a writer with the mutex waits, no step of another thread adds a reader |
| `CgLock.WriterGetsIn` | experimental/Ztex-1-15y/cgminer-3.1.1/miner.h:797-801 | the reader set only shrinks, and after as many exits as there were readers the write lock is free |
| `CgLock.WriterWaitsBounded` | experimental/Ztex-1-15y/cgminer-3.1.1/miner.h:777-819 | while a writer of n threads waits with the mutex, the others make at most 2(n-1) real moves, after all but one of them the write lock is free, and until then some reader can leave |
| `CgLock.NoDeadlock` | experimental/Ztex-1-15y/cgminer-3.1.1/miner.h:777-819 | whenever a thread is not idle, some thread that is not idle can move |
| `CgLock.CgLockUsers.Advance` | experimental/Ztex-1-15y/cgminer-3.1.1/miner.h:763-819 | the step of one thread on the lock, or none exactly when it blocks |
| `IcarusTiming.LeastSquares` | experimental/Ztex-1-15y/cgminer-3.1.1/driver-icarus.c:112-119 | unless all Xi are equal, the fitted line misses the points by less than every other line |
| `IcarusTiming.DenominatorPositive` | experimental/Ztex-1-15y/cgminer-3.1.1/driver-icarus.c:1051-1053 | the denominator is never negative, and positive exactly when not all Xi are equal |
| `IcarusTiming.FitDefined` | experimental/Ztex-1-15y/cgminer-3.1.1/driver-icarus.c:1051-1053 | there is a line exactly when not all Xi are equal |
| `IcarusTiming.NoughtByNought` | experimental/Ztex-1-15y/cgminer-3.1.1/driver-icarus.c:1051-1052 | with all Xi equal both the numerator and the denominator are nought |
| `IcarusTiming.FitIsBest` | experimental/Ztex-1-15y/cgminer-3.1.1/driver-icarus.c:1051-1053 | the computed line is the unique best one of all lines, or there is none because all Xi are equal |
| `IcarusTiming.NormalEquations` | experimental/Ztex-1-15y/cgminer-3.1.1/driver-icarus.c:1051-1053 | the computed Hs and W solve the normal equations |
| `IcarusTiming.MissedMoved` | experimental/Ztex-1-15y/cgminer-3.1.1/driver-icarus.c:112-119 | how the sum of squares of any other line follows from the kept sums |
| `IcarusTiming.JoinedIsTogether` | experimental/Ztex-1-15y/cgminer-3.1.1/driver-icarus.c:1032-1048 | adding up the sums of sets gives the sums, count and range of their points together |
| `IcarusTiming.SumsOfRange` | experimental/Ztex-1-15y/cgminer-3.1.1/driver-icarus.c:1012-1015 | minimum and maximum hash count are attained bounds of the points |
| `IcarusTiming.NoPointLost` | experimental/Ztex-1-15y/cgminer-3.1.1/driver-icarus.c:998-1025 | every measured point is in exactly one set in order, and completed sets are long enough in points and in time |
| `IcarusTiming.CompletedWhenDue` | experimental/Ztex-1-15y/cgminer-3.1.1/driver-icarus.c:1017-1018 | every set is completed with the first point that gives it the needed number (5, doubled after each set to 160 at most) and lies more than 60000000 microseconds after its first one; the current set has no such point |
| `IcarusTiming.IcarusInfo.Collect` | experimental/Ztex-1-15y/cgminer-3.1.1/driver-icarus.c:998-1015 | the point joins the current set |
| `IcarusTiming.IcarusInfo.Shift` | experimental/Ztex-1-15y/cgminer-3.1.1/driver-icarus.c:1019-1025 | the in-place shift makes the current set the newest completed one and drops the oldest |
| `IcarusTiming.IcarusInfo.Summarise` | experimental/Ztex-1-15y/cgminer-3.1.1/driver-icarus.c:1031-1048 | the loop over the history sums up exactly the points of the last ten completed sets |
| `IcarusTiming.IcarusInfo.Estimate` | experimental/Ztex-1-15y/cgminer-3.1.1/driver-icarus.c:1049-1070 | the line, the number of values and the range of those points; the place of the current set is clear again |
| `IcarusTiming.IcarusInfo.RaiseMinimum` | experimental/Ztex-1-15y/cgminer-3.1.1/driver-icarus.c:1072-1075 | the needed number of points for the next set, or the end of timing in short mode after the fifth |
| `IcarusTiming.IcarusInfo.Measured` | experimental/Ztex-1-15y/cgminer-3.1.1/driver-icarus.c:989-1075 | after every measured work the stored line is the unique best one through the points of the last ten completed sets, if their Xi are not all equal; a new estimate is made exactly when the set is complete, with doubling of the required count and end of timing in short mode |
| `DcmControl.ReceivedPrograms` | ICARUS-LX150/dyn_pll_ctrl.v:32-119 | in every run that holds `clk_valid` during transmissions, the receiver has got for every accepted start, in order, exactly load D with OSC_MHZ, load M with the accepted speed, and GO |
| `DcmControl.ReceivedBits` | ICARUS-LX150/dyn_pll_ctrl.v:32-119 | the received commands bit by bit, for each accepted start: 1 0 and OSC_MHZ, 1 1 and the speed, least significant bit first, and 0 |
| `DcmControl.AcceptedWhenAsked` | ICARUS-LX150/dyn_pll_ctrl.v:66-74 | in every run a speed is accepted in exactly the cycles in which the controller is idle and clocked, progclk is high, a start was given in this cycle or the one before, and SPEED_MIN <= speed <= SPEED_LIMIT |
| `DcmControl.BusyLasts` | ICARUS-LX150/dyn_pll_ctrl.v:75-117 | an accepted start keeps the controller busy for 254 cycles |
| `DcmControl.DropHarmless` | ICARUS-LX150/dyn_pll_ctrl.v:50-55 | a drop of `clk_valid` leaves the receiver with exactly the accepted commands if and only if nothing is being transmitted |
| `DcmControl.InvRan` | ICARUS-LX150/dyn_pll_ctrl.v:32-119 | in every cycle the collected bits are those the state number says |
| `DcmControl.ProgrammingInjective` | ICARUS-LX150/dyn_pll_ctrl.v:94-112 | the commands determine which speeds were accepted |
| `DcmControl.ChangesOnFallingClock` | ICARUS-LX150/dyn_pll_ctrl.v:50-112 | progen and progdata change only when progclk falls |
| `DcmControl.BusyIgnoresStart` | ICARUS-LX150/dyn_pll_ctrl.v:66-76 | a start while busy has no effect on the registers but its one-cycle memory |
| `DcmControl.PulseAcceptedOnce` | ICARUS-LX150/dyn_pll_ctrl.v:66-74 | a one-cycle pulse is accepted in exactly one of two cycles, whatever the phase of progclk, if the speed is in the range, and never otherwise |
| `DcmControl.WatchdogCounts` | ICARUS-LX150/dyn_pll_ctrl.v:38-48 | over all inputs the watchdog is the number of cycles since the last one with a lock or a reset, and reset is given exactly in a cycle that finds it at 2^23 |
| `DcmControl.ResetNeedsLostLock` | ICARUS-LX150/dyn_pll_ctrl.v:38-48 | a reset is given only after 2^23 cycles without lock |
| `DcmControl.LockedNeverReset` | ICARUS-LX150/dyn_pll_ctrl.v:38-48 | a clock that is locked in some cycle of every 2^23 is never reset |
| `DcmControl.LostLockIsReset` | ICARUS-LX150/dyn_pll_ctrl.v:38-48 | a clock without lock for 2^23 + 1 cycles is reset in one of them |
| `DcmControl.WatchdogPeriod` | ICARUS-LX150/dyn_pll_ctrl.v:38-48 | without lock the watchdog counts modulo 2^23 + 1 and resets once a period |
| `DcmControl.DynPllCtrl.PosEdge` | ICARUS-LX150/dyn_pll_ctrl.v:32-120 | the nonblocking assignments of the block, last one winning, give the next register values |

## Left out

- Sockets, serial ports, threads' timing and wall-clock time: receive chunks, verdicts of the hardware, staleness and the rolling verdicts are inputs; messages between two endpoints are queues.
- The lone SE of the Telnet stream: it is an event of its own; the conversion of a missing suboption that the source then attempts is not modelled.
- The other com-port commands (control, purge, line and modem state): they follow the same frames.
- JsonParser.ReadNumber: a float is kept as its source text, so the value of a float is not modelled; nor is the printing of floats.
- JsonParser.Loads: the value of a float, as above, and the difference between byte and Unicode strings.
- JsonRoundTrip.LoadsLayout: for a top-level integer the text behind it must begin with something that ends a number, because otherwise it would be part of the number.
- TelnetOptions.Negotiation: promises nothing of an option both sides request when one of them may receive early; `QuiescentLink` and `AgreementCondition` say what happens then.
- TelnetNegotiator.Negotiator.SendInitialRequests: is not interrupted by a reception; `Start` and `Receive` are the interleaved steps.
- ComPortSettings.SerialPort.ProcessSubnegotiation: the assignment that restores the old value is taken to succeed.
- The hash functions: SHA-256 and scrypt are an arbitrary function of two slots, and a slot is one value instead of 32 bytes.
- CgLock.WriterGetsIn: the mutex and the read-write lock are atomic, and no fairness of the mutex is assumed, so a thread may wait for the mutex while others overtake it.
- PoolRegistry.RegistryKept: starts from a registry with at least one pool and a current pool; removal follows the discipline of its callers (never the current pool, disabled before).
- PoolList.Pools.SwitchPools: the clearing of staged work and the lagging flag after the switch are left out, as are the periods after which the strategies switch.
- PoolSelection.SpreadKept: the reset of the share counts every ten minutes is not modelled.
- PoolSelection.EachExactlyOnce: for a set of workable pools that does not change during the calls.
- Identities of work: ids that change with a roll, and the table's hashing; uthash.h is not part of this model, so HASH_ADD_INT is an append and HASH_SORT the stable sort.
- StagedQueue.StagedWork.HashPush: the overflow of the difference of two staging times is left out.
- ShareAccounts.Conservation: each region under one lock and each counter update is one step, the counting of an answer belongs to the step that takes it from the table, and `zero_stats` is left out.
- ShareAccounts.Accounts.ShareResult: the difficulty sums, the re-enabling of a rejecting pool and the disabling of a pool after sequential rejects are left out.
- IcarusTiming.LeastSquares: doubles are real numbers and rounding is not modelled.
- IcarusTiming.IcarusInfo.Measured: `fullnonce` and `read_count` are left out; the filter on nonces near the ends of the range and on hardware errors comes before the call; the counters do not wrap.
- DcmControl.ReceivedPrograms: what the multiplier makes of a transmission cut off by `clk_valid` is left open; the receiver samples on rising progclk as the source's comments conclude.
- Difficulty conversion, decaying averages, frequency control of other boards, byte swapping, user interfaces, configuration parsing and the platform back ends.
